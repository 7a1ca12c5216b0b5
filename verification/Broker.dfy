/** The in-process fan-out of ledger entries to live subscribers. */
module Brokers {
  import opened Runs

  const Capacity := 64

  /** Offering an entry to a subscriber that may not keep up. */
  function Offered(buffer: seq<Event>, e: Event): seq<Event> {
    if |buffer| < Capacity then buffer + [e] else buffer
  }

  // ---- the registry: run -> subscriber id -> what its channel holds --------

  type Registry = map<RunId, map<int, seq<Event>>>

  predicate In(m: Registry, run: RunId, id: int) { run in m && id in m[run] }

  /** No run is left behind with nobody subscribed to it. */
  predicate NoEmptyInnerMap(m: Registry) { forall run :: run in m ==> m[run].Keys != {} }

  function Joined(m: Registry, run: RunId, id: int): Registry {
    m[run := (if run in m then m[run] else map[])[id := []]]
  }

  function Left(m: Registry, run: RunId, id: int): Registry {
    if !In(m, run, id) then m
    else if m[run].Keys == {id} then m - {run}
    else m[run := m[run] - {id}]
  }

  function Published(m: Registry, run: RunId, e: Event): Registry {
    if run !in m then m else m[run := map id | id in m[run] :: Offered(m[run][id], e)]
  }

  lemma Member<T>(s: set<T>) returns (x: T)
    requires s != {}
    ensures x in s
  {
    assert |s| > 0;
    x :| x in s;
  }

  lemma PublishedBy(m: Registry, m': Registry, run: RunId, e: Event)
    requires run in m && m'.Keys == m.Keys && m'[run].Keys == m[run].Keys
    requires forall r :: r in m && r != run ==> m'[r] == m[r]
    requires forall i :: i in m[run] ==> m'[run][i] == Offered(m[run][i], e)
    ensures m' == Published(m, run, e)
  {
    var offered := map i | i in m[run] :: Offered(m[run][i], e);
    assert offered.Keys == m'[run].Keys;
    assert forall i :: i in offered ==> offered[i] == m'[run][i];
    assert m'[run] == offered;
    assert m' == m[run := offered];
  }

  /** The loop over a run's subscribers, with `todo` still to come. */
  ghost predicate PartlyPublished(m: Registry, m': Registry, run: RunId, e: Event, todo: set<int>) {
    && run in m && m'.Keys == m.Keys && m'[run].Keys == m[run].Keys && todo <= m[run].Keys
    && (forall r :: r in m && r != run ==> m'[r] == m[r])
    && (forall i :: i in m[run] ==> m'[run][i] == if i in todo then m[run][i] else Offered(m[run][i], e))
  }

  lemma OneMoreOffered(m: Registry, m': Registry, run: RunId, e: Event, todo: set<int>, id: int)
    requires run in m && id in todo && id in m[run] && m'.Keys == m.Keys && m'[run].Keys == m[run].Keys && todo <= m[run].Keys
    requires forall r :: r in m && r != run ==> m'[r] == m[r]
    requires forall i :: i in m[run] ==> m'[run][i] == if i in todo - {id} then m[run][i] else Offered(m[run][i], e)
    ensures PartlyPublished(m, m', run, e, todo - {id})
  {
  }

  /** Publishing registers nobody, forgets nobody, and overfills no channel. */
  lemma PublishedIn(m: Registry, run: RunId, e: Event)
    ensures forall r, i :: In(Published(m, run, e), r, i) <==> In(m, r, i)
    ensures forall r, i :: In(m, r, i) && |m[r][i]| <= Capacity ==> |Published(m, run, e)[r][i]| <= Capacity
  {
  }

  /**
   The broker. A channel is known by the id it was handed out under; `closed` are
   the channels that were closed, to which a send, or a second close, would crash
   the process.
   */
  class Broker {
    var subs: Registry
    var next: int
    var closed: set<int>

    /** Ids are fresh and unique over all runs, no registered channel is closed, and no inner map is empty. */
    ghost predicate Valid()
      reads this
    {
      && 0 <= next
      && NoEmptyInnerMap(subs)
      && (forall run, id :: In(subs, run, id) ==> 0 <= id < next && id !in closed && |subs[run][id]| <= Capacity)
      && (forall run, run', id :: In(subs, run, id) && In(subs, run', id) ==> run == run')
      && (forall id :: id in closed ==> 0 <= id < next)
    }

    constructor ()
      ensures Valid() && subs == map[] && next == 0 && closed == {}
    {
      subs, next, closed := map[], 0, {};
    }

    /** A non-blocking send on a subscriber's channel. */
    method TrySend(run: RunId, id: int, e: Event)
      requires In(subs, run, id) && id !in closed
      modifies this`subs
      ensures subs == old(subs)[run := old(subs)[run][id := Offered(old(subs)[run][id], e)]]
    {
      if |subs[run][id]| < Capacity {
        subs := subs[run := subs[run][id := subs[run][id] + [e]]];
      } else {
        assert subs[run][id := subs[run][id]] == subs[run];
      }
    }

    method Close(id: int)
      requires id !in closed
      modifies this`closed
      ensures closed == old(closed) + {id}
    {
      closed := closed + {id};
    }

    method Subscribe(run: RunId) returns (id: int)
      requires Valid()
      modifies this`subs, this`next
      ensures Valid()
      ensures id == old(next) && next == old(next) + 1
      ensures subs == Joined(old(subs), run, id)
    {
      if run !in subs { subs := subs[run := map[]]; }
      id := next;
      next := next + 1;
      subs := subs[run := subs[run][id := []]];
      assert id in subs[run].Keys;
      assert forall r, i :: In(subs, r, i) ==> (r == run && i == id) || In(old(subs), r, i);
    }

    /** The cancel function handed to a subscriber; calling it again does nothing. */
    method Unsubscribe(run: RunId, id: int)
      requires Valid()
      modifies this`subs, this`closed
      ensures Valid()
      ensures subs == Left(old(subs), run, id)
      ensures closed == old(closed) + (if In(old(subs), run, id) then {id} else {})
    {
      if run in subs {
        var m := subs[run];
        if id in m {
          assert In(subs, run, id);
          m := m - {id};
          subs := subs[run := m];
          Close(id);
        }
        if m.Keys == {} { subs := subs - {run}; }
      }
      assert forall r, i :: In(subs, r, i) ==> In(old(subs), r, i) && subs[r][i] == old(subs)[r][i] && !(r == run && i == id);
    }

    /** Every current subscriber of the run is offered the entry; nobody else is touched. */
    method Publish(run: RunId, e: Event)
      requires Valid()
      modifies this`subs
      ensures Valid()
      ensures subs == Published(old(subs), run, e)
    {
      if run in subs {
        var todo := subs[run].Keys;
        while todo != {}
          invariant PartlyPublished(old(subs), subs, run, e, todo)
          decreases todo
        {
          ghost var some := Member(todo);
          assert some in todo;
          var id :| id in todo;
          assert In(old(subs), run, id);
          TrySend(run, id, e);
          OneMoreOffered(old(subs), subs, run, e, todo, id);
          todo := todo - {id};
        }
        PublishedBy(old(subs), subs, run, e);
        PublishedIn(old(subs), run, e);
      }
    }
  }

  // ---- what follows for subscribers ----------------------------------------

  /** Leaving undoes joining: a subscriber that comes and goes leaves the registry as it was. */
  lemma LeavingUndoesJoining(m: Registry, run: RunId, id: int)
    requires NoEmptyInnerMap(m) && !In(m, run, id)
    ensures Left(Joined(m, run, id), run, id) == m
  {
    var inner := Joined(m, run, id)[run];
    if run in m {
      var other := Member(m[run].Keys);
      assert other in inner && other != id;
      assert inner - {id} == m[run];
    } else {
      assert inner.Keys == {id};
    }
  }

  /** A publish and somebody's coming or going commute: a subscriber only ever sees its own channel. */
  lemma PublishIgnoresOtherSubscribers(m: Registry, run: RunId, e: Event, run': RunId, id: int)
    requires NoEmptyInnerMap(m)
    ensures Published(Left(m, run', id), run, e) == Left(Published(m, run, e), run', id)
  {
    if run in m && run == run' && id in m[run] {
      var offered := Published(m, run, e)[run];
      assert offered.Keys == m[run].Keys;
      assert offered - {id} == map i | i in m[run] - {id} :: Offered((m[run] - {id})[i], e);
    } else if run in m {
      assert Published(m, run, e)[run].Keys == m[run].Keys;
      if In(m, run', id) { assert In(Published(m, run, e), run', id); }
    }
  }

  function PublishedAll(m: Registry, run: RunId, es: seq<Event>): Registry {
    if es == [] then m else Published(PublishedAll(m, run, es[..|es| - 1]), run, es[|es| - 1])
  }

  /** A subscriber that takes nothing off its channel finds there the first 64 entries published since it came. */
  lemma {:induction false} FirstSixtyFourAreKept(m: Registry, run: RunId, id: int, es: seq<Event>)
    ensures var m' := PublishedAll(Joined(m, run, id), run, es);
            In(m', run, id) && m'[run][id] == if |es| <= 64 then es else es[..64]
  {
    if es != [] {
      var front := es[..|es| - 1];
      FirstSixtyFourAreKept(m, run, id, front);
      assert es == front + [es[|es| - 1]];
      PublishedIn(PublishedAll(Joined(m, run, id), run, front), run, es[|es| - 1]);
    }
  }
}
