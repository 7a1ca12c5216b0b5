/**
 What the sweeper does: which alerts a sweep picks, and that over every interleaving of its
 claims with everything else it opens at most one run for an alert.
 */
module Sweeper {
  import opened Alerts
  import opened AlertKeys
  import opened Runs
  import Rules
  import I = Incidents

  // ---- which alerts a sweep picks ------------------------------------------

  datatype Pick = Pick(alert: Alert, priority: string)

  predicate Automatic(re: Rules.Pattern, c: Rules.Config, a: Alert) { Rules.Verdict(re, c, a).auto }

  /** Some alert before the n-th is automatic and has this key. */
  predicate KeySeen(re: Rules.Pattern, c: Rules.Config, alerts: seq<Alert>, n: nat, key: string)
    requires n <= |alerts|
  {
    exists m :: 0 <= m < n && Automatic(re, c, alerts[m]) && Key(alerts[m]) == key
  }

  /** The n-th alert is automatic, and the first automatic one with its key. */
  predicate FirstOfKey(re: Rules.Pattern, c: Rules.Config, alerts: seq<Alert>, n: nat)
    requires n < |alerts|
  {
    Automatic(re, c, alerts[n]) && !KeySeen(re, c, alerts, n, Key(alerts[n]))
  }

  /** Where a list says yes. */
  function Places(flags: seq<bool>): seq<nat> {
    if flags == [] then [] else Places(flags[..|flags| - 1]) + if flags[|flags| - 1] then [|flags| - 1] else []
  }

  /** What a list has there. */
  function Chosen(picks: seq<Pick>, flags: seq<bool>): seq<Pick>
    requires |picks| == |flags|
  {
    if flags == [] then []
    else
      var n := |flags| - 1;
      Chosen(picks[..n], flags[..n]) + if flags[n] then [picks[n]] else []
  }

  lemma {:induction false} PlacesHave(flags: seq<bool>, m: nat)
    ensures m in Places(flags) <==> m < |flags| && flags[m]
  {
    if flags != [] { PlacesHave(flags[..|flags| - 1], m); }
  }

  lemma {:induction false} PlacesAscend(flags: seq<bool>)
    ensures var at := Places(flags);
            (forall i, j :: 0 <= i < j < |at| ==> at[i] < at[j]) && (forall i :: 0 <= i < |at| ==> at[i] < |flags|)
  {
    if flags != [] {
      var front := flags[..|flags| - 1];
      PlacesAscend(front);
      assert Places(front) + [] == Places(front);
    }
  }

  lemma {:induction false} ChosenStandThere(picks: seq<Pick>, flags: seq<bool>)
    requires |picks| == |flags|
    ensures var at, chosen := Places(flags), Chosen(picks, flags);
            |at| == |chosen| && forall i :: 0 <= i < |at| ==> at[i] < |flags| && chosen[i] == picks[at[i]]
  {
    if flags != [] {
      var n := |flags| - 1;
      ChosenStandThere(picks[..n], flags[..n]);
      assert Places(flags[..n]) + [] == Places(flags[..n]);
      assert Chosen(picks[..n], flags[..n]) + [] == Chosen(picks[..n], flags[..n]);
    }
  }

  lemma ChosenAppended(picks: seq<Pick>, flags: seq<bool>, p: Pick, b: bool)
    requires |picks| == |flags|
    ensures Chosen(picks + [p], flags + [b]) == Chosen(picks, flags) + if b then [p] else []
  {
    assert (flags + [b])[..|flags|] == flags && (picks + [p])[..|flags|] == picks;
  }

  function Flags(re: Rules.Pattern, c: Rules.Config, alerts: seq<Alert>, n: nat): (flags: seq<bool>)
    requires n <= |alerts|
    ensures |flags| == n && forall i :: 0 <= i < n ==> flags[i] == FirstOfKey(re, c, alerts, i)
  {
    seq(n, i requires 0 <= i < n => FirstOfKey(re, c, alerts, i))
  }

  function PickAt(re: Rules.Pattern, c: Rules.Config, alerts: seq<Alert>, n: nat): Pick
    requires n < |alerts|
  {
    Pick(alerts[n], Rules.Verdict(re, c, alerts[n]).priority)
  }

  function PicksAt(re: Rules.Pattern, c: Rules.Config, alerts: seq<Alert>, n: nat): (picks: seq<Pick>)
    requires n <= |alerts|
    ensures |picks| == n && forall i :: 0 <= i < n ==> picks[i] == PickAt(re, c, alerts, i)
  {
    seq(n, i requires 0 <= i < n => PickAt(re, c, alerts, i))
  }

  /** The first automatic alert of each key among the first n, with its priority. */
  function PicksBefore(re: Rules.Pattern, c: Rules.Config, alerts: seq<Alert>, n: nat): seq<Pick>
    requires n <= |alerts|
  {
    Chosen(PicksAt(re, c, alerts, n), Flags(re, c, alerts, n))
  }

  /** The n-th alert adds its pick, or nothing. */
  lemma PicksNext(re: Rules.Pattern, c: Rules.Config, alerts: seq<Alert>, n: nat)
    requires n < |alerts|
    ensures FirstOfKey(re, c, alerts, n) ==>
              PicksBefore(re, c, alerts, n + 1) == PicksBefore(re, c, alerts, n) + [PickAt(re, c, alerts, n)]
    ensures !FirstOfKey(re, c, alerts, n) ==> PicksBefore(re, c, alerts, n + 1) == PicksBefore(re, c, alerts, n)
  {
    var picks, flags := PicksAt(re, c, alerts, n), Flags(re, c, alerts, n);
    var p, b := PickAt(re, c, alerts, n), FirstOfKey(re, c, alerts, n);
    assert PicksAt(re, c, alerts, n + 1) == picks + [p] && Flags(re, c, alerts, n + 1) == flags + [b];
    ChosenAppended(picks, flags, p, b);
    assert Chosen(picks, flags) + [] == Chosen(picks, flags);
  }

  /** The keys of the automatic alerts before the n-th. */
  function KeysBefore(re: Rules.Pattern, c: Rules.Config, alerts: seq<Alert>, n: nat): set<string>
    requires n <= |alerts|
  {
    if n == 0 then {}
    else KeysBefore(re, c, alerts, n - 1) + if Automatic(re, c, alerts[n - 1]) then {Key(alerts[n - 1])} else {}
  }

  lemma {:induction false} KeysAreSeen(re: Rules.Pattern, c: Rules.Config, alerts: seq<Alert>, n: nat, key: string)
    requires n <= |alerts|
    ensures key in KeysBefore(re, c, alerts, n) <==> KeySeen(re, c, alerts, n, key)
  {
    if n > 0 { KeysAreSeen(re, c, alerts, n - 1, key); }
  }

  method AutoPicks(re: Rules.Pattern, c: Rules.Config, alerts: seq<Alert>) returns (out: seq<Pick>)
    ensures out == PicksBefore(re, c, alerts, |alerts|)
  {
    var seen: set<string> := {};
    out := [];
    for n := 0 to |alerts|
      invariant out == PicksBefore(re, c, alerts, n) && seen == KeysBefore(re, c, alerts, n)
    {
      PicksNext(re, c, alerts, n);
      var a := alerts[n];
      var d := Rules.Decide(re, c, a);
      if !d.auto { continue; }
      var key := Key(a);
      KeysAreSeen(re, c, alerts, n, key);
      if key in seen { continue; }
      seen := seen + {key};
      out := out + [Pick(a, d.priority)];
    }
  }

  /**
   The picks stand, in order, at ascending places of the list: exactly the places of the first
   automatic alert of every key.
   */
  lemma PicksAreTheFirstOfEachKey(re: Rules.Pattern, c: Rules.Config, alerts: seq<Alert>) returns (at: seq<nat>)
    ensures var picks := PicksBefore(re, c, alerts, |alerts|);
            && |at| == |picks|
            && (forall i :: 0 <= i < |at| ==> at[i] < |alerts| && picks[i] == PickAt(re, c, alerts, at[i]))
            && (forall i, j :: 0 <= i < j < |at| ==> at[i] < at[j])
    ensures forall m: nat :: m in at <==> m < |alerts| && FirstOfKey(re, c, alerts, m)
  {
    var flags := Flags(re, c, alerts, |alerts|);
    at := Places(flags);
    PlacesAscend(flags);
    ChosenStandThere(PicksAt(re, c, alerts, |alerts|), flags);
    forall m: nat ensures m in at <==> m < |alerts| && FirstOfKey(re, c, alerts, m) { PlacesHave(flags, m); }
  }

  lemma FirstsDiffer(re: Rules.Pattern, c: Rules.Config, alerts: seq<Alert>, m: nat, n: nat)
    requires m < n < |alerts| && FirstOfKey(re, c, alerts, m) && FirstOfKey(re, c, alerts, n)
    ensures Key(alerts[m]) != Key(alerts[n])
  {
  }

  /** No two picks are the same alert. */
  lemma PicksHaveDistinctKeys(re: Rules.Pattern, c: Rules.Config, alerts: seq<Alert>, i: nat, j: nat)
    requires i < j < |PicksBefore(re, c, alerts, |alerts|)|
    ensures var picks := PicksBefore(re, c, alerts, |alerts|); Key(picks[i].alert) != Key(picks[j].alert)
  {
    var at := PicksAreTheFirstOfEachKey(re, c, alerts);
    assert at[i] in at && at[j] in at;
    FirstsDiffer(re, c, alerts, at[i], at[j]);
  }

  /** Every automatic alert's key is picked once. */
  lemma EveryAutomaticKeyIsPicked(re: Rules.Pattern, c: Rules.Config, alerts: seq<Alert>, n: nat) returns (m: nat)
    requires n < |alerts| && Automatic(re, c, alerts[n])
    ensures m <= n && FirstOfKey(re, c, alerts, m) && Key(alerts[m]) == Key(alerts[n])
  {
    m := n;
    if KeySeen(re, c, alerts, n, Key(alerts[n])) {
      var k :| 0 <= k < n && Automatic(re, c, alerts[k]) && Key(alerts[k]) == Key(alerts[n]);
      m := EveryAutomaticKeyIsPicked(re, c, alerts, k);
    }
  }

  // ---- the sweeper claims an alert once, in every interleaving --------------

  /** A claim whose Track call said "created" may go on to open one run. */
  datatype Opening = Opening(t: I.TxId, cluster: int, key: string, run: RunId)

  datatype Sweeps = Sweeps(inner: I.State, openings: seq<Opening>)

  datatype Move = Statement(step: I.Step) | Open(t: I.TxId, run: RunId)

  const NoSweeps := Sweeps(I.Init, [])

  predicate HasOpened(s: Sweeps, t: I.TxId) { exists i :: 0 <= i < |s.openings| && s.openings[i].t == t }

  predicate CanMove(s: Sweeps, m: Move) {
    match m
    case Statement(step) => I.Enabled(s.inner, step)
    case Open(t, _) =>
      && t in s.inner.txs && s.inner.txs[t].q.origin.ByRule?
      && s.inner.txs[t].phase == I.Done(true) && !HasOpened(s, t)
  }

  function Moves(s: Sweeps, m: Move): Sweeps
    requires CanMove(s, m)
  {
    match m
    case Statement(step) => s.(inner := I.Apply(s.inner, step))
    case Open(t, run) =>
      var q := s.inner.txs[t].q;
      s.(openings := s.openings + [Opening(t, q.cluster, Key(q.alert), run)])
  }

  function Run(s: Sweeps, schedule: seq<Move>): Sweeps
    decreases |schedule|
  {
    if schedule == [] then s
    else Run(if CanMove(s, schedule[0]) then Moves(s, schedule[0]) else s, schedule[1..])
  }

  predicate Creates(e: I.Tracked, t: I.TxId, cluster: int, key: string) {
    e.tx == t && e.created && e.cluster == cluster && e.key == key
  }

  predicate Recorded(h: seq<I.Tracked>, t: I.TxId, cluster: int, key: string) {
    exists i :: 0 <= i < |h| && Creates(h[i], t, cluster, key)
  }

  predicate CreatorsRecorded(s: I.State) {
    forall t :: t in s.txs && s.txs[t].phase == I.Done(true) ==>
      Recorded(s.history, t, s.txs[t].q.cluster, Key(s.txs[t].q.alert))
  }

  predicate OpeningsRecorded(s: Sweeps) {
    && (forall i :: 0 <= i < |s.openings| ==> Recorded(s.inner.history, s.openings[i].t, s.openings[i].cluster, s.openings[i].key))
    && (forall i, j :: 0 <= i < j < |s.openings| ==> s.openings[i].t != s.openings[j].t)
  }

  lemma StillRecorded(h: seq<I.Tracked>, e: I.Tracked, t: I.TxId, cluster: int, key: string)
    requires Recorded(h, t, cluster, key)
    ensures Recorded(h + [e], t, cluster, key)
  {
    var i :| 0 <= i < |h| && Creates(h[i], t, cluster, key);
    assert (h + [e])[i] == h[i];
  }

  lemma CreatorsStayRecorded(s: I.State, step: I.Step)
    requires CreatorsRecorded(s) && I.Enabled(s, step)
    ensures CreatorsRecorded(I.Apply(s, step))
  {
    var s' := I.Apply(s, step);
    forall t | t in s'.txs && s'.txs[t].phase == I.Done(true)
      ensures Recorded(s'.history, t, s'.txs[t].q.cluster, Key(s'.txs[t].q.alert))
    {
      var cluster, key := s'.txs[t].q.cluster, Key(s'.txs[t].q.alert);
      if step.Finish? {
        var e := s'.history[|s.history|];
        if step.t == t {
          assert Creates(e, t, cluster, key);
          assert (s.history + [e])[|s.history|] == e;
        } else {
          StillRecorded(s.history, e, t, cluster, key);
        }
      }
    }
  }

  lemma OpeningsStayRecorded(s: Sweeps, step: I.Step)
    requires OpeningsRecorded(s) && I.Enabled(s.inner, step)
    ensures OpeningsRecorded(Moves(s, Statement(step)))
  {
    if step.Finish? {
      var h := s.inner.history;
      var e := I.Apply(s.inner, step).history[|h|];
      forall i | 0 <= i < |s.openings|
        ensures Recorded(h + [e], s.openings[i].t, s.openings[i].cluster, s.openings[i].key)
      {
        StillRecorded(h, e, s.openings[i].t, s.openings[i].cluster, s.openings[i].key);
      }
    }
  }

  lemma {:induction false} RunKeeps(s: Sweeps, schedule: seq<Move>)
    requires I.Inv(s.inner) && CreatorsRecorded(s.inner) && OpeningsRecorded(s)
    ensures var s' := Run(s, schedule); I.Inv(s'.inner) && CreatorsRecorded(s'.inner) && OpeningsRecorded(s')
    decreases |schedule|
  {
    if schedule != [] {
      var m := schedule[0];
      if CanMove(s, m) && m.Statement? {
        I.InvStep(s.inner, m.step);
        CreatorsStayRecorded(s.inner, m.step);
        OpeningsStayRecorded(s, m.step);
      }
      RunKeeps(if CanMove(s, m) then Moves(s, m) else s, schedule[1..]);
    }
  }

  lemma {:induction false} TwoCreations(h: seq<I.Tracked>, i: nat, j: nat, cluster: int, key: string)
    requires i < j < |h| && h[i].created && h[j].created
    requires h[i].cluster == h[j].cluster == cluster && h[i].key == h[j].key == key
    ensures I.Creations(h, cluster, key) >= 2
  {
    if j < |h| - 1 {
      TwoCreations(h[..|h| - 1], i, j, cluster, key);
    } else {
      OneCreation(h[..|h| - 1], i, cluster, key);
    }
  }

  lemma {:induction false} OneCreation(h: seq<I.Tracked>, i: nat, cluster: int, key: string)
    requires i < |h| && h[i].created && h[i].cluster == cluster && h[i].key == key
    ensures I.Creations(h, cluster, key) >= 1
  {
    if i < |h| - 1 { OneCreation(h[..|h| - 1], i, cluster, key); }
  }

  lemma TwoRecords(h: seq<I.Tracked>, t: I.TxId, u: I.TxId, cluster: int, key: string)
    requires t != u && Recorded(h, t, cluster, key) && Recorded(h, u, cluster, key)
    ensures I.Creations(h, cluster, key) >= 2
  {
    var m :| 0 <= m < |h| && Creates(h[m], t, cluster, key);
    var n :| 0 <= n < |h| && Creates(h[n], u, cluster, key);
    TwoCreations(h, if m < n then m else n, if m < n then n else m, cluster, key);
  }

  /** However sweeps, acknowledgements, resolves and re-firings interleave, no alert is auto-investigated twice. */
  lemma SweeperOpensOnce(schedule: seq<Move>, i: nat, j: nat)
    requires i < j < |Run(NoSweeps, schedule).openings|
    ensures var s := Run(NoSweeps, schedule);
            s.openings[i].cluster != s.openings[j].cluster || s.openings[i].key != s.openings[j].key
  {
    RunKeeps(NoSweeps, schedule);
    var s := Run(NoSweeps, schedule);
    var a, b := s.openings[i], s.openings[j];
    assert I.CountsFor(s.inner, a.cluster, a.key);
    if a.cluster == b.cluster && a.key == b.key { TwoRecords(s.inner.history, a.t, b.t, a.cluster, a.key); }
  }
}
