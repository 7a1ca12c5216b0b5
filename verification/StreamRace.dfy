/**
 One run's ledger, its publishes and one connection, interleaved in any order.

 Entries become visible one at a time (Ledger proves they are numbered 1..n in that
 order), but each is published later, by whoever appended it, outside any lock. The
 connection subscribes, replays the table and then serves live entries. Nobody publishes the
 entry a run is created with; as nobody subscribes before it, that is a publish into nothing
 here. The history fields record what the schedule did; no step reads them.
 */
module StreamRace {
  import opened Runs
  import opened Streams
  import Brokers

  const ReplayLimit := 1000

  datatype Phase = Away | Subscribed | Serving

  datatype State = State(
    after: int,
    ledger: seq<Event>,
    pending: set<int>,        // committed, not yet published
    phase: Phase,
    buffer: seq<Event>,       // the subscriber's channel
    conn: Conn,
    // history
    replayed: seq<Event>,
    taken: seq<Event>,        // what the loop has taken off the channel, in that order
    overtook: bool,           // since the subscription, a publish went ahead of an earlier entry
    dropped: bool,            // a publish met a full channel
    truncated: bool)          // the replay failed, or stopped at its limit

  datatype Step =
    | Commit(typ: string, agent: string, payload: Payload)
    | Publish(n: int)
    | Subscribe
    | Replay(ok: bool, status: Status)
    | Deliver
    | Pause
    | Leave

  function Init(after: int): State {
    State(after, [], {}, Away, [], Conn(after, [], true), [], [], false, false, false)
  }

  /** The rows past a number, oldest first. */
  function Past(ledger: seq<Event>, after: int): seq<Event> {
    if ledger == [] then []
    else if ledger[|ledger| - 1].seqNo > after then Past(ledger[..|ledger| - 1], after) + [ledger[|ledger| - 1]]
    else Past(ledger[..|ledger| - 1], after)
  }

  function Limited(es: seq<Event>): seq<Event> { if |es| <= ReplayLimit then es else es[..ReplayLimit] }

  predicate Enabled(s: State, step: Step) {
    match step
    case Commit(_, _, _) => true
    case Publish(n) => n in s.pending && 1 <= n <= |s.ledger|
    case Subscribe => s.phase.Away?
    case Replay(_, _) => s.phase.Subscribed?
    case Deliver => s.phase.Serving? && s.conn.open && s.buffer != []
    case Pause | Leave => s.phase.Serving?
  }

  function Apply(s: State, step: Step): State
    requires Enabled(s, step)
  {
    match step
    case Commit(typ, agent, payload) =>
      var n := |s.ledger| + 1;
      s.(ledger := s.ledger + [Event(n, typ, agent, payload)], pending := s.pending + {n})
    case Publish(n) =>
      var e := s.ledger[n - 1];
      var s1 := s.(pending := s.pending - {n});
      if s.phase.Away? || !s.conn.open then s1
      else s1.(
        buffer := Brokers.Offered(s.buffer, e),
        overtook := s.overtook || exists m :: m in s.pending && m < n,
        dropped := s.dropped || |s.buffer| >= Brokers.Capacity)
    case Subscribe => s.(phase := Subscribed)
    case Replay(ok, status) =>
      var rows := if ok then Limited(Past(s.ledger, s.after)) else [];
      s.(phase := Serving, replayed := rows, conn := Begin(s.after, rows, status),
         truncated := !ok || |Past(s.ledger, s.after)| > ReplayLimit)
    case Deliver =>
      s.(buffer := s.buffer[1..], taken := s.taken + [s.buffer[0]], conn := Wake(s.conn, Live(s.buffer[0])))
    case Pause => s.(conn := Wake(s.conn, Tick))
    case Leave => s.(conn := Wake(s.conn, ClientGone))
  }

  function Exec(s: State, schedule: seq<Step>): State
    decreases |schedule|
  {
    if schedule == [] then s
    else Exec(if Enabled(s, schedule[0]) then Apply(s, schedule[0]) else s, schedule[1..])
  }

  // ---- what the connection may show ----------------------------------------

  predicate Committed(ledger: seq<Event>, e: Event) {
    1 <= e.seqNo <= |ledger| && ledger[e.seqNo - 1] == e
  }

  predicate AllCommitted(ledger: seq<Event>, es: seq<Event>) {
    forall i :: 0 <= i < |es| ==> Committed(ledger, es[i])
  }

  predicate Numbered(ledger: seq<Event>) {
    forall i :: 0 <= i < |ledger| ==> ledger[i].seqNo == i + 1
  }

  function Written(s: State): seq<Event> { Items(s.conn.out) }

  /** What a connection that got to `highest` may have written. */
  predicate Sound(ledger: seq<Event>, after: int, es: seq<Event>, highest: int) {
    && after <= highest
    && AllCommitted(ledger, es)
    && Ascending(es) && Above(after, es)
    && (forall i :: 0 <= i < |es| ==> es[i].seqNo <= highest)
  }

  ghost predicate SafeInv(s: State) {
    && Numbered(s.ledger)
    && (forall n :: n in s.pending ==> 1 <= n <= |s.ledger|)
    && AllCommitted(s.ledger, s.buffer)
    && Sound(s.ledger, s.after, Written(s), s.conn.highest)
  }

  lemma SoundGrows(ledger: seq<Event>, e: Event, after: int, es: seq<Event>, highest: int)
    requires Sound(ledger, after, es, highest)
    ensures Sound(ledger + [e], after, es, highest)
  {
  }

  /** First entry a complete answer holds is number Low + 1. */
  function Low(after: int): nat { if after < 0 then 0 else after }

  function Slice(ledger: seq<Event>, lo: nat, hi: int): seq<Event> {
    if lo <= hi <= |ledger| then ledger[lo..hi] else []
  }

  lemma SliceNext(ledger: seq<Event>, lo: nat, hi: nat, e: Event)
    requires Numbered(ledger) && lo <= hi && Committed(ledger, e) && e.seqNo == hi + 1
    ensures hi < |ledger| && Slice(ledger, lo, hi + 1) == Slice(ledger, lo, hi) + [e]
  {
  }

  lemma {:induction false} PastOfNumbered(ledger: seq<Event>, after: int)
    requires Numbered(ledger)
    ensures Past(ledger, after) == Slice(ledger, Low(after), |ledger|)
  {
    if ledger != [] {
      var front, last := ledger[..|ledger| - 1], ledger[|ledger| - 1];
      PastOfNumbered(front, after);
      assert last.seqNo == |ledger|;
      if last.seqNo > after { SliceSnoc(front, last, Low(after)); }
      assert front + [last] == ledger;
    }
  }

  lemma SliceSnoc(ledger: seq<Event>, e: Event, lo: nat)
    requires lo <= |ledger|
    ensures Slice(ledger + [e], lo, |ledger| + 1) == Slice(ledger, lo, |ledger|) + [e]
  {
  }

  lemma BeginItems(after: int, rows: seq<Event>, status: Status)
    ensures Items(Begin(after, rows, status).out) == rows
    ensures Begin(after, rows, status).highest == if rows == [] then after else rows[|rows| - 1].seqNo
  {
    ReplayItems(rows);
    ItemsAppend(ReplayFrames(rows), Done(Some(status)));
  }

  function Rows(s: State, ok: bool): seq<Event> { if ok then Limited(Past(s.ledger, s.after)) else [] }

  lemma SliceIsSound(ledger: seq<Event>, after: int, hi: nat)
    requires Numbered(ledger) && Low(after) <= hi <= |ledger|
    ensures var es := Slice(ledger, Low(after), hi);
            Sound(ledger, after, es, if es == [] then after else es[|es| - 1].seqNo)
  {
    var es := Slice(ledger, Low(after), hi);
    forall i | 0 <= i < |es|
      ensures es[i].seqNo == Low(after) + i + 1 && Committed(ledger, es[i])
    {
      assert es[i] == ledger[Low(after) + i];
    }
  }

  /** The replay is a run of the ledger starting right after `after`, and sound to show. */
  lemma RowsAreSound(s: State, ok: bool)
    requires SafeInv(s)
    ensures var rows := Rows(s, ok);
            Sound(s.ledger, s.after, rows, if rows == [] then s.after else rows[|rows| - 1].seqNo)
  {
    PastOfNumbered(s.ledger, s.after);
    var lo, n := Low(s.after), |s.ledger|;
    if ok && lo <= n {
      var hi := if n - lo <= ReplayLimit then n else lo + ReplayLimit;
      SliceIsSound(s.ledger, s.after, hi);
      assert Rows(s, ok) == Slice(s.ledger, lo, hi);
    }
  }

  /** What each step does to what has been written. */
  lemma WrittenAfter(s: State, step: Step)
    requires Enabled(s, step)
    ensures var s' := Apply(s, step);
            match step
            case Replay(ok, _) => Written(s') == Rows(s, ok)
                && s'.conn.highest == if Rows(s, ok) == [] then s.after else Rows(s, ok)[|Rows(s, ok)| - 1].seqNo
            case Deliver =>
              if s.buffer[0].seqNo > s.conn.highest
              then Written(s') == Written(s) + [s.buffer[0]] && s'.conn.highest == s.buffer[0].seqNo
              else Written(s') == Written(s) && s'.conn == s.conn
            case _ => Written(s') == Written(s) && s'.conn.highest == s.conn.highest
  {
    match step
    case Replay(ok, status) => BeginItems(s.after, Rows(s, ok), status);
    case Deliver => ItemsAfterWake(s.conn, Live(s.buffer[0]));
    case Pause => ItemsAfterWake(s.conn, Tick);
    case Leave => ItemsAfterWake(s.conn, ClientGone);
    case _ =>
  }

  lemma SafeCommit(s: State, step: Step)
    requires SafeInv(s) && step.Commit?
    ensures SafeInv(Apply(s, step))
  {
    SoundGrows(s.ledger, Apply(s, step).ledger[|s.ledger|], s.after, Written(s), s.conn.highest);
  }

  lemma SafeDeliver(s: State)
    requires SafeInv(s) && Enabled(s, Deliver)
    ensures SafeInv(Apply(s, Deliver))
  {
    WrittenAfter(s, Deliver);
  }

  lemma SafeReplay(s: State, ok: bool, status: Status)
    requires SafeInv(s) && Enabled(s, Replay(ok, status))
    ensures SafeInv(Apply(s, Replay(ok, status)))
  {
    RowsAreSound(s, ok);
    WrittenAfter(s, Replay(ok, status));
  }

  lemma SafeStep(s: State, step: Step)
    requires SafeInv(s) && Enabled(s, step)
    ensures SafeInv(Apply(s, step))
  {
    match step
    case Commit(_, _, _) => SafeCommit(s, step);
    case Deliver => SafeDeliver(s);
    case Replay(ok, status) => SafeReplay(s, ok, status);
    case _ => WrittenAfter(s, step);
  }

  lemma {:induction false} SafeExec(s: State, schedule: seq<Step>)
    requires SafeInv(s)
    ensures SafeInv(Exec(s, schedule))
    decreases |schedule|
  {
    if schedule != [] {
      if Enabled(s, schedule[0]) { SafeStep(s, schedule[0]); }
      SafeExec(if Enabled(s, schedule[0]) then Apply(s, schedule[0]) else s, schedule[1..]);
    }
  }

  /**
   Whatever order publishes, drops, replay and deliveries happen in, a connection writes
   committed entries of its run, each as it is stored, strictly upwards from `after`.
   */
  lemma StreamShowsOnlyTheLedger(after: int, schedule: seq<Step>)
    ensures var s := Exec(Init(after), schedule);
            AllCommitted(s.ledger, Written(s)) && Ascending(Written(s)) && Above(after, Written(s))
  {
    SafeExec(Init(after), schedule);
    AfterNeverChanges(Init(after), schedule);
  }

  lemma {:induction false} AfterNeverChanges(s: State, schedule: seq<Step>)
    ensures Exec(s, schedule).after == s.after
    decreases |schedule|
  {
    if schedule != [] {
      AfterNeverChanges(if Enabled(s, schedule[0]) then Apply(s, schedule[0]) else s, schedule[1..]);
    }
  }

  // ---- completeness --------------------------------------------------------

  /** How far the connection has got. */
  function Reached(s: State): int { if s.conn.highest < Low(s.after) then Low(s.after) else s.conn.highest }

  predicate InBuffer(s: State, n: int) { exists i :: 0 <= i < |s.buffer| && s.buffer[i].seqNo == n }

  /** Publishes since the subscription went out in number order, and what is unpublished comes after them. */
  ghost predicate InOrder(s: State) {
    && Ascending(s.buffer)
    && (forall i, n :: 0 <= i < |s.buffer| && n in s.pending ==> s.buffer[i].seqNo < n)
  }

  predicate Unharmed(s: State) { !s.overtook && !s.dropped && !s.truncated }

  ghost predicate CompleteInv(s: State) {
    && SafeInv(s)
    && (s.phase.Away? ==> s.buffer == [])
    && (!s.overtook ==> InOrder(s))
    && (Unharmed(s) && s.phase.Serving? ==> CaughtUp(s))
  }

  /** The connection wrote everything up to where it got, and whatever lies beyond is still on its way. */
  ghost predicate CaughtUp(s: State) {
    && Written(s) == Slice(s.ledger, Low(s.after), Reached(s))
    && (Reached(s) > Low(s.after) ==> Reached(s) <= |s.ledger|)
    && (s.conn.open ==> forall n :: Reached(s) < n <= |s.ledger| ==> n in s.pending || InBuffer(s, n))
  }

  lemma CommitKeepsComplete(s: State, step: Step)
    requires CompleteInv(s) && step.Commit?
    ensures CompleteInv(Apply(s, step))
  {
    SafeStep(s, step);
    var s' := Apply(s, step);
    if Unharmed(s) && s.phase.Serving? && s.conn.open {
      forall n | Reached(s') < n <= |s'.ledger|
        ensures n in s'.pending || InBuffer(s', n)
      {
        if n <= |s.ledger| { assert n in s.pending || InBuffer(s, n); }
      }
    }
  }

  lemma PublishKeepsOrder(s: State, n: int)
    requires SafeInv(s) && InOrder(s) && Enabled(s, Publish(n)) && !Apply(s, Publish(n)).overtook
    requires s.phase.Away? ==> s.buffer == []
    ensures InOrder(Apply(s, Publish(n)))
  {
    var s' := Apply(s, Publish(n));
    if !s.phase.Away? && s.conn.open {
      assert forall m :: m in s'.pending ==> n < m;
    }
  }

  lemma PublishKeepsComplete(s: State, n: int)
    requires CompleteInv(s) && Enabled(s, Publish(n))
    ensures CompleteInv(Apply(s, Publish(n)))
  {
    SafeStep(s, Publish(n));
    var s' := Apply(s, Publish(n));
    if !s'.overtook { PublishKeepsOrder(s, n); }
    if Unharmed(s') && s'.phase.Serving? && s'.conn.open {
      forall m | Reached(s') < m <= |s'.ledger|
        ensures m in s'.pending || InBuffer(s', m)
      {
        assert m in s.pending || InBuffer(s, m);
        if m == n {
          assert s'.buffer[|s.buffer|].seqNo == n;
        } else if InBuffer(s, m) {
          var i :| 0 <= i < |s.buffer| && s.buffer[i].seqNo == m;
          assert s'.buffer[i].seqNo == m;
        }
      }
    }
  }

  /** A whole replay reaches the end of the ledger. */
  lemma ReplayReaches(ledger: seq<Event>, after: int)
    requires Numbered(ledger)
    ensures var rows := Past(ledger, after);
            if rows == [] then |ledger| <= Low(after) else rows[|rows| - 1].seqNo == |ledger| > Low(after)
  {
    PastOfNumbered(ledger, after);
    var rows := Past(ledger, after);
    if rows != [] { assert rows[|rows| - 1] == ledger[|ledger| - 1]; }
  }

  lemma ReplayCatchesUp(s: State, status: Status)
    requires SafeInv(s) && Enabled(s, Replay(true, status)) && !Apply(s, Replay(true, status)).truncated
    ensures CaughtUp(Apply(s, Replay(true, status)))
  {
    ReplayReaches(s.ledger, s.after);
    PastOfNumbered(s.ledger, s.after);
    WrittenAfter(s, Replay(true, status));
  }

  lemma ReplayKeepsComplete(s: State, ok: bool, status: Status)
    requires CompleteInv(s) && Enabled(s, Replay(ok, status))
    ensures CompleteInv(Apply(s, Replay(ok, status)))
  {
    SafeStep(s, Replay(ok, status));
    if !Apply(s, Replay(ok, status)).truncated { ReplayCatchesUp(s, status); }
  }

  /** The next entry off the channel is either old news or exactly the next number. */
  lemma NextIsNext(s: State)
    requires CompleteInv(s) && Enabled(s, Deliver) && Unharmed(s)
    ensures s.buffer[0].seqNo <= s.conn.highest || s.buffer[0].seqNo == Reached(s) + 1
  {
    var e := s.buffer[0];
    assert Committed(s.ledger, e);
    var n := Reached(s) + 1;
    if e.seqNo > s.conn.highest {
      assert n in s.pending || InBuffer(s, n);
      if InBuffer(s, n) {
        var i :| 0 <= i < |s.buffer| && s.buffer[i].seqNo == n;
      }
    }
  }

  /** What lies beyond is still on its way after one more entry was taken. */
  lemma DeliverKeepsTheRest(s: State, n: int)
    requires CompleteInv(s) && Enabled(s, Deliver) && Unharmed(s) && Apply(s, Deliver).conn.open
    requires Reached(Apply(s, Deliver)) < n <= |s.ledger|
    ensures n in s.pending || InBuffer(Apply(s, Deliver), n)
  {
    NextIsNext(s);
    var s' := Apply(s, Deliver);
    assert n in s.pending || InBuffer(s, n);
    if InBuffer(s, n) {
      var i :| 0 <= i < |s.buffer| && s.buffer[i].seqNo == n;
      assert i > 0 && s'.buffer[i - 1].seqNo == n;
    }
  }

  /** What has been written is still the unbroken interval. */
  lemma DeliverWritesTheNext(s: State)
    requires CompleteInv(s) && Enabled(s, Deliver) && Unharmed(s)
    ensures var s' := Apply(s, Deliver);
            && Written(s') == Slice(s.ledger, Low(s.after), Reached(s'))
            && (Reached(s') > Low(s.after) ==> Reached(s') <= |s.ledger|)
  {
    WrittenAfter(s, Deliver);
    NextIsNext(s);
    var e := s.buffer[0];
    assert Committed(s.ledger, e);
    if e.seqNo > s.conn.highest { SliceNext(s.ledger, Low(s.after), Reached(s), e); }
  }

  lemma DeliverKeepsOrder(s: State)
    requires InOrder(s) && Enabled(s, Deliver)
    ensures InOrder(Apply(s, Deliver))
  {
    var s' := Apply(s, Deliver);
    assert forall i :: 0 <= i < |s'.buffer| ==> s'.buffer[i] == s.buffer[i + 1];
  }

  lemma DeliverKeepsComplete(s: State)
    requires CompleteInv(s) && Enabled(s, Deliver)
    ensures CompleteInv(Apply(s, Deliver))
  {
    SafeStep(s, Deliver);
    if !s.overtook { DeliverKeepsOrder(s); }
    var s' := Apply(s, Deliver);
    if Unharmed(s) {
      DeliverWritesTheNext(s);
      if s'.conn.open {
        forall n | Reached(s') < n <= |s'.ledger|
          ensures n in s'.pending || InBuffer(s', n)
        {
          DeliverKeepsTheRest(s, n);
        }
      }
    }
  }

  lemma CompleteStep(s: State, step: Step)
    requires CompleteInv(s) && Enabled(s, step)
    ensures CompleteInv(Apply(s, step))
  {
    match step
    case Commit(_, _, _) => CommitKeepsComplete(s, step);
    case Publish(n) => PublishKeepsComplete(s, n);
    case Subscribe =>
    case Replay(ok, status) => ReplayKeepsComplete(s, ok, status);
    case Deliver => DeliverKeepsComplete(s);
    case Pause => SafeStep(s, step); WrittenAfter(s, step);
    case Leave => SafeStep(s, step); WrittenAfter(s, step);
  }

  lemma {:induction false} CompleteExec(s: State, schedule: seq<Step>)
    requires CompleteInv(s)
    ensures CompleteInv(Exec(s, schedule))
    decreases |schedule|
  {
    if schedule != [] {
      if Enabled(s, schedule[0]) { CompleteStep(s, schedule[0]); }
      CompleteExec(if Enabled(s, schedule[0]) then Apply(s, schedule[0]) else s, schedule[1..]);
    }
  }

  /**
   When since the subscription no publish overtook an earlier entry, none met a full
   channel and the replay was whole, the connection has at every moment written an
   unbroken interval starting right after `after`.
   */
  lemma StreamIsGapless(after: int, schedule: seq<Step>)
    ensures var s := Exec(Init(after), schedule);
            Unharmed(s) && s.phase.Serving? ==> Written(s) == Slice(s.ledger, Low(after), Reached(s))
  {
    CompleteExec(Init(after), schedule);
    AfterNeverChanges(Init(after), schedule);
  }

  lemma NothingIsMissing(s: State)
    requires CompleteInv(s) && Unharmed(s) && s.phase.Serving? && s.conn.open && s.pending == {} && s.buffer == []
    ensures Written(s) == Slice(s.ledger, Low(s.after), |s.ledger|)
  {
    var n := Reached(s) + 1;
    assert n <= |s.ledger| ==> n in s.pending || InBuffer(s, n);
  }

  /**
   And once everything committed has been published and taken off the channel, an open
   connection has written every entry past `after`: what was committed between the
   subscription and the replay is neither lost nor sent twice.
   */
  lemma NothingIsLost(after: int, schedule: seq<Step>)
    ensures var s := Exec(Init(after), schedule);
            Unharmed(s) && s.phase.Serving? && s.conn.open && s.pending == {} && s.buffer == []
            ==> Written(s) == Slice(s.ledger, Low(after), |s.ledger|)
  {
    CompleteExec(Init(after), schedule);
    AfterNeverChanges(Init(after), schedule);
    var s := Exec(Init(after), schedule);
    if Unharmed(s) && s.phase.Serving? && s.conn.open && s.pending == {} && s.buffer == [] { NothingIsMissing(s); }
  }

  lemma {:induction false} Least(ns: set<int>) returns (n: int)
    requires ns != {}
    ensures n in ns && forall m :: m in ns ==> n <= m
    decreases |ns|
  {
    n := Brokers.Member(ns);
    var rest := ns - {n};
    assert forall m :: m in ns ==> m == n || m in rest;
    if rest != {} {
      var m := Least(rest);
      if m < n { n := m; }
    }
  }

  /** Delivers what is there, and otherwise publishes the earliest entry there is to publish. */
  lemma CatchUpStep(s: State) returns (step: Step)
    requires CompleteInv(s) && Unharmed(s) && s.phase.Serving? && s.conn.open && (s.pending != {} || s.buffer != [])
    ensures Enabled(s, step) && (step.Deliver? || step.Publish?)
    ensures var s' := Apply(s, step);
            && CompleteInv(s') && Unharmed(s') && s'.phase.Serving? && s'.ledger == s.ledger && s'.after == s.after
            && 2 * |s'.pending| + |s'.buffer| < 2 * |s.pending| + |s.buffer|
  {
    if s.buffer != [] {
      step := Deliver;
    } else {
      var n := Least(s.pending);
      step := Publish(n);
    }
    CompleteStep(s, step);
  }

  lemma {:induction false} CatchesUp(s: State) returns (steps: seq<Step>)
    requires CompleteInv(s) && Unharmed(s) && s.phase.Serving?
    ensures var s' := Exec(s, steps);
            && CompleteInv(s') && Unharmed(s') && s'.phase.Serving? && s'.ledger == s.ledger && s'.after == s.after
            && (s'.conn.open ==> s'.pending == {} && s'.buffer == [])
    ensures forall i :: 0 <= i < |steps| ==> steps[i].Deliver? || steps[i].Publish?
    decreases 2 * |s.pending| + |s.buffer|
  {
    if !s.conn.open || (s.pending == {} && s.buffer == []) {
      steps := [];
      assert Exec(s, []) == s;
    } else {
      var step := CatchUpStep(s);
      var rest := CatchesUp(Apply(s, step));
      steps := [step] + rest;
      assert steps[1..] == rest;
    }
  }

  /**
   And it can always come to that: from wherever an unharmed connection is, publishes and
   deliveries alone bring it to the end of the ledger, or to the entry it closes on.
   */
  lemma ConnectionsCatchUp(after: int, schedule: seq<Step>) returns (steps: seq<Step>)
    requires Unharmed(Exec(Init(after), schedule)) && Exec(Init(after), schedule).phase.Serving?
    ensures forall i :: 0 <= i < |steps| ==> steps[i].Deliver? || steps[i].Publish?
    ensures var s := Exec(Init(after), schedule);
            var s' := Exec(s, steps);
            Written(s') == Slice(s.ledger, Low(after), if s'.conn.open then |s.ledger| else Reached(s'))
  {
    CompleteExec(Init(after), schedule);
    AfterNeverChanges(Init(after), schedule);
    var s := Exec(Init(after), schedule);
    steps := CatchesUp(s);
    if Exec(s, steps).conn.open { NothingIsMissing(Exec(s, steps)); }
  }

  /** A replay that works reads the next thousand entries past `after`, and is whole when there are no more. */
  lemma ReplayReads(after: int, schedule: seq<Step>, status: Status)
    requires Exec(Init(after), schedule).phase.Subscribed?
    ensures var s := Exec(Init(after), schedule);
            var s', n := Apply(s, Replay(true, status)), |s.ledger| - Low(after);
            && s'.phase.Serving? && (s'.truncated <==> n > 1000)
            && s'.replayed == Slice(s.ledger, Low(after), if n > 1000 then Low(after) + 1000 else |s.ledger|)
  {
    SafeExec(Init(after), schedule);
    AfterNeverChanges(Init(after), schedule);
    PastOfNumbered(Exec(Init(after), schedule).ledger, after);
  }

  // ---- what harm is --------------------------------------------------------

  /** A publish to a subscriber still there that leaves an earlier entry behind or finds 64 waiting; a replay that fails or is cut short. */
  ghost predicate Harms(s: State, step: Step) {
    match step
    case Publish(n) => !s.phase.Away? && s.conn.open && ((exists m :: m in s.pending && m < n) || |s.buffer| >= 64)
    case Replay(ok, _) => !ok || |s.ledger| > Low(s.after) + 1000
    case _ => false
  }

  /** None of the steps a schedule takes does harm. */
  ghost predicate NoHarm(s: State, schedule: seq<Step>)
    decreases |schedule|
  {
    schedule == [] ||
    if Enabled(s, schedule[0]) then !Harms(s, schedule[0]) && NoHarm(Apply(s, schedule[0]), schedule[1..])
    else NoHarm(s, schedule[1..])
  }

  /** A replay has been cut short only once there was one. */
  predicate OnceReplayed(s: State) { s.truncated ==> s.phase.Serving? }

  lemma HarmStep(s: State, step: Step)
    requires SafeInv(s) && OnceReplayed(s) && Enabled(s, step)
    ensures var s' := Apply(s, step); SafeInv(s') && OnceReplayed(s') && (Unharmed(s') <==> Unharmed(s) && !Harms(s, step))
  {
    SafeStep(s, step);
    if step.Replay? { PastOfNumbered(s.ledger, s.after); }
  }

  lemma {:induction false} HarmExec(s: State, schedule: seq<Step>)
    requires SafeInv(s) && OnceReplayed(s)
    ensures Unharmed(Exec(s, schedule)) <==> Unharmed(s) && NoHarm(s, schedule)
    decreases |schedule|
  {
    if schedule != [] {
      if Enabled(s, schedule[0]) { HarmStep(s, schedule[0]); }
      HarmExec(if Enabled(s, schedule[0]) then Apply(s, schedule[0]) else s, schedule[1..]);
    }
  }

  /** A connection is unharmed exactly when no step on the way did harm. */
  lemma UnharmedMeans(after: int, schedule: seq<Step>)
    ensures Unharmed(Exec(Init(after), schedule)) <==> NoHarm(Init(after), schedule)
  {
    HarmExec(Init(after), schedule);
  }

  // ---- exactly what a reordered publish costs ------------------------------

  /** The largest number among h and the entries. */
  function Top(h: int, es: seq<Event>): int {
    if es == [] then h
    else
      var t := Top(h, es[..|es| - 1]);
      if es[|es| - 1].seqNo > t then es[|es| - 1].seqNo else t
  }

  /** The entries that exceed h and everything before them. */
  function Records(h: int, es: seq<Event>): seq<Event> {
    if es == [] then []
    else if es[|es| - 1].seqNo > Top(h, es[..|es| - 1]) then Records(h, es[..|es| - 1]) + [es[|es| - 1]]
    else Records(h, es[..|es| - 1])
  }

  predicate Distinct(es: seq<Event>) { forall i, j :: 0 <= i < j < |es| ==> es[i].seqNo != es[j].seqNo }

  lemma {:induction false} TopIsTheBound(h: int, es: seq<Event>)
    ensures h <= Top(h, es) && forall i :: 0 <= i < |es| ==> es[i].seqNo <= Top(h, es)
    ensures Top(h, es) == h || exists i :: 0 <= i < |es| && es[i].seqNo == Top(h, es)
  {
    if es != [] {
      var front := es[..|es| - 1];
      TopIsTheBound(h, front);
      assert forall i :: 0 <= i < |front| ==> es[i] == front[i];
    }
  }

  /** An entry is a record exactly when it exceeds h and nothing larger came before it. */
  lemma {:induction false} RecordIff(h: int, es: seq<Event>, i: nat)
    requires Distinct(es) && i < |es|
    ensures es[i] in Records(h, es) <==> es[i].seqNo > h && forall j :: 0 <= j < i ==> es[j].seqNo < es[i].seqNo
  {
    var front := es[..|es| - 1];
    TopIsTheBound(h, front);
    RecordsAreEntries(h, front);
    assert forall j :: 0 <= j < |front| ==> es[j] == front[j];
    if i < |front| {
      RecordIff(h, front, i);
      assert es[|es| - 1] != es[i];
    }
  }

  lemma {:induction false} RecordsAreEntries(h: int, es: seq<Event>)
    ensures forall e :: e in Records(h, es) ==> e in es
  {
    if es != [] {
      RecordsAreEntries(h, es[..|es| - 1]);
      assert forall e :: e in es[..|es| - 1] ==> e in es;
    }
  }

  /** Where the live part starts: the last replayed number, or `after`. */
  function ReplayHigh(s: State): int {
    if s.replayed == [] then s.after else s.replayed[|s.replayed| - 1].seqNo
  }

  /** What the channel accepted since the subscription, in publish order. */
  function Accepted(s: State): seq<Event> { s.taken + s.buffer }

  /** Entries are accepted at most once each, after they were committed. */
  ghost predicate AcceptedOnce(s: State) {
    && Distinct(Accepted(s))
    && (forall i :: 0 <= i < |Accepted(s)| ==> Accepted(s)[i].seqNo !in s.pending)
    && AllCommitted(s.ledger, Accepted(s))
  }

  /** A serving connection wrote the replay, and then the records of what it took. */
  predicate WroteTheRecords(s: State) {
    s.phase.Serving? ==>
      && Written(s) == s.replayed + Records(ReplayHigh(s), s.taken)
      && s.conn.highest == Top(ReplayHigh(s), s.taken)
  }

  /** The replay is an interval of the ledger right after `after`. */
  predicate ReplayedInterval(s: State) {
    |s.replayed| > 0 ==>
      Low(s.after) + |s.replayed| <= |s.ledger| && s.replayed == Slice(s.ledger, Low(s.after), Low(s.after) + |s.replayed|)
  }

  ghost predicate HistoryInv(s: State) {
    && SafeInv(s)
    && (s.phase.Away? ==> s.buffer == [])
    && (!s.phase.Serving? ==> s.taken == [] && s.replayed == [])
    && AcceptedOnce(s)
    && WroteTheRecords(s)
    && ReplayedInterval(s)
  }

  /** Nothing new was accepted, and nothing that was committed or published is so no longer. */
  lemma AcceptedStays(s: State, s': State)
    requires AcceptedOnce(s) && Accepted(s') == Accepted(s) && s.ledger <= s'.ledger
    requires forall n :: n in s'.pending ==> n in s.pending || n > |s.ledger|
    ensures AcceptedOnce(s')
  {
    forall i | 0 <= i < |Accepted(s)|
      ensures Accepted(s)[i].seqNo !in s'.pending && Committed(s'.ledger, Accepted(s)[i])
    {
      assert Committed(s.ledger, Accepted(s)[i]);
    }
  }

  lemma IntervalStays(s: State, s': State)
    requires ReplayedInterval(s) && s.ledger <= s'.ledger && s'.replayed == s.replayed && s'.after == s.after
    ensures ReplayedInterval(s')
  {
    if s.replayed != [] {
      var lo := Low(s.after);
      assert s'.ledger[lo..lo + |s.replayed|] == s.ledger[lo..lo + |s.replayed|];
    }
  }

  lemma CommitKeepsHistory(s: State, step: Step)
    requires HistoryInv(s) && step.Commit?
    ensures HistoryInv(Apply(s, step))
  {
    SafeStep(s, step);
    AcceptedStays(s, Apply(s, step));
    IntervalStays(s, Apply(s, step));
  }

  lemma PublishKeepsAccepted(s: State, n: int)
    requires SafeInv(s) && AcceptedOnce(s) && Enabled(s, Publish(n))
    ensures AcceptedOnce(Apply(s, Publish(n)))
  {
    var s' := Apply(s, Publish(n));
    if s'.buffer != s.buffer {
      assert Accepted(s') == Accepted(s) + [s.ledger[n - 1]];
      assert forall i :: 0 <= i < |Accepted(s)| ==> Accepted(s)[i].seqNo != n;
    } else {
      assert Accepted(s') == Accepted(s);
    }
  }

  lemma RecordsStay(s: State, s': State)
    requires WroteTheRecords(s) && s'.conn == s.conn && s'.taken == s.taken && s'.replayed == s.replayed
    requires s'.phase == s.phase && s'.after == s.after
    ensures WroteTheRecords(s')
  {
  }

  lemma PublishKeepsHistory(s: State, n: int)
    requires HistoryInv(s) && Enabled(s, Publish(n))
    ensures HistoryInv(Apply(s, Publish(n)))
  {
    SafeStep(s, Publish(n));
    PublishKeepsAccepted(s, n);
    RecordsStay(s, Apply(s, Publish(n)));
    IntervalStays(s, Apply(s, Publish(n)));
  }

  /** One more entry is a record, and the new top, exactly when it exceeds the top so far. */
  lemma RecordsGrow(h: int, es: seq<Event>, e: Event)
    ensures Records(h, es + [e]) == if e.seqNo > Top(h, es) then Records(h, es) + [e] else Records(h, es)
    ensures Top(h, es + [e]) == if e.seqNo > Top(h, es) then e.seqNo else Top(h, es)
  {
    assert (es + [e])[..|es|] == es;
  }

  lemma Regroup(x: seq<Event>, y: seq<Event>, e: Event)
    ensures x + (y + [e]) == (x + y) + [e]
  {
  }

  lemma DeliverKeepsRecords(s: State)
    requires WroteTheRecords(s) && Enabled(s, Deliver)
    ensures WroteTheRecords(Apply(s, Deliver))
  {
    WrittenAfter(s, Deliver);
    RecordsGrow(ReplayHigh(s), s.taken, s.buffer[0]);
    Regroup(s.replayed, Records(ReplayHigh(s), s.taken), s.buffer[0]);
  }

  lemma DeliverKeepsHistory(s: State)
    requires HistoryInv(s) && Enabled(s, Deliver)
    ensures HistoryInv(Apply(s, Deliver))
  {
    SafeStep(s, Deliver);
    DeliverKeepsRecords(s);
    assert Accepted(Apply(s, Deliver)) == Accepted(s);
    AcceptedStays(s, Apply(s, Deliver));
    IntervalStays(s, Apply(s, Deliver));
  }

  lemma SliceOfATail(ledger: seq<Event>, lo: nat, n: nat)
    requires lo + n <= |ledger|
    ensures Slice(ledger, lo, |ledger|)[..n] == Slice(ledger, lo, lo + n)
  {
    assert ledger[lo..][..n] == ledger[lo..lo + n];
  }

  lemma RowsAreAnInterval(s: State, ok: bool)
    requires Numbered(s.ledger) && Rows(s, ok) != []
    ensures var rows := Rows(s, ok);
            Low(s.after) + |rows| <= |s.ledger| && rows == Slice(s.ledger, Low(s.after), Low(s.after) + |rows|)
  {
    PastOfNumbered(s.ledger, s.after);
    var past, n := Past(s.ledger, s.after), |Rows(s, ok)|;
    assert past[..|past|] == past;
    assert Rows(s, ok) == past[..n];
    SliceOfATail(s.ledger, Low(s.after), n);
  }

  lemma ReplayIsRecorded(s: State, ok: bool, status: Status)
    requires Enabled(s, Replay(ok, status)) && s.taken == []
    ensures WroteTheRecords(Apply(s, Replay(ok, status)))
  {
    WrittenAfter(s, Replay(ok, status));
    assert Rows(s, ok) + [] == Rows(s, ok);
  }

  lemma ReplayIsAnInterval(s: State, ok: bool, status: Status)
    requires Numbered(s.ledger) && Enabled(s, Replay(ok, status))
    ensures ReplayedInterval(Apply(s, Replay(ok, status)))
  {
    if Rows(s, ok) != [] { RowsAreAnInterval(s, ok); }
  }

  lemma ReplayKeepsHistory(s: State, ok: bool, status: Status)
    requires HistoryInv(s) && Enabled(s, Replay(ok, status))
    ensures HistoryInv(Apply(s, Replay(ok, status)))
  {
    SafeStep(s, Replay(ok, status));
    ReplayIsRecorded(s, ok, status);
    ReplayIsAnInterval(s, ok, status);
    AcceptedStays(s, Apply(s, Replay(ok, status)));
  }

  lemma OtherStepsKeepRecords(s: State, step: Step)
    requires WroteTheRecords(s) && Enabled(s, step) && (step.Subscribe? || step.Pause? || step.Leave?)
    ensures WroteTheRecords(Apply(s, step))
  {
    WrittenAfter(s, step);
  }

  lemma OtherStepsKeepHistory(s: State, step: Step)
    requires HistoryInv(s) && Enabled(s, step) && (step.Subscribe? || step.Pause? || step.Leave?)
    ensures HistoryInv(Apply(s, step))
  {
    SafeStep(s, step);
    OtherStepsKeepRecords(s, step);
    AcceptedStays(s, Apply(s, step));
    IntervalStays(s, Apply(s, step));
  }

  lemma HistoryStep(s: State, step: Step)
    requires HistoryInv(s) && Enabled(s, step)
    ensures HistoryInv(Apply(s, step))
  {
    match step
    case Commit(_, _, _) => CommitKeepsHistory(s, step);
    case Publish(n) => PublishKeepsHistory(s, n);
    case Deliver => DeliverKeepsHistory(s);
    case Replay(ok, status) => ReplayKeepsHistory(s, ok, status);
    case _ => OtherStepsKeepHistory(s, step);
  }

  lemma {:induction false} HistoryExec(s: State, schedule: seq<Step>)
    requires HistoryInv(s)
    ensures HistoryInv(Exec(s, schedule))
    decreases |schedule|
  {
    if schedule != [] {
      if Enabled(s, schedule[0]) { HistoryStep(s, schedule[0]); }
      HistoryExec(if Enabled(s, schedule[0]) then Apply(s, schedule[0]) else s, schedule[1..]);
    }
  }

  /** The list has this entry, and no later one ahead of it. */
  predicate InTime(es: seq<Event>, e: Event) {
    exists i :: 0 <= i < |es| && es[i] == e && forall j :: 0 <= j < i ==> es[j].seqNo < e.seqNo
  }

  lemma RecordsAreInTime(h: int, es: seq<Event>, e: Event)
    requires Distinct(es) && e.seqNo > h
    ensures e in Records(h, es) <==> InTime(es, e)
  {
    if e in Records(h, es) {
      RecordsAreEntries(h, es);
      var i :| 0 <= i < |es| && es[i] == e;
      RecordIff(h, es, i);
    }
    if InTime(es, e) {
      var i :| 0 <= i < |es| && es[i] == e && forall j :: 0 <= j < i ==> es[j].seqNo < e.seqNo;
      RecordIff(h, es, i);
    }
  }

  lemma ReplayedNumbers(s: State)
    requires Numbered(s.ledger) && ReplayedInterval(s) && s.replayed != []
    ensures ReplayHigh(s) == Low(s.after) + |s.replayed| <= |s.ledger|
    ensures forall i :: 0 <= i < |s.replayed| ==>
              s.replayed[i] == s.ledger[Low(s.after) + i] && s.replayed[i].seqNo == Low(s.after) + i + 1
  {
  }

  lemma ReplayHoldsItsInterval(s: State, n: int)
    requires Numbered(s.ledger) && ReplayedInterval(s) && 1 <= n <= |s.ledger| && s.after < n
    ensures s.ledger[n - 1] in s.replayed <==> n <= ReplayHigh(s)
  {
    if s.replayed != [] {
      ReplayedNumbers(s);
      if n <= ReplayHigh(s) { assert s.replayed[n - 1 - Low(s.after)] == s.ledger[n - 1]; }
    }
  }

  lemma WrittenExactlyWhen(s: State, n: int)
    requires HistoryInv(s) && s.phase.Serving? && 1 <= n <= |s.ledger| && s.after < n
    ensures s.ledger[n - 1] in Written(s) <==> n <= ReplayHigh(s) || InTime(s.taken, s.ledger[n - 1])
  {
    var h, e := ReplayHigh(s), s.ledger[n - 1];
    ReplayHoldsItsInterval(s, n);
    assert e in s.replayed + Records(h, s.taken) <==> e in s.replayed || e in Records(h, s.taken);
    assert Distinct(s.taken) by { assert forall i :: 0 <= i < |s.taken| ==> Accepted(s)[i] == s.taken[i]; }
    if n > h { RecordsAreInTime(h, s.taken, e); }
  }

  /**
   Whatever was reordered, dropped or left out of the replay: a serving connection that has
   drained its channel has written a committed entry past `after` if and only if the replay
   reached it, or its channel accepted it and accepted no later entry ahead of it.
   */
  lemma LostExactlyWhen(after: int, schedule: seq<Step>, n: int)
    ensures var s := Exec(Init(after), schedule);
            s.phase.Serving? && s.buffer == [] && 1 <= n <= |s.ledger| && after < n ==>
              (s.ledger[n - 1] in Written(s) <==> n <= ReplayHigh(s) || InTime(Accepted(s), s.ledger[n - 1]))
  {
    HistoryExec(Init(after), schedule);
    AfterNeverChanges(Init(after), schedule);
    var s := Exec(Init(after), schedule);
    if s.phase.Serving? && s.buffer == [] && 1 <= n <= |s.ledger| && after < n {
      assert Accepted(s) == s.taken;
      WrittenExactlyWhen(s, n);
    }
  }

  /** Two appends whose publishes swap, while nothing is dropped and the replay is whole: entry 1 is lost. */
  lemma InOrderPublishingIsNecessary(e1: Step, e2: Step)
    requires e1.Commit? && e2.Commit? && e2.typ != EvStatus
    ensures var s := Exec(Init(0), [Subscribe, Replay(true, Running), e1, e2, Publish(2), Publish(1), Deliver, Deliver]);
            && !s.dropped && !s.truncated && s.conn.open && s.pending == {} && s.buffer == []
            && |s.ledger| == 2 && Written(s) == [s.ledger[1]]
  {
    var k := [Subscribe, Replay(true, Running), e1, e2, Publish(2), Publish(1), Deliver, Deliver];
    var s4 := BothCommitted(e1, e2);
    ExecStep(Init(0), k, k[1..]);
    ExecStep(Apply(Init(0), k[0]), k[1..], k[2..]);
    ExecStep(Apply(Apply(Init(0), k[0]), k[1]), k[2..], k[3..]);
    ExecStep(Apply(Apply(Apply(Init(0), k[0]), k[1]), k[2]), k[3..], k[4..]);
    assert k[4..] == [Publish(2), Publish(1), Deliver, Deliver];
    SwappedPublishes(s4, e1, e2);
  }

  /** Subscribed, replayed while the ledger was empty, and then two entries were committed. */
  function BothCommitted(e1: Step, e2: Step): State
    requires e1.Commit? && e2.Commit?
  {
    Apply(Apply(Apply(Apply(Init(0), Subscribe), Replay(true, Running)), e1), e2)
  }

  lemma SwappedPublishes(s4: State, e1: Step, e2: Step)
    requires e1.Commit? && e2.Commit? && e2.typ != EvStatus && s4 == BothCommitted(e1, e2)
    ensures var s := Exec(s4, [Publish(2), Publish(1), Deliver, Deliver]);
            && !s.dropped && !s.truncated && s.conn.open && s.pending == {} && s.buffer == []
            && |s.ledger| == 2 && Written(s) == [s.ledger[1]]
  {
    var k := [Publish(2), Publish(1), Deliver, Deliver];
    var s5 := Apply(s4, k[0]);
    var s6 := Apply(s5, k[1]);
    assert s6.buffer == [s4.ledger[1], s4.ledger[0]];
    ExecStep(s4, k, k[1..]);
    ExecStep(s5, k[1..], [Deliver, Deliver]);
    LaterThenEarlier(s6, s4.ledger[1], s4.ledger[0]);
  }

  /** Taking a later entry and then an earlier one off the channel writes only the later one. */
  lemma LaterThenEarlier(s: State, later: Event, earlier: Event)
    requires s.phase.Serving? && s.conn.open && s.conn.out == [] && s.buffer == [later, earlier]
    requires s.conn.highest < earlier.seqNo < later.seqNo && !Closes(later)
    ensures Exec(s, [Deliver, Deliver]) ==
            s.(buffer := [], taken := s.taken + [later] + [earlier], conn := Conn(later.seqNo, [Item(later)], true))
    ensures Items([Item(later)]) == [later]
  {
    var s1 := Apply(s, Deliver);
    assert s1.buffer == [earlier] && s1.conn == Conn(later.seqNo, [Item(later)], true);
    var s2 := Apply(s1, Deliver);
    assert s2.buffer == [] && s2.conn == s1.conn;
    ExecStep(s, [Deliver, Deliver], [Deliver]);
    ExecStep(s1, [Deliver], []);
    ItemsAppend([], Item(later));
    assert [] + [Item(later)] == [Item(later)];
  }

  lemma ExecStep(s: State, schedule: seq<Step>, rest: seq<Step>)
    requires schedule != [] && rest == schedule[1..] && Enabled(s, schedule[0])
    ensures Exec(s, schedule) == Exec(Apply(s, schedule[0]), rest)
  {
  }
}
