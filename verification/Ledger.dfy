/**
 The evidence ledger: any number of append transactions, interleaved at the level
 of the statements the database executes.

 Committed rows are a table of rows in commit order. A transaction begins, takes
 the advisory lock of its run, evaluates max(seq) + 1, inserts under that number
 and then commits; it may roll back at any point. The lock is keyed on a hash of
 the run, so two runs may share one. `locking` switches the lock statement off,
 which is the protocol the code's own comment warns about.
 */
module Ledger {
  import opened Runs

  type TxId = nat

  /** What a transaction wants to record. `creates` marks the one that also inserts the run row. */
  datatype Request = Request(run: RunId, creates: bool, typ: string, agent: string, payload: Payload)

  datatype Phase =
    | Begun
    | Locked
    | Numbered(n: nat)   // max(seq) + 1 has been evaluated
    | Inserted(n: nat)   // the row is written, not yet visible
    | Committed(n: nat)
    | Rejected           // the primary key (run, seq) was already taken
    | Orphaned           // the run row does not exist: the foreign key refused it
    | RolledBack

  datatype Tx = Tx(req: Request, phase: Phase)

  datatype Row = Row(run: RunId, event: Event)

  datatype State = State(
    table: seq<Row>,             // committed ledger rows, in commit order
    runs: set<RunId>,            // committed run rows
    holders: map<int, TxId>,     // lock key -> the transaction holding it
    txs: map<TxId, Tx>)

  datatype Step =
    | Begin(tx: TxId, req: Request)
    | Lock(tx: TxId)
    | Number(tx: TxId)
    | Insert(tx: TxId)
    | Commit(tx: TxId)
    | Rollback(tx: TxId)

  /** How this installation runs: the lock's hash, and whether the lock is taken at all. */
  datatype Protocol = Protocol(hash: RunId -> int, locking: bool)

  const Empty := State([], {}, map[], map[])

  // ---- the committed table -------------------------------------------------

  /** One run's committed entries, in commit order. */
  function Entries(table: seq<Row>, run: RunId): seq<Event> {
    if table == [] then []
    else if table[|table| - 1].run == run then Entries(table[..|table| - 1], run) + [table[|table| - 1].event]
    else Entries(table[..|table| - 1], run)
  }

  /** coalesce(max(seq), 0) over a run's committed rows. */
  function MaxSeq(table: seq<Row>, run: RunId): nat {
    if table == [] then 0
    else
      var rest := MaxSeq(table[..|table| - 1], run);
      var last := table[|table| - 1];
      if last.run == run && last.event.seqNo > rest then last.event.seqNo else rest
  }

  predicate Taken(table: seq<Row>, run: RunId, n: nat) {
    exists i :: 0 <= i < |table| && table[i].run == run && table[i].event.seqNo == n
  }

  predicate Unfinished(p: Phase) { p.Begun? || p.Locked? || p.Numbered? || p.Inserted? }

  predicate HoldsLock(p: Phase) { p.Locked? || p.Numbered? || p.Inserted? }

  function EventOf(r: Request, n: nat): Event { Event(n, r.typ, r.agent, r.payload) }

  // ---- steps ---------------------------------------------------------------

  predicate InFlightDuplicate(s: State, t: TxId, run: RunId, n: nat) {
    exists u :: u in s.txs && u != t && s.txs[u].req.run == run && s.txs[u].phase == Inserted(n)
  }

  /** Run ids are fresh uuids, so no two transactions create the same run. */
  predicate RunIdUsed(s: State, run: RunId) {
    run in s.runs || exists u :: u in s.txs && s.txs[u].req.creates && s.txs[u].req.run == run
  }

  predicate Enabled(p: Protocol, s: State, step: Step) {
    match step
    case Begin(t, req) =>
      && t !in s.txs
      && (req.creates ==> !RunIdUsed(s, req.run) && req.typ == EvRunQueued)
    case Lock(t) =>
      && p.locking && t in s.txs && s.txs[t].phase.Begun?
      && p.hash(s.txs[t].req.run) !in s.holders
    case Number(t) =>
      t in s.txs && (if p.locking then s.txs[t].phase.Locked? else s.txs[t].phase.Begun?)
    case Insert(t) =>
      // An insert that collides with another transaction's uncommitted row waits for it.
      && t in s.txs && s.txs[t].phase.Numbered?
      && !InFlightDuplicate(s, t, s.txs[t].req.run, s.txs[t].phase.n)
    case Commit(t) => t in s.txs && s.txs[t].phase.Inserted?
    case Rollback(t) => t in s.txs && Unfinished(s.txs[t].phase)
  }

  function SetPhase(s: State, t: TxId, ph: Phase): State
    requires t in s.txs
  {
    s.(txs := s.txs[t := s.txs[t].(phase := ph)])
  }

  /** Ending a transaction releases its lock. */
  function End(p: Protocol, s: State, t: TxId, ph: Phase): State
    requires t in s.txs
  {
    var key := p.hash(s.txs[t].req.run);
    var freed := if key in s.holders && s.holders[key] == t then s.holders - {key} else s.holders;
    SetPhase(s, t, ph).(holders := freed)
  }

  function Apply(p: Protocol, s: State, step: Step): State
    requires Enabled(p, s, step)
  {
    match step
    case Begin(t, req) => s.(txs := s.txs[t := Tx(req, Begun)])
    case Lock(t) => SetPhase(s, t, Locked).(holders := s.holders[p.hash(s.txs[t].req.run) := t])
    case Number(t) => SetPhase(s, t, Numbered(MaxSeq(s.table, s.txs[t].req.run) + 1))
    case Insert(t) =>
      var req, n := s.txs[t].req, s.txs[t].phase.n;
      if !req.creates && req.run !in s.runs then End(p, s, t, Orphaned)
      else if Taken(s.table, req.run, n) then End(p, s, t, Rejected)
      else SetPhase(s, t, Inserted(n))
    case Commit(t) =>
      var req, n := s.txs[t].req, s.txs[t].phase.n;
      End(p, s, t, Committed(n)).(
        table := s.table + [Row(req.run, EventOf(req, n))],
        runs := if req.creates then s.runs + {req.run} else s.runs)
    case Rollback(t) => End(p, s, t, RolledBack)
  }

  /** Any schedule: a step that cannot be taken where it is scheduled is simply not taken. */
  function Exec(p: Protocol, s: State, schedule: seq<Step>): State
    decreases |schedule|
  {
    if schedule == [] then s
    else Exec(p, if Enabled(p, s, schedule[0]) then Apply(p, s, schedule[0]) else s, schedule[1..])
  }

  // ---- table lemmas --------------------------------------------------------

  /** A run's entries are numbered 1..n in commit order. */
  ghost predicate Gapless(table: seq<Row>) {
    forall run: RunId :: InOrder(Entries(table, run))
  }

  predicate InOrder(es: seq<Event>) { forall i :: 0 <= i < |es| ==> es[i].seqNo == i + 1 }

  lemma {:induction false} TakenIsAnEntry(table: seq<Row>, run: RunId, n: nat)
    ensures Taken(table, run, n) <==> exists i :: 0 <= i < |Entries(table, run)| && Entries(table, run)[i].seqNo == n
  {
    if table != [] {
      var front := table[..|table| - 1];
      TakenIsAnEntry(front, run, n);
      var es, fs := Entries(table, run), Entries(front, run);
      assert Taken(table, run, n) <==>
          Taken(front, run, n) || (table[|table| - 1].run == run && table[|table| - 1].event.seqNo == n) by {
        if Taken(front, run, n) {
          var i :| 0 <= i < |front| && front[i].run == run && front[i].event.seqNo == n;
          assert table[i] == front[i];
        }
        if Taken(table, run, n) {
          var i :| 0 <= i < |table| && table[i].run == run && table[i].event.seqNo == n;
          if i < |front| { assert front[i] == table[i]; }
        }
      }
      if table[|table| - 1].run == run {
        assert forall i :: 0 <= i < |fs| ==> es[i] == fs[i];
        assert es[|fs|] == table[|table| - 1].event;
      }
    }
  }

  lemma {:induction false} MaxSeqBounds(table: seq<Row>, run: RunId)
    ensures forall i :: 0 <= i < |Entries(table, run)| ==> Entries(table, run)[i].seqNo <= MaxSeq(table, run)
    ensures MaxSeq(table, run) > 0 ==>
              exists i :: 0 <= i < |Entries(table, run)| && Entries(table, run)[i].seqNo == MaxSeq(table, run)
  {
    if table != [] {
      var front := table[..|table| - 1];
      MaxSeqBounds(front, run);
      var es, fs := Entries(table, run), Entries(front, run);
      if table[|table| - 1].run == run {
        assert forall i :: 0 <= i < |fs| ==> es[i] == fs[i];
        assert es[|fs|] == table[|table| - 1].event;
      }
    }
  }

  lemma MaxSeqOfGapless(table: seq<Row>, run: RunId)
    requires Gapless(table)
    ensures MaxSeq(table, run) == |Entries(table, run)|
  {
    MaxSeqBounds(table, run);
    var es := Entries(table, run);
    if es != [] { assert es[|es| - 1].seqNo == |es|; }
  }

  lemma EntriesAppend(table: seq<Row>, row: Row, run: RunId)
    ensures Entries(table + [row], run) ==
            if row.run == run then Entries(table, run) + [row.event] else Entries(table, run)
  {
    assert (table + [row])[..|table|] == table;
  }

  // ---- the invariant -------------------------------------------------------

  ghost predicate LockTableOk(p: Protocol, s: State) {
    && (forall t :: t in s.txs && p.locking && HoldsLock(s.txs[t].phase) ==>
          p.hash(s.txs[t].req.run) in s.holders && s.holders[p.hash(s.txs[t].req.run)] == t)
    && (forall k :: k in s.holders ==>
          s.holders[k] in s.txs && HoldsLock(s.txs[s.holders[k]].phase)
          && p.hash(s.txs[s.holders[k]].req.run) == k)
    && (!p.locking ==> s.holders == map[] && forall t :: t in s.txs ==> !s.txs[t].phase.Locked?)
  }

  /** What is true of one transaction's number relative to what has been committed for its run. */
  predicate NumberOk(p: Protocol, es: seq<Event>, tx: Tx) {
    match tx.phase
    case Numbered(n) => 1 <= n <= |es| + 1 && (p.locking ==> n == |es| + 1)
    case Inserted(n) => n == |es| + 1
    case Committed(n) => 1 <= n <= |es| && es[n - 1] == EventOf(tx.req, n)
    case Rejected => !p.locking
    case _ => true
  }

  /** What is true of one transaction relative to the run rows. */
  predicate CreationOk(runs: set<RunId>, tx: Tx) {
    && (tx.req.creates ==> tx.req.typ == EvRunQueued && (tx.req.run in runs ==> tx.phase.Committed?))
    && (tx.phase.Inserted? && !tx.req.creates ==> tx.req.run in runs)
  }

  ghost predicate NumbersOk(p: Protocol, s: State) {
    forall t :: t in s.txs ==> NumberOk(p, Entries(s.table, s.txs[t].req.run), s.txs[t])
  }

  ghost predicate CreationsOk(s: State) {
    forall t :: t in s.txs ==> CreationOk(s.runs, s.txs[t])
  }

  /** No two transactions create one run, and no two hold an uncommitted entry of one run. */
  predicate Apart(a: Tx, b: Tx) {
    a.req.run == b.req.run ==> !(a.req.creates && b.req.creates) && !(a.phase.Inserted? && b.phase.Inserted?)
  }

  ghost predicate AllApart(s: State) {
    forall t, u :: t in s.txs && u in s.txs && t != u ==> Apart(s.txs[t], s.txs[u])
  }

  predicate HasReason(runs: set<RunId>, es: seq<Event>, run: RunId) {
    (run in runs <==> es != []) && (run in runs ==> es[0].typ == EvRunQueued)
  }

  /** A run row exists exactly when its ledger does, and the ledger then starts with why it exists. */
  ghost predicate ReasonFirst(s: State) {
    forall run: RunId :: HasReason(s.runs, Entries(s.table, run), run)
  }

  ghost predicate Inv(p: Protocol, s: State) {
    && Gapless(s.table)
    && ReasonFirst(s)
    && LockTableOk(p, s)
    && NumbersOk(p, s)
    && CreationsOk(s)
    && AllApart(s)
  }

  lemma InvEmpty(p: Protocol)
    ensures Inv(p, Empty)
  {
  }

  lemma EndKeepsLocks(p: Protocol, s: State, t: TxId, ph: Phase)
    requires LockTableOk(p, s) && t in s.txs && !HoldsLock(ph)
    ensures LockTableOk(p, End(p, s, t, ph))
  {
  }

  lemma MovingOnKeepsLocks(p: Protocol, s: State, t: TxId, ph: Phase)
    requires LockTableOk(p, s) && t in s.txs && (HoldsLock(ph) && p.locking ==> HoldsLock(s.txs[t].phase))
    requires HoldsLock(s.txs[t].phase) ==> HoldsLock(ph)
    requires !ph.Locked?
    ensures LockTableOk(p, SetPhase(s, t, ph))
  {
  }

  lemma LockKeepsLocks(p: Protocol, s: State, t: TxId)
    requires LockTableOk(p, s) && Enabled(p, s, Lock(t))
    ensures LockTableOk(p, Apply(p, s, Lock(t)))
  {
  }

  lemma BeginKeepsLocks(p: Protocol, s: State, t: TxId, req: Request)
    requires LockTableOk(p, s) && Enabled(p, s, Begin(t, req))
    ensures LockTableOk(p, Apply(p, s, Begin(t, req)))
  {
  }

  lemma LocksOnly(p: Protocol, s: State, s': State)
    requires LockTableOk(p, s) && s'.holders == s.holders && s'.txs == s.txs
    ensures LockTableOk(p, s')
  {
  }

  lemma LocksKept(p: Protocol, s: State, step: Step)
    requires LockTableOk(p, s) && Enabled(p, s, step)
    ensures LockTableOk(p, Apply(p, s, step))
  {
    var s' := Apply(p, s, step);
    match step {
      case Begin(t, req) => BeginKeepsLocks(p, s, t, req);
      case Lock(t) => LockKeepsLocks(p, s, t);
      case Number(t) => MovingOnKeepsLocks(p, s, t, s'.txs[t].phase);
      case Insert(t) =>
        if s'.txs[t].phase.Inserted? {
          MovingOnKeepsLocks(p, s, t, s'.txs[t].phase);
        } else {
          EndKeepsLocks(p, s, t, s'.txs[t].phase);
        }
      case Commit(t) =>
        EndKeepsLocks(p, s, t, s'.txs[t].phase);
        LocksOnly(p, End(p, s, t, s'.txs[t].phase), s');
      case Rollback(t) => EndKeepsLocks(p, s, t, RolledBack);
    }
  }

  /** Under the lock no second transaction of the same run can be between numbering and commit. */
  lemma AloneUnderLock(p: Protocol, s: State, t: TxId, u: TxId)
    requires LockTableOk(p, s) && p.locking
    requires t in s.txs && u in s.txs && t != u
    requires HoldsLock(s.txs[t].phase) && HoldsLock(s.txs[u].phase)
    ensures s.txs[t].req.run != s.txs[u].req.run
  {
  }

  lemma BeginKeeps(p: Protocol, s: State, t: TxId, req: Request)
    requires NumbersOk(p, s) && CreationsOk(s) && AllApart(s) && Enabled(p, s, Begin(t, req))
    ensures var s' := Apply(p, s, Begin(t, req)); NumbersOk(p, s') && CreationsOk(s') && AllApart(s')
  {
    if req.creates {
      forall u | u in s.txs
        ensures Apart(s.txs[u], Tx(req, Begun)) && Apart(Tx(req, Begun), s.txs[u])
      {
        assert !(s.txs[u].req.creates && s.txs[u].req.run == req.run) by { assert !RunIdUsed(s, req.run); }
      }
    }
  }

  ghost predicate OthersApart(s: State, t: TxId, tx: Tx) {
    forall u :: u in s.txs && u != t ==> Apart(s.txs[u], tx) && Apart(tx, s.txs[u])
  }

  /** Moving one transaction to another phase keeps what is said of the others. */
  lemma OneTxMoves(p: Protocol, s: State, s': State, t: TxId, tx': Tx)
    requires NumbersOk(p, s) && CreationsOk(s) && AllApart(s) && t in s.txs
    requires s'.txs == s.txs[t := tx'] && s'.table == s.table && s'.runs == s.runs
    requires NumberOk(p, Entries(s.table, tx'.req.run), tx') && CreationOk(s.runs, tx') && OthersApart(s, t, tx')
    ensures NumbersOk(p, s') && CreationsOk(s') && AllApart(s')
  {
  }

  lemma AlreadyApart(s: State, t: TxId, tx': Tx)
    requires AllApart(s) && t in s.txs && tx'.req == s.txs[t].req
    requires tx'.phase.Inserted? ==> s.txs[t].phase.Inserted?
    ensures OthersApart(s, t, tx')
  {
    forall u | u in s.txs && u != t
      ensures Apart(s.txs[u], tx') && Apart(tx', s.txs[u])
    {
      assert Apart(s.txs[u], s.txs[t]);
    }
  }

  /** Steps of one transaction that leave the table and the run rows alone. */
  lemma PrivateStepKeeps(p: Protocol, s: State, step: Step)
    requires Gapless(s.table) && NumbersOk(p, s) && CreationsOk(s) && AllApart(s)
    requires Enabled(p, s, step) && (step.Lock? || step.Number? || step.Rollback?)
    ensures var s' := Apply(p, s, step); NumbersOk(p, s') && CreationsOk(s') && AllApart(s')
  {
    var t := step.tx;
    if step.Number? { MaxSeqOfGapless(s.table, s.txs[t].req.run); }
    var s' := Apply(p, s, step);
    AlreadyApart(s, t, s'.txs[t]);
    OneTxMoves(p, s, s', t, s'.txs[t]);
  }

  lemma InsertIsApart(p: Protocol, s: State, t: TxId, n: nat)
    requires NumbersOk(p, s) && AllApart(s) && t in s.txs
    requires n == |Entries(s.table, s.txs[t].req.run)| + 1
    requires !InFlightDuplicate(s, t, s.txs[t].req.run, n)
    ensures OthersApart(s, t, s.txs[t].(phase := Inserted(n)))
  {
    var tx' := s.txs[t].(phase := Inserted(n));
    forall u | u in s.txs && u != t
      ensures Apart(s.txs[u], tx') && Apart(tx', s.txs[u])
    {
      assert Apart(s.txs[u], s.txs[t]);
      assert NumberOk(p, Entries(s.table, s.txs[u].req.run), s.txs[u]);
    }
  }

  lemma InsertKeeps(p: Protocol, s: State, t: TxId)
    requires Gapless(s.table) && NumbersOk(p, s) && CreationsOk(s) && AllApart(s)
    requires Enabled(p, s, Insert(t))
    ensures var s' := Apply(p, s, Insert(t)); NumbersOk(p, s') && CreationsOk(s') && AllApart(s')
  {
    var s' := Apply(p, s, Insert(t));
    var run, n := s.txs[t].req.run, s.txs[t].phase.n;
    var es := Entries(s.table, run);
    assert NumberOk(p, es, s.txs[t]) && CreationOk(s.runs, s.txs[t]);
    TakenIsAnEntry(s.table, run, n);
    assert n <= |es| ==> es[n - 1].seqNo == n;
    if s'.txs[t].phase.Inserted? {
      InsertIsApart(p, s, t, n);
    } else {
      AlreadyApart(s, t, s'.txs[t]);
    }
    OneTxMoves(p, s, s', t, s'.txs[t]);
  }

  lemma CommitExtendsTheLedger(p: Protocol, s: State, t: TxId, run: RunId)
    requires Enabled(p, s, Commit(t))
    ensures var tx := s.txs[t];
            Entries(Apply(p, s, Commit(t)).table, run) ==
            if run == tx.req.run then Entries(s.table, run) + [EventOf(tx.req, tx.phase.n)] else Entries(s.table, run)
  {
    EntriesAppend(s.table, Row(s.txs[t].req.run, EventOf(s.txs[t].req, s.txs[t].phase.n)), run);
  }

  lemma NumberedAppend(es: seq<Event>, e: Event)
    requires InOrder(es) && e.seqNo == |es| + 1
    ensures InOrder(es + [e])
  {
  }

  lemma CommitKeepsRun(p: Protocol, s: State, t: TxId, run: RunId)
    requires Gapless(s.table) && ReasonFirst(s) && NumbersOk(p, s) && CreationsOk(s) && Enabled(p, s, Commit(t))
    ensures var s' := Apply(p, s, Commit(t)); InOrder(Entries(s'.table, run)) && HasReason(s'.runs, Entries(s'.table, run), run)
  {
    var tx, es := s.txs[t], Entries(s.table, run);
    assert NumberOk(p, Entries(s.table, tx.req.run), tx) && CreationOk(s.runs, tx);
    assert InOrder(es) && HasReason(s.runs, es, run);
    CommitExtendsTheLedger(p, s, t, run);
    if run == tx.req.run { NumberedAppend(es, EventOf(tx.req, tx.phase.n)); }
  }

  lemma CommitKeepsOthers(p: Protocol, s: State, t: TxId, u: TxId)
    requires LockTableOk(p, s) && NumbersOk(p, s) && CreationsOk(s) && AllApart(s) && Enabled(p, s, Commit(t))
    requires u in s.txs
    ensures var s' := Apply(p, s, Commit(t));
            NumberOk(p, Entries(s'.table, s'.txs[u].req.run), s'.txs[u]) && CreationOk(s'.runs, s'.txs[u])
  {
    CommitExtendsTheLedger(p, s, t, s.txs[u].req.run);
    assert NumberOk(p, Entries(s.table, s.txs[u].req.run), s.txs[u]) && CreationOk(s.runs, s.txs[u]);
    if u != t {
      assert Apart(s.txs[t], s.txs[u]);
      if p.locking && HoldsLock(s.txs[u].phase) { AloneUnderLock(p, s, t, u); }
    }
  }

  lemma CommitKeepsLedgers(p: Protocol, s: State, t: TxId)
    requires Gapless(s.table) && ReasonFirst(s) && NumbersOk(p, s) && CreationsOk(s) && Enabled(p, s, Commit(t))
    ensures var s' := Apply(p, s, Commit(t)); Gapless(s'.table) && ReasonFirst(s')
  {
    var s' := Apply(p, s, Commit(t));
    forall run: RunId
      ensures InOrder(Entries(s'.table, run)) && HasReason(s'.runs, Entries(s'.table, run), run)
    {
      CommitKeepsRun(p, s, t, run);
    }
  }

  lemma CommitKeepsApart(p: Protocol, s: State, t: TxId)
    requires AllApart(s) && Enabled(p, s, Commit(t))
    ensures AllApart(Apply(p, s, Commit(t)))
  {
    AlreadyApart(s, t, Apply(p, s, Commit(t)).txs[t]);
  }

  lemma CommitKeeps(p: Protocol, s: State, t: TxId)
    requires Inv(p, s) && Enabled(p, s, Commit(t))
    ensures var s' := Apply(p, s, Commit(t));
            Gapless(s'.table) && ReasonFirst(s') && NumbersOk(p, s') && CreationsOk(s') && AllApart(s')
  {
    var s' := Apply(p, s, Commit(t));
    CommitKeepsLedgers(p, s, t);
    CommitKeepsApart(p, s, t);
    forall u | u in s'.txs
      ensures NumberOk(p, Entries(s'.table, s'.txs[u].req.run), s'.txs[u]) && CreationOk(s'.runs, s'.txs[u])
    {
      CommitKeepsOthers(p, s, t, u);
    }
  }

  lemma StepKeeps(p: Protocol, s: State, step: Step)
    requires Inv(p, s) && Enabled(p, s, step)
    ensures Inv(p, Apply(p, s, step))
  {
    LocksKept(p, s, step);
    match step
    case Commit(t) => CommitKeeps(p, s, t);
    case Insert(t) => InsertKeeps(p, s, t);
    case Begin(t, req) => BeginKeeps(p, s, t, req);
    case _ => PrivateStepKeeps(p, s, step);
  }

  lemma {:induction false} ExecKeeps(p: Protocol, s: State, schedule: seq<Step>)
    requires Inv(p, s)
    ensures Inv(p, Exec(p, s, schedule))
    decreases |schedule|
  {
    if schedule != [] {
      if Enabled(p, s, schedule[0]) { StepKeeps(p, s, schedule[0]); }
      ExecKeeps(p, if Enabled(p, s, schedule[0]) then Apply(p, s, schedule[0]) else s, schedule[1..]);
    }
  }

  // ---- main results --------------------------------------------------------

  /**
   For every interleaving of any number of transactions, with any rollbacks: each
   run's ledger is exactly 1..n, in commit order, with no hole and no duplicate.
   */
  lemma LedgerIsGapless(p: Protocol, schedule: seq<Step>, run: RunId)
    ensures forall i :: 0 <= i < |Entries(Exec(p, Empty, schedule).table, run)| ==>
              Entries(Exec(p, Empty, schedule).table, run)[i].seqNo == i + 1
  {
    InvEmpty(p);
    ExecKeeps(p, Empty, schedule);
  }

  /** The number an append returned cites the very entry it asked to record. */
  lemma ReturnedNumberCitesTheEntry(p: Protocol, schedule: seq<Step>, t: TxId)
    requires t in Exec(p, Empty, schedule).txs && Exec(p, Empty, schedule).txs[t].phase.Committed?
    ensures var s := Exec(p, Empty, schedule);
            var es := Entries(s.table, s.txs[t].req.run);
            var n := s.txs[t].phase.n;
            1 <= n <= |es| && es[n - 1] == EventOf(s.txs[t].req, n)
  {
    InvEmpty(p);
    ExecKeeps(p, Empty, schedule);
    assert NumbersOk(p, Exec(p, Empty, schedule));
  }

  /** With the advisory lock, no append is ever refused for a number somebody else took. */
  lemma LockPreventsDuplicateKeys(p: Protocol, schedule: seq<Step>, t: TxId)
    requires p.locking && t in Exec(p, Empty, schedule).txs
    ensures !Exec(p, Empty, schedule).txs[t].phase.Rejected?
  {
    InvEmpty(p);
    ExecKeeps(p, Empty, schedule);
    assert NumbersOk(p, Exec(p, Empty, schedule));
  }

  /** A run never exists without the entry that says why, and that entry is number 1. */
  lemma RunNeverExistsWithoutItsReason(p: Protocol, schedule: seq<Step>, run: RunId)
    ensures var s := Exec(p, Empty, schedule);
            (run in s.runs <==> Entries(s.table, run) != [])
            && (run in s.runs ==> Entries(s.table, run)[0].typ == EvRunQueued && Entries(s.table, run)[0].seqNo == 1)
  {
    InvEmpty(p);
    ExecKeeps(p, Empty, schedule);
  }

  /** In any state the invariant describes, some unfinished transaction can move forward. */
  lemma SomeoneCanMove(p: Protocol, s: State, t: TxId) returns (u: TxId)
    requires LockTableOk(p, s) && t in s.txs && Unfinished(s.txs[t].phase)
    ensures u in s.txs && Unfinished(s.txs[u].phase)
    ensures Enabled(p, s, Lock(u)) || Enabled(p, s, Number(u)) || Enabled(p, s, Insert(u)) || Enabled(p, s, Commit(u))
  {
    u := t;
    var key := p.hash(s.txs[t].req.run);
    if p.locking && s.txs[t].phase.Begun? && key in s.holders { u := s.holders[key]; }
    if s.txs[u].phase.Numbered? {
      var v := u;
      if InFlightDuplicate(s, v, s.txs[v].req.run, s.txs[v].phase.n) {
        u :| u in s.txs && u != v && s.txs[u].req.run == s.txs[v].req.run && s.txs[u].phase == Inserted(s.txs[v].phase.n);
      }
    }
  }

  /** Whatever the schedule did, while a transaction is open one of them can move forward: the lock cannot deadlock. */
  lemma NoDeadlock(p: Protocol, schedule: seq<Step>, t: TxId)
    requires t in Exec(p, Empty, schedule).txs && Unfinished(Exec(p, Empty, schedule).txs[t].phase)
    ensures var s := Exec(p, Empty, schedule);
            exists u :: u in s.txs && Unfinished(s.txs[u].phase)
              && (Enabled(p, s, Lock(u)) || Enabled(p, s, Number(u)) || Enabled(p, s, Insert(u)) || Enabled(p, s, Commit(u)))
  {
    InvEmpty(p);
    ExecKeeps(p, Empty, schedule);
    var u := SomeoneCanMove(p, Exec(p, Empty, schedule), t);
  }

  /** What nobody else notices of it when one transaction goes on. */
  predicate OnlyMoves(s: State, s': State, t: TxId) {
    && s'.txs.Keys == s.txs.Keys && s.runs <= s'.runs
    && forall u :: u in s.txs && u in s'.txs ==> s'.txs[u].req == s.txs[u].req && (u != t ==> s'.txs[u] == s.txs[u])
  }

  /** Under the lock nobody else has an uncommitted entry of the run. */
  lemma NobodyBeside(p: Protocol, s: State, t: TxId)
    requires p.locking && LockTableOk(p, s) && t in s.txs && s.txs[t].phase.Numbered?
    ensures Enabled(p, s, Insert(t))
  {
  }

  function Rank(p: Phase): nat {
    match p
    case Begun => 4
    case Locked => 3
    case Numbered(_) => 2
    case Inserted(_) => 1
    case _ => 0
  }

  /** The next statement of a transaction that has the lock. */
  function NextOf(s: State, t: TxId): Step
    requires t in s.txs && HoldsLock(s.txs[t].phase)
  {
    match s.txs[t].phase
    case Locked => Number(t)
    case Numbered(_) => Insert(t)
    case Inserted(_) => Commit(t)
  }

  lemma NextIsEnabled(p: Protocol, s: State, t: TxId)
    requires p.locking && LockTableOk(p, s) && t in s.txs && HoldsLock(s.txs[t].phase)
    ensures Enabled(p, s, NextOf(s, t))
  {
    if s.txs[t].phase.Numbered? { NobodyBeside(p, s, t); }
  }

  /** The lock is held on, or has been given back. */
  predicate HeldOrFree(p: Protocol, s: State, t: TxId) {
    t in s.txs && (HoldsLock(s.txs[t].phase) || p.hash(s.txs[t].req.run) !in s.holders)
  }

  lemma NextMovesOn(p: Protocol, s: State, t: TxId)
    requires p.locking && t in s.txs && HoldsLock(s.txs[t].phase) && Enabled(p, s, NextOf(s, t))
    requires p.hash(s.txs[t].req.run) in s.holders && s.holders[p.hash(s.txs[t].req.run)] == t
    ensures var s' := Apply(p, s, NextOf(s, t));
            && OnlyMoves(s, s', t) && HeldOrFree(p, s', t)
            && Rank(s'.txs[t].phase) < Rank(s.txs[t].phase)
            && (s'.txs[t].phase.Orphaned? ==> !s.txs[t].req.creates && s.txs[t].req.run !in s.runs)
            && (HoldsLock(s'.txs[t].phase) || s'.txs[t].phase.Committed? || s'.txs[t].phase.Rejected? || s'.txs[t].phase.Orphaned?)
  {
  }

  lemma NobodyIsRejected(p: Protocol, s: State, t: TxId)
    requires p.locking && NumbersOk(p, s) && t in s.txs
    ensures !s.txs[t].phase.Rejected?
  {
    assert NumberOk(p, Entries(s.table, s.txs[t].req.run), s.txs[t]);
  }

  /** A transaction's request can be met: its run exists, or it brings it along. */
  predicate HasItsRun(s: State, t: TxId) { t in s.txs && (s.txs[t].req.creates || s.txs[t].req.run in s.runs) }

  lemma HolderGoesOn(p: Protocol, s: State, t: TxId)
    requires p.locking && Inv(p, s) && t in s.txs && HoldsLock(s.txs[t].phase)
    ensures Enabled(p, s, NextOf(s, t))
    ensures var s' := Apply(p, s, NextOf(s, t));
            && Inv(p, s') && OnlyMoves(s, s', t) && HeldOrFree(p, s', t)
            && Rank(s'.txs[t].phase) < Rank(s.txs[t].phase)
            && (HasItsRun(s, t) ==> HasItsRun(s', t) && (HoldsLock(s'.txs[t].phase) || s'.txs[t].phase.Committed?))
  {
    NextIsEnabled(p, s, t);
    NextMovesOn(p, s, t);
    StepKeeps(p, s, NextOf(s, t));
    NobodyIsRejected(p, Apply(p, s, NextOf(s, t)), t);
  }

  /** Where a transaction that had the lock ends, on its own. */
  predicate EndsAlone(p: Protocol, s: State, s': State, t: TxId) {
    && OnlyMoves(s, s', t)
    && t in s'.txs && p.hash(s'.txs[t].req.run) !in s'.holders
    && (HasItsRun(s, t) ==> s'.txs[t].phase.Committed?)
  }

  lemma EndsAloneBefore(p: Protocol, s: State, s1: State, s2: State, t: TxId)
    requires t in s.txs && OnlyMoves(s, s1, t) && EndsAlone(p, s1, s2, t)
    ensures EndsAlone(p, s, s2, t)
  {
  }

  /** A transaction that has the lock can finish on its own, and then nobody has it. */
  lemma {:induction false} HolderFinishes(p: Protocol, s: State, t: TxId) returns (steps: seq<Step>)
    requires p.locking && Inv(p, s) && t in s.txs && HoldsLock(s.txs[t].phase)
    ensures forall i :: 0 <= i < |steps| ==> !steps[i].Rollback?
    ensures EndsAlone(p, s, Exec(p, s, steps), t)
    decreases Rank(s.txs[t].phase)
  {
    HolderGoesOn(p, s, t);
    var s1 := Apply(p, s, NextOf(s, t));
    var rest := [];
    if HoldsLock(s1.txs[t].phase) {
      rest := HolderFinishes(p, s1, t);
      EndsAloneBefore(p, s, s1, Exec(p, s1, rest), t);
    } else {
      assert Exec(p, s1, []) == s1;
    }
    steps := [NextOf(s, t)] + rest;
    ExecStep(p, s, steps, rest);
  }

  /** An append that waits for nobody goes through. */
  lemma FreeAppendGoesThrough(p: Protocol, s: State, t: TxId) returns (steps: seq<Step>)
    requires p.locking && Inv(p, s) && t in s.txs && s.txs[t].phase.Begun? && p.hash(s.txs[t].req.run) !in s.holders
    requires s.txs[t].req.creates || s.txs[t].req.run in s.runs
    ensures forall i :: 0 <= i < |steps| ==> !steps[i].Rollback?
    ensures t in Exec(p, s, steps).txs && Exec(p, s, steps).txs[t].phase.Committed?
  {
    StepKeeps(p, s, Lock(t));
    assert HasItsRun(Apply(p, s, Lock(t)), t);
    var rest := HolderFinishes(p, Apply(p, s, Lock(t)), t);
    steps := [Lock(t)] + rest;
    ExecStep(p, s, steps, rest);
  }

  lemma {:induction false} ExecBoth(p: Protocol, s: State, a: seq<Step>, b: seq<Step>)
    ensures Exec(p, s, a + b) == Exec(p, Exec(p, s, a), b)
    decreases |a|
  {
    if a == [] {
      assert a + b == b;
    } else {
      assert (a + b)[1..] == a[1..] + b;
      ExecBoth(p, if Enabled(p, s, a[0]) then Apply(p, s, a[0]) else s, a[1..], b);
    }
  }

  /**
   Wherever a schedule has left them, an open append to a run that exists, or that it creates,
   can be committed with nobody rolled back: at most the one ahead of it has to finish first.
   */
  lemma AppendsGoThrough(p: Protocol, schedule: seq<Step>, t: TxId) returns (steps: seq<Step>)
    requires p.locking && t in Exec(p, Empty, schedule).txs && Unfinished(Exec(p, Empty, schedule).txs[t].phase)
    requires var s := Exec(p, Empty, schedule); s.txs[t].req.creates || s.txs[t].req.run in s.runs
    ensures forall i :: 0 <= i < |steps| ==> !steps[i].Rollback?
    ensures var s' := Exec(p, Exec(p, Empty, schedule), steps); t in s'.txs && s'.txs[t].phase.Committed?
  {
    InvEmpty(p);
    ExecKeeps(p, Empty, schedule);
    var s := Exec(p, Empty, schedule);
    var key := p.hash(s.txs[t].req.run);
    assert HasItsRun(s, t);
    if HoldsLock(s.txs[t].phase) {
      steps := HolderFinishes(p, s, t);
    } else if key in s.holders {
      var first := HolderFinishes(p, s, s.holders[key]);
      ExecKeeps(p, s, first);
      var rest := FreeAppendGoesThrough(p, Exec(p, s, first), t);
      ExecBoth(p, s, first, rest);
      steps := first + rest;
    } else {
      steps := FreeAppendGoesThrough(p, s, t);
    }
  }

  // ---- every entry is somebody's append ------------------------------------

  /** The committed transaction a row comes from. */
  predicate Wrote(s: State, t: TxId, row: Row) {
    t in s.txs && s.txs[t].phase.Committed? && row == Row(s.txs[t].req.run, EventOf(s.txs[t].req, s.txs[t].phase.n))
  }

  ghost predicate Written(s: State, row: Row) { exists t :: Wrote(s, t, row) }

  ghost predicate AllWritten(s: State) { forall i :: 0 <= i < |s.table| ==> Written(s, s.table[i]) }

  lemma StaysWritten(p: Protocol, s: State, step: Step, row: Row)
    requires Written(s, row) && Enabled(p, s, step)
    ensures Written(Apply(p, s, step), row)
  {
    var t :| Wrote(s, t, row);
    assert Wrote(Apply(p, s, step), t, row);
  }

  lemma CommitWrites(p: Protocol, s: State, t: TxId)
    requires Enabled(p, s, Commit(t))
    ensures var s' := Apply(p, s, Commit(t)); |s'.table| == |s.table| + 1 && Written(s', s'.table[|s.table|])
  {
    assert Wrote(Apply(p, s, Commit(t)), t, Apply(p, s, Commit(t)).table[|s.table|]);
  }

  lemma AllStayWritten(p: Protocol, s: State, step: Step)
    requires AllWritten(s) && Enabled(p, s, step)
    ensures AllWritten(Apply(p, s, step))
  {
    var s' := Apply(p, s, step);
    forall i | 0 <= i < |s'.table|
      ensures Written(s', s'.table[i])
    {
      if i < |s.table| {
        StaysWritten(p, s, step, s.table[i]);
        assert s'.table[i] == s.table[i];
      } else {
        CommitWrites(p, s, step.tx);
      }
    }
  }

  lemma {:induction false} ExecWrites(p: Protocol, s: State, schedule: seq<Step>)
    requires AllWritten(s)
    ensures AllWritten(Exec(p, s, schedule))
    decreases |schedule|
  {
    if schedule != [] {
      if Enabled(p, s, schedule[0]) { AllStayWritten(p, s, schedule[0]); }
      ExecWrites(p, if Enabled(p, s, schedule[0]) then Apply(p, s, schedule[0]) else s, schedule[1..]);
    }
  }

  lemma {:induction false} EntriesAreRows(table: seq<Row>, run: RunId, k: nat) returns (i: nat)
    requires k < |Entries(table, run)|
    ensures i < |table| && table[i] == Row(run, Entries(table, run)[k])
  {
    var front := table[..|table| - 1];
    if k < |Entries(front, run)| {
      i := EntriesAreRows(front, run, k);
      assert table[i] == front[i] && Entries(table, run)[k] == Entries(front, run)[k];
    } else {
      i := |table| - 1;
    }
  }

  /** Nothing stands in a ledger but what a committed append put there under the number it returned. */
  lemma EveryEntryIsAnAppend(p: Protocol, schedule: seq<Step>, run: RunId, k: nat) returns (t: TxId)
    requires k < |Entries(Exec(p, Empty, schedule).table, run)|
    ensures var s := Exec(p, Empty, schedule);
            && t in s.txs && s.txs[t].phase == Committed(k + 1) && s.txs[t].req.run == run
            && Entries(s.table, run)[k] == EventOf(s.txs[t].req, k + 1)
  {
    InvEmpty(p);
    ExecKeeps(p, Empty, schedule);
    ExecWrites(p, Empty, schedule);
    var s := Exec(p, Empty, schedule);
    var i := EntriesAreRows(s.table, run, k);
    assert Written(s, s.table[i]);
    t :| Wrote(s, t, s.table[i]);
    assert InOrder(Entries(s.table, run));
  }

  /** Two appends of one run that both evaluate max(seq) before either inserts. */
  function LostUpdate(run: RunId, typ: string): seq<Step> {
    var append := Request(run, false, typ, "", Payload(None, ""));
    [Begin(1, append), Begin(2, append), Number(1), Number(2), Insert(1), Commit(1), Insert(2)]
  }

  /** Runs a schedule one step further. */
  lemma ExecStep(p: Protocol, s: State, schedule: seq<Step>, rest: seq<Step>)
    requires schedule != [] && rest == schedule[1..] && Enabled(p, s, schedule[0])
    ensures Exec(p, s, schedule) == Exec(p, Apply(p, s, schedule[0]), rest)
  {
  }

  /** A run that has just been created. */
  function JustCreated(run: RunId): State {
    State([Row(run, Event(1, EvRunQueued, "", Payload(None, "")))], {run}, map[], map[])
  }

  /** Without the lock statement, two parallel appends of a new run end with one of them dead on the key. */
  lemma WithoutTheLockAnAppendDies(hash: RunId -> int, run: RunId, typ: string)
    ensures var s := Exec(Protocol(hash, false), JustCreated(run), LostUpdate(run, typ));
            2 in s.txs && s.txs[2].phase == Rejected
  {
    var p := Protocol(hash, false);
    var s0 := JustCreated(run);
    var k := LostUpdate(run, typ);
    var s1 := Apply(p, s0, k[0]);
    var s2 := Apply(p, s1, k[1]);
    assert MaxSeq(s0.table, run) == 1;
    var s3 := Apply(p, s2, k[2]);
    var s4 := Apply(p, s3, k[3]);
    var s5 := Apply(p, s4, k[4]);
    var s6 := Apply(p, s5, k[5]);
    assert s6.table[1].run == run && s6.table[1].event.seqNo == 2;
    assert Taken(s6.table, run, 2);
    var s7 := Apply(p, s6, k[6]);
    ExecStep(p, s0, k, k[1..]); ExecStep(p, s1, k[1..], k[2..]); ExecStep(p, s2, k[2..], k[3..]);
    ExecStep(p, s3, k[3..], k[4..]); ExecStep(p, s4, k[4..], k[5..]); ExecStep(p, s5, k[5..], k[6..]);
    ExecStep(p, s6, k[6..], []);
    assert Exec(p, s7, []) == s7;
  }
}
