/**
 A run from its append transactions to the page that shows it. Transactions append entries,
 their appenders publish them, any number of connections, reconnects among them, replay and
 serve them from where the page's ledger ended, and the browser reads what it gets as far as
 it gets and merges it with that ledger.
 */
module Pages {
  import opened Runs
  import opened Streams
  import L = Ledger
  import R = StreamRace
  import B = Browser

  /** What the ledger endpoint answers at most. */
  const LoadLimit := 500

  /** The types the page listens to. */
  const EventTypes := [
    "run_queued", "status", "intelligence_start", "intelligence_thinking", "intelligence_analysis",
    "agent_start", "agent_end", "model_call", "tool_call", "tool_result", "finding", "budget", "error"]

  /** The types the program defines. */
  const LedgerTypes := [
    "run_queued", "status", "intelligence_start", "intelligence_thinking", "intelligence_analysis",
    "agent_start", "agent_end", "agent_skipped", "model_call", "tool_call", "tool_result", "finding", "budget", "error"]

  datatype World = World(p: L.Protocol, run: RunId, listens: string -> bool)

  datatype State = State(
    db: L.State,
    pending: set<int>,            // appended to the run and not yet published
    loaded: Option<seq<Event>>,   // the ledger as it was loaded
    links: seq<R.State>,          // the page's connections, each with what it sees of the run
    heard: seq<nat>,              // how many entries of each connection the browser has read
    arrivals: seq<Event>)         // what the hook was given, in order

  datatype Step =
    | Tx(statement: L.Step)
    | Publish(n: int)
    | Load
    | Connect
    | OnLink(j: nat, move: R.Step)
    | Hear(j: nat)

  const Init := State(L.Empty, {}, None, [], [], [])

  /** The run's ledger. */
  function Rows(w: World, s: State): seq<Event> { L.Entries(s.db.table, w.run) }

  /** Where the connections start: the last number loaded. */
  function After(loaded: seq<Event>): int { if loaded == [] then 0 else loaded[|loaded| - 1].seqNo }

  function Limited(es: seq<Event>): seq<Event> { if |es| <= LoadLimit then es else es[..LoadLimit] }

  /** The commit of a transaction that appends to the run. */
  predicate Appends(w: World, s: State, step: L.Step) {
    step.Commit? && step.tx in s.db.txs && s.db.txs[step.tx].phase.Inserted? && s.db.txs[step.tx].req.run == w.run
  }

  /** A connection before it has subscribed. */
  function NewLink(after: int, es: seq<Event>, pending: set<int>): R.State { R.Init(after).(ledger := es, pending := pending) }

  function Took(link: R.State, step: R.Step): R.State { if R.Enabled(link, step) then R.Apply(link, step) else link }

  function AllTake(links: seq<R.State>, step: R.Step): (r: seq<R.State>)
    ensures |r| == |links| && forall j :: 0 <= j < |links| ==> r[j] == Took(links[j], step)
  {
    seq(|links|, j requires 0 <= j < |links| => Took(links[j], step))
  }

  predicate Enabled(w: World, s: State, step: Step) {
    match step
    case Tx(statement) => L.Enabled(w.p, s.db, statement)
    case Publish(n) => n in s.pending
    case Load => s.loaded.None?
    case Connect => s.loaded.Some? && w.run in s.db.runs
    case OnLink(j, move) => j < |s.links| && !move.Commit? && !move.Publish? && R.Enabled(s.links[j], move)
    case Hear(j) => j < |s.links| && j < |s.heard| && s.heard[j] < |R.Written(s.links[j])|
  }

  /** Nobody publishes the entry a run is created with. */
  function Apply(w: World, s: State, step: Step): State
    requires Enabled(w, s, step)
  {
    match step
    case Tx(statement) =>
      var db := L.Apply(w.p, s.db, statement);
      if !Appends(w, s, statement) then s.(db := db)
      else
        var req, n := s.db.txs[statement.tx].req, s.db.txs[statement.tx].phase.n;
        s.(db := db,
           pending := if req.creates then s.pending else s.pending + {n},
           links := AllTake(s.links, R.Commit(req.typ, req.agent, req.payload)))
    case Publish(n) => s.(pending := s.pending - {n}, links := AllTake(s.links, R.Publish(n)))
    case Load => s.(loaded := Some(Limited(Rows(w, s))))
    case Connect => s.(links := s.links + [NewLink(After(s.loaded.value), Rows(w, s), s.pending)], heard := s.heard + [0])
    case OnLink(j, move) => s.(links := s.links[j := R.Apply(s.links[j], move)])
    case Hear(j) =>
      var e := R.Written(s.links[j])[s.heard[j]];
      s.(heard := s.heard[j := s.heard[j] + 1], arrivals := if w.listens(e.typ) then s.arrivals + [e] else s.arrivals)
  }

  function Exec(w: World, s: State, schedule: seq<Step>): State
    decreases |schedule|
  {
    if schedule == [] then s
    else Exec(w, if Enabled(w, s, schedule[0]) then Apply(w, s, schedule[0]) else s, schedule[1..])
  }

  // ---- what a connection keeps ---------------------------------------------

  /** A connection sees the run's ledger as it is, starts where the loaded part ended, and keeps what every connection keeps. */
  ghost predicate LinkOk(link: R.State, es: seq<Event>, pending: set<int>, after: int) {
    && link.ledger == es && link.pending == pending && link.after == after
    && R.CompleteInv(link) && R.HistoryInv(link)
    && (!link.phase.Serving? ==> R.Written(link) == [])
  }

  lemma NewLinkIsComplete(after: int, es: seq<Event>, pending: set<int>)
    requires R.Numbered(es) && forall n :: n in pending ==> 1 <= n <= |es|
    ensures R.CompleteInv(NewLink(after, es, pending)) && R.Written(NewLink(after, es, pending)) == []
  {
  }

  lemma NewLinkHasNoHistory(after: int, es: seq<Event>, pending: set<int>)
    requires R.SafeInv(NewLink(after, es, pending))
    ensures R.HistoryInv(NewLink(after, es, pending))
  {
  }

  lemma NewLinkOk(after: int, es: seq<Event>, pending: set<int>)
    requires R.Numbered(es) && forall n :: n in pending ==> 1 <= n <= |es|
    ensures LinkOk(NewLink(after, es, pending), es, pending, after)
  {
    NewLinkIsComplete(after, es, pending);
    NewLinkHasNoHistory(after, es, pending);
  }

  lemma LinkSteps(link: R.State, step: R.Step)
    requires R.CompleteInv(link) && R.HistoryInv(link) && R.Enabled(link, step)
    requires !link.phase.Serving? ==> R.Written(link) == []
    ensures var link' := R.Apply(link, step);
            && R.CompleteInv(link') && R.HistoryInv(link') && link'.after == link.after
            && (!link'.phase.Serving? ==> R.Written(link') == [])
            && R.Written(link) <= R.Written(link')
  {
    R.CompleteStep(link, step);
    R.HistoryStep(link, step);
    R.WrittenAfter(link, step);
  }

  lemma LinkCommits(link: R.State, es: seq<Event>, pending: set<int>, after: int, e: Event)
    requires LinkOk(link, es, pending, after) && e.seqNo == |es| + 1
    ensures var link' := Took(link, R.Commit(e.typ, e.agent, e.payload));
            LinkOk(link', es + [e], pending + {e.seqNo}, after) && R.Written(link) <= R.Written(link')
  {
    LinkSteps(link, R.Commit(e.typ, e.agent, e.payload));
  }

  lemma LinkPublishes(link: R.State, es: seq<Event>, pending: set<int>, after: int, n: int)
    requires LinkOk(link, es, pending, after) && n in pending
    ensures var link' := Took(link, R.Publish(n));
            LinkOk(link', es, pending - {n}, after) && R.Written(link) <= R.Written(link')
  {
    LinkSteps(link, R.Publish(n));
  }

  lemma LinkMoves(link: R.State, es: seq<Event>, pending: set<int>, after: int, step: R.Step)
    requires LinkOk(link, es, pending, after) && R.Enabled(link, step) && !step.Commit? && !step.Publish?
    ensures LinkOk(R.Apply(link, step), es, pending, after) && R.Written(link) <= R.Written(R.Apply(link, step))
  {
    LinkSteps(link, step);
  }

  // ---- what the whole keeps ------------------------------------------------

  predicate LoadedOk(loaded: Option<seq<Event>>, es: seq<Event>) { loaded.Some? ==> loaded.value <= es }

  /** The browser has read no more than was written. */
  predicate ReadOk(s: State) {
    |s.heard| == |s.links| && forall j :: 0 <= j < |s.links| ==> s.heard[j] <= |R.Written(s.links[j])|
  }

  ghost predicate LinksOk(w: World, s: State) {
    && (s.links != [] ==> s.loaded.Some? && w.run in s.db.runs)
    && (forall j :: 0 <= j < |s.links| ==> LinkOk(s.links[j], Rows(w, s), s.pending, After(s.loaded.value)))
  }

  /** The browser has read this entry off the j-th connection and was listening. */
  predicate HeardOn(w: World, s: State, j: nat, e: Event)
    requires ReadOk(s)
  {
    j < |s.links| && e in R.Written(s.links[j])[..s.heard[j]] && w.listens(e.typ)
  }

  predicate Heard(w: World, s: State, e: Event)
    requires ReadOk(s)
  {
    exists j :: 0 <= j < |s.links| && HeardOn(w, s, j, e)
  }

  ghost predicate ArrivalsOk(w: World, s: State)
    requires ReadOk(s)
  {
    forall e :: e in s.arrivals <==> Heard(w, s, e)
  }

  ghost predicate Inv(w: World, s: State) {
    && L.Inv(w.p, s.db)
    && (forall n :: n in s.pending ==> 1 <= n <= |Rows(w, s)|)
    && LoadedOk(s.loaded, Rows(w, s))
    && LinksOk(w, s) && ReadOk(s) && ArrivalsOk(w, s)
  }

  lemma RowsAreNumbered(w: World, s: State)
    requires L.Inv(w.p, s.db)
    ensures R.Numbered(Rows(w, s))
  {
    assert L.InOrder(L.Entries(s.db.table, w.run));
  }

  /** Every connection writes at least what it wrote: what was read off it stays what it was. */
  lemma HeardStays(w: World, s: State, s': State)
    requires |s'.links| == |s.links| && s'.heard == s.heard && s'.arrivals == s.arrivals
    requires ReadOk(s) && forall j :: 0 <= j < |s.links| ==> R.Written(s.links[j]) <= R.Written(s'.links[j])
    requires ArrivalsOk(w, s)
    ensures ReadOk(s') && ArrivalsOk(w, s')
  {
    forall j | 0 <= j < |s.links|
      ensures R.Written(s'.links[j])[..s.heard[j]] == R.Written(s.links[j])[..s.heard[j]]
    {
    }
    forall e ensures Heard(w, s', e) <==> Heard(w, s, e) {
      if j :| 0 <= j < |s.links| && HeardOn(w, s, j, e) { assert HeardOn(w, s', j, e); }
      if j :| 0 <= j < |s.links| && HeardOn(w, s', j, e) { assert HeardOn(w, s, j, e); }
    }
  }

  /** What a transaction's commit does to the run's ledger is what a connection sees as one appended entry. */
  lemma CommitIsOneEntry(w: World, s: State, t: L.TxId)
    requires L.Inv(w.p, s.db) && L.Enabled(w.p, s.db, L.Commit(t)) && s.db.txs[t].req.run == w.run
    ensures var e := L.EventOf(s.db.txs[t].req, s.db.txs[t].phase.n);
            e.seqNo == |Rows(w, s)| + 1 && L.Entries(L.Apply(w.p, s.db, L.Commit(t)).table, w.run) == Rows(w, s) + [e]
  {
    assert L.NumberOk(w.p, L.Entries(s.db.table, s.db.txs[t].req.run), s.db.txs[t]);
    L.CommitExtendsTheLedger(w.p, s.db, t, w.run);
  }

  /** Every other statement leaves the run's ledger alone, and no statement unmakes the run. */
  lemma OthersLeaveTheRun(w: World, s: State, step: L.Step)
    requires L.Enabled(w.p, s.db, step)
    ensures !Appends(w, s, step) ==> L.Entries(L.Apply(w.p, s.db, step).table, w.run) == Rows(w, s)
    ensures s.db.runs <= L.Apply(w.p, s.db, step).runs
  {
    if step.Commit? { L.CommitExtendsTheLedger(w.p, s.db, step.tx, w.run); }
  }

  /** A run that is there is not created again. */
  lemma NotCreatedAgain(w: World, s: State, t: L.TxId)
    requires L.Inv(w.p, s.db) && Appends(w, s, L.Commit(t)) && w.run in s.db.runs
    ensures !s.db.txs[t].req.creates
  {
    assert L.CreationOk(s.db.runs, s.db.txs[t]);
  }

  lemma AppendKeeps(w: World, s: State, t: L.TxId)
    requires Inv(w, s) && L.Enabled(w.p, s.db, L.Commit(t)) && Appends(w, s, L.Commit(t))
    ensures Inv(w, Apply(w, s, Tx(L.Commit(t))))
  {
    var s' := Apply(w, s, Tx(L.Commit(t)));
    var req := s.db.txs[t].req;
    var e := L.EventOf(req, s.db.txs[t].phase.n);
    L.StepKeeps(w.p, s.db, L.Commit(t));
    CommitIsOneEntry(w, s, t);
    OthersLeaveTheRun(w, s, L.Commit(t));
    if s.links != [] { NotCreatedAgain(w, s, t); }
    forall j | 0 <= j < |s.links|
      ensures LinkOk(s'.links[j], Rows(w, s'), s'.pending, After(s'.loaded.value))
      ensures R.Written(s.links[j]) <= R.Written(s'.links[j])
    {
      LinkCommits(s.links[j], Rows(w, s), s.pending, After(s.loaded.value), e);
    }
    HeardStays(w, s, s');
  }

  lemma QuietTxKeeps(w: World, s: State, step: L.Step)
    requires Inv(w, s) && L.Enabled(w.p, s.db, step) && !Appends(w, s, step)
    ensures Inv(w, Apply(w, s, Tx(step)))
  {
    var s' := Apply(w, s, Tx(step));
    L.StepKeeps(w.p, s.db, step);
    OthersLeaveTheRun(w, s, step);
    HeardStays(w, s, s');
  }

  lemma PublishKeeps(w: World, s: State, n: int)
    requires Inv(w, s) && Enabled(w, s, Publish(n))
    ensures Inv(w, Apply(w, s, Publish(n)))
  {
    var s' := Apply(w, s, Publish(n));
    forall j | 0 <= j < |s.links|
      ensures LinkOk(s'.links[j], Rows(w, s'), s'.pending, After(s'.loaded.value))
      ensures R.Written(s.links[j]) <= R.Written(s'.links[j])
    {
      LinkPublishes(s.links[j], Rows(w, s), s.pending, After(s.loaded.value), n);
    }
    HeardStays(w, s, s');
  }

  lemma ConnectKeepsArrivals(w: World, s: State)
    requires ReadOk(s) && ArrivalsOk(w, s) && Enabled(w, s, Connect)
    ensures var s' := Apply(w, s, Connect); ReadOk(s') && ArrivalsOk(w, s')
  {
    var s' := Apply(w, s, Connect);
    forall e ensures Heard(w, s', e) <==> Heard(w, s, e) {
      if Heard(w, s, e) {
        var j :| 0 <= j < |s.links| && HeardOn(w, s, j, e);
        assert HeardOn(w, s', j, e);
      }
      if Heard(w, s', e) {
        var j :| 0 <= j < |s'.links| && HeardOn(w, s', j, e);
        assert HeardOn(w, s, j, e);
      }
    }
  }

  lemma ConnectKeepsLinks(w: World, s: State)
    requires Inv(w, s) && Enabled(w, s, Connect)
    ensures LinksOk(w, Apply(w, s, Connect))
  {
    RowsAreNumbered(w, s);
    NewLinkOk(After(s.loaded.value), Rows(w, s), s.pending);
  }

  lemma ConnectKeeps(w: World, s: State)
    requires Inv(w, s) && Enabled(w, s, Connect)
    ensures Inv(w, Apply(w, s, Connect))
  {
    ConnectKeepsLinks(w, s);
    ConnectKeepsArrivals(w, s);
  }

  lemma OnLinkKeepsLinks(w: World, s: State, j: nat, move: R.Step)
    requires LinksOk(w, s) && Enabled(w, s, OnLink(j, move))
    ensures LinksOk(w, Apply(w, s, OnLink(j, move)))
    ensures R.Written(s.links[j]) <= R.Written(Apply(w, s, OnLink(j, move)).links[j])
  {
    LinkMoves(s.links[j], Rows(w, s), s.pending, After(s.loaded.value), move);
  }

  lemma OnLinkKeeps(w: World, s: State, j: nat, move: R.Step)
    requires Inv(w, s) && Enabled(w, s, OnLink(j, move))
    ensures Inv(w, Apply(w, s, OnLink(j, move)))
  {
    OnLinkKeepsLinks(w, s, j, move);
    HeardStays(w, s, Apply(w, s, OnLink(j, move)));
  }

  lemma OneMoreRead(written: seq<Event>, n: nat, e: Event)
    requires n < |written|
    ensures e in written[..n + 1] <==> e in written[..n] || e == written[n]
  {
    assert written[..n + 1] == written[..n] + [written[n]];
  }

  /** Reading one more entry off a connection adds that entry to what was heard on it, and nothing elsewhere. */
  lemma HearOn(w: World, s: State, j: nat, i: nat, e: Event)
    requires ReadOk(s) && Enabled(w, s, Hear(j)) && i < |s.links|
    ensures var heard := R.Written(s.links[j])[s.heard[j]];
            var s' := Apply(w, s, Hear(j));
            && ReadOk(s')
            && (HeardOn(w, s', i, e) <==> HeardOn(w, s, i, e) || (i == j && e == heard && w.listens(e.typ)))
  {
    OneMoreRead(R.Written(s.links[j]), s.heard[j], e);
  }

  lemma HearOne(w: World, s: State, j: nat, e: Event)
    requires ReadOk(s) && Enabled(w, s, Hear(j))
    ensures var heard := R.Written(s.links[j])[s.heard[j]];
            ReadOk(Apply(w, s, Hear(j)))
            && (Heard(w, Apply(w, s, Hear(j)), e) <==> Heard(w, s, e) || (e == heard && w.listens(e.typ)))
  {
    var s' := Apply(w, s, Hear(j));
    HearOn(w, s, j, j, e);
    if Heard(w, s, e) {
      var i :| 0 <= i < |s.links| && HeardOn(w, s, i, e);
      HearOn(w, s, j, i, e);
      assert HeardOn(w, s', i, e);
    }
    if Heard(w, s', e) {
      var i :| 0 <= i < |s.links| && HeardOn(w, s', i, e);
      HearOn(w, s, j, i, e);
    }
  }

  lemma HearKeepsArrivals(w: World, s: State, j: nat)
    requires ReadOk(s) && ArrivalsOk(w, s) && Enabled(w, s, Hear(j))
    ensures var s' := Apply(w, s, Hear(j)); ReadOk(s') && ArrivalsOk(w, s')
  {
    var s' := Apply(w, s, Hear(j));
    forall e ensures e in s'.arrivals <==> Heard(w, s', e) { HearOne(w, s, j, e); }
  }

  lemma HearKeeps(w: World, s: State, j: nat)
    requires Inv(w, s) && Enabled(w, s, Hear(j))
    ensures Inv(w, Apply(w, s, Hear(j)))
  {
    HearKeepsArrivals(w, s, j);
  }

  lemma InvStep(w: World, s: State, step: Step)
    requires Inv(w, s) && Enabled(w, s, step)
    ensures Inv(w, Apply(w, s, step))
  {
    match step {
      case Tx(statement) => if Appends(w, s, statement) { AppendKeeps(w, s, statement.tx); } else { QuietTxKeeps(w, s, statement); }
      case Publish(n) => PublishKeeps(w, s, n);
      case Load => HeardStays(w, s, Apply(w, s, step));
      case Connect => ConnectKeeps(w, s);
      case OnLink(j, move) => OnLinkKeeps(w, s, j, move);
      case Hear(j) => HearKeeps(w, s, j);
    }
  }

  lemma {:induction false} InvExec(w: World, s: State, schedule: seq<Step>)
    requires Inv(w, s)
    ensures Inv(w, Exec(w, s, schedule))
    decreases |schedule|
  {
    if schedule != [] {
      if Enabled(w, s, schedule[0]) { InvStep(w, s, schedule[0]); }
      InvExec(w, if Enabled(w, s, schedule[0]) then Apply(w, s, schedule[0]) else s, schedule[1..]);
    }
  }

  lemma InvInit(w: World)
    ensures Inv(w, Init)
  {
    L.InvEmpty(w.p);
  }

  // ---- from the transactions to the connections ----------------------------

  /**
   In every interleaving each connection sees exactly the entries the database has committed for
   the run: a commit is one appended entry to it, and no other statement shows.
   */
  lemma ConnectionsSeeTheLedger(w: World, schedule: seq<Step>, j: nat)
    requires j < |Exec(w, Init, schedule).links|
    ensures var s := Exec(w, Init, schedule); s.links[j].ledger == Rows(w, s) && R.Numbered(Rows(w, s))
  {
    InvInit(w);
    InvExec(w, Init, schedule);
    RowsAreNumbered(w, Exec(w, Init, schedule));
  }

  // ---- from the connections to the page ------------------------------------

  /** What the page shows. */
  ghost predicate Shows(s: State, page: seq<Event>) {
    s.loaded.Some? && B.IsMerge(s.loaded.value, B.IngestAll([], s.arrivals), page)
  }

  lemma CommittedAreConsistent(rows: seq<Event>, es: seq<Event>)
    requires forall e :: e in es ==> R.Committed(rows, e)
    ensures B.Consistent(es)
  {
  }

  lemma LoadedPart(w: World, s: State)
    requires Inv(w, s) && s.loaded.Some?
    ensures var k := |s.loaded.value|;
            && k <= |Rows(w, s)| && s.loaded.value == Rows(w, s)[..k] && After(s.loaded.value) == k
            && Ascending(s.loaded.value) && forall e :: e in s.loaded.value ==> R.Committed(Rows(w, s), e) && e.seqNo <= k
  {
    RowsAreNumbered(w, s);
  }

  /** What arrived is committed, and past what was loaded. */
  lemma ArrivedPart(w: World, s: State, e: Event)
    requires Inv(w, s) && s.loaded.Some? && e in s.arrivals
    ensures R.Committed(Rows(w, s), e) && e.seqNo > |s.loaded.value| && w.listens(e.typ)
  {
    LoadedPart(w, s);
    var j :| 0 <= j < |s.links| && HeardOn(w, s, j, e);
    var written := R.Written(s.links[j]);
    assert e in written by { assert e in written[..s.heard[j]]; }
    var i :| 0 <= i < |written| && written[i] == e;
    assert LinkOk(s.links[j], Rows(w, s), s.pending, After(s.loaded.value));
  }

  /** The page is what was loaded, followed by what arrived, in order and without repetition. */
  lemma PageParts(w: World, s: State, page: seq<Event>)
    requires Inv(w, s) && Shows(s, page)
    ensures var live := B.IngestAll([], s.arrivals);
            page == s.loaded.value + live && Ascending(page) && B.SameEntries(live, s.arrivals)
  {
    var loaded, live := s.loaded.value, B.IngestAll([], s.arrivals);
    LoadedPart(w, s);
    forall e | e in s.arrivals ensures R.Committed(Rows(w, s), e) && e.seqNo > |loaded| { ArrivedPart(w, s, e); }
    CommittedAreConsistent(Rows(w, s), s.arrivals);
    B.ListIsEverythingReceived(s.arrivals);
    assert forall e :: e in loaded + live ==> e in loaded || e in live;
    CommittedAreConsistent(Rows(w, s), loaded + live);
    B.MergeIsTheSortedUnion(loaded, live, page);
    OneAfterTheOther(loaded, live, |loaded|);
    B.AscendingIsUnique(page, loaded + live);
  }

  lemma OneAfterTheOther(a: seq<Event>, b: seq<Event>, k: int)
    requires Ascending(a) && Ascending(b)
    requires (forall e :: e in a ==> e.seqNo <= k) && (forall e :: e in b ==> e.seqNo > k)
    ensures Ascending(a + b)
  {
    forall i, j | 0 <= i < j < |a + b|
      ensures (a + b)[i].seqNo < (a + b)[j].seqNo
    {
      if i < |a| <= j { assert a[i] in a && b[j - |a|] in b; }
    }
  }

  lemma Reached(w: World, schedule: seq<Step>)
    ensures Inv(w, Exec(w, Init, schedule))
  {
    InvInit(w);
    InvExec(w, Init, schedule);
  }

  /**
   In every interleaving the page begins with what was loaded and goes on, strictly upwards, with
   committed entries of the types it listens to.
   */
  lemma PageIsHonest(w: World, schedule: seq<Step>, page: seq<Event>)
    requires Shows(Exec(w, Init, schedule), page)
    ensures var s := Exec(w, Init, schedule);
            && Ascending(page) && s.loaded.value <= page && s.loaded.value <= Rows(w, s)
            && forall e :: e in page ==>
                 R.Committed(Rows(w, s), e) && (e.seqNo <= |s.loaded.value| || w.listens(e.typ))
  {
    var s := Exec(w, Init, schedule);
    Reached(w, schedule);
    PageParts(w, s, page);
    LoadedPart(w, s);
    forall e | e in page
      ensures R.Committed(Rows(w, s), e) && (e.seqNo <= |s.loaded.value| || w.listens(e.typ))
    {
      if e in s.arrivals { ArrivedPart(w, s, e); }
    }
  }

  /** The browser has read everything its connections wrote. */
  predicate AllRead(s: State) {
    |s.heard| == |s.links| && forall j :: 0 <= j < |s.links| ==> s.heard[j] == |R.Written(s.links[j])|
  }

  /** A connection's replay reached the entry, or it took the entry off its channel before any later one. */
  predicate Brought(link: R.State, n: int) {
    && link.phase.Serving? && 1 <= n <= |link.ledger|
    && (n <= R.ReplayHigh(link) || R.InTime(link.taken, link.ledger[n - 1]))
  }

  lemma WrittenIsBrought(w: World, s: State, j: nat, n: int)
    requires Inv(w, s) && j < |s.links| && |s.loaded.value| < n <= |Rows(w, s)|
    ensures Rows(w, s)[n - 1] in R.Written(s.links[j]) <==> Brought(s.links[j], n)
  {
    LoadedPart(w, s);
    assert LinkOk(s.links[j], Rows(w, s), s.pending, After(s.loaded.value));
    if s.links[j].phase.Serving? { R.WrittenExactlyWhen(s.links[j], n); }
  }

  lemma ReadIsHeard(w: World, s: State, j: nat, e: Event)
    requires ReadOk(s) && j < |s.links| && s.heard[j] == |R.Written(s.links[j])|
    ensures HeardOn(w, s, j, e) <==> e in R.Written(s.links[j]) && w.listens(e.typ)
  {
    var written := R.Written(s.links[j]);
    assert written[..|written|] == written;
  }

  lemma ArrivedExactlyWhen(w: World, s: State, n: int)
    requires Inv(w, s) && s.loaded.Some? && AllRead(s) && |s.loaded.value| < n <= |Rows(w, s)|
    ensures var e := Rows(w, s)[n - 1];
            e in s.arrivals <==> w.listens(e.typ) && exists j :: 0 <= j < |s.links| && Brought(s.links[j], n)
  {
    var e := Rows(w, s)[n - 1];
    forall j | 0 <= j < |s.links|
      ensures HeardOn(w, s, j, e) <==> w.listens(e.typ) && Brought(s.links[j], n)
    {
      ReadIsHeard(w, s, j, e);
      WrittenIsBrought(w, s, j, n);
    }
    assert e in s.arrivals <==> Heard(w, s, e);
    if w.listens(e.typ) && exists j :: 0 <= j < |s.links| && Brought(s.links[j], n) {
      var j :| 0 <= j < |s.links| && Brought(s.links[j], n);
      assert HeardOn(w, s, j, e);
    }
  }

  /**
   Whatever was reordered, dropped, cut from a replay or broken off: once the browser has read all
   its connections wrote, an entry is on the page if and only if it was loaded, or the page
   listens to its type and some connection replayed it or took it before any later one.
   */
  lemma PageShowsExactly(w: World, schedule: seq<Step>, page: seq<Event>, n: int)
    requires Shows(Exec(w, Init, schedule), page) && AllRead(Exec(w, Init, schedule))
    requires 1 <= n <= |Rows(w, Exec(w, Init, schedule))|
    ensures var s := Exec(w, Init, schedule);
            var e := Rows(w, s)[n - 1];
            e in page <==>
              n <= |s.loaded.value| || (w.listens(e.typ) && exists j :: 0 <= j < |s.links| && Brought(s.links[j], n))
  {
    var s := Exec(w, Init, schedule);
    Reached(w, schedule);
    PageParts(w, s, page);
    LoadedPart(w, s);
    RowsAreNumbered(w, s);
    var e := Rows(w, s)[n - 1];
    assert e in page <==> e in s.loaded.value || e in s.arrivals;
    if n <= |s.loaded.value| {
      assert s.loaded.value[n - 1] == e;
    } else {
      ArrivedExactlyWhen(w, s, n);
    }
  }

  /** A connection to which nothing happened, and which has come to the end of the ledger or has nothing more on its way. */
  predicate CameToTheEnd(link: R.State) {
    && R.Unharmed(link) && link.phase.Serving?
    && (R.Reached(link) >= |link.ledger| || (link.conn.open && link.pending == {} && link.buffer == []))
  }

  lemma WroteToTheEnd(link: R.State)
    requires R.CompleteInv(link) && CameToTheEnd(link) && 0 <= link.after <= |link.ledger|
    ensures R.Written(link) == link.ledger[link.after..]
  {
    var n := R.Reached(link) + 1;
    assert link.conn.open && n <= |link.ledger| ==> n in link.pending || R.InBuffer(link, n);
    assert R.Reached(link) == |link.ledger|;
  }

  lemma WroteTheRest(w: World, s: State, j: nat)
    requires Inv(w, s) && j < |s.links| && CameToTheEnd(s.links[j])
    ensures s.loaded.Some? && |s.loaded.value| <= |Rows(w, s)| && R.Written(s.links[j]) == Rows(w, s)[|s.loaded.value|..]
  {
    var link := s.links[j];
    LoadedPart(w, s);
    assert LinkOk(link, Rows(w, s), s.pending, After(s.loaded.value));
    WroteToTheEnd(link);
  }

  predicate AllListened(w: World, s: State) {
    s.loaded.Some? && forall n :: |s.loaded.value| <= n < |Rows(w, s)| ==> w.listens(Rows(w, s)[n].typ)
  }

  lemma ReadArrives(w: World, s: State, j: nat, e: Event)
    requires ReadOk(s) && ArrivalsOk(w, s) && j < |s.links| && s.heard[j] == |R.Written(s.links[j])|
    requires e in R.Written(s.links[j]) && w.listens(e.typ)
    ensures e in s.arrivals
  {
    ReadIsHeard(w, s, j, e);
    assert Heard(w, s, e);
  }

  lemma InFrontOrRest(rows: seq<Event>, k: nat, n: nat)
    requires k <= |rows| && n < |rows|
    ensures if n < k then rows[n] in rows[..k] else rows[n] in rows[k..]
  {
    if n < k { assert rows[..k][n] == rows[n]; } else { assert rows[k..][n - k] == rows[n]; }
  }

  lemma EverythingCame(w: World, s: State, j: nat, e: Event)
    requires Inv(w, s) && j < |s.links| && CameToTheEnd(s.links[j]) && s.heard[j] == |R.Written(s.links[j])|
    requires AllListened(w, s) && e in Rows(w, s)
    ensures e in s.loaded.value || e in s.arrivals
  {
    var rows, k := Rows(w, s), |s.loaded.value|;
    WroteTheRest(w, s, j);
    LoadedPart(w, s);
    var n :| 0 <= n < |rows| && rows[n] == e;
    InFrontOrRest(rows, k, n);
    if n >= k { ReadArrives(w, s, j, e); }
  }

  lemma NothingElseCame(w: World, s: State, e: Event)
    requires Inv(w, s) && s.loaded.Some? && (e in s.loaded.value || e in s.arrivals)
    ensures e in Rows(w, s)
  {
    if e in s.arrivals { ArrivedPart(w, s, e); } else { LoadedPart(w, s); }
    assert Rows(w, s)[e.seqNo - 1] == e;
  }

  /**
   However many connections broke off, lost entries or came too late: as soon as one of them came
   to the end unharmed and was read, and the page listens to all it has not loaded, the page is
   the ledger.
   */
  lemma PageIsTheLedger(w: World, schedule: seq<Step>, page: seq<Event>, j: nat)
    requires Shows(Exec(w, Init, schedule), page)
    requires var s := Exec(w, Init, schedule);
             && j < |s.links| && CameToTheEnd(s.links[j]) && j < |s.heard| && s.heard[j] == |R.Written(s.links[j])|
             && AllListened(w, s)
    ensures page == Rows(w, Exec(w, Init, schedule))
  {
    var s := Exec(w, Init, schedule);
    Reached(w, schedule);
    PageParts(w, s, page);
    RowsAreNumbered(w, s);
    forall e ensures e in page <==> e in Rows(w, s) {
      if e in Rows(w, s) { EverythingCame(w, s, j, e); }
      if e in page { NothingElseCame(w, s, e); }
    }
    B.AscendingIsUnique(page, Rows(w, s));
  }

  /** Of the types the program defines the page listens to all but one. */
  lemma SkippedAgentsAreNotHeard(typ: string)
    requires typ in LedgerTypes
    ensures typ in EventTypes <==> typ != "agent_skipped"
  {
  }
}
