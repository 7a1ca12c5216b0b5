/**
 Tracked alerts: a table with a unique (cluster, key) and a number from a sequence.
 Any number of Track statements and state changes run against it at once. A Track
 statement reads the prior row in its snapshot, draws a number if there was none, and
 upserts afterwards; others may commit, or draw, in between. Rows are never deleted.
 */
module Incidents {
  import opened Alerts
  import opened AlertKeys
  import opened Runs

  type Id = string

  datatype AlertState = Firing | Acknowledged | Resolved

  datatype Origin = Manual | ByRule

  /** The columns an upsert leaves alone. */
  datatype Subject = Subject(name: string, namespace: string, kind: string, resource: string)

  datatype Row = Row(
    id: Id,
    seqNo: nat,
    cluster: int,
    key: string,
    subject: Subject,
    origin: Origin,
    payload: Alert,          // severity, summary and labels are columns of their own, written together with it
    priority: string,
    state: AlertState,
    seenCount: nat,
    ackedBy: string,
    resolvedAt: Option<int>)

  datatype Table = Table(rows: seq<Row>, nextSeq: nat)

  /** What one Track call was given. */
  datatype Sighting = Sighting(cluster: int, alert: Alert, priority: string, origin: Origin)

  /** What the statement's snapshot showed of the row, if there was one. */
  datatype Prior = Prior(state: AlertState, seqNo: nat)

  datatype LogKind = LogTracked | LogSeen | LogReopened | LogAcked | LogResolved | LogRunStarted | LogRunSuppressed

  datatype LogEntry = LogEntry(alert: Id, kind: LogKind, detail: string)

  datatype Attachment = Attachment(alert: Id, run: RunId)

  const EmptyTable := Table([], 1)

  // ---- statements ----------------------------------------------------------

  function Find(rows: seq<Row>, cluster: int, key: string): (r: Option<nat>)
    ensures r.Some? ==> r.value < |rows| && rows[r.value].cluster == cluster && rows[r.value].key == key
    ensures r.None? ==> forall i :: 0 <= i < |rows| ==> !(rows[i].cluster == cluster && rows[i].key == key)
  {
    if rows == [] then None
    else if rows[|rows| - 1].cluster == cluster && rows[|rows| - 1].key == key then Some(|rows| - 1)
    else Find(rows[..|rows| - 1], cluster, key)
  }

  function WithId(rows: seq<Row>, id: Id): (r: Option<nat>)
    ensures r.Some? ==> r.value < |rows| && rows[r.value].id == id
    ensures r.None? ==> forall i :: 0 <= i < |rows| ==> rows[i].id != id
  {
    if rows == [] then None
    else if rows[|rows| - 1].id == id then Some(|rows| - 1)
    else WithId(rows[..|rows| - 1], id)
  }

  lemma FindAppended(rows: seq<Row>, row: Row, cluster: int, key: string, id: Id)
    ensures Find(rows + [row], cluster, key) ==
            if row.cluster == cluster && row.key == key then Some(|rows|) else Find(rows, cluster, key)
    ensures WithId(rows + [row], id) == if row.id == id then Some(|rows|) else WithId(rows, id)
  {
    assert (rows + [row])[..|rows|] == rows;
  }

  predicate SameIdentity(a: Row, b: Row) {
    a.id == b.id && a.seqNo == b.seqNo && a.cluster == b.cluster && a.key == b.key
    && a.subject == b.subject && a.origin == b.origin
  }

  /** Looking up does not notice an update that leaves a row's identity alone. */
  lemma {:induction false} FindReplaced(rows: seq<Row>, i: nat, row: Row, cluster: int, key: string, id: Id)
    requires i < |rows| && SameIdentity(rows[i], row)
    ensures Find(rows[i := row], cluster, key) == Find(rows, cluster, key)
    ensures WithId(rows[i := row], id) == WithId(rows, id)
  {
    var front := rows[..|rows| - 1];
    if i < |front| {
      FindReplaced(front, i, row, cluster, key, id);
      assert rows[i := row][..|rows| - 1] == front[i := row];
    } else {
      assert rows[i := row][..|rows| - 1] == front;
    }
  }

  function Snapshot(t: Table, q: Sighting): Option<Prior> {
    var found := Find(t.rows, q.cluster, Key(q.alert));
    if found.None? then None else Some(Prior(t.rows[found.value].state, t.rows[found.value].seqNo))
  }

  function SubjectOf(a: Alert): Subject { Subject(a.name, a.namespace, a.kind, a.resource) }

  function NewRow(id: Id, n: nat, q: Sighting): Row {
    var a := q.alert;
    Row(id, n, q.cluster, Key(a), SubjectOf(a), q.origin, a, q.priority,
        Firing, 1, "", None)
  }

  function SeenAgain(row: Row, q: Sighting): Row {
    row.(payload := q.alert,
         priority := q.priority,
         seenCount := row.seenCount + 1,
         state := if row.state.Resolved? then Firing else row.state,
         resolvedAt := if row.state.Resolved? then None else row.resolvedAt)
  }

  /** The insert, or the update it turns into when the row is there by then. */
  function Place(t: Table, id: Id, q: Sighting, n: nat): Table {
    var found := Find(t.rows, q.cluster, Key(q.alert));
    t.(rows := if found.Some? then t.rows[found.value := SeenAgain(t.rows[found.value], q)] else t.rows + [NewRow(id, n, q)])
  }

  /** nextval is called exactly when the snapshot showed no row, whether or not the insert then conflicts. */
  function Upsert(t: Table, id: Id, q: Sighting, prior: Option<Prior>): Table {
    if prior.Some? then Place(t, id, q, prior.value.seqNo) else Place(t.(nextSeq := t.nextSeq + 1), id, q, t.nextSeq)
  }

  function Moved(row: Row, st: AlertState, actor: string, now: int): Row {
    match st
    case Acknowledged => row.(state := Acknowledged, ackedBy := actor)
    case Resolved => row.(state := Resolved, resolvedAt := Some(now))
    case Firing => row.(state := Firing, resolvedAt := None)
  }

  function SetState(t: Table, id: Id, st: AlertState, actor: string, now: int): Table {
    var found := WithId(t.rows, id);
    if found.None? then t else t.(rows := t.rows[found.value := Moved(t.rows[found.value], st, actor, now)])
  }

  /** How a Track call describes itself in the alert's log. */
  function TrackKind(created: bool, prior: Option<Prior>): LogKind {
    if created then LogTracked
    else if prior.Some? && prior.value.state.Resolved? then LogReopened
    else LogSeen
  }

  function StateKind(st: AlertState): LogKind {
    match st
    case Acknowledged => LogAcked
    case Resolved => LogResolved
    case Firing => LogReopened
  }

  /** Log lines are best effort, and one for an alert that does not exist is refused. */
  function Logged(t: Table, log: seq<LogEntry>, e: LogEntry, ok: bool): seq<LogEntry> {
    if ok && WithId(t.rows, e.alert).Some? then log + [e] else log
  }

  /** The alert has a row. */
  predicate Knows(t: Table, id: Id) { exists i :: 0 <= i < |t.rows| && t.rows[i].id == id }

  // ---- the store -----------------------------------------------------------

  /** One statement at a time. `logOk` says whether the log line was written. */
  class Store {
    var table: Table
    var log: seq<LogEntry>
    var attached: seq<Attachment>

    constructor ()
      ensures table == EmptyTable && log == [] && attached == []
    {
      table, log, attached := EmptyTable, [], [];
    }

    method Log(e: LogEntry, logOk: bool)
      modifies this`log
      ensures log == Logged(table, old(log), e, logOk)
      ensures log == old(log) + if logOk && Knows(table, e.alert) then [e] else []
    {
      if logOk && WithId(table.rows, e.alert).Some? { log := log + [e]; }
    }

    method Track(q: Sighting, uuid: Id, logOk: bool) returns (id: Id, created: bool)
      modifies this`table, this`log
      ensures table == Upsert(old(table), uuid, q, Snapshot(old(table), q))
      ensures created <==> Find(old(table.rows), q.cluster, Key(q.alert)).None?
      ensures var found := Find(table.rows, q.cluster, Key(q.alert)); found.Some? && id == table.rows[found.value].id
      ensures log == Logged(table, old(log), LogEntry(id, TrackKind(created, Snapshot(old(table), q)), ""), logOk)
    {
      var prior := Snapshot(table, q);
      var n := if prior.Some? then prior.value.seqNo else table.nextSeq;
      var found := Find(table.rows, q.cluster, Key(q.alert));
      created := found.None?;
      if created {
        id := uuid;
        FindAppended(table.rows, NewRow(uuid, n, q), q.cluster, Key(q.alert), uuid);
        table := Table(table.rows + [NewRow(uuid, n, q)], if prior.Some? then table.nextSeq else table.nextSeq + 1);
        Log(LogEntry(id, LogTracked, ""), logOk);
      } else {
        var row := table.rows[found.value];
        id := row.id;
        FindReplaced(table.rows, found.value, SeenAgain(row, q), q.cluster, Key(q.alert), id);
        table := table.(rows := table.rows[found.value := SeenAgain(row, q)]);
        if prior.value.state.Resolved? {
          Log(LogEntry(id, LogReopened, ""), logOk);
        } else {
          Log(LogEntry(id, LogSeen, ""), logOk);
        }
      }
    }

    method ChangeState(id: Id, st: AlertState, actor: string, now: int, logOk: bool)
      modifies this`table, this`log
      ensures table == SetState(old(table), id, st, actor, now)
      ensures log == Logged(table, old(log), LogEntry(id, StateKind(st), ""), logOk)
    {
      var found := WithId(table.rows, id);
      if found.Some? {
        var row := table.rows[found.value];
        match st {
          case Acknowledged => row := row.(state := Acknowledged, ackedBy := actor);
          case Resolved => row := row.(state := Resolved, resolvedAt := Some(now));
          case Firing => row := row.(state := Firing, resolvedAt := None);
        }
        table := table.(rows := table.rows[found.value := row]);
      }
      Log(LogEntry(id, StateKind(st), ""), logOk);
    }

    /** A second attachment of the same run changes nothing; one to an alert that does not exist fails. */
    method Attach(alert: Id, run: RunId, logOk: bool) returns (ok: bool)
      modifies this`attached, this`log
      ensures ok <==> WithId(table.rows, alert).Some?
      ensures attached == if ok && Attachment(alert, run) !in old(attached)
                          then old(attached) + [Attachment(alert, run)]
                          else old(attached)
      ensures log == Logged(table, old(log), LogEntry(alert, LogRunStarted, run), logOk)
    {
      ok := WithId(table.rows, alert).Some?;
      if ok {
        if Attachment(alert, run) !in attached { attached := attached + [Attachment(alert, run)]; }
        Log(LogEntry(alert, LogRunStarted, run), logOk);
      }
    }
  }

  // ---- any interleaving ----------------------------------------------------

  type TxId = nat

  /** `Drawn` is a statement whose snapshot showed no row, and that has its number. */
  datatype Phase = Reading(prior: Option<Prior>) | Drawn(n: nat) | Done(created: bool) | Errored
  {
    predicate Running() { Reading? || Drawn? }

    predicate Placing() { Drawn? || (Reading? && prior.Some?) }

    function Seen(): Option<Prior> { if Reading? then prior else None }

    function Number(): nat
      requires Placing()
    {
      if Drawn? then n else prior.value.seqNo
    }
  }

  datatype Tx = Tx(id: Id, q: Sighting, phase: Phase)

  /** One finished Track call, as its caller saw it. */
  datatype Tracked = Tracked(cluster: int, key: string, created: bool, tx: TxId, alert: Alert)

  datatype State = State(table: Table, txs: map<TxId, Tx>, history: seq<Tracked>)

  datatype Step =
    | Begin(t: TxId, id: Id, q: Sighting)
    | Draw(t: TxId)
    | Finish(t: TxId)
    | Fail(t: TxId)
    | Change(id: Id, st: AlertState, actor: string, now: int)

  const Init := State(EmptyTable, map[], [])

  predicate IdUsed(s: State, id: Id) {
    WithId(s.table.rows, id).Some? || exists u :: u in s.txs && s.txs[u].id == id
  }

  predicate Enabled(s: State, step: Step) {
    match step
    case Begin(t, id, q) => t !in s.txs && !IdUsed(s, id)
    case Draw(t) => t in s.txs && s.txs[t].phase == Reading(None)
    case Finish(t) => t in s.txs && s.txs[t].phase.Placing()
    case Fail(t) => t in s.txs && s.txs[t].phase.Running()
    case Change(_, _, _, _) => true
  }

  function Apply(s: State, step: Step): State
    requires Enabled(s, step)
  {
    match step
    case Begin(t, id, q) => s.(txs := s.txs[t := Tx(id, q, Reading(Snapshot(s.table, q)))])
    case Draw(t) =>
      s.(txs := s.txs[t := s.txs[t].(phase := Drawn(s.table.nextSeq))],
         table := s.table.(nextSeq := s.table.nextSeq + 1))
    case Finish(t) =>
      var tx := s.txs[t];
      var created := Find(s.table.rows, tx.q.cluster, Key(tx.q.alert)).None?;
      State(
        Place(s.table, tx.id, tx.q, tx.phase.Number()),
        s.txs[t := tx.(phase := Done(created))],
        s.history + [Tracked(tx.q.cluster, Key(tx.q.alert), created, t, tx.q.alert)])
    case Fail(t) => s.(txs := s.txs[t := s.txs[t].(phase := Errored)])
    case Change(id, st, actor, now) => s.(table := SetState(s.table, id, st, actor, now))
  }

  function Exec(s: State, schedule: seq<Step>): State
    decreases |schedule|
  {
    if schedule == [] then s
    else Exec(if Enabled(s, schedule[0]) then Apply(s, schedule[0]) else s, schedule[1..])
  }

  /** How many statements of a schedule drew a number. */
  function Draws(s: State, schedule: seq<Step>): nat
    decreases |schedule|
  {
    if schedule == [] then 0
    else
      var step := schedule[0];
      if Enabled(s, step) then (if step.Draw? then 1 else 0) + Draws(Apply(s, step), schedule[1..])
      else Draws(s, schedule[1..])
  }

  /** Numbers are given out one after the other, one to each statement whose snapshot showed no row. */
  lemma {:induction false} NumbersAreDrawn(s: State, schedule: seq<Step>)
    ensures Exec(s, schedule).table.nextSeq == s.table.nextSeq + Draws(s, schedule)
    decreases |schedule|
  {
    if schedule != [] {
      NumbersAreDrawn(if Enabled(s, schedule[0]) then Apply(s, schedule[0]) else s, schedule[1..]);
    }
  }

  function TrackAll(calls: seq<(Id, Sighting)>): Table {
    if calls == [] then EmptyTable
    else
      var t, (id, q) := TrackAll(calls[..|calls| - 1]), calls[|calls| - 1];
      Upsert(t, id, q, Snapshot(t, q))
  }

  /** Calls made one at a time number the alerts 1, 2, 3 and so on, with no number left out. */
  lemma {:induction false} OneAtATimeTheNumbersRun(calls: seq<(Id, Sighting)>)
    ensures var t := TrackAll(calls); t.nextSeq == |t.rows| + 1 && forall i :: 0 <= i < |t.rows| ==> t.rows[i].seqNo == i + 1
  {
    if calls != [] { OneAtATimeTheNumbersRun(calls[..|calls| - 1]); }
  }

  /** How many Track calls for one alert have finished, and how many of them said they created it. */
  function Sightings(h: seq<Tracked>, cluster: int, key: string): nat {
    if h == [] then 0
    else
      Sightings(h[..|h| - 1], cluster, key)
      + if h[|h| - 1].cluster == cluster && h[|h| - 1].key == key then 1 else 0
  }

  function Creations(h: seq<Tracked>, cluster: int, key: string): nat {
    if h == [] then 0
    else
      Creations(h[..|h| - 1], cluster, key)
      + if h[|h| - 1].cluster == cluster && h[|h| - 1].key == key && h[|h| - 1].created then 1 else 0
  }

  /** What the first and the last finished sighting of an alert carried. */
  function FirstSighting(h: seq<Tracked>, cluster: int, key: string): Option<Alert> {
    if h == [] then None
    else
      var before, e := FirstSighting(h[..|h| - 1], cluster, key), h[|h| - 1];
      if before.None? && e.cluster == cluster && e.key == key then Some(e.alert) else before
  }

  function LastSighting(h: seq<Tracked>, cluster: int, key: string): Option<Alert> {
    if h == [] then None
    else
      var e := h[|h| - 1];
      if e.cluster == cluster && e.key == key then Some(e.alert) else LastSighting(h[..|h| - 1], cluster, key)
  }

  lemma SightingsGrow(h: seq<Tracked>, e: Tracked, cluster: int, key: string)
    ensures var mine := e.cluster == cluster && e.key == key;
            && LastSighting(h + [e], cluster, key) == (if mine then Some(e.alert) else LastSighting(h, cluster, key))
            && FirstSighting(h + [e], cluster, key) ==
                 (if mine && FirstSighting(h, cluster, key).None? then Some(e.alert) else FirstSighting(h, cluster, key))
  {
    assert (h + [e])[..|h|] == h;
  }

  lemma HistoryGrows(h: seq<Tracked>, e: Tracked, cluster: int, key: string)
    ensures Sightings(h + [e], cluster, key) ==
            Sightings(h, cluster, key) + if e.cluster == cluster && e.key == key then 1 else 0
    ensures Creations(h + [e], cluster, key) ==
            Creations(h, cluster, key) + if e.cluster == cluster && e.key == key && e.created then 1 else 0
  {
    assert (h + [e])[..|h|] == h;
  }

  // ---- the invariant -------------------------------------------------------

  predicate RowsApart(a: Row, b: Row) {
    a.id != b.id && a.seqNo != b.seqNo && !(a.cluster == b.cluster && a.key == b.key)
  }

  predicate Unique(t: Table) {
    && (forall i, j :: 0 <= i < j < |t.rows| ==> RowsApart(t.rows[i], t.rows[j]))
    && (forall i :: 0 <= i < |t.rows| ==> t.rows[i].seqNo < t.nextSeq)
  }

  predicate RowOk(row: Row) {
    && (row.state.Firing? ==> row.resolvedAt.None?)
    && (row.state.Resolved? ==> row.resolvedAt.Some?)
  }

  predicate RowsOk(t: Table) {
    forall i :: 0 <= i < |t.rows| ==> RowOk(t.rows[i])
  }

  /** A number that was given out and stands in no row. */
  predicate Spare(t: Table, n: nat) {
    n < t.nextSeq && forall i :: 0 <= i < |t.rows| ==> t.rows[i].seqNo != n
  }

  /** A row that a snapshot showed is still there, and a number drawn is in no row. */
  predicate TxOk(t: Table, tx: Tx) {
    && (tx.phase.Running() ==> WithId(t.rows, tx.id).None?)
    && (tx.phase.Seen().Some? ==> Find(t.rows, tx.q.cluster, Key(tx.q.alert)).Some?)
    && (tx.phase.Drawn? ==> Spare(t, tx.phase.n))
  }

  /** Statements have ids of their own, and numbers of their own. */
  predicate TxsApart(a: Tx, b: Tx) {
    a.id != b.id && (a.phase.Drawn? && b.phase.Drawn? ==> a.phase.n != b.phase.n)
  }

  predicate TxsOk(s: State) {
    && (forall t :: t in s.txs ==> TxOk(s.table, s.txs[t]))
    && (forall t, u :: t in s.txs && u in s.txs && t != u ==> TxsApart(s.txs[t], s.txs[u]))
  }

  /** What the history says of one alert is what its row says. */
  predicate CountsFor(s: State, cluster: int, key: string) {
    && Sightings(s.history, cluster, key) == SeenCount(s.table, cluster, key)
    && Creations(s.history, cluster, key) == (if Find(s.table.rows, cluster, key).Some? then 1 else 0)
  }

  function SeenCount(t: Table, cluster: int, key: string): nat {
    var found := Find(t.rows, cluster, key);
    if found.Some? then t.rows[found.value].seenCount else 0
  }

  ghost predicate Counts(s: State) {
    forall cluster: int, key: string :: CountsFor(s, cluster, key)
  }

  /** A row is about what its first sighting named, and carries what its last one brought. */
  predicate CarriesFor(s: State, cluster: int, key: string) {
    var found := Find(s.table.rows, cluster, key);
    var first, last := FirstSighting(s.history, cluster, key), LastSighting(s.history, cluster, key);
    if found.None? then first.None? && last.None?
    else
      var row := s.table.rows[found.value];
      first.Some? && row.subject == SubjectOf(first.value) && last == Some(row.payload)
  }

  ghost predicate Carries(s: State) {
    forall cluster: int, key: string :: CarriesFor(s, cluster, key)
  }

  ghost predicate Inv(s: State) { Unique(s.table) && RowsOk(s.table) && TxsOk(s) && Counts(s) && Carries(s) }

  /** Every row stays where it is, and its identity, number, subject and origin stay as they were. */
  predicate Frozen(rows: seq<Row>, rows': seq<Row>) {
    && |rows| <= |rows'|
    && forall i :: 0 <= i < |rows| ==> SameIdentity(rows[i], rows'[i])
  }

  /** An update that leaves a row's identity alone keeps every row apart from every other. */
  lemma ReplacedKept(t: Table, i: nat, row: Row, nextSeq: nat)
    requires Unique(t) && RowsOk(t) && i < |t.rows| && SameIdentity(t.rows[i], row) && RowOk(row) && t.nextSeq <= nextSeq
    ensures var t' := Table(t.rows[i := row], nextSeq); Unique(t') && RowsOk(t') && Frozen(t.rows, t'.rows)
  {
    var rows := t.rows[i := row];
    assert forall j :: 0 <= j < |rows| ==> SameIdentity(t.rows[j], rows[j]);
    forall j, k | 0 <= j < k < |rows|
      ensures RowsApart(rows[j], rows[k])
    {
      assert RowsApart(t.rows[j], t.rows[k]);
    }
  }

  lemma AppendedKept(t: Table, row: Row)
    requires Unique(t) && RowsOk(t) && RowOk(row) && Spare(t, row.seqNo)
    requires WithId(t.rows, row.id).None? && Find(t.rows, row.cluster, row.key).None?
    ensures var t' := t.(rows := t.rows + [row]); Unique(t') && RowsOk(t') && Frozen(t.rows, t'.rows)
  {
    var rows := t.rows + [row];
    forall j, k | 0 <= j < k < |rows|
      ensures RowsApart(rows[j], rows[k])
    {
      if k < |t.rows| { assert RowsApart(t.rows[j], t.rows[k]); }
    }
  }

  lemma PlacedKept(t: Table, id: Id, q: Sighting, n: nat)
    requires Unique(t) && RowsOk(t) && WithId(t.rows, id).None?
    requires Find(t.rows, q.cluster, Key(q.alert)).None? ==> Spare(t, n)
    ensures var t' := Place(t, id, q, n); Unique(t') && RowsOk(t') && Frozen(t.rows, t'.rows)
  {
    var found := Find(t.rows, q.cluster, Key(q.alert));
    if found.Some? {
      ReplacedKept(t, found.value, SeenAgain(t.rows[found.value], q), t.nextSeq);
    } else {
      AppendedKept(t, NewRow(id, n, q));
    }
  }

  lemma ChangeKept(t: Table, id: Id, st: AlertState, actor: string, now: int)
    requires Unique(t) && RowsOk(t)
    ensures var t' := SetState(t, id, st, actor, now); Unique(t') && RowsOk(t') && Frozen(t.rows, t'.rows)
  {
    var found := WithId(t.rows, id);
    if found.Some? { ReplacedKept(t, found.value, Moved(t.rows[found.value], st, actor, now), t.nextSeq); }
  }

  /** After an upsert every other alert is found as before, and this one is found. */
  lemma FoundAfterPlace(t: Table, id: Id, q: Sighting, n: nat, cluster: int, key: string, other: Id)
    ensures var t' := Place(t, id, q, n);
            var found := Find(t.rows, q.cluster, Key(q.alert));
            && (cluster == q.cluster && key == Key(q.alert) ==>
                  Find(t'.rows, cluster, key) == Some(if found.Some? then found.value else |t.rows|))
            && (!(cluster == q.cluster && key == Key(q.alert)) ==> Find(t'.rows, cluster, key) == Find(t.rows, cluster, key))
            && (other != id ==> WithId(t'.rows, other) == WithId(t.rows, other))
  {
    var found := Find(t.rows, q.cluster, Key(q.alert));
    if found.Some? {
      FindReplaced(t.rows, found.value, SeenAgain(t.rows[found.value], q), cluster, key, other);
    } else {
      FindAppended(t.rows, NewRow(id, n, q), cluster, key, other);
    }
  }

  lemma FoundAfterUpsert(t: Table, id: Id, q: Sighting, prior: Option<Prior>, cluster: int, key: string, other: Id)
    ensures var t' := Upsert(t, id, q, prior);
            var found := Find(t.rows, q.cluster, Key(q.alert));
            && (cluster == q.cluster && key == Key(q.alert) ==>
                  Find(t'.rows, cluster, key) == Some(if found.Some? then found.value else |t.rows|))
            && (!(cluster == q.cluster && key == Key(q.alert)) ==> Find(t'.rows, cluster, key) == Find(t.rows, cluster, key))
            && (other != id ==> WithId(t'.rows, other) == WithId(t.rows, other))
  {
    FoundAfterPlace(t, id, q, if prior.Some? then prior.value.seqNo else t.nextSeq, cluster, key, other);
  }

  lemma FoundAfterChange(t: Table, id: Id, st: AlertState, actor: string, now: int, cluster: int, key: string, other: Id)
    ensures var t' := SetState(t, id, st, actor, now);
            Find(t'.rows, cluster, key) == Find(t.rows, cluster, key) && WithId(t'.rows, other) == WithId(t.rows, other)
  {
    var found := WithId(t.rows, id);
    if found.Some? {
      FindReplaced(t.rows, found.value, Moved(t.rows[found.value], st, actor, now), cluster, key, other);
    }
  }

  /** A number that another statement holds stays in no row. */
  lemma StaysSpare(t: Table, id: Id, q: Sighting, n: nat, other: nat)
    requires Spare(t, other) && n != other
    ensures Spare(Place(t, id, q, n), other)
  {
  }

  lemma FinishKeepsTx(s: State, t: TxId, u: TxId)
    requires TxsOk(s) && Enabled(s, Finish(t)) && u in s.txs && u != t
    ensures TxOk(Apply(s, Finish(t)).table, s.txs[u])
  {
    var tx, other := s.txs[t], s.txs[u];
    assert TxOk(s.table, tx) && TxOk(s.table, other) && TxsApart(tx, other);
    FoundAfterPlace(s.table, tx.id, tx.q, tx.phase.Number(), other.q.cluster, Key(other.q.alert), other.id);
    if other.phase.Drawn? {
      if tx.phase.Drawn? {
        StaysSpare(s.table, tx.id, tx.q, tx.phase.n, other.phase.n);
      } else {
        StaysSpareWhereFound(s.table, tx.id, tx.q, tx.phase.Number(), other.phase.n);
      }
    }
  }

  lemma StaysSpareWhereFound(t: Table, id: Id, q: Sighting, n: nat, other: nat)
    requires Spare(t, other) && Find(t.rows, q.cluster, Key(q.alert)).Some?
    ensures Spare(Place(t, id, q, n), other)
  {
  }

  lemma ChangeKeepsTx(s: State, id: Id, st: AlertState, actor: string, now: int, u: TxId)
    requires TxsOk(s) && u in s.txs
    ensures TxOk(SetState(s.table, id, st, actor, now), s.txs[u])
  {
    var q := s.txs[u].q;
    assert TxOk(s.table, s.txs[u]);
    FoundAfterChange(s.table, id, st, actor, now, q.cluster, Key(q.alert), s.txs[u].id);
  }

  lemma DrawKeepsTxs(s: State, t: TxId)
    requires Unique(s.table) && TxsOk(s) && Enabled(s, Draw(t))
    ensures TxsOk(Apply(s, Draw(t)))
  {
    var s' := Apply(s, Draw(t));
    forall u | u in s'.txs
      ensures TxOk(s'.table, s'.txs[u]) && (u != t ==> TxsApart(s'.txs[t], s'.txs[u]))
    {
      assert TxOk(s.table, s.txs[u]);
      if u != t { assert TxsApart(s.txs[t], s.txs[u]); }
    }
    assert forall u, v :: u in s.txs && v in s.txs && u != v && u != t && v != t ==> TxsApart(s'.txs[u], s'.txs[v]);
  }

  lemma BeginKeepsTxs(s: State, t: TxId, id: Id, q: Sighting)
    requires TxsOk(s) && Enabled(s, Begin(t, id, q))
    ensures TxsOk(Apply(s, Begin(t, id, q)))
  {
    forall u | u in s.txs ensures s.txs[u].id != id { }
  }

  lemma TxsKept(s: State, step: Step)
    requires Unique(s.table) && TxsOk(s) && Enabled(s, step)
    ensures TxsOk(Apply(s, step))
  {
    var s' := Apply(s, step);
    match step {
      case Begin(t, id, q) => BeginKeepsTxs(s, t, id, q);
      case Draw(t) => DrawKeepsTxs(s, t);
      case Finish(t) =>
        forall u | u in s.txs && u != t ensures TxOk(s'.table, s.txs[u]) { FinishKeepsTx(s, t, u); }
      case Fail(t) =>
      case Change(id, st, actor, now) =>
        forall u | u in s.txs ensures TxOk(s'.table, s.txs[u]) { ChangeKeepsTx(s, id, st, actor, now, u); }
    }
  }

  lemma SeenCountAfterPlace(t: Table, id: Id, q: Sighting, n: nat, cluster: int, key: string)
    ensures SeenCount(Place(t, id, q, n), cluster, key) ==
            SeenCount(t, cluster, key) + if cluster == q.cluster && key == Key(q.alert) then 1 else 0
    ensures Find(Place(t, id, q, n).rows, cluster, key).Some? <==>
            Find(t.rows, cluster, key).Some? || (cluster == q.cluster && key == Key(q.alert))
  {
    FoundAfterPlace(t, id, q, n, cluster, key, id);
  }

  lemma CountsAfterFinish(s: State, t: TxId, cluster: int, key: string)
    requires Enabled(s, Finish(t)) && CountsFor(s, cluster, key)
    ensures CountsFor(Apply(s, Finish(t)), cluster, key)
  {
    var tx := s.txs[t];
    var created := Find(s.table.rows, tx.q.cluster, Key(tx.q.alert)).None?;
    SeenCountAfterPlace(s.table, tx.id, tx.q, tx.phase.Number(), cluster, key);
    HistoryGrows(s.history, Tracked(tx.q.cluster, Key(tx.q.alert), created, t, tx.q.alert), cluster, key);
  }

  lemma CountsKept(s: State, step: Step, cluster: int, key: string)
    requires Enabled(s, step) && CountsFor(s, cluster, key)
    ensures CountsFor(Apply(s, step), cluster, key)
  {
    match step {
      case Begin(_, _, _) =>
      case Draw(_) =>
      case Fail(_) =>
      case Finish(t) => CountsAfterFinish(s, t, cluster, key);
      case Change(id, st, actor, now) => FoundAfterChange(s.table, id, st, actor, now, cluster, key, id);
    }
  }

  lemma CarriesAfterFinish(s: State, t: TxId, cluster: int, key: string)
    requires Enabled(s, Finish(t)) && CarriesFor(s, cluster, key)
    ensures CarriesFor(Apply(s, Finish(t)), cluster, key)
  {
    var tx := s.txs[t];
    var created := Find(s.table.rows, tx.q.cluster, Key(tx.q.alert)).None?;
    FoundAfterPlace(s.table, tx.id, tx.q, tx.phase.Number(), cluster, key, tx.id);
    SightingsGrow(s.history, Tracked(tx.q.cluster, Key(tx.q.alert), created, t, tx.q.alert), cluster, key);
  }

  lemma CarriesKept(s: State, step: Step, cluster: int, key: string)
    requires Enabled(s, step) && CarriesFor(s, cluster, key)
    ensures CarriesFor(Apply(s, step), cluster, key)
  {
    match step {
      case Begin(_, _, _) =>
      case Draw(_) =>
      case Fail(_) =>
      case Finish(t) => CarriesAfterFinish(s, t, cluster, key);
      case Change(id, st, actor, now) => FoundAfterChange(s.table, id, st, actor, now, cluster, key, id);
    }
  }

  lemma RowsKept(s: State, step: Step)
    requires Unique(s.table) && RowsOk(s.table) && TxsOk(s) && Enabled(s, step)
    ensures var s' := Apply(s, step); Unique(s'.table) && RowsOk(s'.table) && Frozen(s.table.rows, s'.table.rows)
  {
    match step {
      case Begin(_, _, _) =>
      case Draw(_) =>
      case Fail(_) =>
      case Finish(t) => assert TxOk(s.table, s.txs[t]); PlacedKept(s.table, s.txs[t].id, s.txs[t].q, s.txs[t].phase.Number());
      case Change(id, st, actor, now) => ChangeKept(s.table, id, st, actor, now);
    }
  }

  lemma InvStep(s: State, step: Step)
    requires Inv(s) && Enabled(s, step)
    ensures Inv(Apply(s, step)) && Frozen(s.table.rows, Apply(s, step).table.rows)
  {
    RowsKept(s, step);
    TxsKept(s, step);
    forall cluster: int, key: string
      ensures CountsFor(Apply(s, step), cluster, key) && CarriesFor(Apply(s, step), cluster, key)
    {
      CountsKept(s, step, cluster, key);
      CarriesKept(s, step, cluster, key);
    }
  }

  lemma {:induction false} InvExec(s: State, schedule: seq<Step>)
    requires Inv(s)
    ensures Inv(Exec(s, schedule)) && Frozen(s.table.rows, Exec(s, schedule).table.rows)
    decreases |schedule|
  {
    if schedule != [] {
      var s1 := if Enabled(s, schedule[0]) then Apply(s, schedule[0]) else s;
      if Enabled(s, schedule[0]) { InvStep(s, schedule[0]); }
      InvExec(s1, schedule[1..]);
    }
  }

  // ---- what holds over every history ---------------------------------------

  /** One row per (cluster, key), and numbers are never shared. */
  lemma OneRowPerAlert(schedule: seq<Step>)
    ensures Unique(Exec(Init, schedule).table)
  {
    InvExec(Init, schedule);
  }

  /** No later step takes a row away or changes its number or what it is about. */
  lemma NumbersNeverChange(before: seq<Step>, after: seq<Step>)
    ensures Frozen(Exec(Init, before).table.rows, Exec(Exec(Init, before), after).table.rows)
  {
    InvExec(Init, before);
    InvExec(Exec(Init, before), after);
  }

  /** A row's seenCount is the number of finished Track calls for it, exactly one of which created it. */
  lemma SeenCountIsTheHistory(schedule: seq<Step>, i: nat)
    requires i < |Exec(Init, schedule).table.rows|
    ensures var s := Exec(Init, schedule);
            var row := s.table.rows[i];
            row.seenCount == Sightings(s.history, row.cluster, row.key) && Creations(s.history, row.cluster, row.key) == 1
  {
    InvExec(Init, schedule);
    var s := Exec(Init, schedule);
    var row := s.table.rows[i];
    assert CountsFor(s, row.cluster, row.key);
    var found := Find(s.table.rows, row.cluster, row.key);
    assert found.value == i;
  }

  lemma {:induction false} CreationsAreSightings(h: seq<Tracked>, cluster: int, key: string)
    ensures Creations(h, cluster, key) <= Sightings(h, cluster, key)
  {
    if h != [] { CreationsAreSightings(h[..|h| - 1], cluster, key); }
  }

  /** Whatever was tracked has a row, and of all its sightings exactly one was told it created it. */
  lemma CreatedExactlyOnce(schedule: seq<Step>, cluster: int, key: string)
    ensures var s := Exec(Init, schedule);
            && Creations(s.history, cluster, key) == (if Sightings(s.history, cluster, key) > 0 then 1 else 0)
            && (Find(s.table.rows, cluster, key).Some? <==> Sightings(s.history, cluster, key) > 0)
  {
    InvExec(Init, schedule);
    assert CountsFor(Exec(Init, schedule), cluster, key);
    CreationsAreSightings(Exec(Init, schedule).history, cluster, key);
  }

  /** A firing alert is never marked resolved, and a resolved one always says when. */
  lemma ResolutionIsConsistent(schedule: seq<Step>)
    ensures RowsOk(Exec(Init, schedule).table)
  {
    InvExec(Init, schedule);
  }

  /** A sighting moves an alert's state only from resolved to firing, whatever its snapshot had shown. */
  lemma TrackOnlyReopens(t: Table, id: Id, q: Sighting, prior: Option<Prior>, i: nat)
    requires i < |t.rows|
    ensures var row, row' := t.rows[i], Upsert(t, id, q, prior).rows[i];
            && (row'.state != row.state <==> Find(t.rows, q.cluster, Key(q.alert)) == Some(i) && row.state.Resolved?)
            && (row'.state != row.state ==> row'.state.Firing? && row'.resolvedAt.None?)
            && (row'.state == row.state ==> row'.resolvedAt == row.resolvedAt)
            && row'.ackedBy == row.ackedBy
  {
  }

  /** On its own, with its snapshot still true, a Track call's log line says exactly what happened to the row. */
  lemma AloneTheLogIsTruthful(t: Table, id: Id, q: Sighting)
    ensures var prior := Snapshot(t, q);
            var found := Find(t.rows, q.cluster, Key(q.alert));
            var kind := TrackKind(found.None?, prior);
            && (kind == LogTracked <==> |Upsert(t, id, q, prior).rows| == |t.rows| + 1)
            && (kind == LogReopened <==>
                  found.Some? && Upsert(t, id, q, prior).rows[found.value].state != t.rows[found.value].state)
  {
  }

  /** A row found again by what identifies it. */
  lemma FindsItself(t: Table, i: nat)
    requires Unique(t) && i < |t.rows|
    ensures Find(t.rows, t.rows[i].cluster, t.rows[i].key) == Some(i)
  {
    var found := Find(t.rows, t.rows[i].cluster, t.rows[i].key);
    assert found.value == i;
  }

  /**
   A row keeps the subject of its first sighting, but carries the payload of its last finished
   one: what was stored when the alert was taken on is still there exactly when the last
   sighting brought the same alert as the first.
   */
  lemma PayloadIsTheLastSighting(schedule: seq<Step>, i: nat)
    requires i < |Exec(Init, schedule).table.rows|
    ensures var s := Exec(Init, schedule);
            var row := s.table.rows[i];
            var first, last := FirstSighting(s.history, row.cluster, row.key), LastSighting(s.history, row.cluster, row.key);
            && first.Some? && row.subject == SubjectOf(first.value)
            && last == Some(row.payload)
            && (Some(row.payload) == first <==> first == last)
  {
    InvExec(Init, schedule);
    var s := Exec(Init, schedule);
    FindsItself(s.table, i);
    assert CarriesFor(s, s.table.rows[i].cluster, s.table.rows[i].key);
  }

  // ---- when the log is right -----------------------------------------------

  /** The log line of a Track statement that is about to upsert. */
  function KindAt(s: State, t: TxId): LogKind
    requires Enabled(s, Finish(t))
  {
    TrackKind(Find(s.table.rows, s.txs[t].q.cluster, Key(s.txs[t].q.alert)).None?, s.txs[t].phase.Seen())
  }

  /** The upsert takes the alert from resolved back to firing. */
  predicate Reopens(s: State, t: TxId)
    requires Enabled(s, Finish(t))
  {
    var found := Find(s.table.rows, s.txs[t].q.cluster, Key(s.txs[t].q.alert));
    var rows' := Apply(s, Finish(t)).table.rows;
    found.Some? && found.value < |rows'| && rows'[found.value].state != s.table.rows[found.value].state
  }

  /** Between snapshot and upsert the alert was neither resolved nor reopened by somebody else. */
  predicate Undisturbed(s: State, t: TxId)
    requires Enabled(s, Finish(t))
  {
    var found := Find(s.table.rows, s.txs[t].q.cluster, Key(s.txs[t].q.alert));
    var prior := s.txs[t].phase.Seen();
    found.None? || ((prior.Some? && prior.value.state.Resolved?) <==> s.table.rows[found.value].state.Resolved?)
  }

  lemma TruthfulIfUndisturbed(schedule: seq<Step>, t: TxId)
    requires Enabled(Exec(Init, schedule), Finish(t))
    ensures var s := Exec(Init, schedule);
            && ((KindAt(s, t) == LogReopened <==> Reopens(s, t)) <==> Undisturbed(s, t))
            && (KindAt(s, t) == LogTracked <==> |Apply(s, Finish(t)).table.rows| == |s.table.rows| + 1)
  {
    var s := Exec(Init, schedule);
    InvExec(Init, schedule);
    assert TxOk(s.table, s.txs[t]);
  }

  predicate ResolvedNow(t: Table, cluster: int, key: string) {
    var found := Find(t.rows, cluster, key);
    found.Some? && t.rows[found.value].state.Resolved?
  }

  /** Whether a step leaves the alert resolved; nothing if it does not concern that alert. */
  function Said(s: State, step: Step, cluster: int, key: string): Option<bool>
    requires Enabled(s, step)
  {
    match step
    case Change(id, st, _, _) =>
      var found := Find(s.table.rows, cluster, key);
      if found.Some? && WithId(s.table.rows, id) == found then Some(st.Resolved?) else None
    case Finish(t) => if s.txs[t].q.cluster == cluster && Key(s.txs[t].q.alert) == key then Some(false) else None
    case _ => None
  }

  /** What the last state change or finished sighting of the alert in a schedule said, if there was one. */
  function LastSaid(s: State, schedule: seq<Step>, cluster: int, key: string): Option<bool>
    decreases |schedule|
  {
    if schedule == [] then None
    else if !Enabled(s, schedule[0]) then LastSaid(s, schedule[1..], cluster, key)
    else
      var later := LastSaid(Apply(s, schedule[0]), schedule[1..], cluster, key);
      if later.Some? then later else Said(s, schedule[0], cluster, key)
  }

  lemma FinishSays(s: State, t: TxId, cluster: int, key: string)
    requires Enabled(s, Finish(t))
    ensures ResolvedNow(Apply(s, Finish(t)).table, cluster, key) ==
            var said := Said(s, Finish(t), cluster, key);
            if said.Some? then said.value else ResolvedNow(s.table, cluster, key)
  {
    var tx := s.txs[t];
    FoundAfterPlace(s.table, tx.id, tx.q, tx.phase.Number(), cluster, key, tx.id);
  }

  lemma ChangeSays(s: State, id: Id, st: AlertState, actor: string, now: int, cluster: int, key: string)
    ensures ResolvedNow(SetState(s.table, id, st, actor, now), cluster, key) ==
            var said := Said(s, Change(id, st, actor, now), cluster, key);
            if said.Some? then said.value else ResolvedNow(s.table, cluster, key)
  {
    FoundAfterChange(s.table, id, st, actor, now, cluster, key, id);
  }

  lemma {:induction false} LastSaidHolds(s: State, schedule: seq<Step>, cluster: int, key: string)
    ensures ResolvedNow(Exec(s, schedule).table, cluster, key) ==
            var said := LastSaid(s, schedule, cluster, key);
            if said.Some? then said.value else ResolvedNow(s.table, cluster, key)
    decreases |schedule|
  {
    if schedule != [] {
      var step := schedule[0];
      LastSaidHolds(if Enabled(s, step) then Apply(s, step) else s, schedule[1..], cluster, key);
      if Enabled(s, step) {
        match step {
          case Finish(t) => FinishSays(s, t, cluster, key);
          case Change(id, st, actor, now) => ChangeSays(s, id, st, actor, now, cluster, key);
          case _ =>
        }
      }
    }
  }

  /** A statement that is still running is about the same alert, and saw what it saw. */
  lemma {:induction false} SightStays(s: State, schedule: seq<Step>, t: TxId)
    requires t in s.txs
    ensures var s' := Exec(s, schedule);
            && t in s'.txs && s'.txs[t].q == s.txs[t].q
            && (s'.txs[t].phase.Running() ==> s.txs[t].phase.Running() && s'.txs[t].phase.Seen() == s.txs[t].phase.Seen())
    decreases |schedule|
  {
    if schedule != [] {
      SightStays(if Enabled(s, schedule[0]) then Apply(s, schedule[0]) else s, schedule[1..], t);
    }
  }

  lemma ExecConcat(s: State, a: seq<Step>, b: seq<Step>)
    ensures Exec(s, a + b) == Exec(Exec(s, a), b)
    decreases |a|
  {
    if a == [] {
      assert a + b == b;
    } else {
      assert (a + b)[1..] == a[1..] + b;
      ExecConcat(if Enabled(s, a[0]) then Apply(s, a[0]) else s, a[1..], b);
    }
  }

  lemma BeginThen(before: seq<Step>, step: Step, between: seq<Step>)
    requires Enabled(Exec(Init, before), step)
    ensures Exec(Init, before + [step] + between) == Exec(Apply(Exec(Init, before), step), between)
  {
    ExecLast(Init, before, step);
    ExecConcat(Init, before + [step], between);
  }

  /**
   In every interleaving: the log line of a Track call tells a reopening from a sighting exactly
   when nobody spoke about the alert between its snapshot and its upsert, or whoever spoke last
   left it resolved or not just as the snapshot had shown it.
   */
  lemma LogIsTruthfulExactlyWhen(before: seq<Step>, t: TxId, id: Id, q: Sighting, between: seq<Step>)
    requires Enabled(Exec(Init, before), Begin(t, id, q))
    requires Enabled(Exec(Apply(Exec(Init, before), Begin(t, id, q)), between), Finish(t))
    ensures var s0 := Exec(Init, before);
            var s := Exec(Apply(s0, Begin(t, id, q)), between);
            var said := LastSaid(Apply(s0, Begin(t, id, q)), between, q.cluster, Key(q.alert));
            && ((KindAt(s, t) == LogReopened <==> Reopens(s, t)) <==>
                  said == None || said == Some(ResolvedNow(s0.table, q.cluster, Key(q.alert))))
            && (KindAt(s, t) == LogTracked <==> |Apply(s, Finish(t)).table.rows| == |s.table.rows| + 1)
  {
    var s0 := Exec(Init, before);
    var s1 := Apply(s0, Begin(t, id, q));
    BeginThen(before, Begin(t, id, q), between);
    var whole := before + [Begin(t, id, q)] + between;
    TruthfulIfUndisturbed(whole, t);
    SightStays(s1, between, t);
    LastSaidHolds(s1, between, q.cluster, Key(q.alert));
    InvExec(Init, whole);
    assert TxOk(Exec(Init, whole).table, Exec(Init, whole).txs[t]);
  }

  /** Acknowledging keeps whatever resolution the row had, so a resolved alert stays marked resolved. */
  lemma AcknowledgingKeepsResolution(schedule: seq<Step>, i: nat, actor: string, now: int)
    requires i < |Exec(Init, schedule).table.rows|
    ensures var row := Exec(Init, schedule).table.rows[i];
            var row' := Moved(row, Acknowledged, actor, now);
            && row'.resolvedAt == row.resolvedAt
            && (!row.state.Acknowledged? ==> (row'.resolvedAt.Some? <==> row.state.Resolved?))
  {
    ResolutionIsConsistent(schedule);
    assert RowOk(Exec(Init, schedule).table.rows[i]);
  }

  lemma {:induction false} ExecLast(s: State, schedule: seq<Step>, step: Step)
    requires Enabled(Exec(s, schedule), step)
    ensures Exec(s, schedule + [step]) == Apply(Exec(s, schedule), step)
    decreases |schedule|
  {
    if schedule == [] {
      assert [step][1..] == [];
      assert Exec(Apply(s, step), []) == Apply(s, step);
    } else {
      assert (schedule + [step])[1..] == schedule[1..] + [step];
      ExecLast(if Enabled(s, schedule[0]) then Apply(s, schedule[0]) else s, schedule[1..], step);
    }
  }

  lemma OneRowFound(row: Row)
    ensures Find([row], row.cluster, row.key) == Some(0) && WithId([row], row.id) == Some(0)
    ensures forall id: Id :: id != row.id ==> WithId([row], id).None?
  {
    assert [row][..0] == [];
  }

  /** One alert, tracked once. */
  function Once(q: Sighting): State {
    State(
      Table([NewRow("a", 1, q)], 2),
      map[0 := Tx("a", q, Done(true))],
      [Tracked(q.cluster, Key(q.alert), true, 0, q.alert)])
  }

  lemma OnceIsReachable(q: Sighting) returns (schedule: seq<Step>)
    ensures Exec(Init, schedule) == Once(q)
  {
    schedule := [];
    assert Exec(Init, schedule) == Init;
    ExecLast(Init, schedule, Begin(0, "a", q));
    schedule := schedule + [Begin(0, "a", q)];
    assert Exec(Init, schedule) == State(EmptyTable, map[0 := Tx("a", q, Reading(None))], []);
    ExecLast(Init, schedule, Draw(0));
    schedule := schedule + [Draw(0)];
    ExecLast(Init, schedule, Finish(0));
    schedule := schedule + [Finish(0)];
  }

  /** The same alert, resolved, with any transactions and history. */
  function Closed(s: State, q: Sighting): State {
    s.(table := Table([Moved(NewRow("a", 1, q), Resolved, "ui", 9)], 2))
  }

  lemma ResolveStep(s: State, q: Sighting)
    requires s.table == Table([NewRow("a", 1, q)], 2)
    ensures Apply(s, Change("a", Resolved, "ui", 9)) == Closed(s, q)
  {
    OneRowFound(NewRow("a", 1, q));
  }

  /** Another statement takes its snapshot of the one row. */
  lemma SnapshotStep(s: State, row: Row, t: TxId, id: Id, q: Sighting)
    requires s.table == Table([row], 2) && row.id == "a" && row.cluster == q.cluster && row.key == Key(q.alert)
    requires t !in s.txs && id != "a" && forall u :: u in s.txs ==> s.txs[u].id != id
    ensures Enabled(s, Begin(t, id, q))
    ensures Apply(s, Begin(t, id, q)) == s.(txs := s.txs[t := Tx(id, q, Reading(Some(Prior(row.state, row.seqNo))))])
  {
    OneRowFound(row);
  }

  /** A resolve between snapshot and upsert: the alert is reopened, and its log calls that an ordinary sighting. */
  lemma ReopeningCanGoUnlogged(q: Sighting) returns (schedule: seq<Step>)
    ensures var s := Exec(Init, schedule); Enabled(s, Finish(1)) && Reopens(s, 1) && KindAt(s, 1) == LogSeen
  {
    schedule := OnceIsReachable(q);
    SnapshotStep(Once(q), NewRow("a", 1, q), 1, "b", q);
    ExecLast(Init, schedule, Begin(1, "b", q));
    schedule := schedule + [Begin(1, "b", q)];
    ResolveStep(Exec(Init, schedule), q);
    ExecLast(Init, schedule, Change("a", Resolved, "ui", 9));
    schedule := schedule + [Change("a", Resolved, "ui", 9)];
    OneRowFound(Moved(NewRow("a", 1, q), Resolved, "ui", 9));
  }

  /** Two sightings of one resolved alert: the first reopens it, and the second logs a reopening that did not happen. */
  lemma ReopeningCanBeLoggedTwice(q: Sighting) returns (schedule: seq<Step>)
    ensures var s := Exec(Init, schedule); Enabled(s, Finish(2)) && !Reopens(s, 2) && KindAt(s, 2) == LogReopened
  {
    var row := Moved(NewRow("a", 1, q), Resolved, "ui", 9);
    schedule := OnceIsReachable(q);
    ResolveStep(Once(q), q);
    ExecLast(Init, schedule, Change("a", Resolved, "ui", 9));
    schedule := schedule + [Change("a", Resolved, "ui", 9)];
    SnapshotStep(Exec(Init, schedule), row, 1, "b", q);
    ExecLast(Init, schedule, Begin(1, "b", q));
    schedule := schedule + [Begin(1, "b", q)];
    SnapshotStep(Exec(Init, schedule), row, 2, "c", q);
    ExecLast(Init, schedule, Begin(2, "c", q));
    schedule := schedule + [Begin(2, "c", q)];
    OneRowFound(row);
    OneRowFound(SeenAgain(row, q));
    ExecLast(Init, schedule, Finish(1));
    schedule := schedule + [Finish(1)];
    assert Exec(Init, schedule).table.rows == [SeenAgain(row, q)];
  }

  /** A second sighting of the same alert with anything else in it replaces what was stored when it was taken on. */
  lemma PayloadCanBeOverwritten(q: Sighting, again: Sighting) returns (schedule: seq<Step>)
    requires again.cluster == q.cluster && Key(again.alert) == Key(q.alert) && again.alert != q.alert
    ensures var s := Exec(Init, schedule);
            && |s.table.rows| == 1 && FirstSighting(s.history, q.cluster, Key(q.alert)) == Some(q.alert)
            && s.table.rows[0].payload == again.alert && s.table.rows[0].payload != q.alert
  {
    var row := NewRow("a", 1, q);
    schedule := OnceIsReachable(q);
    SightingsGrow([], Once(q).history[0], q.cluster, Key(q.alert));
    assert [] + [Once(q).history[0]] == Once(q).history;
    SnapshotStep(Once(q), row, 1, "b", again);
    ExecLast(Init, schedule, Begin(1, "b", again));
    schedule := schedule + [Begin(1, "b", again)];
    OneRowFound(row);
    ExecLast(Init, schedule, Finish(1));
    schedule := schedule + [Finish(1)];
    SightingsGrow(Once(q).history, Tracked(again.cluster, Key(again.alert), false, 1, again.alert), q.cluster, Key(q.alert));
  }

  // ---- what a row keeps and what it takes over ------------------------------

  /**
   A state change touches the row with that id and no other, and of it only this: the state; who
   acknowledged it, when it is acknowledged; when it was resolved, when it is resolved or fires
   again.
   */
  lemma ChangeMeans(t: Table, id: Id, st: AlertState, actor: string, now: int, i: nat)
    requires i < |t.rows|
    ensures var rows' := SetState(t, id, st, actor, now).rows;
            && |rows'| == |t.rows|
            && (WithId(t.rows, id) != Some(i) ==> rows'[i] == t.rows[i])
            && (WithId(t.rows, id) == Some(i) ==>
                  && SameIdentity(t.rows[i], rows'[i])
                  && rows'[i].payload == t.rows[i].payload && rows'[i].priority == t.rows[i].priority
                  && rows'[i].seenCount == t.rows[i].seenCount
                  && rows'[i].state == st
                  && rows'[i].ackedBy == (if st.Acknowledged? then actor else t.rows[i].ackedBy)
                  && rows'[i].resolvedAt == (
                       match st
                       case Acknowledged => t.rows[i].resolvedAt
                       case Resolved => Some(now)
                       case Firing => None))
  {
  }

  /**
   A sighting touches the row of its alert and no other: it is counted, what it carries and how
   urgent it is are taken over, and the alert fires again if it was resolved; who acknowledged it
   stays. An alert without a row gets one that fires, seen once.
   */
  lemma SightingMeans(t: Table, id: Id, q: Sighting, n: nat, i: nat)
    ensures var found, rows' := Find(t.rows, q.cluster, Key(q.alert)), Place(t, id, q, n).rows;
            && |rows'| == |t.rows| + (if found.None? then 1 else 0)
            && (i < |t.rows| && found != Some(i) ==> rows'[i] == t.rows[i])
            && (found == Some(i) ==>
                  && SameIdentity(t.rows[i], rows'[i])
                  && rows'[i].payload == q.alert && rows'[i].priority == q.priority
                  && rows'[i].seenCount == t.rows[i].seenCount + 1 && rows'[i].ackedBy == t.rows[i].ackedBy
                  && rows'[i].state == (if t.rows[i].state.Resolved? then Firing else t.rows[i].state)
                  && rows'[i].resolvedAt == (if t.rows[i].state.Resolved? then None else t.rows[i].resolvedAt))
            && (found.None? ==>
                  rows'[|t.rows|] == Row(id, n, q.cluster, Key(q.alert),
                                         Subject(q.alert.name, q.alert.namespace, q.alert.kind, q.alert.resource),
                                         q.origin, q.alert, q.priority, Firing, 1, "", None))
  {
  }

  /** What the alert's log calls each of them. */
  lemma KindsMean(created: bool, prior: Option<Prior>)
    ensures StateKind(Acknowledged) == LogAcked && StateKind(Resolved) == LogResolved && StateKind(Firing) == LogReopened
    ensures created ==> TrackKind(created, prior) == LogTracked
    ensures !created && prior.Some? ==> (TrackKind(created, prior) == LogReopened <==> prior.value.state.Resolved?)
    ensures !created && TrackKind(created, prior) != LogReopened ==> TrackKind(created, prior) == LogSeen
  {
  }
}
