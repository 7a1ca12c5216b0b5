/**
 The run rows over a whole deployment: handlers create and submit, pool workers take,
 start and finish, people cancel, the process restarts and reclaims. Start and Finish
 write the row whatever it holds; Cancel and Reclaim look first. Runs have no context here:
 one that was canceled while the process holds it may finish with any terminal status, as an
 execution whose work was done by then does.
 */
module Lifecycle {
  import opened Runs

  /** Room in the submission queue. */
  const QueueSize := 256

  // ---- the rows ------------------------------------------------------------

  type Rows = map<RunId, Status>

  predicate Open(st: Status) { st.Queued? || st.Running? }

  function Set(rows: Rows, run: RunId, st: Status): Rows {
    if run in rows then rows[run := st] else rows
  }

  function Canceling(rows: Rows, run: RunId): Rows {
    if run in rows && Open(rows[run]) then rows[run := Canceled] else rows
  }

  function Reclaimed(rows: Rows): Rows {
    map run | run in rows :: if Open(rows[run]) then Failed else rows[run]
  }

  class RunStore {
    var rows: Rows

    constructor ()
      ensures rows == map[]
    {
      rows := map[];
    }

    /** Ids are fresh. */
    method Create(run: RunId)
      requires run !in rows
      modifies this
      ensures rows == old(rows)[run := Queued]
    {
      rows := rows[run := Queued];
    }

    method Start(run: RunId)
      modifies this
      ensures rows == Set(old(rows), run, Running)
    {
      if run in rows { rows := rows[run := Running]; }
    }

    method Finish(run: RunId, st: Status)
      modifies this
      ensures rows == Set(old(rows), run, st)
    {
      if run in rows { rows := rows[run := st]; }
    }

    method Cancel(run: RunId) returns (ok: bool)
      modifies this
      ensures rows == Canceling(old(rows), run)
      ensures ok <==> run in old(rows) && Open(old(rows)[run])
    {
      ok := run in rows && Open(rows[run]);
      if ok { rows := rows[run := Canceled]; }
    }

    method Reclaim() returns (n: nat)
      modifies this
      ensures rows == Reclaimed(old(rows))
      ensures n == |set run | run in old(rows) && Open(old(rows)[run])|
      ensures forall run :: run in rows ==> !Open(rows[run])
    {
      n := |set run | run in rows && Open(rows[run])|;
      rows := map run | run in rows :: if Open(rows[run]) then Failed else rows[run];
    }
  }

  // ---- the deployment ------------------------------------------------------

  /** Where the process has a run: created and not submitted, queued, loaded by a worker, or started. */
  datatype Place = Fresh | Waiting | Loaded | InHand

  datatype State = State(
    rows: Rows,
    places: map<RunId, Place>,       // what the process still holds; lost in a restart
    queue: seq<RunId>,
    traces: map<RunId, seq<Status>>, // every status a row has held, in order
    canceled: set<RunId>)            // runs whose row a Cancel has ever changed

  datatype Step =
    | Create(run: RunId)
    | Submit(run: RunId, rowOk: bool)
    | Take
    | Drop(run: RunId)
    | Start(run: RunId)
    | Finish(run: RunId, st: Status, rowOk: bool)
    | Cancel(run: RunId)
    | Restart(reclaims: bool)

  const Init := State(map[], map[], [], map[], {})

  predicate Enabled(s: State, step: Step) {
    match step
    case Create(run) => run !in s.rows
    case Submit(run, _) => run in s.places && s.places[run].Fresh?
    case Take => s.queue != []
    case Drop(run) => run in s.places && s.places[run].Loaded?
    case Start(run) => run in s.places && s.places[run].Loaded?
    case Finish(run, st, _) => run in s.places && s.places[run].InHand? && Terminal(st)
    case Cancel(run) => true
    case Restart(_) => true
  }

  /** Rows change, and each change is added to the trace of its run. */
  function Recorded(s: State, rows: Rows): State
    requires s.traces.Keys == s.rows.Keys && s.rows.Keys <= rows.Keys
  {
    s.(rows := rows,
       traces := map run | run in rows ::
         if run !in s.rows then [rows[run]]
         else if rows[run] == s.rows[run] then s.traces[run]
         else s.traces[run] + [rows[run]])
  }

  function Apply(s: State, step: Step): State
    requires s.traces.Keys == s.rows.Keys
    requires Enabled(s, step)
  {
    match step
    case Create(run) => Recorded(s, s.rows[run := Queued]).(places := s.places[run := Fresh])
    case Submit(run, rowOk) =>
      if |s.queue| < QueueSize then s.(places := s.places[run := Waiting], queue := s.queue + [run])
      else Recorded(s, if rowOk then Set(s.rows, run, Failed) else s.rows).(places := s.places - {run})
    case Take => s.(places := s.places[s.queue[0] := Loaded], queue := s.queue[1..])
    case Drop(run) => s.(places := s.places - {run})
    case Start(run) => Recorded(s, Set(s.rows, run, Running)).(places := s.places[run := InHand])
    case Finish(run, st, rowOk) =>
      Recorded(s, if rowOk then Set(s.rows, run, st) else s.rows).(places := s.places - {run})
    case Cancel(run) =>
      Recorded(s, Canceling(s.rows, run)).(
        canceled := if run in s.rows && Open(s.rows[run]) then s.canceled + {run} else s.canceled)
    case Restart(reclaims) => Recorded(s, if reclaims then Reclaimed(s.rows) else s.rows).(places := map[], queue := [])
  }

  function Exec(s: State, schedule: seq<Step>): (r: State)
    requires s.traces.Keys == s.rows.Keys
    ensures r.traces.Keys == r.rows.Keys
    decreases |schedule|
  {
    if schedule == [] then s
    else Exec(if Enabled(s, schedule[0]) then Apply(s, schedule[0]) else s, schedule[1..])
  }

  // ---- the invariant -------------------------------------------------------

  /** The statuses a run that nobody canceled goes through, and where the process then has it. */
  predicate Orderly(trace: seq<Status>, place: Option<Place>) {
    || trace == [Queued]
    || (trace == [Queued, Failed] && place.None?)
    || (trace == [Queued, Running] && (place.None? || place.value.InHand?))
    || (|trace| == 3 && trace[0] == Queued && trace[1] == Running && Terminal(trace[2]) && place.None?)
  }

  function PlaceOf(s: State, run: RunId): Option<Place> {
    if run in s.places then Some(s.places[run]) else None
  }

  predicate RunOk(s: State, run: RunId)
    requires run in s.rows && s.traces.Keys == s.rows.Keys
  {
    var trace, place := s.traces[run], PlaceOf(s, run);
    && trace != [] && trace[|trace| - 1] == s.rows[run]
    && (run !in s.canceled ==> Orderly(trace, place))
    && (run !in s.canceled && trace == [Queued] && place.Some? ==> !place.value.InHand?)
    && (place.Some? && Terminal(s.rows[run]) ==> s.rows[run].Canceled?)
  }

  predicate QueueOk(s: State) {
    && (forall i :: 0 <= i < |s.queue| ==> s.queue[i] in s.places && s.places[s.queue[i]].Waiting?)
    && (forall i, j :: 0 <= i < j < |s.queue| ==> s.queue[i] != s.queue[j])
    && (forall run :: run in s.places && s.places[run].Waiting? ==> run in s.queue)
    && s.places.Keys <= s.rows.Keys
  }

  ghost predicate Inv(s: State) {
    && s.traces.Keys == s.rows.Keys
    && QueueOk(s)
    && forall run :: run in s.rows ==> RunOk(s, run)
  }

  lemma SubmitKeepsQueue(s: State, run: RunId, rowOk: bool)
    requires s.traces.Keys == s.rows.Keys && QueueOk(s) && Enabled(s, Submit(run, rowOk))
    ensures QueueOk(Apply(s, Submit(run, rowOk)))
  {
    if |s.queue| < QueueSize {
      var queue := s.queue + [run];
      assert run !in s.queue;
      assert queue[|s.queue|] == run;
      assert forall other :: other in s.queue ==> other in queue;
    }
  }

  lemma FirstAndRest(queue: seq<RunId>)
    requires queue != [] && forall i, j :: 0 <= i < j < |queue| ==> queue[i] != queue[j]
    ensures var rest := queue[1..];
            && queue[0] !in rest
            && (forall i, j :: 0 <= i < j < |rest| ==> rest[i] != rest[j])
            && (forall i :: 0 <= i < |rest| ==> rest[i] == queue[i + 1])
            && (forall run :: run in queue ==> run == queue[0] || run in rest)
  {
    assert queue == [queue[0]] + queue[1..];
  }

  lemma TakeKeepsQueue(s: State)
    requires s.traces.Keys == s.rows.Keys && QueueOk(s) && Enabled(s, Take)
    ensures QueueOk(Apply(s, Take))
  {
    FirstAndRest(s.queue);
    assert forall i :: 0 <= i < |s.queue[1..]| ==> s.queue[1..][i] in s.queue[1..];
  }

  lemma QueueKept(s: State, step: Step)
    requires s.traces.Keys == s.rows.Keys && QueueOk(s) && Enabled(s, step)
    ensures QueueOk(Apply(s, step))
  {
    match step {
      case Submit(run, rowOk) => SubmitKeepsQueue(s, run, rowOk);
      case Take => TakeKeepsQueue(s);
      case _ =>
    }
  }

  lemma TraceAfter(s: State, rows: Rows, run: RunId)
    requires s.traces.Keys == s.rows.Keys && s.rows.Keys <= rows.Keys && run in s.rows
    ensures Recorded(s, rows).traces[run] == if rows[run] == s.rows[run] then s.traces[run] else s.traces[run] + [rows[run]]
  {
  }

  /** The row of one run after a step. */
  function RowAfter(s: State, step: Step, run: RunId): Status
    requires run in s.rows && Enabled(s, step)
  {
    match step
    case Submit(r, rowOk) => if r == run && rowOk && |s.queue| >= QueueSize then Failed else s.rows[run]
    case Start(r) => if r == run then Running else s.rows[run]
    case Finish(r, st, rowOk) => if r == run && rowOk then st else s.rows[run]
    case Cancel(r) => if r == run && Open(s.rows[run]) then Canceled else s.rows[run]
    case Restart(reclaims) => if reclaims && Open(s.rows[run]) then Failed else s.rows[run]
    case _ => s.rows[run]
  }

  lemma OneRun(s: State, step: Step, run: RunId)
    requires s.traces.Keys == s.rows.Keys && Enabled(s, step) && run in s.rows
    ensures var s' := Apply(s, step);
            var row := RowAfter(s, step, run);
            && run in s'.rows && s'.rows[run] == row
            && s'.traces[run] == (if row == s.rows[run] then s.traces[run] else s.traces[run] + [row])
  {
    match step {
      case Create(r) => TraceAfter(s, s.rows[r := Queued], run);
      case Submit(r, rowOk) => TraceAfter(s, if rowOk then Set(s.rows, r, Failed) else s.rows, run);
      case Start(r) => TraceAfter(s, Set(s.rows, r, Running), run);
      case Finish(r, st, rowOk) => TraceAfter(s, if rowOk then Set(s.rows, r, st) else s.rows, run);
      case Cancel(r) => TraceAfter(s, Canceling(s.rows, r), run);
      case Restart(reclaims) => TraceAfter(s, if reclaims then Reclaimed(s.rows) else s.rows, run);
      case _ =>
    }
  }

  /** Where the process has one run after a step. */
  function PlaceAfter(s: State, step: Step, run: RunId): Option<Place>
    requires Enabled(s, step)
  {
    match step
    case Submit(r, _) => if r != run then PlaceOf(s, run) else if |s.queue| < QueueSize then Some(Waiting) else None
    case Take => if s.queue[0] == run then Some(Loaded) else PlaceOf(s, run)
    case Drop(r) => if r == run then None else PlaceOf(s, run)
    case Start(r) => if r == run then Some(InHand) else PlaceOf(s, run)
    case Finish(r, _, _) => if r == run then None else PlaceOf(s, run)
    case Restart(_) => None
    case _ => PlaceOf(s, run)
  }

  lemma PlaceMoves(s: State, step: Step, run: RunId)
    requires s.traces.Keys == s.rows.Keys && Enabled(s, step) && run in s.rows
    ensures PlaceOf(Apply(s, step), run) == PlaceAfter(s, step, run)
  {
  }

  lemma RunMoves(s: State, step: Step, run: RunId)
    requires s.traces.Keys == s.rows.Keys && QueueOk(s) && Enabled(s, step)
    requires run in s.rows && RunOk(s, run)
    ensures RunOk(Apply(s, step), run)
  {
    OneRun(s, step, run);
    PlaceMoves(s, step, run);
  }

  lemma RunKept(s: State, step: Step, run: RunId)
    requires s.traces.Keys == s.rows.Keys && QueueOk(s) && Enabled(s, step)
    requires run in s.rows ==> RunOk(s, run)
    requires run in Apply(s, step).rows
    ensures RunOk(Apply(s, step), run)
  {
    if run in s.rows {
      RunMoves(s, step, run);
    } else {
      assert step == Create(run);
      assert Apply(s, step).traces[run] == [Queued];
    }
  }

  lemma InvStep(s: State, step: Step)
    requires Inv(s) && Enabled(s, step)
    ensures Inv(Apply(s, step))
  {
    QueueKept(s, step);
    forall run | run in Apply(s, step).rows
      ensures RunOk(Apply(s, step), run)
    {
      RunKept(s, step, run);
    }
  }

  lemma {:induction false} InvExec(s: State, schedule: seq<Step>)
    requires Inv(s)
    ensures Inv(Exec(s, schedule))
    decreases |schedule|
  {
    if schedule != [] {
      if Enabled(s, schedule[0]) { InvStep(s, schedule[0]); }
      InvExec(if Enabled(s, schedule[0]) then Apply(s, schedule[0]) else s, schedule[1..]);
    }
  }

  /**
   A run nobody cancels only ever goes from queued to running to one terminal status, or from
   queued straight to failed: at a full queue, or reclaimed in a restart.
   */
  lemma NeverCanceledRunsAreOrderly(schedule: seq<Step>, run: RunId)
    requires run in Exec(Init, schedule).rows && run !in Exec(Init, schedule).canceled
    ensures var s := Exec(Init, schedule);
            var trace := s.traces[run];
            && trace != [] && trace[|trace| - 1] == s.rows[run]
            && (trace == [Queued] || trace == [Queued, Failed] || trace == [Queued, Running]
                || (|trace| == 3 && trace[..2] == [Queued, Running] && Terminal(trace[2])))
  {
    InvExec(Init, schedule);
    assert RunOk(Exec(Init, schedule), run);
  }

  /** The only terminal status a row ever leaves is canceled, whatever happened to the run before. */
  lemma OnlyCanceledIsEverLeft(schedule: seq<Step>, step: Step, run: RunId)
    requires run in Exec(Init, schedule).rows && Terminal(Exec(Init, schedule).rows[run])
    requires Enabled(Exec(Init, schedule), step)
    ensures var s := Exec(Init, schedule);
            var s' := Apply(s, step);
            run in s'.rows && (s'.rows[run] != s.rows[run] ==> s.rows[run].Canceled? && run in s.places)
  {
    InvExec(Init, schedule);
    assert RunOk(Exec(Init, schedule), run);
  }

  // ---- when a terminal status is final -------------------------------------

  lemma LetGoStep(s: State, step: Step, run: RunId)
    requires s.traces.Keys == s.rows.Keys && QueueOk(s) && Enabled(s, step)
    requires run in s.rows && Terminal(s.rows[run]) && run !in s.places
    ensures var s' := Apply(s, step); run in s'.rows && s'.rows[run] == s.rows[run] && run !in s'.places
  {
    if step.Take? { assert s.queue[0] in s.places; }
  }

  lemma {:induction false} LetGoStaysLetGo(s: State, schedule: seq<Step>, run: RunId)
    requires Inv(s) && run in s.rows && Terminal(s.rows[run]) && run !in s.places
    ensures var s' := Exec(s, schedule); run in s'.rows && s'.rows[run] == s.rows[run]
    decreases |schedule|
  {
    if schedule != [] {
      var step := schedule[0];
      var s1 := if Enabled(s, step) then Apply(s, step) else s;
      if Enabled(s, step) {
        InvStep(s, step);
        LetGoStep(s, step, run);
      }
      LetGoStaysLetGo(s1, schedule[1..], run);
    }
  }

  lemma ExecStep(s: State, step: Step, rest: seq<Step>)
    requires s.traces.Keys == s.rows.Keys && Enabled(s, step)
    ensures Exec(s, [step] + rest) == Exec(Apply(s, step), rest)
  {
    assert ([step] + rest)[1..] == rest;
  }

  /** A run the process holds can end well, canceled or not, from wherever it is. */
  lemma {:induction false} HeldRunsCanSucceed(s: State, run: RunId) returns (schedule: seq<Step>)
    requires Inv(s) && run in s.rows && run in s.places
    ensures var s' := Exec(s, schedule); run in s'.rows && s'.rows[run].Succeeded?
    decreases match s.places[run] case Fresh => 3 case Waiting => 2 case Loaded => 1 case InHand => 0, |s.queue|
  {
    assert RunOk(s, run);
    var step :=
      match s.places[run]
      case Fresh => if |s.queue| < 256 then Submit(run, true) else Take
      case Waiting => Take
      case Loaded => Start(run)
      case InHand => Finish(run, Succeeded, true);
    var s1 := Apply(s, step);
    InvStep(s, step);
    assert run in s1.rows;
    var rest := [];
    if !s.places[run].InHand? {
      assert run in s1.places;
      rest := HeldRunsCanSucceed(s1, run);
    }
    assert Exec(s1, []) == s1;
    ExecStep(s, step, rest);
    schedule := [step] + rest;
  }

  /** A terminal status is final exactly when the process holds the run no longer. */
  lemma FinalExactlyWhenLetGo(before: seq<Step>, run: RunId)
    requires run in Exec(Init, before).rows && Terminal(Exec(Init, before).rows[run])
    ensures var s := Exec(Init, before);
            run !in s.places <==>
              forall after :: run in Exec(s, after).rows && Exec(s, after).rows[run] == s.rows[run]
  {
    var s := Exec(Init, before);
    InvExec(Init, before);
    if run in s.places {
      assert RunOk(s, run);
      var after := HeldRunsCanSucceed(s, run);
      assert Exec(s, after).rows[run] != s.rows[run];
    } else {
      forall after ensures run in Exec(s, after).rows && Exec(s, after).rows[run] == s.rows[run] {
        LetGoStaysLetGo(s, after, run);
      }
    }
  }

  // ---- what canceling, restarting and the queue come to --------------------

  lemma CancelMeans(s: State, run: RunId, other: RunId)
    requires s.traces.Keys == s.rows.Keys && other in s.rows
    ensures var rows := Apply(s, Cancel(run)).rows;
            other in rows && rows[other] == if other == run && s.rows[other] in {Queued, Running} then Canceled else s.rows[other]
  {
    OneRun(s, Cancel(run), other);
  }

  lemma RestartMeans(s: State, run: RunId)
    requires s.traces.Keys == s.rows.Keys && run in s.rows
    ensures var rows := Apply(s, Restart(true)).rows;
            run in rows && rows[run] == if s.rows[run] in {Queued, Running} then Failed else s.rows[run]
  {
    OneRun(s, Restart(true), run);
  }

  function Next(s: State, step: Step): State
    requires s.traces.Keys == s.rows.Keys
  {
    if Enabled(s, step) then Apply(s, step) else s
  }

  lemma {:induction false} ExecNext(s: State, schedule: seq<Step>, n: nat)
    requires s.traces.Keys == s.rows.Keys && n < |schedule|
    ensures Exec(s, schedule[..n + 1]) == Next(Exec(s, schedule[..n]), schedule[n])
    decreases n
  {
    var s1 := Next(s, schedule[0]);
    assert schedule[..n + 1][0] == schedule[0];
    assert schedule[..n + 1][1..] == schedule[1..][..n];
    if n > 0 {
      assert schedule[..n][0] == schedule[0];
      assert schedule[..n][1..] == schedule[1..][..n - 1];
      ExecNext(s1, schedule[1..], n - 1);
    }
  }

  /** The runs that found room, fewer than 256 waiting, since the process last started. */
  function Accepted(schedule: seq<Step>, n: nat): seq<RunId>
    requires n <= |schedule|
  {
    if n == 0 then []
    else
      var s, before := Exec(Init, schedule[..n - 1]), Accepted(schedule, n - 1);
      match schedule[n - 1]
      case Submit(run, _) => if run in s.places && s.places[run].Fresh? && |s.queue| < 256 then before + [run] else before
      case Restart(_) => []
      case _ => before
  }

  /** How many of them a worker has taken. */
  function TakenOf(schedule: seq<Step>, n: nat): nat
    requires n <= |schedule|
  {
    if n == 0 then 0
    else
      match schedule[n - 1]
      case Take => TakenOf(schedule, n - 1) + if Exec(Init, schedule[..n - 1]).queue != [] then 1 else 0
      case Restart(_) => 0
      case _ => TakenOf(schedule, n - 1)
  }

  /** What one step does to the queue. */
  lemma QueueNext(s: State, step: Step)
    requires s.traces.Keys == s.rows.Keys && |s.queue| <= 256
    ensures Next(s, step).queue ==
            match step
            case Submit(run, _) => if run in s.places && s.places[run].Fresh? && |s.queue| < 256 then s.queue + [run] else s.queue
            case Take => if s.queue != [] then s.queue[1..] else []
            case Restart(_) => []
            case _ => s.queue
  {
  }

  /** Runs are taken in the order they were submitted, and none that found room is lost but to a restart. */
  lemma {:induction false} FirstInFirstOut(schedule: seq<Step>, n: nat)
    requires n <= |schedule|
    ensures TakenOf(schedule, n) <= |Accepted(schedule, n)|
    ensures Exec(Init, schedule[..n]).queue == Accepted(schedule, n)[TakenOf(schedule, n)..]
    ensures |Exec(Init, schedule[..n]).queue| <= 256
  {
    if n == 0 {
      assert schedule[..0] == [];
    } else {
      FirstInFirstOut(schedule, n - 1);
      ExecNext(Init, schedule, n - 1);
      QueueNext(Exec(Init, schedule[..n - 1]), schedule[n - 1]);
    }
  }
}
