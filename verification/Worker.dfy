/**
 One execution of a queued run, from loading it to closing it. Every read, write and answer
 it depends on is an input; ledger writes are best effort and may fail one by one.
 */
module Worker {
  import opened Runs
  import Pipeline

  /** What facts, the first pass and the guard write: none of it is a status entry. */
  datatype Work =
    | Finding
    | ToolCall
    | ToolResult
    | Error
    | ModelCall
    | Budget
    | Skipped
    | IntelligenceStart
    | Thinking
    | IntelligenceAnalysis

  /** The kinds of ledger entry an execution writes. */
  datatype Kind = StatusEntry | AgentStart | AgentEnd | Entry(work: Work)

  function TypeOf(k: Kind): (r: string)
    ensures r == EvStatus <==> k.StatusEntry?
  {
    match k
    case StatusEntry => EvStatus
    case AgentStart => "agent_start"
    case AgentEnd => "agent_end"
    case Entry(w) =>
      (match w
       case Finding => "finding"
       case ToolCall => "tool_call"
       case ToolResult => "tool_result"
       case Error => "error"
       case ModelCall => "model_call"
       case Budget => "budget"
       case Skipped => "agent_skipped"
       case IntelligenceStart => "intelligence_start"
       case Thinking => "intelligence_thinking"
       case IntelligenceAnalysis => "intelligence_analysis")
  }

  /** No two kinds are stored under one name. */
  lemma TypesMean(k: Kind)
    ensures TypeOf(k) == "agent_start" <==> k.AgentStart?
    ensures TypeOf(k) == "agent_end" <==> k.AgentEnd?
    ensures TypeOf(k) == "error" <==> k == Entry(Error)
    ensures TypeOf(k) == "finding" <==> k == Entry(Finding)
    ensures TypeOf(k) == "tool_call" <==> k == Entry(ToolCall)
    ensures TypeOf(k) == "tool_result" <==> k == Entry(ToolResult)
    ensures TypeOf(k) == "model_call" <==> k == Entry(ModelCall)
    ensures TypeOf(k) == "budget" <==> k == Entry(Budget)
    ensures TypeOf(k) == "agent_skipped" <==> k == Entry(Skipped)
    ensures TypeOf(k) == "intelligence_start" <==> k == Entry(IntelligenceStart)
    ensures TypeOf(k) == "intelligence_thinking" <==> k == Entry(Thinking)
    ensures TypeOf(k) == "intelligence_analysis" <==> k == Entry(IntelligenceAnalysis)
  {
  }

  function MarkKind(m: Pipeline.Mark): Kind {
    match m
    case Start(_) => AgentStart
    case End(_) => AgentEnd
    case ErrorMark(_) => Entry(Error)
    case FindingMark => Entry(Finding)
  }

  /** Everything an execution asks of the store and the ledger, in order, with how the write went. */
  datatype Call =
    | Started(ok: bool)
    | Wrote(kind: Kind, agent: string, status: Option<Status>, ok: bool)
    | StoredIntelligence
    | StoredVerdict(column: Option<string>)
    | StoredReport(column: Option<string>, ok: bool)
    | Finished(outcome: Status, ok: bool)

  datatype Surroundings = Surroundings(
    loads: bool,
    starts: bool,
    investigable: bool,        // the cluster's last probe does not rule the run out
    discovers: bool,
    facts: seq<Work>,
    firstPass: seq<Work>,
    analysis: string,          // the first pass's answer; "" when it has none
    guarded: seq<Work>,        // what tools and model calls wrote
    script: Pipeline.Script,
    contextDone: bool,         // the run's context is done by the time the agents' error is handled
    storesReport: bool,        // writing the report column succeeds
    rowUpdates: bool,          // the final update of the run row succeeds
    fails: nat -> bool)        // which of the ledger writes, by order, fail

  // ---- what the calls must look like ---------------------------------------

  predicate Quiet(c: Call) {
    && !c.Started? && !c.Finished?
    && (c.Wrote? && c.kind.StatusEntry? && c.status.Some? ==> !Terminal(c.status.value))
  }

  /** The ledger is told that the run is running. */
  predicate Announced(c: Call) { c.Wrote? && c.kind.StatusEntry? && c.status == Some(Running) }

  /** The ledger is told how the run ends. */
  predicate Closes(c: Call) { c.Wrote? && c.kind.StatusEntry? && c.status.Some? && Terminal(c.status.value) }

  /** How far an execution has got: each call but the expected one makes it astray. */
  datatype Stage = Idle | NotStarted | Marked | InHand | Closing(outcome: Status) | Ended(outcome: Status) | Astray

  function Advance(stage: Stage, c: Call): Stage {
    match stage
    case Idle => if c == Started(true) then Marked else if c == Started(false) then NotStarted else Astray
    case Marked => if Announced(c) then InHand else Astray
    case InHand => if Quiet(c) then InHand else if Closes(c) then Closing(c.status.value) else Astray
    case Closing(st) => if c.Finished? && c.outcome == st then Ended(st) else Astray
    case _ => Astray
  }

  /** What the calls so far come to: the stage, and the report column. */
  datatype Record = Record(stage: Stage, report: Option<string>)

  const NothingYet := Record(Idle, None)

  function Noted(r: Record, c: Call): Record {
    Record(Advance(r.stage, c), if c.StoredReport? && c.ok then c.column else r.report)
  }

  function RecordOf(calls: seq<Call>): Record {
    if calls == [] then NothingYet else Noted(RecordOf(calls[..|calls| - 1]), calls[|calls| - 1])
  }

  lemma OneMoreCall(calls: seq<Call>, c: Call)
    ensures RecordOf(calls + [c]) == Noted(RecordOf(calls), c)
  {
    assert (calls + [c])[..|calls|] == calls;
  }

  /** A call without what became of it. */
  function Erased(c: Call): Call {
    match c
    case Started(_) => Started(true)
    case Wrote(kind, agent, status, _) => Wrote(kind, agent, status, true)
    case StoredReport(column, _) => StoredReport(column, true)
    case Finished(outcome, _) => Finished(outcome, true)
    case _ => c
  }

  /** What was asked for, in order. */
  function Asked(calls: seq<Call>): (r: seq<Call>)
    ensures |r| == |calls| && forall i :: 0 <= i < |calls| ==> r[i] == Erased(calls[i])
  {
    seq(|calls|, i requires 0 <= i < |calls| => Erased(calls[i]))
  }

  lemma AskedMore(calls: seq<Call>, c: Call)
    ensures Asked(calls + [c]) == Asked(calls) + [Erased(c)]
  {
  }

  function Line(kind: Kind, agent: string): Call { Wrote(kind, agent, None, true) }

  function StatusLine(agent: string, status: Option<Status>): Call { Wrote(StatusEntry, agent, status, true) }

  /** One entry for each piece of work, under the agent it belongs to. */
  function Lines(agent: string, work: seq<Work>): (r: seq<Call>)
    ensures |r| == |work| && forall i :: 0 <= i < |r| ==> r[i] == Wrote(Entry(work[i]), agent, None, true)
  {
    if work == [] then [] else Lines(agent, work[..|work| - 1]) + [Line(Entry(work[|work| - 1]), agent)]
  }

  /** The agents' own entries: each under the agent it is about, the finding under the one that reports. */
  function MarkLine(m: Pipeline.Mark): Call {
    match m
    case Start(agent) => Line(AgentStart, agent)
    case End(agent) => Line(AgentEnd, agent)
    case ErrorMark(agent) => Line(Entry(Error), agent)
    case FindingMark => Line(Entry(Finding), "sre")
  }

  function MarkLines(marks: seq<Pipeline.Mark>): (r: seq<Call>)
    ensures |r| == |marks| && forall i :: 0 <= i < |r| ==> r[i] == MarkLine(marks[i])
  {
    if marks == [] then [] else MarkLines(marks[..|marks| - 1]) + [MarkLine(marks[|marks| - 1])]
  }

  lemma OneMoreMark(marks: seq<Pipeline.Mark>, n: nat)
    requires n < |marks|
    ensures MarkLines(marks[..n + 1]) == MarkLines(marks[..n]) + [MarkLine(marks[n])]
  {
    assert marks[..n + 1][..n] == marks[..n];
  }

  /** The ledger is told that the run's status is this. */
  predicate Says(c: Call, status: Status) { c.Wrote? && c.kind.StatusEntry? && c.status == Some(status) }

  /** Read off the calls themselves: closed once, with the status announced just before, and nothing follows. */
  ghost predicate EndsOnce(calls: seq<Call>, outcome: Status) {
    var n := |calls|;
    && n >= 4 && outcome in {Succeeded, Failed, Canceled, BudgetExceeded, Partial}
    && calls[0] == Started(true) && Says(calls[1], Running)
    && calls[n - 1].Finished? && calls[n - 1].outcome == outcome && Says(calls[n - 2], outcome)
    && (forall i :: 0 < i < n - 1 ==> !calls[i].Started? && !calls[i].Finished?)
    && forall i, st :: 0 < i < n - 2 && Says(calls[i], st) ==> !Terminal(st)
  }

  predicate BeganQuietly(calls: seq<Call>) {
    |calls| >= 2 && calls[0] == Started(true) && Announced(calls[1]) && forall i :: 1 <= i < |calls| ==> Quiet(calls[i])
  }

  lemma {:induction false} InHandMeans(calls: seq<Call>)
    ensures RecordOf(calls).stage.Marked? ==> calls == [Started(true)]
    ensures RecordOf(calls).stage.InHand? ==> BeganQuietly(calls)
  {
    if calls != [] {
      var front, last := calls[..|calls| - 1], calls[|calls| - 1];
      assert calls == front + [last];
      InHandMeans(front);
      if RecordOf(calls).stage.Marked? { IdleMeans(front); }
    }
  }

  lemma IdleMeans(calls: seq<Call>)
    ensures RecordOf(calls).stage.Idle? <==> calls == []
  {
  }

  /** An execution that has come to its end is closed exactly once, at the very end. */
  lemma EndedMeans(calls: seq<Call>)
    requires RecordOf(calls).stage.Ended?
    ensures EndsOnce(calls, RecordOf(calls).stage.outcome)
  {
    var n := |calls|;
    var most := calls[..n - 1];
    var rest := most[..n - 2];
    assert RecordOf(most).stage == Closing(RecordOf(calls).stage.outcome);
    assert RecordOf(rest).stage.InHand?;
    InHandMeans(rest);
    assert rest == calls[..n - 2];
    SaysTheEnd(calls, RecordOf(calls).stage.outcome);
  }

  lemma SaysTheEnd(calls: seq<Call>, outcome: Status)
    requires |calls| >= 4 && BeganQuietly(calls[..|calls| - 2])
    requires Closes(calls[|calls| - 2]) && calls[|calls| - 2].status == Some(outcome)
    requires calls[|calls| - 1].Finished? && calls[|calls| - 1].outcome == outcome
    ensures EndsOnce(calls, outcome)
  {
    var n := |calls|;
    var rest := calls[..n - 2];
    assert forall i :: 0 <= i < n - 2 ==> calls[i] == rest[i];
    forall i, st | 0 < i < n - 2 && Says(calls[i], st) ensures !Terminal(st) { assert Quiet(rest[i]); }
    forall i | 0 < i < n - 1 ensures !calls[i].Started? && !calls[i].Finished? {
      if i < n - 2 { assert Quiet(rest[i]); }
    }
  }

  /** What reached the ledger, numbered from `from`. */
  function Ledger(calls: seq<Call>, from: int): seq<Event> {
    if calls == [] then []
    else
      var c := calls[|calls| - 1];
      var front := Ledger(calls[..|calls| - 1], from);
      if c.Wrote? && c.ok then front + [Event(from + |front|, TypeOf(c.kind), c.agent, Payload(c.status, ""))] else front
  }

  lemma {:induction false} QuietLedger(calls: seq<Call>, from: int)
    requires forall i :: 0 <= i < |calls| ==> !calls[i].Wrote? || Quiet(calls[i])
    ensures forall i :: 0 <= i < |Ledger(calls, from)| ==> !Runs.Closes(Ledger(calls, from)[i])
  {
    if calls != [] { QuietLedger(calls[..|calls| - 1], from); }
  }

  lemma LedgerAppended(calls: seq<Call>, c: Call, from: int)
    ensures var ledger := Ledger(calls, from);
            Ledger(calls + [c], from) ==
            if c.Wrote? && c.ok then ledger + [Event(from + |ledger|, TypeOf(c.kind), c.agent, Payload(c.status, ""))] else ledger
  {
    assert (calls + [c])[..|calls|] == calls;
  }

  /** A stream of the run's ledger closes on its last entry or not at all; on it exactly when its write succeeded. */
  lemma OnlyTheLastEntryCloses(calls: seq<Call>, outcome: Status, from: int)
    requires EndsOnce(calls, outcome)
    ensures var ledger := Ledger(calls, from);
            var announced := calls[|calls| - 2];
            && (forall i :: 0 <= i < |ledger| - 1 ==> !Runs.Closes(ledger[i]))
            && (announced.ok <==> ledger != [] && Runs.Closes(ledger[|ledger| - 1]))
            && (announced.ok ==> TerminalStatusIn(ledger[|ledger| - 1].payload) == Some(outcome))
  {
    var n := |calls|;
    var rest, announced := calls[..n - 2], calls[n - 2];
    assert calls == rest + [announced] + [calls[n - 1]];
    LedgerAppended(rest + [announced], calls[n - 1], from);
    LedgerAppended(rest, announced, from);
    forall i | 0 <= i < |rest| ensures !rest[i].Wrote? || Quiet(rest[i]) {
      if rest[i].Wrote? && rest[i].status.Some? { assert rest[i].kind.StatusEntry? ==> Says(calls[i], rest[i].status.value); }
    }
    QuietLedger(rest, from);
  }

  // ---- how it ends ---------------------------------------------------------

  /** The agents' part is reached only when the cluster can be read and its stack is known. */
  predicate AgentsRun(o: Surroundings) { o.loads && o.starts && o.investigable && o.discovers }

  predicate AgentsAnswer(o: Surroundings) {
    Pipeline.ReachesTheEnd(o.script) && o.script.sessionRead
  }

  predicate HasReport(o: Surroundings) {
    AgentsAnswer(o) && Pipeline.SplitAnalysis(o.script.analysis).1.Some?
  }

  predicate AgentsFault(o: Surroundings) {
    !AgentsAnswer(o) && !Pipeline.StrayCancellation(o.script)
  }

  predicate ContextGone(o: Surroundings) {
    o.contextDone || Pipeline.OwnCancellation(o.script)
  }

  /** The object that carries an unchecked analysis; never a bare null. */
  function UnverifiedReport(analysis: string): string { "{" + analysis + "}" }

  /** What an execution does with an output and its error. */
  function Concluded(o: Surroundings, r: Record, out: Pipeline.Output, fault: Pipeline.Fault): Record {
    if !fault.NoFault? then
      if o.contextDone || fault.ContextDone? then Record(Ended(Canceled), r.report) else Record(Ended(Failed), r.report)
    else if out.status.Failed? && out.report.None? && o.analysis != "" then
      Record(Ended(Partial), if o.storesReport then Some(UnverifiedReport(o.analysis)) else r.report)
    else Record(Ended(out.status), r.report)
  }

  function Investigated(o: Surroundings): Record {
    var (out, fault) := Pipeline.OutcomeOf(o.script);
    Concluded(o, Record(InHand, if o.storesReport then JsonOrNil(out.report) else None), out, fault)
  }

  /** All that a started execution comes to. */
  function Executed(o: Surroundings): Record {
    if !o.investigable || !o.discovers then Record(Ended(Failed), None) else Investigated(o)
  }

  // ---- what it asks for ----------------------------------------------------

  /** What the agents' one object carries as its verdict and as its report. */
  function AgentsVerdict(o: Surroundings): Option<string> {
    var a := o.script.analysis;
    if AgentsAnswer(o) && a.Wrapped? && a.raw != "" then a.verdict else None
  }

  function AgentsReport(o: Surroundings): Option<string> {
    var a := o.script.analysis;
    if !AgentsAnswer(o) || !a.Wrapped? || a.raw == "" then None
    else if a.report.Some? && a.report.value != "" then a.report
    else Some(a.raw)
  }

  /** A verdict and a report are stored if there are any, each once. */
  function Stores(verdict: Option<string>, report: Option<string>): seq<Call> {
    (if verdict.Some? then [StoredVerdict(JsonOrNil(verdict))] else [])
    + if report.Some? then [StoredReport(JsonOrNil(report), true)] else []
  }

  function Close(status: Status): seq<Call> { [StatusLine("", Some(status)), Finished(status, true)] }

  /** How an execution that reached the agents is closed. */
  function Ending(o: Surroundings): seq<Call> {
    if AgentsFault(o) then
      if ContextGone(o) then Close(Canceled) else [Line(Entry(Error), "")] + Close(Failed)
    else if !AgentsAnswer(o) then Close(Succeeded)
    else if Pipeline.StoppedByBudget(o.script) then Close(BudgetExceeded)
    else if AgentsReport(o).Some? then Close(Succeeded)
    else if o.analysis != "" then [StoredReport(Some(UnverifiedReport(o.analysis)), true)] + Close(Partial)
    else Close(Failed)
  }

  const Opening := [Started(true), StatusLine("", Some(Running))]

  /** Everything an execution asks for once it has started, in order. */
  function Transcript(o: Surroundings): seq<Call> {
    if !AgentsRun(o) then Opening + [Line(Entry(Error), if o.investigable then "" else "preflight")] + Close(Failed)
    else
      Opening + [StatusLine("preflight", None)]
      + Lines("preflight", o.facts) + Lines("intelligence", o.firstPass) + [StoredIntelligence] + Lines("sre", o.guarded)
      + MarkLines(Pipeline.MarksOf(o.script)) + Stores(AgentsVerdict(o), AgentsReport(o)) + Ending(o)
  }

  /** What follows from an output and its error. */
  function AfterAnswer(o: Surroundings, out: Pipeline.Output, fault: Pipeline.Fault): seq<Call> {
    if !fault.NoFault? then
      if o.contextDone || fault.ContextDone? then Close(Canceled) else [Line(Entry(Error), "")] + Close(Failed)
    else if out.status.Failed? && out.report.None? && o.analysis != "" then
      [StoredReport(Some(UnverifiedReport(o.analysis)), true)] + Close(Partial)
    else Close(out.status)
  }

  lemma AnswerIsStored(o: Surroundings)
    requires AgentsRun(o)
    ensures var (out, fault) := Pipeline.OutcomeOf(o.script);
            && out.verdict == AgentsVerdict(o) && out.report == AgentsReport(o)
            && AfterAnswer(o, out, fault) == Ending(o)
  {
  }

  /** What an output of the agents says of these surroundings. */
  lemma OutcomeMeans(o: Surroundings)
    ensures var (out, fault) := Pipeline.OutcomeOf(o.script);
            && (fault.NoFault? <==> !AgentsFault(o))
            && (fault.ContextDone? <==> Pipeline.OwnCancellation(o.script))
            && out.report == (if AgentsAnswer(o) then Pipeline.SplitAnalysis(o.script.analysis).1 else None)
            && out.status in {Succeeded, Failed, BudgetExceeded}
            && (out.status.Failed? && fault.NoFault? ==> AgentsAnswer(o))
  {
  }

  /**
   Every started execution comes to its end. When it ends canceled, over budget, with a first
   pass nobody verified, or as a success (every other end is a failure), and when a success
   leaves the report column NULL.
   */
  lemma HowExecutionsEnd(o: Surroundings)
    requires o.loads && o.starts
    ensures Executed(o).stage.Ended? && Terminal(Executed(o).stage.outcome)
    ensures var outcome := Executed(o).stage.outcome;
            && (outcome == Canceled <==> AgentsRun(o) && AgentsFault(o) && ContextGone(o))
            && (outcome == BudgetExceeded <==> AgentsRun(o) && AgentsAnswer(o) && Pipeline.StoppedByBudget(o.script))
            && (outcome == Partial <==>
                  AgentsRun(o) && AgentsAnswer(o) && !Pipeline.StoppedByBudget(o.script) && !HasReport(o) && o.analysis != "")
            && (outcome == Succeeded <==>
                  AgentsRun(o) && (Pipeline.StrayCancellation(o.script) || (HasReport(o) && !Pipeline.StoppedByBudget(o.script))))
            && (outcome == Succeeded && o.storesReport ==>
                  (Executed(o).report.None? <==> Pipeline.EmptySuccess(o.script)))
    ensures AgentsRun(o) && Pipeline.EmptySuccess(o.script) ==> Executed(o).stage.outcome == Succeeded
  {
    OutcomeMeans(o);
    Pipeline.EmptySuccessMeans(o.script);
  }

  // ---- what that amounts to ------------------------------------------------

  /** The calls of one sort, in order. */
  function Only(calls: seq<Call>, sort: Call -> bool): seq<Call> { OnlyBefore(calls, sort, |calls|) }

  function OnlyBefore(calls: seq<Call>, sort: Call -> bool, n: nat): seq<Call>
    requires n <= |calls|
  {
    if n == 0 then [] else OnlyBefore(calls, sort, n - 1) + if sort(calls[n - 1]) then [calls[n - 1]] else []
  }

  predicate IsVerdict(c: Call) { c.StoredVerdict? }

  predicate IsReport(c: Call) { c.StoredReport? }

  predicate IsIntelligence(c: Call) { c.StoredIntelligence? }

  /** Ledger entries other than those about the run's status. */
  predicate IsEntry(c: Call) { c.Wrote? && !c.kind.StatusEntry? }

  lemma {:induction false} OnlyFront(a: seq<Call>, b: seq<Call>, sort: Call -> bool, n: nat)
    requires n <= |a|
    ensures OnlyBefore(a + b, sort, n) == OnlyBefore(a, sort, n)
  {
    if n > 0 { OnlyFront(a, b, sort, n - 1); }
  }

  lemma {:induction false} OnlyBoth(a: seq<Call>, b: seq<Call>, sort: Call -> bool, n: nat)
    requires n <= |b|
    ensures OnlyBefore(a + b, sort, |a| + n) == OnlyBefore(a, sort, |a|) + OnlyBefore(b, sort, n)
  {
    if n == 0 {
      OnlyFront(a, b, sort, |a|);
    } else {
      OnlyBoth(a, b, sort, n - 1);
      assert (a + b)[|a| + n - 1] == b[n - 1];
    }
  }

  lemma OnlyConcat(a: seq<Call>, b: seq<Call>, sort: Call -> bool)
    ensures Only(a + b, sort) == Only(a, sort) + Only(b, sort)
  {
    OnlyBoth(a, b, sort, |b|);
  }

  lemma {:induction false} AllBefore(calls: seq<Call>, sort: Call -> bool, n: nat)
    requires n <= |calls| && forall i :: 0 <= i < |calls| ==> sort(calls[i])
    ensures OnlyBefore(calls, sort, n) == calls[..n]
  {
    if n > 0 {
      AllBefore(calls, sort, n - 1);
      assert calls[..n] == calls[..n - 1] + [calls[n - 1]];
    }
  }

  lemma AllOfThem(calls: seq<Call>, sort: Call -> bool)
    requires forall i :: 0 <= i < |calls| ==> sort(calls[i])
    ensures Only(calls, sort) == calls
  {
    AllBefore(calls, sort, |calls|);
    assert calls[..|calls|] == calls;
  }

  lemma {:induction false} NoneBefore(calls: seq<Call>, sort: Call -> bool, n: nat)
    requires n <= |calls| && forall i :: 0 <= i < |calls| ==> !sort(calls[i])
    ensures OnlyBefore(calls, sort, n) == []
  {
    if n > 0 { NoneBefore(calls, sort, n - 1); }
  }

  lemma NoneOfThem(calls: seq<Call>, sort: Call -> bool)
    requires forall i :: 0 <= i < |calls| ==> !sort(calls[i])
    ensures Only(calls, sort) == []
  {
    NoneBefore(calls, sort, |calls|);
  }

  /** What is written before the agents come in, and what they and the guard write. */
  function Prologue(o: Surroundings): seq<Call> {
    Opening + [StatusLine("preflight", None)] + Lines("preflight", o.facts) + Lines("intelligence", o.firstPass)
  }

  function AgentsPart(o: Surroundings): seq<Call> { Lines("sre", o.guarded) + MarkLines(Pipeline.MarksOf(o.script)) }

  function Epilogue(o: Surroundings): seq<Call> { Stores(AgentsVerdict(o), AgentsReport(o)) + Ending(o) }

  lemma Regrouped(a: seq<Call>, b: seq<Call>, c: seq<Call>, d: seq<Call>, e: seq<Call>, f: seq<Call>)
    ensures a + b + c + d + e + f == a + b + (c + d) + (e + f)
  {
  }

  /** The first pass is stored once: after everything the agents were given, and before anything they wrote. */
  lemma TranscriptParts(o: Surroundings)
    requires AgentsRun(o)
    ensures Transcript(o) == Prologue(o) + [StoredIntelligence] + AgentsPart(o) + Epilogue(o)
  {
    Regrouped(Prologue(o), [StoredIntelligence], Lines("sre", o.guarded), MarkLines(Pipeline.MarksOf(o.script)),
              Stores(AgentsVerdict(o), AgentsReport(o)), Ending(o));
  }

  lemma OnlyParts(o: Surroundings, sort: Call -> bool)
    requires AgentsRun(o)
    ensures Only(Transcript(o), sort) ==
            Only(Prologue(o), sort) + Only([StoredIntelligence], sort) + Only(AgentsPart(o), sort) + Only(Epilogue(o), sort)
  {
    TranscriptParts(o);
    OnlyConcat(Prologue(o) + [StoredIntelligence] + AgentsPart(o), Epilogue(o), sort);
    OnlyConcat(Prologue(o) + [StoredIntelligence], AgentsPart(o), sort);
    OnlyConcat(Prologue(o), [StoredIntelligence], sort);
  }

  /** The entries about the work, and none of the stores, are found in what is written before and by the agents. */
  lemma PrologueIs(o: Surroundings, sort: Call -> bool)
    ensures Only(Prologue(o), sort) ==
            Only(Opening + [StatusLine("preflight", None)], sort)
            + Only(Lines("preflight", o.facts), sort) + Only(Lines("intelligence", o.firstPass), sort)
  {
    var opening := Opening + [StatusLine("preflight", None)];
    OnlyConcat(opening + Lines("preflight", o.facts), Lines("intelligence", o.firstPass), sort);
    OnlyConcat(opening, Lines("preflight", o.facts), sort);
  }

  lemma NoneOfTheLines(agent: string, work: seq<Work>, sort: Call -> bool)
    requires forall c: Call :: c.Wrote? || c.Started? ==> !sort(c)
    ensures Only(Lines(agent, work), sort) == []
  {
    NoneOfThem(Lines(agent, work), sort);
  }

  lemma NoneOfTheMarks(marks: seq<Pipeline.Mark>, sort: Call -> bool)
    requires forall c: Call :: c.Wrote? || c.Started? ==> !sort(c)
    ensures Only(MarkLines(marks), sort) == []
  {
    NoneOfThem(MarkLines(marks), sort);
  }

  lemma AllTheLines(agent: string, work: seq<Work>)
    ensures Only(Lines(agent, work), IsEntry) == Lines(agent, work)
  {
    AllOfThem(Lines(agent, work), IsEntry);
  }

  lemma AllTheMarks(marks: seq<Pipeline.Mark>)
    ensures Only(MarkLines(marks), IsEntry) == MarkLines(marks)
  {
    AllOfThem(MarkLines(marks), IsEntry);
  }

  lemma NoneOfTheOpening(sort: Call -> bool)
    requires forall c: Call :: c.Started? || (c.Wrote? && c.kind.StatusEntry?) ==> !sort(c)
    ensures Only(Opening + [StatusLine("preflight", None)], sort) == []
  {
    NoneOfThem(Opening + [StatusLine("preflight", None)], sort);
  }

  /** None of what is written there is a store. */
  lemma NoStores(o: Surroundings, sort: Call -> bool)
    requires forall c: Call :: c.Wrote? || c.Started? ==> !sort(c)
    ensures Only(Prologue(o), sort) == [] && Only(AgentsPart(o), sort) == []
  {
    PrologueIs(o, sort);
    NoneOfTheOpening(sort);
    NoneOfTheLines("preflight", o.facts, sort);
    NoneOfTheLines("intelligence", o.firstPass, sort);
    var marks := Pipeline.MarksOf(o.script);
    OnlyConcat(Lines("sre", o.guarded), MarkLines(marks), sort);
    NoneOfTheLines("sre", o.guarded, sort);
    NoneOfTheMarks(marks, sort);
  }

  lemma OneOnly(c: Call, sort: Call -> bool)
    ensures Only([c], sort) == if sort(c) then [c] else []
  {
    assert OnlyBefore([c], sort, 0) == [];
  }

  lemma OnlyAtTheEnd(o: Surroundings, sort: Call -> bool)
    requires AgentsRun(o) && forall c: Call :: c.Wrote? || c.Started? || c.StoredIntelligence? ==> !sort(c)
    ensures Only(Transcript(o), sort) == Only(Epilogue(o), sort)
  {
    OnlyParts(o, sort);
    NoStores(o, sort);
    OneOnly(StoredIntelligence, sort);
    assert [] + [] + [] + Only(Epilogue(o), sort) == Only(Epilogue(o), sort);
  }

  lemma EpilogueVerdicts(o: Surroundings)
    ensures Only(Epilogue(o), IsVerdict) ==
            if AgentsVerdict(o).Some? then [StoredVerdict(JsonOrNil(AgentsVerdict(o)))] else []
  {
    var verdicts := if AgentsVerdict(o).Some? then [StoredVerdict(JsonOrNil(AgentsVerdict(o)))] else [];
    var reports := if AgentsReport(o).Some? then [StoredReport(JsonOrNil(AgentsReport(o)), true)] else [];
    OnlyConcat(verdicts + reports, Ending(o), IsVerdict);
    OnlyConcat(verdicts, reports, IsVerdict);
    AllOfThem(verdicts, IsVerdict);
    NoneOfThem(reports, IsVerdict);
    NoneOfThem(Ending(o), IsVerdict);
  }

  lemma StoresReports(verdict: Option<string>, report: Option<string>)
    ensures Only(Stores(verdict, report), IsReport) == if report.Some? then [StoredReport(JsonOrNil(report), true)] else []
  {
    var verdicts := if verdict.Some? then [StoredVerdict(JsonOrNil(verdict))] else [];
    var reports := if report.Some? then [StoredReport(JsonOrNil(report), true)] else [];
    OnlyConcat(verdicts, reports, IsReport);
    NoneOfThem(verdicts, IsReport);
    AllOfThem(reports, IsReport);
    assert [] + reports == reports;
  }

  lemma EndingReports(o: Surroundings)
    ensures Only(Ending(o), IsReport) == if StandsIn(o) then [StoredReport(Some(UnverifiedReport(o.analysis)), true)] else []
  {
    if StandsIn(o) {
      OnlyConcat([StoredReport(Some(UnverifiedReport(o.analysis)), true)], Close(Partial), IsReport);
      OneOnly(StoredReport(Some(UnverifiedReport(o.analysis)), true), IsReport);
      NoneOfThem(Close(Partial), IsReport);
    } else {
      NoneOfThem(Ending(o), IsReport);
    }
  }

  /** The first pass is stored as the report. */
  predicate StandsIn(o: Surroundings) {
    AgentsAnswer(o) && !AgentsFault(o) && !Pipeline.StoppedByBudget(o.script) && AgentsReport(o).None? && o.analysis != ""
  }

  lemma EpilogueReports(o: Surroundings)
    ensures Only(Epilogue(o), IsReport) ==
            if AgentsReport(o).Some? then [StoredReport(JsonOrNil(AgentsReport(o)), true)]
            else if StandsIn(o) then [StoredReport(Some(UnverifiedReport(o.analysis)), true)]
            else []
  {
    OnlyConcat(Stores(AgentsVerdict(o), AgentsReport(o)), Ending(o), IsReport);
    StoresReports(AgentsVerdict(o), AgentsReport(o));
    EndingReports(o);
    var own := Only(Stores(AgentsVerdict(o), AgentsReport(o)), IsReport);
    assert own + [] == own;
  }

  /** The verdict the agents' object carries is stored, once and with its value, and none if there is none. */
  lemma VerdictIsStored(o: Surroundings)
    requires AgentsRun(o)
    ensures var a := o.script.analysis;
            Only(Transcript(o), IsVerdict) ==
              if AgentsAnswer(o) && a.Wrapped? && a.raw != "" && a.verdict.Some? then [StoredVerdict(JsonOrNil(a.verdict))] else []
  {
    OnlyAtTheEnd(o, IsVerdict);
    EpilogueVerdicts(o);
  }

  /**
   So is the report: the one the object carries, or the whole object when it is a bare one. The
   first pass stands in for it exactly when the agents answered within budget and gave none.
   */
  lemma ReportIsStored(o: Surroundings)
    requires AgentsRun(o)
    ensures var a := o.script.analysis;
            var answered := AgentsAnswer(o) && a.Wrapped? && a.raw != "";
            var within := AgentsAnswer(o) && !Pipeline.StoppedByBudget(o.script);
            var reports := Only(Transcript(o), IsReport);
            && (answered && (a.report.None? || a.report == Some("")) ==> reports == [StoredReport(JsonOrNil(Some(a.raw)), true)])
            && (answered && a.report.Some? && a.report.value != "" ==> reports == [StoredReport(JsonOrNil(a.report), true)])
            && (!answered && within && o.analysis != "" ==> reports == [StoredReport(Some(UnverifiedReport(o.analysis)), true)])
            && (!answered && !(within && o.analysis != "") ==> reports == [])
  {
    OnlyAtTheEnd(o, IsReport);
    EpilogueReports(o);
    AnswersAreReports(o);
  }

  lemma AnswersAreReports(o: Surroundings)
    ensures var a := o.script.analysis;
            && (AgentsReport(o).Some? <==> AgentsAnswer(o) && a.Wrapped? && a.raw != "")
            && (AgentsAnswer(o) ==> !AgentsFault(o))
            && (AgentsReport(o).Some? ==> AgentsReport(o) == if a.report.None? || a.report == Some("") then Some(a.raw) else a.report)
  {
  }

  lemma PrologueEntries(o: Surroundings)
    ensures Only(Prologue(o), IsEntry) == Lines("preflight", o.facts) + Lines("intelligence", o.firstPass)
  {
    PrologueIs(o, IsEntry);
    NoneOfTheOpening(IsEntry);
    AllTheLines("preflight", o.facts);
    AllTheLines("intelligence", o.firstPass);
    assert [] + Lines("preflight", o.facts) == Lines("preflight", o.facts);
  }

  lemma AgentsEntries(o: Surroundings)
    ensures Only(AgentsPart(o), IsEntry) == AgentsPart(o)
  {
    var marks := Pipeline.MarksOf(o.script);
    OnlyConcat(Lines("sre", o.guarded), MarkLines(marks), IsEntry);
    AllTheLines("sre", o.guarded);
    AllTheMarks(marks);
  }

  lemma EndingEntries(o: Surroundings)
    ensures Only(Ending(o), IsEntry) ==
            if AgentsFault(o) && !ContextGone(o) then [Wrote(Entry(Error), "", None, true)] else []
  {
    if AgentsFault(o) && !ContextGone(o) {
      OnlyConcat([Line(Entry(Error), "")], Close(Failed), IsEntry);
      OneOnly(Line(Entry(Error), ""), IsEntry);
      NoneOfThem(Close(Failed), IsEntry);
    } else {
      NoneOfThem(Ending(o), IsEntry);
    }
  }

  lemma EpilogueEntries(o: Surroundings)
    ensures Only(Epilogue(o), IsEntry) ==
            if AgentsFault(o) && !ContextGone(o) then [Wrote(Entry(Error), "", None, true)] else []
  {
    OnlyConcat(Stores(AgentsVerdict(o), AgentsReport(o)), Ending(o), IsEntry);
    NoneOfThem(Stores(AgentsVerdict(o), AgentsReport(o)), IsEntry);
    EndingEntries(o);
    assert [] + Only(Ending(o), IsEntry) == Only(Ending(o), IsEntry);
  }

  /**
   The entries written about the work are the facts, the first pass, what the guard saw, and the
   agents' own, each piece once, under its agent and in that order; and an error, if it ended on one.
   */
  lemma WorkIsWritten(o: Surroundings)
    requires AgentsRun(o)
    ensures Only(Transcript(o), IsEntry) ==
            Lines("preflight", o.facts) + Lines("intelligence", o.firstPass)
            + (Lines("sre", o.guarded) + MarkLines(Pipeline.MarksOf(o.script)))
            + if AgentsFault(o) && !ContextGone(o) then [Wrote(Entry(Error), "", None, true)] else []
  {
    OnlyParts(o, IsEntry);
    PrologueEntries(o);
    OneOnly(StoredIntelligence, IsEntry);
    AgentsEntries(o);
    EpilogueEntries(o);
    var before := Lines("preflight", o.facts) + Lines("intelligence", o.firstPass);
    assert before + [] == before;
  }

  lemma RefusalIs(said: Call)
    requires IsEntry(said)
    ensures Only(Opening + [said] + Close(Failed), IsEntry) == [said]
  {
    OnlyConcat(Opening + [said], Close(Failed), IsEntry);
    OnlyConcat(Opening, [said], IsEntry);
    NoneOfThem(Opening, IsEntry);
    OneOnly(said, IsEntry);
    NoneOfThem(Close(Failed), IsEntry);
    assert [] + [said] + [] == [said];
  }

  /** An execution that does not get to the agents writes one error, and stores nothing. */
  lemma RefusalsAreWritten(o: Surroundings)
    requires !AgentsRun(o)
    ensures Only(Transcript(o), IsEntry) == [Wrote(Entry(Error), if o.investigable then "" else "preflight", None, true)]
    ensures forall i :: 0 <= i < |Transcript(o)| ==>
              !IsVerdict(Transcript(o)[i]) && !IsReport(Transcript(o)[i]) && !IsIntelligence(Transcript(o)[i])
  {
    RefusalIs(Line(Entry(Error), if o.investigable then "" else "preflight"));
  }

  class Execution {
    var calls: seq<Call>
    const o: Surroundings

    constructor (o: Surroundings)
      ensures calls == [] && this.o == o
    {
      this.o := o;
      calls := [];
    }

    function Now(): Record
      reads this
    {
      RecordOf(calls)
    }

    method Do(c: Call)
      modifies this
      ensures Now() == Noted(old(Now()), c) && Asked(calls) == Asked(old(calls)) + [Erased(c)]
      ensures calls == old(calls) + [c]
    {
      OneMoreCall(calls, c);
      AskedMore(calls, c);
      calls := calls + [c];
    }

    method Write(kind: Kind, agent: string, status: Option<Status>)
      modifies this
      ensures Now() == Noted(old(Now()), Wrote(kind, agent, status, !o.fails(|old(calls)|)))
      ensures Asked(calls) == Asked(old(calls)) + [Wrote(kind, agent, status, true)]
    {
      Do(Wrote(kind, agent, status, !o.fails(|calls|)));
    }

    method WriteAll(agent: string, work: seq<Work>)
      requires Now().stage.InHand?
      modifies this
      ensures Now() == old(Now()) && Asked(calls) == Asked(old(calls)) + Lines(agent, work)
    {
      for n := 0 to |work|
        invariant Now() == old(Now()) && Asked(calls) == Asked(old(calls)) + Lines(agent, work[..n])
      {
        assert work[..n + 1][..n] == work[..n];
        Write(Entry(work[n]), agent, None);
      }
      assert work[..|work|] == work;
    }

    method WriteMark(m: Pipeline.Mark)
      requires Now().stage.InHand?
      modifies this
      ensures Now() == old(Now()) && Asked(calls) == Asked(old(calls)) + [MarkLine(m)]
    {
      Write(MarkKind(m), if m.FindingMark? then "sre" else m.agent, None);
    }

    method WriteMarks(marks: seq<Pipeline.Mark>)
      requires Now().stage.InHand?
      modifies this
      ensures Now() == old(Now()) && Asked(calls) == Asked(old(calls)) + MarkLines(marks)
    {
      for n := 0 to |marks|
        invariant Now() == old(Now()) && Asked(calls) == Asked(old(calls)) + MarkLines(marks[..n])
      {
        OneMoreMark(marks, n);
        WriteMark(marks[n]);
      }
      assert marks[..|marks|] == marks;
    }

    /** The announcement goes first and the row second; the row is updated even when the announcement is lost. */
    method Finish(status: Status)
      requires Terminal(status) && Now().stage.InHand?
      modifies this
      ensures Now() == Record(Ended(status), old(Now()).report) && Asked(calls) == Asked(old(calls)) + Close(status)
    {
      Write(StatusEntry, "", Some(status));
      Do(Finished(status, o.rowUpdates));
    }

    method Fail()
      requires Now().stage.InHand?
      modifies this
      ensures Now() == Record(Ended(Failed), old(Now()).report)
      ensures Asked(calls) == Asked(old(calls)) + ([Line(Entry(Error), "")] + Close(Failed))
    {
      Write(Entry(Error), "", None);
      Finish(Failed);
    }

    /** Verdict and report are stored as soon as the agents are back, whatever else they came back with. */
    method Store(out: Pipeline.Output)
      requires Now().stage.InHand?
      modifies this
      ensures Now() ==
                if out.report.Some? && o.storesReport then old(Now()).(report := JsonOrNil(out.report)) else old(Now())
      ensures Asked(calls) == Asked(old(calls)) + Stores(out.verdict, out.report)
    {
      if out.verdict.Some? { Do(StoredVerdict(JsonOrNil(out.verdict))); }
      if out.report.Some? { Do(StoredReport(JsonOrNil(out.report), o.storesReport)); }
    }

    /** What the agents' answer comes to. */
    method Conclude(out: Pipeline.Output, fault: Pipeline.Fault)
      requires Now().stage.InHand?
      requires fault.NoFault? ==> out.status in {Succeeded, Failed, BudgetExceeded}
      modifies this
      ensures Now() == Concluded(o, old(Now()), out, fault) && Asked(calls) == Asked(old(calls)) + AfterAnswer(o, out, fault)
    {
      if !fault.NoFault? {
        if o.contextDone || fault.ContextDone? {
          Finish(Canceled);
        } else {
          Fail();
        }
        return;
      }
      var status := out.status;
      if status.Failed? && out.report.None? && o.analysis != "" {
        status := Partial;
        Do(StoredReport(Some(UnverifiedReport(o.analysis)), o.storesReport));
      }
      Finish(status);
    }

    /** The row is marked running, and the ledger told so. */
    method Begin() returns (going: bool)
      requires calls == []
      modifies this
      ensures going <==> o.loads && o.starts
      ensures going ==> Now() == Record(InHand, None) && Asked(calls) == Opening
      ensures !going ==> calls == if o.loads then [Started(false)] else []
    {
      if !o.loads { return false; }
      Do(Started(o.starts));
      if !o.starts { return false; }
      Write(StatusEntry, "", Some(Running));
      going := true;
    }

    /** A run refused before the agents is failed at once. */
    method Refuse()
      requires Now() == Record(InHand, None) && Asked(calls) == Opening && !AgentsRun(o) && o.loads && o.starts
      modifies this
      ensures Now() == Record(Ended(Failed), None) && Asked(calls) == Transcript(o)
    {
      if !o.investigable {
        Write(Entry(Error), "preflight", None);
        Finish(Failed);
      } else {
        Fail();
      }
    }

    /** Facts, the first pass, the agents, what they write, and the end. */
    method Investigate()
      requires Now() == Record(InHand, None) && Asked(calls) == Opening && AgentsRun(o)
      modifies this
      ensures Now() == Investigated(o) && Asked(calls) == Transcript(o)
    {
      Write(StatusEntry, "preflight", None);
      WriteAll("preflight", o.facts);
      WriteAll("intelligence", o.firstPass);
      Do(StoredIntelligence);
      WriteAll("sre", o.guarded);
      var out, fault, marks := Pipeline.Run(o.script);
      WriteMarks(marks);
      Store(out);
      OutcomeMeans(o);
      AnswerIsStored(o);
      Conclude(out, fault);
    }

    method Execute()
      requires calls == []
      modifies this
      ensures !o.loads ==> calls == []
      ensures o.loads && !o.starts ==> calls == [Started(false)]
      ensures o.loads && o.starts ==> Now() == Executed(o)
      // Every call, in order, up to what became of it.
      ensures o.loads && o.starts ==> Asked(calls) == Transcript(o)
      // When a run that stores what it has is closed as a success and its report column is NULL.
      ensures o.loads && o.starts && o.storesReport ==>
                (Now().stage == Ended(Succeeded) && Now().report.None? <==> AgentsRun(o) && Pipeline.EmptySuccess(o.script))
    {
      var going := Begin();
      if !going { return; }
      HowExecutionsEnd(o);
      if !o.investigable || !o.discovers {
        Refuse();
      } else {
        Investigate();
      }
    }
  }
}
