/**
 The guard every tool call and model call of a run passes through: allowlist, budget
 meter, latch and duplicate suppression, with its callbacks run one after the other.
 GuardRace takes the same callback apart and interleaves it.
 */
module Guards {
  import opened Runs

  const ExitLoop := "exit_loop"

  /** What the guard writes to the run's ledger. Entry number n is entries[n - 1]. */
  datatype Entry =
    | ToolCall(agent: string, key: string)
    | ToolResult(agent: string, tool: string)
    | ModelCall(agent: string)
    | Budget(agent: string, what: string)
    | NotAllowed(agent: string, tool: string)
    | SkippedAgent(agent: string, why: string)
    | Foreign(typ: string)             // written by somebody else to the same ledger

  /** What BeforeTool answers. Only `Admitted` lets the tool run. */
  datatype Verdict =
    | Admitted
    | Unavailable
    | BudgetStop
    | Duplicate(seqNo: int)
    | LedgerFailed

  datatype State = State(
    maxToolCalls: int,
    maxModelTokens: int,
    toolCalls: int,
    modelCalls: int,
    modelTokens: int,
    exceeded: bool,
    allow: map<string, set<string>>,
    seen: map<string, int>,
    skipped: map<string, string>,
    entries: seq<Entry>)

  function Fresh(maxToolCalls: int, maxModelTokens: int): State {
    State(maxToolCalls, maxModelTokens, 0, 0, 0, false, map[], map[], map[], [])
  }

  /** A call's identity: the tool and its arguments in canonical JSON. */
  function Key(tool: string, args: string): string { tool + ":" + args }

  predicate Allowed(s: State, agent: string, tool: string) {
    (agent in s.allow && tool in s.allow[agent]) || tool == ExitLoop
  }

  predicate ToolBudgetSpent(s: State) { s.maxToolCalls > 0 && s.toolCalls >= s.maxToolCalls }

  predicate TokenBudgetSpent(s: State) { s.maxModelTokens > 0 && s.modelTokens >= s.maxModelTokens }

  /** `ok` says whether the ledger took the entry. */
  function Wrote(s: State, e: Entry, ok: bool): State {
    if ok then s.(entries := s.entries + [e]) else s
  }

  function Marked(s: State, agent: string, what: string, ok: bool): State {
    if s.exceeded then s else Wrote(s.(exceeded := true), Budget(agent, what), ok)
  }

  function BeforeToolSpec(s: State, agent: string, tool: string, args: string, ok: bool): (State, Verdict) {
    var key := Key(tool, args);
    if !Allowed(s, agent, tool) then (Wrote(s, NotAllowed(agent, tool), ok), Unavailable)
    else if s.exceeded then (s, BudgetStop)
    else if ToolBudgetSpent(s) then (Marked(s, agent, "toolCalls", ok), BudgetStop)
    else if key in s.seen && tool != ExitLoop then (s, Duplicate(s.seen[key]))
    else
      var counted := s.(toolCalls := s.toolCalls + 1);
      if !ok then (counted, LedgerFailed)
      else
        var written := Wrote(counted, ToolCall(agent, key), true);
        (written.(seen := s.seen[key := |written.entries|]), Admitted)
  }

  function BeforeModelSpec(s: State, agent: string, ok: bool): (State, bool) {
    var s1 := if TokenBudgetSpent(s) then Marked(s, agent, "modelTokens", ok) else s;
    if s1.exceeded then (s1, false) else (s1.(modelCalls := s1.modelCalls + 1), true)
  }

  /** `tokens` is the usage a response carried, if it carried any; a partial response is not logged. */
  function AfterModelSpec(s: State, agent: string, tokens: Option<int>, partial: bool, ok: bool): State {
    var s1 := if tokens.Some? then s.(modelTokens := s.modelTokens + tokens.value) else s;
    if partial then s1 else Wrote(s1, ModelCall(agent), ok)
  }

  class Guard {
    const maxToolCalls: int
    const maxModelTokens: int
    var toolCalls: int
    var modelCalls: int
    var modelTokens: int
    var exceeded: bool
    var allow: map<string, set<string>>
    var seen: map<string, int>
    var skipped: map<string, string>
    var entries: seq<Entry>

    function Now(): State
      reads this
    {
      State(maxToolCalls, maxModelTokens, toolCalls, modelCalls, modelTokens, exceeded, allow, seen, skipped, entries)
    }

    constructor (maxToolCalls: int, maxModelTokens: int)
      ensures Now() == Fresh(maxToolCalls, maxModelTokens)
    {
      this.maxToolCalls, this.maxModelTokens := maxToolCalls, maxModelTokens;
      toolCalls, modelCalls, modelTokens, exceeded := 0, 0, 0, false;
      allow, seen, skipped, entries := map[], map[], map[], [];
    }

    /** The run's ledger: the number of the new entry, or nothing when the write failed. */
    method Append(e: Entry, ok: bool) returns (seqNo: Option<int>)
      modifies this`entries
      ensures Now() == Wrote(old(Now()), e, ok)
      ensures seqNo == if ok then Some(|entries|) else None
    {
      if ok {
        entries := entries + [e];
        seqNo := Some(|entries|);
      } else {
        seqNo := None;
      }
    }

    method MarkExceeded(agent: string, what: string, ok: bool)
      modifies this`exceeded, this`entries
      ensures Now() == Marked(old(Now()), agent, what, ok)
    {
      if !exceeded {
        exceeded := true;
        var _ := Append(Budget(agent, what), ok);
      }
    }

    method NoteSkipped(agent: string, why: string, ok: bool)
      modifies this`skipped, this`entries
      ensures Now() == Wrote(old(Now()).(skipped := old(skipped)[agent := why]), SkippedAgent(agent, why), ok)
    {
      skipped := skipped[agent := why];
      var _ := Append(SkippedAgent(agent, why), ok);
    }

    method Allow(agent: string, tools: seq<string>)
      modifies this`allow
      ensures Now() == old(Now()).(allow := old(allow)[agent := set t | t in tools])
    {
      var names: set<string> := {};
      for i := 0 to |tools|
        invariant names == set t | t in tools[..i]
      {
        assert tools[..i + 1] == tools[..i] + [tools[i]];
        names := names + {tools[i]};
      }
      assert tools[..|tools|] == tools;
      allow := allow[agent := names];
    }

    method BeforeTool(agent: string, tool: string, args: string, ok: bool) returns (v: Verdict)
      modifies this`toolCalls, this`exceeded, this`seen, this`entries
      ensures (Now(), v) == BeforeToolSpec(old(Now()), agent, tool, args, ok)
    {
      var allowed := (agent in allow && tool in allow[agent]) || tool == ExitLoop;
      if !allowed {
        var _ := Append(NotAllowed(agent, tool), ok);
        return Unavailable;
      }
      if exceeded { return BudgetStop; }
      if maxToolCalls > 0 && toolCalls >= maxToolCalls {
        MarkExceeded(agent, "toolCalls", ok);
        return BudgetStop;
      }
      var key := Key(tool, args);
      if key in seen && tool != ExitLoop { return Duplicate(seen[key]); }
      toolCalls := toolCalls + 1;
      var seqNo := Append(ToolCall(agent, key), ok);
      if seqNo.None? { return LedgerFailed; }
      seen := seen[key := seqNo.value];
      return Admitted;
    }

    /** The number attached to the tool's result, when it was recorded. */
    method AfterTool(agent: string, tool: string, ok: bool) returns (ev: Option<int>)
      modifies this`entries
      ensures Now() == Wrote(old(Now()), ToolResult(agent, tool), ok)
      ensures ev.Some? <==> ok
      ensures ev.Some? ==> ev.value == |entries| && entries[ev.value - 1] == ToolResult(agent, tool)
    {
      ev := Append(ToolResult(agent, tool), ok);
    }

    method BeforeModel(agent: string, ok: bool) returns (proceed: bool)
      modifies this`modelCalls, this`exceeded, this`entries
      ensures (Now(), proceed) == BeforeModelSpec(old(Now()), agent, ok)
    {
      if maxModelTokens > 0 && modelTokens >= maxModelTokens { MarkExceeded(agent, "modelTokens", ok); }
      if exceeded { return false; }
      modelCalls := modelCalls + 1;
      return true;
    }

    method AfterModel(agent: string, tokens: Option<int>, partial: bool, ok: bool)
      modifies this`modelTokens, this`entries
      ensures Now() == AfterModelSpec(old(Now()), agent, tokens, partial, ok)
    {
      if tokens.Some? { modelTokens := modelTokens + tokens.value; }
      if partial { return; }
      var _ := Append(ModelCall(agent), ok);
    }
  }

  // ---- whole runs ----------------------------------------------------------

  datatype Step =
    | SetAllow(agent: string, tools: set<string>)
    | Tool(agent: string, tool: string, args: string, ok: bool)
    | Result(agent: string, tool: string, ok: bool)
    | Ask(agent: string, ok: bool)
    | Answer(agent: string, tokens: Option<int>, partial: bool, ok: bool)
    | Other(entry: Entry)

  function Apply(s: State, step: Step): State {
    match step
    case SetAllow(agent, tools) => s.(allow := s.allow[agent := tools])
    case Tool(agent, tool, args, ok) => BeforeToolSpec(s, agent, tool, args, ok).0
    case Result(agent, tool, ok) => Wrote(s, ToolResult(agent, tool), ok)
    case Ask(agent, ok) => BeforeModelSpec(s, agent, ok).0
    case Answer(agent, tokens, partial, ok) => AfterModelSpec(s, agent, tokens, partial, ok)
    case Other(e) => if e.Foreign? || e.SkippedAgent? then Wrote(s, e, true) else s
  }

  function Exec(s: State, steps: seq<Step>): State {
    if steps == [] then s else Apply(Exec(s, steps[..|steps| - 1]), steps[|steps| - 1])
  }

  predicate Admits(s: State, step: Step) {
    step.Tool? && BeforeToolSpec(s, step.agent, step.tool, step.args, step.ok).1.Admitted?
  }

  /** The admitted calls of a run that are subject to duplicate suppression, in order. */
  function AdmittedKeys(s: State, steps: seq<Step>): seq<string> {
    if steps == [] then []
    else
      var front, last := steps[..|steps| - 1], steps[|steps| - 1];
      if Admits(Exec(s, front), last) && last.tool != ExitLoop
      then AdmittedKeys(s, front) + [Key(last.tool, last.args)] else AdmittedKeys(s, front)
  }

  function BudgetEntries(entries: seq<Entry>): nat {
    if entries == [] then 0
    else BudgetEntries(entries[..|entries| - 1]) + if entries[|entries| - 1].Budget? then 1 else 0
  }

  /** A recorded key points at the ledger entry of that very call. */
  predicate Cites(entries: seq<Entry>, key: string, n: int) {
    1 <= n <= |entries| && entries[n - 1].ToolCall? && entries[n - 1].key == key
  }

  ghost predicate Inv(s: State, admitted: seq<string>) {
    && 0 <= s.toolCalls
    && (s.maxToolCalls > 0 ==> s.toolCalls <= s.maxToolCalls)
    && BudgetEntries(s.entries) <= (if s.exceeded then 1 else 0)
    && (forall key :: key in s.seen ==> Cites(s.entries, key, s.seen[key]))
    && (forall i :: 0 <= i < |admitted| ==> admitted[i] in s.seen)
    && (forall i, j :: 0 <= i < j < |admitted| ==> admitted[i] != admitted[j])
  }

  lemma EntriesSnoc(entries: seq<Entry>, e: Entry)
    ensures BudgetEntries(entries + [e]) == BudgetEntries(entries) + if e.Budget? then 1 else 0
    ensures forall key, n :: Cites(entries, key, n) ==> Cites(entries + [e], key, n)
  {
    assert (entries + [e])[..|entries|] == entries;
  }

  /** Recording something that is no budget entry, and moving nothing else the invariant speaks of. */
  lemma Recorded(s: State, s': State, admitted: seq<string>, e: Entry, ok: bool)
    requires Inv(s, admitted) && !e.Budget?
    requires s'.entries == Wrote(s, e, ok).entries && s'.exceeded == s.exceeded && s'.seen == s.seen
    requires s'.toolCalls == s.toolCalls && s'.maxToolCalls == s.maxToolCalls
    ensures Inv(s', admitted)
  {
    EntriesSnoc(s.entries, e);
  }

  lemma MarkedKeeps(s: State, admitted: seq<string>, agent: string, what: string, ok: bool)
    requires Inv(s, admitted)
    ensures Inv(Marked(s, agent, what, ok), admitted)
  {
    EntriesSnoc(s.entries, Budget(agent, what));
  }

  lemma AdmittedKeeps(s: State, admitted: seq<string>, agent: string, tool: string, args: string)
    requires Inv(s, admitted) && BeforeToolSpec(s, agent, tool, args, true).1.Admitted?
    ensures var s' := BeforeToolSpec(s, agent, tool, args, true).0;
            Inv(s', if tool != ExitLoop then admitted + [Key(tool, args)] else admitted)
  {
    var key := Key(tool, args);
    EntriesSnoc(s.entries, ToolCall(agent, key));
    assert Cites(s.entries + [ToolCall(agent, key)], key, |s.entries| + 1);
  }

  lemma ToolKeeps(s: State, admitted: seq<string>, agent: string, tool: string, args: string, ok: bool)
    requires Inv(s, admitted)
    ensures var (s', v) := BeforeToolSpec(s, agent, tool, args, ok);
            Inv(s', if v.Admitted? && tool != ExitLoop then admitted + [Key(tool, args)] else admitted)
  {
    var (s', v) := BeforeToolSpec(s, agent, tool, args, ok);
    match v
    case Admitted => AdmittedKeeps(s, admitted, agent, tool, args);
    case Unavailable => Recorded(s, s', admitted, NotAllowed(agent, tool), ok);
    case BudgetStop => MarkedKeeps(s, admitted, agent, "toolCalls", ok);
    case Duplicate(_) =>
    case LedgerFailed =>
  }

  lemma AskKeeps(s: State, admitted: seq<string>, agent: string, ok: bool)
    requires Inv(s, admitted)
    ensures Inv(BeforeModelSpec(s, agent, ok).0, admitted)
  {
    MarkedKeeps(s, admitted, agent, "modelTokens", ok);
  }

  lemma AnswerKeeps(s: State, admitted: seq<string>, agent: string, tokens: Option<int>, partial: bool, ok: bool)
    requires Inv(s, admitted)
    ensures Inv(AfterModelSpec(s, agent, tokens, partial, ok), admitted)
  {
    Recorded(s, AfterModelSpec(s, agent, tokens, partial, ok), admitted, ModelCall(agent), !partial && ok);
  }

  lemma OtherKeeps(s: State, admitted: seq<string>, e: Entry)
    requires Inv(s, admitted)
    ensures Inv(Apply(s, Step.Other(e)), admitted)
  {
    if e.Foreign? || e.SkippedAgent? { Recorded(s, Apply(s, Step.Other(e)), admitted, e, true); }
  }

  lemma InvStep(s: State, admitted: seq<string>, step: Step)
    requires Inv(s, admitted)
    ensures Inv(Apply(s, step),
                if Admits(s, step) && step.tool != ExitLoop then admitted + [Key(step.tool, step.args)] else admitted)
  {
    match step
    case Tool(agent, tool, args, ok) => ToolKeeps(s, admitted, agent, tool, args, ok);
    case Result(agent, tool, ok) => Recorded(s, Apply(s, step), admitted, ToolResult(agent, tool), ok);
    case Ask(agent, ok) => AskKeeps(s, admitted, agent, ok);
    case Answer(agent, tokens, partial, ok) => AnswerKeeps(s, admitted, agent, tokens, partial, ok);
    case Other(e) => OtherKeeps(s, admitted, e);
    case SetAllow(_, _) =>
  }

  lemma LimitsStay(s: State, step: Step)
    ensures Apply(s, step).maxToolCalls == s.maxToolCalls && Apply(s, step).maxModelTokens == s.maxModelTokens
  {
    match step {
      case SetAllow(_, _) =>
      case Tool(_, _, _, _) =>
      case Result(_, _, _) =>
      case Ask(_, _) =>
      case Answer(_, _, _, _) =>
      case Other(_) =>
    }
  }

  lemma {:induction false} InvExec(s0: State, steps: seq<Step>)
    requires Inv(s0, [])
    ensures Inv(Exec(s0, steps), AdmittedKeys(s0, steps))
    ensures Exec(s0, steps).maxToolCalls == s0.maxToolCalls && Exec(s0, steps).maxModelTokens == s0.maxModelTokens
  {
    if steps != [] {
      var front := steps[..|steps| - 1];
      InvExec(s0, front);
      InvStep(Exec(s0, front), AdmittedKeys(s0, front), steps[|steps| - 1]);
      LimitsStay(Exec(s0, front), steps[|steps| - 1]);
    }
  }

  /** A positive limit is never passed, and the budget entry is written at most once. */
  lemma SequentialBudgetHolds(maxToolCalls: int, maxModelTokens: int, steps: seq<Step>)
    ensures var s := Exec(Fresh(maxToolCalls, maxModelTokens), steps);
            && (maxToolCalls > 0 ==> 0 <= s.toolCalls <= maxToolCalls)
            && BudgetEntries(s.entries) <= 1
            && (!s.exceeded ==> BudgetEntries(s.entries) == 0)
  {
    InvExec(Fresh(maxToolCalls, maxModelTokens), steps);
  }

  /** No tool is ever run twice with the same arguments, exit_loop aside. */
  lemma NoIdenticalRepeat(maxToolCalls: int, maxModelTokens: int, steps: seq<Step>, i: nat, j: nat)
    ensures var keys := AdmittedKeys(Fresh(maxToolCalls, maxModelTokens), steps);
            i < j < |keys| ==> keys[i] != keys[j]
  {
    InvExec(Fresh(maxToolCalls, maxModelTokens), steps);
  }

  /** The refusal of a repeat names the ledger entry under which that same call was recorded. */
  lemma DuplicateCitesTheFirstCall(maxToolCalls: int, maxModelTokens: int, steps: seq<Step>,
                                   agent: string, tool: string, args: string, ok: bool)
    ensures var s := Exec(Fresh(maxToolCalls, maxModelTokens), steps);
            var v := BeforeToolSpec(s, agent, tool, args, ok).1;
            v.Duplicate? ==> Cites(s.entries, Key(tool, args), v.seqNo)
  {
    InvExec(Fresh(maxToolCalls, maxModelTokens), steps);
  }

  /** The i-th step of the run is an admitted call with this key. */
  predicate AdmittedAt(s: State, steps: seq<Step>, i: nat, key: string)
    requires i < |steps|
  {
    Admits(Exec(s, steps[..i]), steps[i]) && Key(steps[i].tool, steps[i].args) == key
  }

  predicate AdmittedBefore(s: State, steps: seq<Step>, key: string) {
    exists i :: 0 <= i < |steps| && AdmittedAt(s, steps, i, key)
  }

  lemma AdmittedAtStays(s: State, front: seq<Step>, last: Step, i: nat, key: string)
    requires i < |front|
    ensures AdmittedAt(s, front + [last], i, key) <==> AdmittedAt(s, front, i, key)
  {
    assert (front + [last])[..i] == front[..i];
  }

  lemma AdmittedByNow(s: State, front: seq<Step>, last: Step, key: string)
    ensures AdmittedBefore(s, front + [last], key) <==>
            AdmittedBefore(s, front, key) || (Admits(Exec(s, front), last) && Key(last.tool, last.args) == key)
  {
    var steps := front + [last];
    assert steps[..|front|] == front;
    assert AdmittedAt(s, steps, |front|, key) <==> Admits(Exec(s, front), last) && Key(last.tool, last.args) == key;
    forall i | 0 <= i < |front|
      ensures AdmittedAt(s, steps, i, key) <==> AdmittedAt(s, front, i, key)
    {
      AdmittedAtStays(s, front, last, i, key);
    }
  }

  lemma SeenStep(s: State, step: Step, key: string)
    ensures key in Apply(s, step).seen <==>
            key in s.seen || (Admits(s, step) && Key(step.tool, step.args) == key)
  {
  }

  /** The duplicate table holds exactly the keys admitted so far. */
  lemma {:induction false} SeenIsTheHistory(s: State, steps: seq<Step>, key: string)
    requires s.seen == map[]
    ensures key in Exec(s, steps).seen <==> AdmittedBefore(s, steps, key)
  {
    if steps != [] {
      var front, last := steps[..|steps| - 1], steps[|steps| - 1];
      SeenIsTheHistory(s, front, key);
      SeenStep(Exec(s, front), last, key);
      AdmittedByNow(s, front, last, key);
      assert front + [last] == steps;
    }
  }

  lemma LatchedStep(s: State, step: Step)
    requires s.exceeded
    ensures var s' := Apply(s, step);
            s'.exceeded && s'.toolCalls == s.toolCalls && s'.modelCalls == s.modelCalls && !Admits(s, step)
  {
  }

  lemma {:induction false} LatchStays(s: State, steps: seq<Step>)
    requires s.exceeded
    ensures var s' := Exec(s, steps); s'.exceeded && s'.toolCalls == s.toolCalls && s'.modelCalls == s.modelCalls
  {
    if steps != [] {
      LatchStays(s, steps[..|steps| - 1]);
      LatchedStep(Exec(s, steps[..|steps| - 1]), steps[|steps| - 1]);
    }
  }

  /** Once the latch is set nothing is admitted or counted any more, and it never resets. */
  lemma NothingAfterTheLatch(s: State, steps: seq<Step>)
    requires s.exceeded
    ensures var s' := Exec(s, steps);
            s'.exceeded && s'.toolCalls == s.toolCalls && s'.modelCalls == s.modelCalls
    ensures forall i :: 0 <= i < |steps| ==> !Admits(Exec(s, steps[..i]), steps[i])
  {
    LatchStays(s, steps);
    forall i | 0 <= i < |steps|
      ensures !Admits(Exec(s, steps[..i]), steps[i])
    {
      LatchStays(s, steps[..i]);
      LatchedStep(Exec(s, steps[..i]), steps[i]);
    }
  }

  // ---- tokens --------------------------------------------------------------

  function TokensIn(steps: seq<Step>): int {
    if steps == [] then 0
    else
      TokensIn(steps[..|steps| - 1]) +
      var last := steps[|steps| - 1];
      if last.Answer? && last.tokens.Some? then last.tokens.value else 0
  }

  lemma TokensMoveOnAnswers(s: State, step: Step)
    ensures Apply(s, step).modelTokens ==
            s.modelTokens + if step.Answer? && step.tokens.Some? then step.tokens.value else 0
  {
  }

  /** Tokens are exactly what the responses reported: nothing else moves the meter. */
  lemma {:induction false} TokensAreWhatWasReported(s: State, steps: seq<Step>)
    ensures Exec(s, steps).modelTokens == s.modelTokens + TokensIn(steps)
  {
    if steps != [] {
      TokensAreWhatWasReported(s, steps[..|steps| - 1]);
      TokensMoveOnAnswers(Exec(s, steps[..|steps| - 1]), steps[|steps| - 1]);
    }
  }

  /**
   The overshoot is bounded by what came back since the last model call that was let
   through: without it, the meter would still be under a positive limit.
   */
  lemma TokenOvershoot(s: State, agent: string, ok: bool, rest: seq<Step>)
    requires s.maxModelTokens > 0 && BeforeModelSpec(s, agent, ok).1
    ensures Exec(BeforeModelSpec(s, agent, ok).0, rest).modelTokens - TokensIn(rest) < s.maxModelTokens
  {
    TokensAreWhatWasReported(BeforeModelSpec(s, agent, ok).0, rest);
  }

  // ---- every answer, read off the run so far -------------------------------

  /** The agent's latest allowlist names the tool; leaving the loop is always allowed. */
  predicate Permitted(steps: seq<Step>, agent: string, tool: string) {
    if steps == [] then tool == "exit_loop"
    else
      var last := steps[|steps| - 1];
      if last.SetAllow? && last.agent == agent then tool in last.tools || tool == "exit_loop"
      else Permitted(steps[..|steps| - 1], agent, tool)
  }

  function VerdictOn(s: State, step: Step): Verdict
    requires step.Tool?
  {
    BeforeToolSpec(s, step.agent, step.tool, step.args, step.ok).1
  }

  /** How many tool calls were let through, or failed only because the ledger did. */
  function Counted(s0: State, steps: seq<Step>): nat {
    if steps == [] then 0
    else
      var front, last := steps[..|steps| - 1], steps[|steps| - 1];
      Counted(s0, front)
      + if last.Tool? && (VerdictOn(Exec(s0, front), last).Admitted? || VerdictOn(Exec(s0, front), last).LedgerFailed?) then 1 else 0
  }

  /** How many model calls were let through. */
  function AskedFor(s0: State, steps: seq<Step>): nat {
    if steps == [] then 0
    else
      var front, last := steps[..|steps| - 1], steps[|steps| - 1];
      AskedFor(s0, front) + if last.Ask? && BeforeModelSpec(Exec(s0, front), last.agent, last.ok).1 then 1 else 0
  }

  /** A call that finds its budget spent. */
  predicate Trips(maxToolCalls: int, maxModelTokens: int, before: seq<Step>, step: Step) {
    || (step.Tool? && Permitted(before, step.agent, step.tool)
        && maxToolCalls > 0 && Counted(Fresh(maxToolCalls, maxModelTokens), before) == maxToolCalls)
    || (step.Ask? && maxModelTokens > 0 && TokensIn(before) >= maxModelTokens)
  }

  /** Some call so far has found its budget spent. */
  predicate Tripped(maxToolCalls: int, maxModelTokens: int, steps: seq<Step>) {
    steps != []
    && (Tripped(maxToolCalls, maxModelTokens, steps[..|steps| - 1])
        || Trips(maxToolCalls, maxModelTokens, steps[..|steps| - 1], steps[|steps| - 1]))
  }

  lemma AllowStep(s: State, step: Step, agent: string, tool: string)
    ensures Allowed(Apply(s, step), agent, tool) <==>
            if step.SetAllow? && step.agent == agent then tool in step.tools || tool == "exit_loop" else Allowed(s, agent, tool)
  {
  }

  lemma {:induction false} AllowedMeans(s0: State, steps: seq<Step>, agent: string, tool: string)
    requires s0.allow == map[]
    ensures Allowed(Exec(s0, steps), agent, tool) <==> Permitted(steps, agent, tool)
  {
    if steps != [] {
      AllowedMeans(s0, steps[..|steps| - 1], agent, tool);
      AllowStep(Exec(s0, steps[..|steps| - 1]), steps[|steps| - 1], agent, tool);
    }
  }

  lemma CountStep(s: State, step: Step)
    ensures Apply(s, step).toolCalls ==
            s.toolCalls + if step.Tool? && (VerdictOn(s, step).Admitted? || VerdictOn(s, step).LedgerFailed?) then 1 else 0
    ensures Apply(s, step).modelCalls ==
            s.modelCalls + if step.Ask? && BeforeModelSpec(s, step.agent, step.ok).1 then 1 else 0
  {
  }

  /** The counters count what was let through. */
  lemma {:induction false} CountersMean(s0: State, steps: seq<Step>)
    ensures Exec(s0, steps).toolCalls == s0.toolCalls + Counted(s0, steps)
    ensures Exec(s0, steps).modelCalls == s0.modelCalls + AskedFor(s0, steps)
  {
    if steps != [] {
      CountersMean(s0, steps[..|steps| - 1]);
      CountStep(Exec(s0, steps[..|steps| - 1]), steps[|steps| - 1]);
    }
  }

  /** What a state holds, in terms of how it came about. */
  lemma StateMeans(maxToolCalls: int, maxModelTokens: int, steps: seq<Step>)
    ensures var s0 := Fresh(maxToolCalls, maxModelTokens);
            var s := Exec(s0, steps);
            && s.maxToolCalls == maxToolCalls && s.maxModelTokens == maxModelTokens
            && s.toolCalls == Counted(s0, steps) && s.modelTokens == TokensIn(steps)
            && (maxToolCalls > 0 ==> Counted(s0, steps) <= maxToolCalls)
  {
    var s0 := Fresh(maxToolCalls, maxModelTokens);
    InvExec(s0, steps);
    CountersMean(s0, steps);
    TokensAreWhatWasReported(s0, steps);
  }

  lemma LatchStep(s: State, step: Step)
    ensures Apply(s, step).exceeded <==>
              || s.exceeded
              || (step.Tool? && Allowed(s, step.agent, step.tool) && s.maxToolCalls > 0 && s.toolCalls >= s.maxToolCalls)
              || (step.Ask? && s.maxModelTokens > 0 && s.modelTokens >= s.maxModelTokens)
  {
  }

  /** The latch is set exactly when some call has found its budget spent. */
  lemma {:induction false} LatchMeans(maxToolCalls: int, maxModelTokens: int, steps: seq<Step>)
    ensures Exec(Fresh(maxToolCalls, maxModelTokens), steps).exceeded <==> Tripped(maxToolCalls, maxModelTokens, steps)
  {
    if steps != [] {
      var s0, front, last := Fresh(maxToolCalls, maxModelTokens), steps[..|steps| - 1], steps[|steps| - 1];
      LatchMeans(maxToolCalls, maxModelTokens, front);
      LatchStep(Exec(s0, front), last);
      StateMeans(maxToolCalls, maxModelTokens, front);
      if last.Tool? { AllowedMeans(s0, front, last.agent, last.tool); }
    }
  }

  /**
   What a tool call is answered, at any point of any run, in terms of the run so far: refused as
   unavailable unless permitted; then for the budget if one was ever found spent, or if exactly
   the limit has been counted; then as a repeat of an admitted call; and let through otherwise if
   the ledger takes it.
   */
  lemma ToolAnswerMeans(maxToolCalls: int, maxModelTokens: int, steps: seq<Step>,
                        agent: string, tool: string, args: string, ok: bool)
    ensures var s0 := Fresh(maxToolCalls, maxModelTokens);
            var v := BeforeToolSpec(Exec(s0, steps), agent, tool, args, ok).1;
            var spent := maxToolCalls > 0 && Counted(s0, steps) == maxToolCalls;
            var open := !Tripped(maxToolCalls, maxModelTokens, steps);
            var repeated := tool != "exit_loop" && AdmittedBefore(s0, steps, tool + ":" + args);
            && (v.Unavailable? <==> !Permitted(steps, agent, tool))
            && (v.BudgetStop? <==> Permitted(steps, agent, tool) && (!open || spent))
            && (v.Duplicate? <==> Permitted(steps, agent, tool) && open && !spent && repeated)
            && (v.LedgerFailed? <==> Permitted(steps, agent, tool) && open && !spent && !repeated && !ok)
            && (v.Admitted? <==> Permitted(steps, agent, tool) && open && !spent && !repeated && ok)
  {
    var s0 := Fresh(maxToolCalls, maxModelTokens);
    AllowedMeans(s0, steps, agent, tool);
    LatchMeans(maxToolCalls, maxModelTokens, steps);
    StateMeans(maxToolCalls, maxModelTokens, steps);
    SeenIsTheHistory(s0, steps, Key(tool, args));
  }

  /** A model call is let through exactly when no budget was ever found spent and the tokens reported so far are under a positive limit. */
  lemma ModelAnswerMeans(maxToolCalls: int, maxModelTokens: int, steps: seq<Step>, agent: string, ok: bool)
    ensures BeforeModelSpec(Exec(Fresh(maxToolCalls, maxModelTokens), steps), agent, ok).1 <==>
            !Tripped(maxToolCalls, maxModelTokens, steps) && (maxModelTokens <= 0 || TokensIn(steps) < maxModelTokens)
  {
    LatchMeans(maxToolCalls, maxModelTokens, steps);
    StateMeans(maxToolCalls, maxModelTokens, steps);
  }

  /**
   At any point of any run: a call gets through exactly when its agent may make it, the latch is
   open, fewer calls than the limit have been counted, no admitted call was the same one, and the ledger takes it.
   Only then is it recorded.
   */
  lemma AdmissionMeans(maxToolCalls: int, maxModelTokens: int, steps: seq<Step>,
                       agent: string, tool: string, args: string, ok: bool)
    ensures var s0 := Fresh(maxToolCalls, maxModelTokens);
            var s := Exec(s0, steps);
            var (s', v) := BeforeToolSpec(s, agent, tool, args, ok);
            && (v.Admitted? <==> Allowed(s, agent, tool) && !s.exceeded && (maxToolCalls <= 0 || Counted(s0, steps) < maxToolCalls)
                                 && (!AdmittedBefore(s0, steps, Key(tool, args)) || tool == ExitLoop) && ok)
            && (v.Duplicate? ==> AdmittedBefore(s0, steps, Key(tool, args)) && tool != ExitLoop)
            && (v.Admitted? ==> s'.toolCalls == s.toolCalls + 1 && s'.entries == s.entries + [ToolCall(agent, Key(tool, args))])
            && (!v.Admitted? && !v.LedgerFailed? ==> s'.toolCalls == s.toolCalls && s'.seen == s.seen)
  {
    StateMeans(maxToolCalls, maxModelTokens, steps);
    SeenIsTheHistory(Fresh(maxToolCalls, maxModelTokens), steps, Key(tool, args));
  }

  /** What each answer writes to the ledger. */
  lemma AnswersAreWritten(s: State, agent: string, tool: string, args: string, ok: bool)
    ensures var (s', v) := BeforeToolSpec(s, agent, tool, args, ok);
            s'.entries == s.entries +
              match v
              case Admitted => [ToolCall(agent, tool + ":" + args)]
              case Unavailable => if ok then [NotAllowed(agent, tool)] else []
              case BudgetStop => if s'.exceeded != s.exceeded && ok then [Budget(agent, "toolCalls")] else []
              case _ => []
    ensures var s' := BeforeModelSpec(s, agent, ok).0;
            s'.entries == s.entries + if s'.exceeded != s.exceeded && ok then [Budget(agent, "modelTokens")] else []
    ensures forall tokens, partial ::
              AfterModelSpec(s, agent, tokens, partial, ok).entries == s.entries + if !partial && ok then [ModelCall(agent)] else []
  {
    assert s.entries + [] == s.entries;
  }

  /** Calls of different keys, all permitted and none seen before, that the ledger takes. */
  predicate Fit(s: State, calls: seq<Step>) {
    && (forall i :: 0 <= i < |calls| ==>
          && calls[i].Tool? && calls[i].ok && Allowed(s, calls[i].agent, calls[i].tool)
          && Key(calls[i].tool, calls[i].args) !in s.seen)
    && (forall i, j :: 0 <= i < j < |calls| ==> Key(calls[i].tool, calls[i].args) != Key(calls[j].tool, calls[j].args))
  }

  lemma FitStays(s: State, calls: seq<Step>)
    requires calls != [] && Fit(s, calls) && !s.exceeded && (s.maxToolCalls <= 0 || s.toolCalls < s.maxToolCalls)
    ensures Admits(s, calls[0])
    ensures var s' := Apply(s, calls[0]);
            && Fit(s', calls[1..]) && !s'.exceeded
            && s'.maxToolCalls == s.maxToolCalls && s'.toolCalls == s.toolCalls + 1
  {
    var s' := Apply(s, calls[0]);
    assert s'.allow == s.allow && s'.seen == s.seen[Key(calls[0].tool, calls[0].args) := |s'.entries|];
  }

  lemma {:induction false} ExecFirst(s: State, step: Step, rest: seq<Step>)
    ensures Exec(s, [step] + rest) == Exec(Apply(s, step), rest)
  {
    if rest == [] {
      assert [step] + rest == [step] && [step][..0] == [];
      assert Exec(s, []) == s;
    } else {
      ExecFirst(s, step, rest[..|rest| - 1]);
      assert ([step] + rest)[..|rest|] == [step] + rest[..|rest| - 1];
    }
  }

  /** The n-th of these calls is let through when they are made one after the other. */
  predicate GetsThrough(s: State, calls: seq<Step>, n: nat)
    requires n < |calls|
  {
    Admits(Exec(s, calls[..n]), calls[n])
  }

  lemma GetsThroughLater(s: State, calls: seq<Step>, n: nat)
    requires 0 < n < |calls| && GetsThrough(Apply(s, calls[0]), calls[1..], n - 1)
    ensures GetsThrough(s, calls, n)
  {
    var rest := calls[1..][..n - 1];
    ExecFirst(s, calls[0], rest);
    assert calls[..n] == [calls[0]] + rest;
  }

  lemma GetsThroughFirst(s: State, calls: seq<Step>)
    requires calls != [] && Admits(s, calls[0])
    ensures GetsThrough(s, calls, 0)
  {
    assert calls[..0] == [];
  }

  /** As many different calls as the limit leaves room for all get through: nothing but the limit stops them. */
  lemma {:induction false} RoomIsUsed(s: State, calls: seq<Step>, n: nat)
    requires Fit(s, calls) && !s.exceeded && n < |calls|
    requires s.maxToolCalls <= 0 || s.toolCalls + |calls| <= s.maxToolCalls
    ensures GetsThrough(s, calls, n)
    decreases n
  {
    FitStays(s, calls);
    if n == 0 {
      GetsThroughFirst(s, calls);
    } else {
      RoomIsUsed(Apply(s, calls[0]), calls[1..], n - 1);
      GetsThroughLater(s, calls, n);
    }
  }

  /** From the start of a run: any limit's worth of different calls of allowed tools is admitted, whatever tool and arguments. */
  lemma WholeBudgetIsUsed(maxToolCalls: int, maxModelTokens: int, agent: string, tools: set<string>, calls: seq<Step>, n: nat)
    requires maxToolCalls <= 0 || |calls| <= maxToolCalls
    requires n < |calls|
    requires forall i :: 0 <= i < |calls| ==>
               calls[i].Tool? && calls[i].ok && calls[i].agent == agent && calls[i].tool in tools
    requires forall i, j :: 0 <= i < j < |calls| ==> Key(calls[i].tool, calls[i].args) != Key(calls[j].tool, calls[j].args)
    ensures Admits(Exec(Fresh(maxToolCalls, maxModelTokens), [SetAllow(agent, tools)] + calls[..n]), calls[n])
  {
    var s0 := Fresh(maxToolCalls, maxModelTokens);
    ExecFirst(s0, SetAllow(agent, tools), calls[..n]);
    RoomIsUsed(Apply(s0, SetAllow(agent, tools)), calls, n);
  }

  lemma ShorterNameIsAPrefix(t1: string, a1: string, t2: string, a2: string)
    requires Key(t1, a1) == Key(t2, a2) && |t1| < |t2|
    ensures t1 + ":" <= t2
  {
    var k := Key(t1, a1);
    assert t1 + ":" == k[..|t1| + 1];
    assert t2 == k[..|t2|];
  }

  lemma PrefixTellsApart(t1: string, a1: string, t2: string, a2: string)
    requires Key(t1, a1) == Key(t2, a2) && !(t1 + ":" <= t2) && !(t2 + ":" <= t1)
    ensures t1 == t2 && a1 == a2
  {
    if |t1| < |t2| { ShorterNameIsAPrefix(t1, a1, t2, a2); }
    if |t2| < |t1| { ShorterNameIsAPrefix(t2, a2, t1, a1); }
    var k := Key(t1, a1);
    assert t1 == k[..|t1|] && t2 == k[..|t2|];
    assert a1 == k[|t1| + 1..] && a2 == k[|t2| + 1..];
  }

  /** Names that clash do so for every argument of the longer one. */
  lemma PrefixClashes(t1: string, t2: string, a2: string) returns (a1: string)
    requires t1 + ":" <= t2
    ensures t1 != t2 && Key(t1, a1) == Key(t2, a2)
  {
    a1 := t2[|t1| + 1..] + ":" + a2;
    assert t2 == t1 + ":" + t2[|t1| + 1..];
  }

  /** Two tools never share a key, whatever their arguments, exactly when neither name continues the other after a colon. */
  lemma KeysTellCallsApart(t1: string, t2: string)
    ensures !(t1 + ":" <= t2) && !(t2 + ":" <= t1) <==>
            forall a1: string, a2: string :: Key(t1, a1) == Key(t2, a2) ==> t1 == t2 && a1 == a2
  {
    if t1 + ":" <= t2 {
      var a1 := PrefixClashes(t1, t2, "");
    } else if t2 + ":" <= t1 {
      var a2 := PrefixClashes(t2, t1, "");
    } else {
      forall a1: string, a2: string | Key(t1, a1) == Key(t2, a2)
        ensures t1 == t2 && a1 == a2
      {
        PrefixTellsApart(t1, a1, t2, a2);
      }
    }
  }
}
