/**
 One agent run: the loop over the runner's events, the bracketing it writes to the ledger,
 and the decision about how the run ended. What the runner yields, when the guard latches
 and when the context dies are the input.
 */
module Pipeline {
  import opened Runs

  /** The context when an error is looked at: `DiesMeanwhile` is alive at the check and dead when the error is returned. */
  datatype Ctx = Alive | DiesMeanwhile | Dead

  /** One turn of the runner's iterator. */
  datatype Item =
    | Broken(budget: bool, latched: bool, canceled: bool, ctx: Ctx)
    | Silence
    | Spoke(author: string)

  /** What the session state holds under the agent's output key. */
  datatype Analysis =
    | Missing
    | Unparseable
    | Wrapped(verdict: Option<string>, report: Option<string>, raw: string)

  /** Where setting up failed, if it did. */
  datatype Setup = Ready | NoAgent | NoRunner | NoSession

  datatype Script = Script(setup: Setup, items: seq<Item>, latchedAtEnd: bool, sessionRead: bool, analysis: Analysis)

  datatype Output = Output(status: Status, verdict: Option<string>, report: Option<string>)

  /** The error that comes with an output. */
  datatype Fault = NoFault | ContextDone | Fault

  datatype Mark = Start(agent: string) | End(agent: string) | ErrorMark(agent: string) | FindingMark

  /**
   Nothing for a missing or unparseable object; a bare report stands for itself. A report
   that is spelled null is four bytes long, and so a report like any other here.
   */
  function SplitAnalysis(a: Analysis): (Option<string>, Option<string>) {
    match a
    case Missing => (None, None)
    case Unparseable => (None, None)
    case Wrapped(verdict, report, raw) =>
      if raw == "" then (None, None)
      else (verdict, if report.Some? && report.value != "" then report else Some(raw))
  }

  // ---- bracketing ----------------------------------------------------------

  /** Who has the floor: nobody, after `last` gave it up ("" at the outset), or an agent; or the brackets overlap. */
  datatype Floor = Free(last: string) | Held(agent: string) | Muddled

  /** A start takes a free floor, and never right after the same agent; an end gives it up; an error is its holder's. */
  function Follow(f: Floor, m: Mark): Floor {
    match m
    case Start(a) => if f.Free? && a != "" && a != "user" && a != f.last then Held(a) else Muddled
    case End(a) => if f == Held(a) then Free(a) else Muddled
    case ErrorMark(a) => if f == Held(a) || (f.Free? && a == "") then f else Muddled
    case FindingMark => if f.Free? then f else Muddled
  }

  function FloorAfter(marks: seq<Mark>): Floor {
    if marks == [] then Free("") else Follow(FloorAfter(marks[..|marks| - 1]), marks[|marks| - 1])
  }

  lemma OneMoreMark(marks: seq<Mark>, m: Mark)
    ensures FloorAfter(marks + [m]) == Follow(FloorAfter(marks), m)
  {
    assert (marks + [m])[..|marks|] == marks;
  }

  function Closing(current: string): seq<Mark> { if current == "" then [] else [End(current)] }

  lemma FirstErrorAt(items: seq<Item>, n: nat)
    requires n <= |items| && (n < |items| ==> items[n].Broken?)
    requires forall i :: 0 <= i < n ==> !items[i].Broken?
    ensures FirstError(items) == if n < |items| then Some(n) else None
  {
  }

  function Last(heard: seq<string>): string { if heard == [] then "" else heard[|heard| - 1] }

  /** The agents that take the floor among the first n items, each time one does. */
  function Heard(items: seq<Item>, n: nat): seq<string>
    requires n <= |items|
  {
    if n == 0 then []
    else
      var before := Heard(items, n - 1);
      match items[n - 1]
      case Spoke(author) =>
        if author != "" && author != Last(before) && author != "user" then before + [author] else before
      case _ => before
  }

  /** One bracket per turn at the floor, the last one still open. */
  function Brackets(heard: seq<string>): seq<Mark> {
    if heard == [] then []
    else Brackets(heard[..|heard| - 1]) + Closing(Last(heard[..|heard| - 1])) + [Start(Last(heard))]
  }

  lemma BracketsGrow(heard: seq<string>, author: string)
    ensures Last(heard + [author]) == author
    ensures Brackets(heard + [author]) == Brackets(heard) + Closing(Last(heard)) + [Start(author)]
    ensures Last(heard) == "" ==> Brackets(heard) + Closing(Last(heard)) == Brackets(heard)
  {
    assert (heard + [author])[..|heard|] == heard;
  }

  predicate TakesTheFloor(item: Item, current: string) {
    item.Spoke? && item.author != "" && item.author != current && item.author != "user"
  }

  lemma HeardNext(items: seq<Item>, n: nat)
    requires n < |items|
    ensures Heard(items, n + 1) ==
            if TakesTheFloor(items[n], Last(Heard(items, n))) then Heard(items, n) + [items[n].author] else Heard(items, n)
  {
  }

  /** While the runner yields, whoever was heard last has the floor. */
  function FloorOf(heard: seq<string>): Floor { if heard == [] then Free("") else Held(Last(heard)) }

  lemma FloorChanges(heard: seq<string>, author: string)
    requires FloorAfter(Brackets(heard)) == FloorOf(heard)
    requires author != "" && author != "user" && author != Last(heard) && (heard != [] ==> Last(heard) != "")
    ensures FloorAfter(Brackets(heard + [author])) == FloorOf(heard + [author])
  {
    BracketsGrow(heard, author);
    OneMoreMark(Brackets(heard), End(Last(heard)));
    OneMoreMark(Brackets(heard) + Closing(Last(heard)), Start(author));
  }

  lemma FloorChangesFrom(front: seq<string>, author: string, heard: seq<string>)
    requires heard == front + [author] && FloorAfter(Brackets(front)) == FloorOf(front)
    requires author != "" && author != "user" && author != Last(front) && (front != [] ==> Last(front) != "")
    ensures FloorAfter(Brackets(heard)) == FloorOf(heard)
  {
    FloorChanges(front, author);
  }

  /** Real agents, none right after itself. */
  predicate Proper(heard: seq<string>) {
    heard == []
    || (Proper(heard[..|heard| - 1]) && Last(heard) != "" && Last(heard) != "user" && Last(heard) != Last(heard[..|heard| - 1]))
  }

  lemma ProperGrows(heard: seq<string>, author: string)
    requires Proper(heard) && author != "" && author != "user" && author != Last(heard)
    ensures Proper(heard + [author])
  {
    assert (heard + [author])[..|heard|] == heard;
  }

  lemma ProperFront(heard: seq<string>)
    requires Proper(heard) && heard != []
    ensures var front, last := heard[..|heard| - 1], Last(heard);
            && heard == front + [last] && Proper(front)
            && last != "" && last != "user" && last != Last(front) && (front != [] ==> Last(front) != "")
  {
  }

  lemma {:induction false} HeardIsProper(items: seq<Item>, n: nat)
    requires n <= |items|
    ensures Proper(Heard(items, n))
  {
    if n > 0 {
      var before := Heard(items, n - 1);
      HeardIsProper(items, n - 1);
      HeardNext(items, n - 1);
      if TakesTheFloor(items[n - 1], Last(before)) { ProperGrows(before, items[n - 1].author); }
    }
  }

  lemma {:induction false} BracketsHold(heard: seq<string>)
    requires Proper(heard)
    ensures FloorAfter(Brackets(heard)) == FloorOf(heard)
  {
    if heard != [] {
      ProperFront(heard);
      BracketsHold(heard[..|heard| - 1]);
      FloorChangesFrom(heard[..|heard| - 1], Last(heard), heard);
    }
  }

  // ---- which item ends the run ---------------------------------------------

  /** The runner's first error, if it reports one. */
  function FirstError(items: seq<Item>): (r: Option<nat>)
    ensures r.None? <==> forall i :: 0 <= i < |items| ==> !items[i].Broken?
    ensures r.Some? ==> r.value < |items| && items[r.value].Broken?
                        && forall i :: 0 <= i < r.value ==> !items[i].Broken?
  {
    if items == [] then None
    else
      var front := FirstError(items[..|items| - 1]);
      if front.Some? then front
      else if items[|items| - 1].Broken? then Some(|items| - 1)
      else None
  }

  predicate BudgetError(item: Item) { item.Broken? && (item.budget || item.latched) }

  predicate CanceledError(item: Item) {
    item.Broken? && !item.budget && !item.latched && (item.canceled || item.ctx.Dead?)
  }

  /** A cancellation error seen while this run's own context is still alive. */
  predicate StrayCancellation(s: Script) {
    var e := FirstError(s.items);
    s.setup.Ready? && e.Some? && CanceledError(s.items[e.value]) && s.items[e.value].ctx.Alive?
  }

  /** The events ran out, or the budget stopped them: the outputs are read back. */
  predicate ReachesTheEnd(s: Script) {
    var e := FirstError(s.items);
    s.setup.Ready? && (e.None? || BudgetError(s.items[e.value]))
  }

  predicate StoppedByBudget(s: Script) {
    s.latchedAtEnd || FirstError(s.items).Some?
  }

  /** How many items the loop takes in before it ends or meets an error. */
  function Length(items: seq<Item>): (n: nat)
    ensures n <= |items|
  {
    if FirstError(items).Some? then FirstError(items).value else |items|
  }

  /** Follows the runner until it runs out or reports an error. */
  method Listen(items: seq<Item>) returns (error: Option<nat>, current: string, marks: seq<Mark>)
    ensures error == FirstError(items)
    ensures current == Last(Heard(items, Length(items))) && marks == Brackets(Heard(items, Length(items)))
  {
    current, marks := "", [];
    for n := 0 to |items|
      invariant forall i :: 0 <= i < n ==> !items[i].Broken?
      invariant current == Last(Heard(items, n)) && marks == Brackets(Heard(items, n))
    {
      HeardNext(items, n);
      match items[n] {
        case Broken(_, _, _, _) =>
          FirstErrorAt(items, n);
          return Some(n), current, marks;
        case Silence =>
        case Spoke(author) =>
          if author != "" && author != current && author != "user" {
            BracketsGrow(Heard(items, n), author);
            if current != "" { marks := marks + [End(current)]; }
            current, marks := author, marks + [Start(author)];
          }
      }
    }
    FirstErrorAt(items, |items|);
    error := None;
  }

  /** What the run adds to the brackets when it stops listening. */
  function Ending(s: Script, current: string, report: bool): seq<Mark> {
    var e := FirstError(s.items);
    if e.Some? && CanceledError(s.items[e.value]) then []
    else if e.Some? && !BudgetError(s.items[e.value]) then [ErrorMark(current)]
    else Closing(current) + if report then [FindingMark] else []
  }

  /** Everything a run writes about its agents. */
  function MarksOf(s: Script): seq<Mark> {
    var heard := Heard(s.items, Length(s.items));
    if s.setup.Ready? then
      Brackets(heard) + Ending(s, Last(heard), ReachesTheEnd(s) && s.sessionRead && SplitAnalysis(s.analysis).1.Some?)
    else []
  }

  /** A cancellation error while this run's own context is done too. */
  predicate OwnCancellation(s: Script) {
    var e := FirstError(s.items);
    s.setup.Ready? && e.Some? && CanceledError(s.items[e.value]) && !s.items[e.value].ctx.Alive?
  }

  /** How a run comes out. Only a run that reaches the end can have a report, or fail for want of one. */
  function OutcomeOf(s: Script): (Output, Fault) {
    if ReachesTheEnd(s) then
      var status := if StoppedByBudget(s) then BudgetExceeded else Succeeded;
      var (verdict, report) := SplitAnalysis(s.analysis);
      if !s.sessionRead then (Output(status, None, None), Fault)
      else (Output(if status.Succeeded? && report.None? then Failed else status, verdict, report), NoFault)
    else if StrayCancellation(s) then (Output(Succeeded, None, None), NoFault)
    else if OwnCancellation(s) then (Output(Succeeded, None, None), ContextDone)
    else (Output(Failed, None, None), Fault)
  }

  /** The agents answered, and what they gave as their report is a JSON null. */
  predicate NullAnswer(s: Script) {
    var report := SplitAnalysis(s.analysis).1;
    ReachesTheEnd(s) && s.sessionRead && report.Some? && JsonOrNil(report).None?
  }

  /** The two ways to come out as a clean success that leaves no report behind. */
  predicate EmptySuccess(s: Script) {
    StrayCancellation(s) || (NullAnswer(s) && !StoppedByBudget(s))
  }

  lemma EmptySuccessMeans(s: Script)
    ensures var (out, fault) := OutcomeOf(s);
            fault.NoFault? && out.status.Succeeded? && JsonOrNil(out.report).None? <==> EmptySuccess(s)
  {
  }

  /** What is written after the brackets, case by case. */
  lemma MarksMean(s: Script, brackets: seq<Mark>, current: string)
    requires s.setup.Ready? && brackets == Brackets(Heard(s.items, Length(s.items))) && current == Last(Heard(s.items, Length(s.items)))
    ensures var e := FirstError(s.items);
            var closed := brackets + Closing(current);
            && (e.Some? && CanceledError(s.items[e.value]) ==> MarksOf(s) == brackets)
            && (e.Some? && !CanceledError(s.items[e.value]) && !BudgetError(s.items[e.value]) ==>
                  MarksOf(s) == brackets + [ErrorMark(current)])
            && (ReachesTheEnd(s) ==> MarksOf(s) == if OutcomeOf(s).0.report.Some? then closed + [FindingMark] else closed)
  {
    assert brackets + [] == brackets;
    assert Closing(current) + [] == Closing(current);
    assert brackets + (Closing(current) + [FindingMark]) == (brackets + Closing(current)) + [FindingMark];
  }

  /** The agents' outputs are read back out of the session. */
  method ReadBack(s: Script, status: Status) returns (out: Output, fault: Fault)
    requires ReachesTheEnd(s) && status == if StoppedByBudget(s) then BudgetExceeded else Succeeded
    ensures (out, fault) == OutcomeOf(s)
  {
    out := Output(status, None, None);
    if !s.sessionRead { return out, Fault; }
    var (verdict, report) := SplitAnalysis(s.analysis);
    out := out.(verdict := verdict, report := report);
    if out.status.Succeeded? && report.None? { out := out.(status := Failed); }
    fault := NoFault;
  }

  method Run(s: Script) returns (out: Output, fault: Fault, marks: seq<Mark>)
    ensures (out, fault) == OutcomeOf(s)
    ensures marks == MarksOf(s)
    // A clean success that leaves no report: a stray cancellation, or a report spelled null.
    ensures fault.NoFault? && out.status.Succeeded? && JsonOrNil(out.report).None? <==> EmptySuccess(s)
  {
    EmptySuccessMeans(s);
    if !s.setup.Ready? { return Output(Failed, None, None), Fault, []; }
    var status, error, current := Succeeded, None, "";
    error, current, marks := Listen(s.items);
    MarksMean(s, marks, current);
    if error.Some? {
      var item := s.items[error.value];
      if item.budget || item.latched {
        status := BudgetExceeded;
      } else if item.canceled || item.ctx.Dead? {
        return Output(Succeeded, None, None), if item.ctx.Alive? then NoFault else ContextDone, marks;
      } else {
        return Output(Failed, None, None), Fault, marks + [ErrorMark(current)];
      }
    }
    if s.latchedAtEnd { status := BudgetExceeded; }
    marks := marks + Closing(current);
    out, fault := ReadBack(s, status);
    if out.report.Some? { marks := marks + [FindingMark]; }
  }

  // ---- what that settles ---------------------------------------------------

  lemma EndingsFit(brackets: seq<Mark>, current: string)
    requires FloorAfter(brackets) == if current == "" then Free("") else Held(current)
    ensures FloorAfter(brackets + [ErrorMark(current)]) == FloorAfter(brackets)
    ensures FloorAfter(brackets + Closing(current)) == Free(current)
    ensures FloorAfter(brackets + Closing(current) + [FindingMark]) == Free(current)
  {
    OneMoreMark(brackets, ErrorMark(current));
    if current == "" { assert brackets + Closing(current) == brackets; } else { OneMoreMark(brackets, End(current)); }
    OneMoreMark(brackets + Closing(current), FindingMark);
  }

  lemma FloorWhenItStops(items: seq<Item>, n: nat)
    requires n <= |items|
    ensures var heard := Heard(items, n);
            FloorAfter(Brackets(heard)) == if Last(heard) == "" then Free("") else Held(Last(heard))
  {
    HeardIsProper(items, n);
    BracketsHold(Heard(items, n));
  }

  lemma MarksFit(s: Script, brackets: seq<Mark>, current: string)
    requires s.setup.Ready? && brackets == Brackets(Heard(s.items, Length(s.items))) && current == Last(Heard(s.items, Length(s.items)))
    requires FloorAfter(brackets) == if current == "" then Free("") else Held(current)
    ensures !FloorAfter(MarksOf(s)).Muddled?
    ensures ReachesTheEnd(s) ==> FloorAfter(MarksOf(s)).Free?
  {
    EndingsFit(brackets, current);
    MarksMean(s, brackets, current);
  }

  /** Brackets never overlap and no agent follows itself, however the run goes; whenever the end is reached all are closed. */
  lemma BracketsAreWellFormed(s: Script)
    ensures !FloorAfter(MarksOf(s)).Muddled?
    ensures ReachesTheEnd(s) ==> FloorAfter(MarksOf(s)).Free?
  {
    if s.setup.Ready? {
      var heard := Heard(s.items, Length(s.items));
      FloorWhenItStops(s.items, Length(s.items));
      MarksFit(s, Brackets(heard), Last(heard));
    }
  }

  /** A stray cancellation as the runner's first error, in a run that was set up. */
  function StrayScript(): Script {
    Script(Ready, [Broken(false, false, true, Alive)], false, true, Missing)
  }

  /** An agent that answers with a verdict and the report spelled null. */
  function NullScript(): Script {
    Script(Ready, [Spoke("sre")], false, true, Wrapped(Some("{}"), Some("null"), "{...}"))
  }

  /** A clean success that leaves no report happens exactly in those two ways, and each of them does happen. */
  lemma SuccessWithoutAReport(s: Script)
    ensures var (out, fault) := OutcomeOf(s);
            fault.NoFault? && out.status.Succeeded? && JsonOrNil(out.report).None? <==> EmptySuccess(s)
    ensures StrayCancellation(StrayScript()) && !NullAnswer(StrayScript())
    ensures EmptySuccess(NullScript()) && !StrayCancellation(NullScript())
  {
    EmptySuccessMeans(s);
    assert StrayScript().items[..0] == [];
    assert FirstError(StrayScript().items) == Some(0);
    assert FirstError(NullScript().items).None?;
  }

  // ---- every outcome, read off the script -----------------------------------

  /** The n-th item is the first error; or there is none, and n is the number of items. */
  predicate FirstFault(items: seq<Item>, n: nat) {
    n <= |items| && (n < |items| ==> items[n].Broken?) && forall i :: 0 <= i < n ==> !items[i].Broken?
  }

  /**
   How a run comes out, case by case: what could not be set up and what broke fails with an
   error; the budget, whether an error says so, the guard's latch is found set at one, or it is
   set at the end, is told from everything else; a cancellation comes back as a success, with the
   context's own error if it has one; and what ran to its end is a success if there is a report.
   */
  lemma EveryOutcome(s: Script, n: nat)
    requires FirstFault(s.items, n)
    ensures var (out, fault) := OutcomeOf(s);
            var ran, broke := s.setup == Ready, n < |s.items|;
            var budget := broke && (s.items[n].budget || s.items[n].latched);
            var canceled := broke && !budget && (s.items[n].canceled || s.items[n].ctx == Dead);
            var answered := ran && s.sessionRead && s.analysis.Wrapped? && s.analysis.raw != "";
            && (!ran ==> out == Output(Failed, None, None) && fault == Fault)
            && (ran && canceled ==>
                  out == Output(Succeeded, None, None) && fault == if s.items[n].ctx == Alive then NoFault else ContextDone)
            && (ran && broke && !budget && !canceled ==> out == Output(Failed, None, None) && fault == Fault)
            && (ran && (!broke || budget) ==>
                  && (out.status == BudgetExceeded <==> budget || s.latchedAtEnd)
                  && (fault == if s.sessionRead then NoFault else Fault)
                  && (!answered ==> out.verdict.None? && out.report.None?)
                  && (answered ==>
                        && out.verdict == s.analysis.verdict
                        && out.report == if s.analysis.report.Some? && s.analysis.report.value != "" then s.analysis.report
                                         else Some(s.analysis.raw))
                  && (out.status == Succeeded <==> !budget && !s.latchedAtEnd && (out.report.Some? || !s.sessionRead))
                  && (out.status in {BudgetExceeded, Succeeded, Failed}))
  {
    FirstErrorAt(s.items, n);
  }

  /** The authors of what is said among the first n items, but for the user and nobody. */
  function Speakers(items: seq<Item>, n: nat): seq<string>
    requires n <= |items|
  {
    if n == 0 then []
    else
      Speakers(items, n - 1)
      + if items[n - 1].Spoke? && items[n - 1].author != "" && items[n - 1].author != "user" then [items[n - 1].author] else []
  }

  /** Each run of equal names as one. */
  function Squeezed(names: seq<string>): seq<string> {
    if |names| <= 1 then names
    else if names[|names| - 1] == names[|names| - 2] then Squeezed(names[..|names| - 1])
    else Squeezed(names[..|names| - 1]) + [names[|names| - 1]]
  }

  lemma {:induction false} SqueezedEnds(names: seq<string>)
    ensures Last(Squeezed(names)) == Last(names)
  {
    if |names| > 1 { SqueezedEnds(names[..|names| - 1]); }
  }

  lemma SqueezedAppended(names: seq<string>, name: string)
    requires name != ""
    ensures Squeezed(names + [name]) == if Last(names) == name then Squeezed(names) else Squeezed(names) + [name]
  {
    assert (names + [name])[..|names|] == names;
    if names == [] { assert names + [name] == [name] && Squeezed(names) + [name] == [name]; }
  }

  /** Who takes the floor among the first n items. */
  function Floors(items: seq<Item>, n: nat): seq<string>
    requires n <= |items|
  {
    Squeezed(Speakers(items, n))
  }

  /** One more item: whoever speaks takes the floor unless they have it. */
  lemma OneMoreSpeaker(items: seq<Item>, n: nat)
    requires n < |items| && Heard(items, n) == Floors(items, n)
    ensures Heard(items, n + 1) == Floors(items, n + 1)
  {
    var before := Speakers(items, n);
    SqueezedEnds(before);
    HeardNext(items, n);
    assert before + [] == before;
    if items[n].Spoke? && items[n].author != "" { SqueezedAppended(before, items[n].author); }
  }

  /** Whoever speaks takes the floor, once for as long as nobody else does. */
  lemma {:induction false} HeardMeans(items: seq<Item>, n: nat)
    requires n <= |items|
    ensures Heard(items, n) == Floors(items, n)
  {
    if n > 0 {
      HeardMeans(items, n - 1);
      OneMoreSpeaker(items, n - 1);
    }
  }
}
