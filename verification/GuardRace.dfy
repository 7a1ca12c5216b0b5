/**
 k calls at a time through one guard, tool calls and model calls alike, interleaved between
 any two accesses to shared state. Each slot runs one call after another; the budgets are
 read in one place and bumped in another, and the duplicate table is read in one critical
 section and written in a later one.
 */
module GuardRace {

  type Key = nat

  /** Where one call is. `exit` marks the exit_loop tool, which is exempt from duplicate suppression. */
  datatype Pc =
    | Idle
    | Listed(key: Key, exit: bool)      // passed the allowlist
    | Unlatched(key: Key, exit: bool)   // saw the latch open
    | Stopping                          // saw the budget spent: about to set the latch
    | Reporting                         // set the latch itself: about to write the budget entry
    | Affordable(key: Key, exit: bool)  // saw the counter under the limit
    | Novel(key: Key, exit: bool)       // saw no earlier identical call
    | Counted(key: Key, exit: bool)     // bumped the counter
    | Written(key: Key, exit: bool)     // the ledger took the entry
    | Asking                            // a model call, before it looks at the token meter
    | Metered                           // saw the meter under its limit
    | Passed                            // saw the latch open, not counted yet

  datatype State = State(
    limit: int,
    maxTokens: int,
    toolCalls: int,
    modelCalls: int,
    tokens: int,
    exceeded: bool,
    budgetEntries: nat,
    seen: set<Key>,
    slots: seq<Pc>,
    admitted: seq<Key>)                 // suppressible calls let through, in order

  datatype Step =
    | Enter(i: nat, key: Key, exit: bool)
    | CheckLatch(i: nat)
    | CheckBudget(i: nat)
    | SetLatch(i: nat)
    | Report(i: nat, ok: bool)
    | CheckSeen(i: nat)
    | Count(i: nat)
    | Write(i: nat, ok: bool)
    | Record(i: nat)
    | Ask(i: nat)
    | CheckTokens(i: nat)
    | CheckModelLatch(i: nat)
    | CountModel(i: nat)
    | Usage(n: int)

  function Init(limit: int, maxTokens: int, k: nat): State {
    State(limit, maxTokens, 0, 0, 0, false, 0, {}, seq(k, _ => Idle), [])
  }

  predicate Enabled(s: State, step: Step) {
    step.Usage? ||
    (step.i < |s.slots| &&
    var pc := s.slots[step.i];
    match step
    case Enter(_, _, _) => pc.Idle?
    case CheckLatch(_) => pc.Listed?
    case CheckBudget(_) => pc.Unlatched?
    case SetLatch(_) => pc.Stopping?
    case Report(_, _) => pc.Reporting?
    case CheckSeen(_) => pc.Affordable?
    case Count(_) => pc.Novel?
    case Write(_, _) => pc.Counted?
    case Record(_) => pc.Written?
    case Ask(_) => pc.Idle?
    case CheckTokens(_) => pc.Asking?
    case CheckModelLatch(_) => pc.Metered?
    case CountModel(_) => pc.Passed?)
  }

  function Move(s: State, i: nat, pc: Pc): State
    requires i < |s.slots|
  {
    s.(slots := s.slots[i := pc])
  }

  function Apply(s: State, step: Step): State
    requires Enabled(s, step)
  {
    if step.Usage? then s.(tokens := s.tokens + step.n)
    else
    var pc := s.slots[step.i];
    match step
    case Enter(i, key, exit) => Move(s, i, Listed(key, exit))
    case CheckLatch(i) => Move(s, i, if s.exceeded then Idle else Unlatched(pc.key, pc.exit))
    case CheckBudget(i) => Move(s, i, if s.limit > 0 && s.toolCalls >= s.limit then Stopping else Affordable(pc.key, pc.exit))
    case SetLatch(i) => Move(s, i, if s.exceeded then Idle else Reporting).(exceeded := true)
    case Report(i, ok) => Move(s, i, Idle).(budgetEntries := s.budgetEntries + if ok then 1 else 0)
    case CheckSeen(i) => Move(s, i, if pc.key in s.seen && !pc.exit then Idle else Novel(pc.key, pc.exit))
    case Count(i) => Move(s, i, Counted(pc.key, pc.exit)).(toolCalls := s.toolCalls + 1)
    case Write(i, ok) => Move(s, i, if ok then Written(pc.key, pc.exit) else Idle)
    case Record(i) =>
      Move(s, i, Idle).(seen := s.seen + {pc.key}, admitted := if pc.exit then s.admitted else s.admitted + [pc.key])
    case Ask(i) => Move(s, i, Asking)
    case CheckTokens(i) => Move(s, i, if s.maxTokens > 0 && s.tokens >= s.maxTokens then Stopping else Metered)
    case CheckModelLatch(i) => Move(s, i, if s.exceeded then Idle else Passed)
    case CountModel(i) => Move(s, i, Idle).(modelCalls := s.modelCalls + 1)
  }

  function Exec(s: State, schedule: seq<Step>): State
    decreases |schedule|
  {
    if schedule == [] then s
    else Exec(if Enabled(s, schedule[0]) then Apply(s, schedule[0]) else s, schedule[1..])
  }

  // ---- counting slots ------------------------------------------------------

  function CountIf(slots: seq<Pc>, p: Pc -> bool): nat {
    if slots == [] then 0 else CountIf(slots[..|slots| - 1], p) + if p(slots[|slots| - 1]) then 1 else 0
  }

  lemma {:induction false} CountUpdate(slots: seq<Pc>, p: Pc -> bool, i: nat, pc: Pc)
    requires i < |slots|
    ensures CountIf(slots[i := pc], p) == CountIf(slots, p) - (if p(slots[i]) then 1 else 0) + (if p(pc) then 1 else 0)
  {
    var front := slots[..|slots| - 1];
    if i < |front| {
      CountUpdate(front, p, i, pc);
      assert slots[i := pc][..|slots| - 1] == front[i := pc];
    } else {
      assert slots[i := pc][..|slots| - 1] == front;
    }
  }

  lemma {:induction false} CountBound(slots: seq<Pc>, p: Pc -> bool)
    ensures CountIf(slots, p) <= |slots|
    ensures forall i :: 0 <= i < |slots| && !p(slots[i]) ==> CountIf(slots, p) < |slots|
    ensures (forall i :: 0 <= i < |slots| ==> !p(slots[i])) ==> CountIf(slots, p) == 0
  {
    if slots != [] { CountBound(slots[..|slots| - 1], p); }
  }

  /** Saw the counter under the limit and has not bumped it yet. */
  function Uncounted(): Pc -> bool { (pc: Pc) => pc.Affordable? || pc.Novel? }

  function ToReport(): Pc -> bool { (pc: Pc) => pc.Reporting? }

  /** Past the duplicate check for one key, and not yet recorded. */
  function Unrecorded(key: Key): Pc -> bool {
    (pc: Pc) => (pc.Novel? || pc.Counted? || pc.Written?) && pc.key == key && !pc.exit
  }

  function Times(keys: seq<Key>, key: Key): nat {
    if keys == [] then 0 else Times(keys[..|keys| - 1], key) + if keys[|keys| - 1] == key then 1 else 0
  }

  lemma TimesSnoc(keys: seq<Key>, k: Key, key: Key)
    ensures Times(keys + [k], key) == Times(keys, key) + if k == key then 1 else 0
  {
    assert (keys + [k])[..|keys|] == keys;
  }

  /** Past its look at the latch, and still to be counted. */
  function Late(): Pc -> bool { (pc: Pc) => pc.Unlatched? || pc.Affordable? || pc.Novel? || pc.Passed? }

  // ---- the invariant -------------------------------------------------------

  /** The counter, plus everybody who has seen it under the limit, stays below limit + k. */
  predicate BudgetInv(s: State) {
    && 0 <= s.toolCalls
    && (s.limit > 0 && |s.slots| > 0 ==> s.toolCalls + CountIf(s.slots, Uncounted()) <= s.limit - 1 + |s.slots|)
    && (|s.slots| == 0 ==> s.toolCalls == 0)
  }

  /** Whoever wins the latch writes the one budget entry. */
  predicate LatchInv(s: State) {
    s.budgetEntries + CountIf(s.slots, ToReport()) <= if s.exceeded then 1 else 0
  }

  /** A key's admissions, plus the calls already past its duplicate check, never exceed k. */
  predicate RepeatsFor(s: State, key: Key) {
    && Times(s.admitted, key) + CountIf(s.slots, Unrecorded(key)) <= |s.slots|
    && (key !in s.seen ==> Times(s.admitted, key) == 0)
  }

  ghost predicate RepeatInv(s: State) { forall key: Key :: RepeatsFor(s, key) }

  lemma BudgetStep(s: State, step: Step)
    requires BudgetInv(s) && Enabled(s, step)
    ensures BudgetInv(Apply(s, step)) && |Apply(s, step).slots| == |s.slots| && Apply(s, step).limit == s.limit
  {
    if !step.Usage? {
      CountUpdate(s.slots, Uncounted(), step.i, Apply(s, step).slots[step.i]);
      CountBound(s.slots, Uncounted());
    }
  }

  lemma LatchStep(s: State, step: Step)
    requires LatchInv(s) && Enabled(s, step)
    ensures LatchInv(Apply(s, step)) && (s.exceeded ==> Apply(s, step).exceeded)
  {
    if !step.Usage? { CountUpdate(s.slots, ToReport(), step.i, Apply(s, step).slots[step.i]); }
  }

  /** A call that finds its key new joins those past the check; it was not among them. */
  lemma CheckSeenRepeats(s: State, i: nat, key: Key)
    requires RepeatsFor(s, key) && Enabled(s, CheckSeen(i))
    ensures RepeatsFor(Apply(s, CheckSeen(i)), key)
  {
    CountUpdate(s.slots, Unrecorded(key), i, Apply(s, CheckSeen(i)).slots[i]);
    CountBound(s.slots, Unrecorded(key));
  }

  lemma RecordRepeats(s: State, i: nat, key: Key)
    requires RepeatsFor(s, key) && Enabled(s, Record(i))
    ensures RepeatsFor(Apply(s, Record(i)), key)
  {
    CountUpdate(s.slots, Unrecorded(key), i, Idle);
    TimesSnoc(s.admitted, s.slots[i].key, key);
  }

  lemma OtherRepeats(s: State, step: Step, key: Key)
    requires RepeatsFor(s, key) && Enabled(s, step) && !step.CheckSeen? && !step.Record?
    ensures RepeatsFor(Apply(s, step), key)
  {
    if !step.Usage? { CountUpdate(s.slots, Unrecorded(key), step.i, Apply(s, step).slots[step.i]); }
  }

  lemma RepeatStep(s: State, step: Step, key: Key)
    requires RepeatsFor(s, key) && Enabled(s, step)
    ensures RepeatsFor(Apply(s, step), key)
  {
    match step
    case CheckSeen(i) => CheckSeenRepeats(s, i, key);
    case Record(i) => RecordRepeats(s, i, key);
    case _ => OtherRepeats(s, step, key);
  }

  lemma {:induction false} InvExec(s: State, schedule: seq<Step>)
    requires BudgetInv(s) && LatchInv(s) && RepeatInv(s)
    ensures var s' := Exec(s, schedule);
            && BudgetInv(s') && LatchInv(s') && RepeatInv(s')
            && |s'.slots| == |s.slots| && s'.limit == s.limit && (s.exceeded ==> s'.exceeded)
    decreases |schedule|
  {
    if schedule != [] {
      var s1 := if Enabled(s, schedule[0]) then Apply(s, schedule[0]) else s;
      if Enabled(s, schedule[0]) {
        BudgetStep(s, schedule[0]);
        LatchStep(s, schedule[0]);
        forall key: Key ensures RepeatsFor(s1, key) { RepeatStep(s, schedule[0], key); }
      }
      InvExec(s1, schedule[1..]);
    }
  }

  lemma InvInit(limit: int, maxTokens: int, k: nat)
    ensures var s := Init(limit, maxTokens, k); BudgetInv(s) && LatchInv(s) && RepeatInv(s)
  {
    var s := Init(limit, maxTokens, k);
    CountBound(s.slots, Uncounted());
    CountBound(s.slots, ToReport());
    forall key: Key
      ensures CountIf(s.slots, Unrecorded(key)) == 0
    {
      CountBound(s.slots, Unrecorded(key));
    }
  }

  /** With k calls at a time, a positive limit is passed by at most k - 1. */
  lemma ConcurrentBudgetHolds(limit: int, maxTokens: int, k: nat, schedule: seq<Step>)
    requires limit > 0 && k > 0
    ensures Exec(Init(limit, maxTokens, k), schedule).toolCalls <= limit + k - 1
  {
    InvInit(limit, maxTokens, k);
    InvExec(Init(limit, maxTokens, k), schedule);
  }

  /** The latch never resets, and tool and model calls together write at most one budget entry. */
  lemma OneBudgetEntry(limit: int, maxTokens: int, k: nat, before: seq<Step>, after: seq<Step>)
    ensures var s := Exec(Init(limit, maxTokens, k), before);
            Exec(s, after).budgetEntries <= 1 && (s.exceeded ==> Exec(s, after).exceeded)
  {
    InvInit(limit, maxTokens, k);
    InvExec(Init(limit, maxTokens, k), before);
    InvExec(Exec(Init(limit, maxTokens, k), before), after);
  }

  /** A call and its repeats get through at most k times, however they are interleaved. */
  lemma RepeatsAreBounded(limit: int, maxTokens: int, k: nat, schedule: seq<Step>, key: Key)
    ensures Times(Exec(Init(limit, maxTokens, k), schedule).admitted, key) <= k
  {
    InvInit(limit, maxTokens, k);
    InvExec(Init(limit, maxTokens, k), schedule);
    assert RepeatsFor(Exec(Init(limit, maxTokens, k), schedule), key);
  }

  // ---- after the latch -----------------------------------------------------

  function CallsCounted(s: State): int { s.toolCalls + s.modelCalls }

  lemma LateStep(s: State, step: Step)
    requires s.exceeded && Enabled(s, step)
    ensures var s' := Apply(s, step);
            s'.exceeded && CallsCounted(s') + CountIf(s'.slots, Late()) <= CallsCounted(s) + CountIf(s.slots, Late())
  {
    if !step.Usage? { CountUpdate(s.slots, Late(), step.i, Apply(s, step).slots[step.i]); }
  }

  lemma {:induction false} LateExec(s: State, schedule: seq<Step>)
    requires s.exceeded
    ensures var s' := Exec(s, schedule);
            CallsCounted(s') + CountIf(s'.slots, Late()) <= CallsCounted(s) + CountIf(s.slots, Late())
    decreases |schedule|
  {
    if schedule != [] {
      if Enabled(s, schedule[0]) { LateStep(s, schedule[0]); }
      LateExec(if Enabled(s, schedule[0]) then Apply(s, schedule[0]) else s, schedule[1..]);
    }
  }

  /** Once somebody has set the latch, at most the other k - 1 calls are still counted, ever. */
  lemma FewAreCountedAfterTheLatch(s: State, i: nat, after: seq<Step>)
    requires Enabled(s, SetLatch(i))
    ensures var s' := Apply(s, SetLatch(i)); CallsCounted(Exec(s', after)) <= CallsCounted(s') + |s.slots| - 1
  {
    var s' := Apply(s, SetLatch(i));
    LateExec(s', after);
    CountBound(s'.slots, Late());
    assert !Late()(s'.slots[i]);
  }

  // ---- the bounds are reached ----------------------------------------------

  lemma {:induction false} ExecConcat(s: State, a: seq<Step>, b: seq<Step>)
    ensures Exec(s, a + b) == Exec(Exec(s, a), b)
    decreases |a|
  {
    if a == [] {
      assert a + b == b;
    } else {
      assert (a + b)[1..] == a[1..] + b;
      ExecConcat(if Enabled(s, a[0]) then Apply(s, a[0]) else s, a[1..], b);
    }
  }

  lemma ExecOne(s: State, step: Step)
    requires Enabled(s, step)
    ensures Exec(s, [step]) == Apply(s, step)
  {
    assert [step][1..] == [];
    assert Exec(Apply(s, step), []) == Apply(s, step);
  }

  /** One step more at the end of a schedule. */
  lemma ExecThen(s: State, schedule: seq<Step>, step: Step)
    requires Enabled(Exec(s, schedule), step)
    ensures Exec(s, schedule + [step]) == Apply(Exec(s, schedule), step)
  {
    ExecConcat(s, schedule, [step]);
    ExecOne(Exec(s, schedule), step);
  }

  predicate Affords(s: State) { s.limit > 0 ==> s.toolCalls < s.limit }

  /** One call taken from the entrance to the point where it has passed every check. */
  lemma ReachNovel(s: State, i: nat, key: Key) returns (steps: seq<Step>)
    requires i < |s.slots| && s.slots[i].Idle? && !s.exceeded && key !in s.seen && Affords(s)
    ensures Exec(s, steps) == Move(s, i, Novel(key, false))
  {
    steps := [];
    assert Exec(s, steps) == s;
    ExecThen(s, steps, Enter(i, key, false));
    steps := steps + [Enter(i, key, false)];
    assert Exec(s, steps) == Move(s, i, Listed(key, false));
    ExecThen(s, steps, CheckLatch(i));
    steps := steps + [CheckLatch(i)];
    assert Exec(s, steps) == Move(s, i, Unlatched(key, false));
    ExecThen(s, steps, CheckBudget(i));
    steps := steps + [CheckBudget(i)];
    assert Exec(s, steps) == Move(s, i, Affordable(key, false));
    ExecThen(s, steps, CheckSeen(i));
    steps := steps + [CheckSeen(i)];
    assert Exec(s, steps) == Move(s, i, Novel(key, false));
  }

  /** A call that has passed every check is counted, written and recorded. */
  lemma FinishNovel(s: State, i: nat, key: Key) returns (steps: seq<Step>)
    requires i < |s.slots| && s.slots[i] == Novel(key, false)
    ensures Exec(s, steps) ==
            Move(s, i, Idle).(toolCalls := s.toolCalls + 1, seen := s.seen + {key}, admitted := s.admitted + [key])
  {
    steps := [];
    assert Exec(s, steps) == s;
    ExecThen(s, steps, Count(i));
    steps := steps + [Count(i)];
    assert Exec(s, steps) == Move(s, i, Counted(key, false)).(toolCalls := s.toolCalls + 1);
    ExecThen(s, steps, Write(i, true));
    steps := steps + [Write(i, true)];
    assert Exec(s, steps) == Move(s, i, Written(key, false)).(toolCalls := s.toolCalls + 1);
    ExecThen(s, steps, Record(i));
    steps := steps + [Record(i)];
    assert Exec(s, steps) ==
      Move(s, i, Idle).(toolCalls := s.toolCalls + 1, seen := s.seen + {key}, admitted := s.admitted + [key]);
  }

  /** Nobody is in the guard, the latch is open, and keys from n on are new. */
  predicate Quiet(s: State, n: nat) {
    && !s.exceeded
    && (forall i :: 0 <= i < |s.slots| ==> s.slots[i].Idle?)
    && (forall key :: key in s.seen ==> key < n)
  }

  /** n calls made one at a time in slot 0. */
  lemma {:induction false} OneAtATime(limit: int, maxTokens: int, k: nat, n: nat) returns (steps: seq<Step>)
    requires 0 <= n < limit && k > 0
    ensures var s := Exec(Init(limit, maxTokens, k), steps);
            Quiet(s, n) && s.toolCalls == n && s.limit == limit && |s.slots| == k
  {
    var s0 := Init(limit, maxTokens, k);
    if n == 0 {
      steps := [];
    } else {
      steps := OneAtATime(limit, maxTokens, k, n - 1);
      var s := Exec(s0, steps);
      var more := ReachNovel(s, 0, n - 1);
      ExecConcat(s0, steps, more);
      steps := steps + more;
      more := FinishNovel(Exec(s0, steps), 0, n - 1);
      ExecConcat(s0, steps, more);
      steps := steps + more;
    }
  }

  /** Slots below i have passed every check, for the key `at` gives each; nothing else has changed. */
  predicate Gathered(s: State, s': State, i: nat, at: nat -> Key) {
    && i <= |s.slots| && s' == s.(slots := s'.slots) && |s'.slots| == |s.slots|
    && (forall j :: 0 <= j < i ==> s'.slots[j] == Novel(at(j), false))
    && (forall j :: i <= j < |s.slots| ==> s'.slots[j] == s.slots[j])
  }

  lemma {:induction false} Gather(s: State, n: nat, i: nat, at: nat -> Key) returns (steps: seq<Step>)
    requires i <= |s.slots| && Quiet(s, n) && Affords(s)
    requires forall j :: 0 <= j < i ==> at(j) >= n
    ensures Gathered(s, Exec(s, steps), i, at)
  {
    if i == 0 {
      steps := [];
    } else {
      steps := Gather(s, n, i - 1, at);
      var more := ReachNovel(Exec(s, steps), i - 1, at(i - 1));
      ExecConcat(s, steps, more);
      steps := steps + more;
    }
  }

  /** Everybody in slots i to n who passed the checks bumps the counter, one after the other. */
  lemma {:induction false} CountAll(s: State, i: nat, n: nat) returns (steps: seq<Step>)
    requires i <= n <= |s.slots| && forall j :: i <= j < n ==> s.slots[j].Novel?
    ensures var s' := Exec(s, steps); s'.toolCalls == s.toolCalls + (n - i) && s'.modelCalls == s.modelCalls
    decreases n - i
  {
    if i == n {
      steps := [];
    } else {
      var s1 := Apply(s, Count(i));
      var more := CountAll(s1, i + 1, n);
      steps := [Count(i)] + more;
      assert steps[1..] == more;
    }
  }

  /** Everybody in slots i to n, who all passed the checks for one key, gets through with it. */
  lemma {:induction false} AdmitAll(s: State, i: nat, n: nat, key: Key) returns (steps: seq<Step>)
    requires i <= n <= |s.slots| && forall j :: i <= j < n ==> s.slots[j] == Novel(key, false)
    ensures Times(Exec(s, steps).admitted, key) == Times(s.admitted, key) + (n - i)
    decreases n - i
  {
    if i == n {
      steps := [];
    } else {
      steps := FinishNovel(s, i, key);
      var s1 := Exec(s, steps);
      TimesSnoc(s.admitted, key, key);
      var more := AdmitAll(s1, i + 1, n, key);
      ExecConcat(s, steps, more);
      steps := steps + more;
    }
  }

  /** The overshoot is exact: for every positive limit and every k some schedule ends k - 1 over it. */
  lemma OvershootIsReached(limit: int, maxTokens: int, k: nat) returns (schedule: seq<Step>)
    requires limit > 0 && k > 0
    ensures Exec(Init(limit, maxTokens, k), schedule).toolCalls == limit + k - 1
  {
    var s0, n := Init(limit, maxTokens, k), limit - 1;
    schedule := OneAtATime(limit, maxTokens, k, n);
    var gather := Gather(Exec(s0, schedule), n, k, j => n + j);
    ExecConcat(s0, schedule, gather);
    schedule := schedule + gather;
    var count := CountAll(Exec(s0, schedule), 0, k);
    ExecConcat(s0, schedule, count);
    schedule := schedule + count;
  }

  /** So is the repeat bound: under every limit, some schedule lets one call through k times. */
  lemma RepeatsAreReached(limit: int, maxTokens: int, k: nat, key: Key) returns (schedule: seq<Step>)
    ensures Times(Exec(Init(limit, maxTokens, k), schedule).admitted, key) == k
  {
    var s0 := Init(limit, maxTokens, k);
    schedule := Gather(s0, 0, k, j => key);
    var admit := AdmitAll(Exec(s0, schedule), 0, k, key);
    ExecConcat(s0, schedule, admit);
    schedule := schedule + admit;
  }

  /** A model call that finds the tokens spent goes on to set the latch. */
  lemma ReachStopping(s: State, i: nat) returns (steps: seq<Step>)
    requires i < |s.slots| && s.slots[i].Idle? && s.maxTokens > 0
    ensures exists tokens :: Exec(s, steps) == Move(s, i, Stopping).(tokens := tokens)
  {
    steps := [];
    assert Exec(s, steps) == s;
    ExecThen(s, steps, Usage(s.maxTokens - s.tokens));
    steps := steps + [Usage(s.maxTokens - s.tokens)];
    assert Exec(s, steps) == s.(tokens := s.maxTokens);
    ExecThen(s, steps, Ask(i));
    steps := steps + [Ask(i)];
    assert Exec(s, steps) == Move(s, i, Asking).(tokens := s.maxTokens);
    ExecThen(s, steps, CheckTokens(i));
    steps := steps + [CheckTokens(i)];
    assert Exec(s, steps) == Move(s, i, Stopping).(tokens := s.maxTokens);
  }

  /** And the number counted after the latch: with a token limit, some schedule counts k - 1 calls after it is set. */
  lemma LateCallsAreReached(limit: int, maxTokens: int, k: nat) returns (before: seq<Step>, after: seq<Step>)
    requires maxTokens > 0 && k > 0
    ensures var s := Exec(Init(limit, maxTokens, k), before);
            && Enabled(s, SetLatch(k - 1)) && !s.exceeded
            && CallsCounted(Exec(Apply(s, SetLatch(k - 1)), after)) == CallsCounted(s) + k - 1
  {
    var s0 := Init(limit, maxTokens, k);
    before := Gather(s0, 0, k - 1, j => j);
    var stop := ReachStopping(Exec(s0, before), k - 1);
    ExecConcat(s0, before, stop);
    before := before + stop;
    after := CountAll(Apply(Exec(s0, before), SetLatch(k - 1)), 0, k - 1);
  }
}
