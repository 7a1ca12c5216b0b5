/**
 One discovery walk. Candidates are ranked, split into a metrics half and an alert half,
 and each half is probed several candidates at a time until a better-ranked one has
 answered. Whether a candidate answers is fixed for the walk; when each probe starts and
 ends, and whether the walk's context dies, is up to the schedule.
 */
module Discovery {
  import opened Runs
  import opened Candidates

  const ProbeParallel := 6

  // ---- the two halves ------------------------------------------------------

  /** Indexes of one half's candidates, in rank order; scrape targets only when every candidate is asked for. */
  function HalfBefore(cands: seq<Endpoint>, full: bool, alerts: bool, n: nat): seq<nat>
    requires n <= |cands|
  {
    if n == 0 then []
    else
      HalfBefore(cands, full, alerts, n - 1)
      + if (cands[n - 1].scrapeTarget && !full) || cands[n - 1].IsAlertSource() != alerts then [] else [n - 1]
  }

  function HalfOf(cands: seq<Endpoint>, full: bool, alerts: bool): seq<nat> {
    HalfBefore(cands, full, alerts, |cands|)
  }

  method Halves(cands: seq<Endpoint>, full: bool) returns (metrics: seq<nat>, alerts: seq<nat>)
    ensures metrics == HalfOf(cands, full, false) && alerts == HalfOf(cands, full, true)
  {
    metrics, alerts := [], [];
    for i := 0 to |cands|
      invariant metrics == HalfBefore(cands, full, false, i) && alerts == HalfBefore(cands, full, true, i)
    {
      if cands[i].scrapeTarget && !full { continue; }
      if cands[i].IsAlertSource() {
        alerts := alerts + [i];
      } else {
        metrics := metrics + [i];
      }
    }
  }

  predicate Ascending(idx: seq<nat>) { forall p, q :: 0 <= p < q < |idx| ==> idx[p] < idx[q] }

  lemma AscendingMeans(idx: seq<nat>, p: nat, q: nat)
    requires Ascending(idx) && p < |idx| && q < |idx| && idx[p] <= idx[q]
    ensures p <= q
  {
  }

  predicate Belongs(cands: seq<Endpoint>, full: bool, alerts: bool, i: nat) {
    i < |cands| && (full || !cands[i].scrapeTarget) && cands[i].IsAlertSource() == alerts
  }

  /** A half lists, best first, exactly the candidates that belong to it. */
  lemma {:induction false} HalfIsExact(cands: seq<Endpoint>, full: bool, alerts: bool, n: nat)
    requires n <= |cands|
    ensures var idx := HalfBefore(cands, full, alerts, n);
            Ascending(idx) && forall i: nat :: i in idx <==> i < n && Belongs(cands, full, alerts, i)
  {
    if n > 0 {
      HalfIsExact(cands, full, alerts, n - 1);
      var front := HalfBefore(cands, full, alerts, n - 1);
      forall p | 0 <= p < |front| ensures front[p] < n - 1 { assert front[p] in front; }
    }
  }

  // ---- pins ----------------------------------------------------------------

  datatype Pick = Pick(namespace: string, name: string)
  {
    predicate Valid() { namespace != "" && name != "" }

    predicate Matches(e: Endpoint) { e.namespace == namespace && e.name == name }
  }

  predicate PinFits(pick: Pick, e: Endpoint, alerts: bool) { pick.Matches(e) && e.IsAlertSource() == alerts }

  function PinFrom(cands: seq<Endpoint>, pick: Pick, alerts: bool, n: nat): (pin: Option<nat>)
    requires n <= |cands|
    ensures pin.Some? ==> n <= pin.value < |cands| && PinFits(pick, cands[pin.value], alerts)
    ensures forall i :: n <= i < (if pin.Some? then pin.value else |cands|) ==> !PinFits(pick, cands[i], alerts)
    decreases |cands| - n
  {
    if n == |cands| then None
    else if PinFits(pick, cands[n], alerts) then Some(n)
    else PinFrom(cands, pick, alerts, n + 1)
  }

  /** The candidate an operator's pick stands for in one half. */
  function PinOf(cands: seq<Endpoint>, pick: Option<Pick>, alerts: bool): Option<nat> {
    if pick.None? || !pick.value.Valid() then None else PinFrom(cands, pick.value, alerts, 0)
  }

  /** The pick names this very Service, and it belongs to the half the pick is for. */
  predicate Names(pick: Pick, e: Endpoint, alerts: bool) {
    && pick.namespace != "" && pick.namespace == e.namespace
    && pick.name != "" && pick.name == e.name
    && (if alerts then e.IsAlertSource() else !e.IsAlertSource())
  }

  /** The first candidate that fits the pick, scrape target or not. */
  predicate FirstFit(cands: seq<Endpoint>, pick: Option<Pick>, alerts: bool, i: nat) {
    && pick.Some?
    && i < |cands| && Names(pick.value, cands[i], alerts)
    && forall j :: 0 <= j < i ==> !Names(pick.value, cands[j], alerts)
  }

  /** A pick stands for the first candidate that fits it, and for none if none does. */
  lemma PinMeans(cands: seq<Endpoint>, pick: Option<Pick>, alerts: bool, i: nat)
    ensures PinOf(cands, pick, alerts) == Some(i) <==> FirstFit(cands, pick, alerts, i)
    ensures var pin := PinOf(cands, pick, alerts);
            pin.Some? ==> pin.value < |cands| && cands[pin.value].IsAlertSource() == alerts
  {
    if pick.Some? && pick.value.Valid() {
      assert forall j :: 0 <= j < |cands| ==> (PinFits(pick.value, cands[j], alerts) <==> Names(pick.value, cands[j], alerts));
    }
  }

  method ResolvePin(cands: seq<Endpoint>, pick: Option<Pick>, alerts: bool) returns (pin: Option<nat>)
    ensures pin == PinOf(cands, pick, alerts)
  {
    if pick.None? || !pick.value.Valid() { return None; }
    for i := 0 to |cands|
      invariant PinOf(cands, pick, alerts) == PinFrom(cands, pick.value, alerts, i)
    {
      if PinFits(pick.value, cands[i], alerts) { return Some(i); }
    }
    pin := None;
  }

  function Without(idx: seq<nat>, pin: Option<nat>): seq<nat> {
    if idx == [] then []
    else Without(idx[..|idx| - 1], pin) + if pin == Some(idx[|idx| - 1]) then [] else [idx[|idx| - 1]]
  }

  lemma InAppended(s: seq<nat>, x: nat, i: nat)
    ensures i in s + [x] <==> i in s || i == x
  {
  }

  lemma {:induction false} WithoutHas(idx: seq<nat>, pin: Option<nat>, i: nat)
    ensures i in Without(idx, pin) <==> i in idx && pin != Some(i)
  {
    if idx != [] {
      var front, last := idx[..|idx| - 1], idx[|idx| - 1];
      WithoutHas(front, pin, i);
      InAppended(front, last, i);
      InAppended(Without(front, pin), last, i);
      assert idx == front + [last];
    }
  }

  lemma AscendingFront(s: seq<nat>, x: nat)
    ensures Ascending(s + [x]) <==> Ascending(s) && (s == [] || s[|s| - 1] < x)
  {
    if Ascending(s + [x]) {
      assert forall p :: 0 <= p < |s| ==> (s + [x])[p] == s[p];
      assert (s + [x])[|s|] == x;
    }
  }

  lemma {:induction false} WithoutLast(idx: seq<nat>, pin: Option<nat>)
    requires Ascending(idx) && Without(idx, pin) != []
    ensures var r := Without(idx, pin); idx != [] && r[|r| - 1] <= idx[|idx| - 1]
  {
    var front, last := idx[..|idx| - 1], idx[|idx| - 1];
    if pin == Some(last) {
      assert Without(idx, pin) == Without(front, pin) + [];
      WithoutLast(front, pin);
    }
  }

  lemma {:induction false} WithoutAscends(idx: seq<nat>, pin: Option<nat>)
    requires Ascending(idx)
    ensures Ascending(Without(idx, pin))
  {
    if idx != [] {
      var front, last := idx[..|idx| - 1], idx[|idx| - 1];
      var r := Without(front, pin);
      WithoutAscends(front, pin);
      if r != [] { WithoutLast(front, pin); }
      AscendingFront(r, last);
      assert r + [] == r;
    }
  }

  lemma {:induction false} WithoutNone(idx: seq<nat>)
    ensures Without(idx, None) == idx
  {
    if idx != [] {
      WithoutNone(idx[..|idx| - 1]);
      assert idx == idx[..|idx| - 1] + [idx[|idx| - 1]];
    }
  }

  // ---- probing one half ----------------------------------------------------

  datatype Fate =
    | Skipped          // a better-ranked candidate had already answered
    | Dropped          // the context was dead when its turn came
    | Probed(ok: bool)

  datatype Task = Spawned | Cleared | Probing | Answered(ok: bool) | Finished(fate: Fate)

  /** `tasks[p]` is the task for position p of `idx`; `best` is the lowest position known to have answered. */
  datatype Half = Half(idx: seq<nat>, full: bool, tasks: seq<Task>, stopped: bool, best: Option<nat>)

  datatype HalfStep =
    | Launch
    | Stop
    | Look(p: nat)
    | Settle(p: nat)
    | Answer(p: nat, ok: bool)
    | Publish(p: nat)

  function Fresh(idx: seq<nat>, full: bool): Half { Half(idx, full, [], false, None) }

  function InFlight(tasks: seq<Task>): nat {
    if tasks == [] then 0 else InFlight(tasks[..|tasks| - 1]) + if tasks[|tasks| - 1].Finished? then 0 else 1
  }

  /** `answers` is what each candidate says when it is asked; a dead context can only turn an answer into a failure. */
  predicate CanStep(answers: seq<bool>, dead: bool, h: Half, step: HalfStep) {
    match step
    case Launch => !h.stopped && |h.tasks| < |h.idx| && InFlight(h.tasks) < ProbeParallel
    case Stop => dead && !h.stopped && |h.tasks| < |h.idx|
    case Look(p) => p < |h.tasks| && h.tasks[p].Spawned?
    case Settle(p) => p < |h.tasks| && h.tasks[p].Cleared?
    case Answer(p, ok) =>
      && p < |h.tasks| && p < |h.idx| && h.idx[p] < |answers| && h.tasks[p].Probing?
      && (ok ==> answers[h.idx[p]]) && (!dead ==> ok == answers[h.idx[p]])
    case Publish(p) => p < |h.tasks| && h.tasks[p].Answered?
  }

  function StepHalf(answers: seq<bool>, dead: bool, h: Half, step: HalfStep): Half
    requires CanStep(answers, dead, h, step)
  {
    match step
    case Launch => h.(tasks := h.tasks + [Spawned])
    case Stop => h.(stopped := true)
    case Look(p) => h.(tasks := h.tasks[p := if dead then Finished(Dropped) else Cleared])
    case Settle(p) =>
      var settled := !h.full && h.best.Some? && h.best.value < p;
      h.(tasks := h.tasks[p := if settled then Finished(Skipped) else Probing])
    case Answer(p, ok) => h.(tasks := h.tasks[p := Answered(ok)])
    case Publish(p) =>
      var ok := h.tasks[p].ok;
      h.(tasks := h.tasks[p := Finished(Probed(ok))],
         best := if ok && (h.best.None? || p < h.best.value) then Some(p) else h.best)
  }

  predicate Done(h: Half) {
    (h.stopped || |h.tasks| == |h.idx|) && forall p :: 0 <= p < |h.tasks| ==> h.tasks[p].Finished?
  }

  predicate Reached(h: Half, p: nat) { p < |h.tasks| && h.tasks[p] == Finished(Probed(true)) }

  predicate WasProbed(h: Half, p: nat) {
    p < |h.tasks| && (h.tasks[p].Probing? || h.tasks[p].Answered? || (h.tasks[p].Finished? && h.tasks[p].fate.Probed?))
  }

  /** The best-ranked candidate that answered: its position. */
  function FirstReachable(h: Half, n: nat): (r: Option<nat>)
    requires n <= |h.idx|
    ensures r.Some? ==> r.value < n && Reached(h, r.value)
    ensures forall p :: 0 <= p < (if r.Some? then r.value else n) ==> !Reached(h, p)
  {
    if n == 0 then None
    else
      var front := FirstReachable(h, n - 1);
      if front.Some? then front else if Reached(h, n - 1) then Some(n - 1) else None
  }

  /** The best-ranked candidate that would answer, asked or not. */
  function FirstAnswering(answers: seq<bool>, idx: seq<nat>): (r: Option<nat>)
    requires forall p :: 0 <= p < |idx| ==> idx[p] < |answers|
    ensures r.Some? ==> r.value < |idx| && answers[idx[r.value]]
    ensures forall p :: 0 <= p < (if r.Some? then r.value else |idx|) ==> !answers[idx[p]]
  {
    if idx == [] then None
    else if answers[idx[0]] then Some(0)
    else
      var rest := FirstAnswering(answers, idx[1..]);
      assert forall p :: 1 <= p < |idx| ==> idx[p] == idx[1..][p - 1];
      if rest.Some? then Some(rest.value + 1) else None
  }

  // ---- what one half keeps -------------------------------------------------

  predicate TaskOk(answers: seq<bool>, dead: bool, h: Half, p: nat)
    requires p < |h.tasks| <= |h.idx| && h.idx[p] < |answers|
  {
    match h.tasks[p]
    case Answered(ok) => (ok ==> answers[h.idx[p]]) && (!dead ==> ok == answers[h.idx[p]])
    case Finished(fate) =>
      (match fate
       case Skipped => !h.full && h.best.Some? && h.best.value < p
       case Dropped => dead
       case Probed(ok) => (ok ==> answers[h.idx[p]] && h.best.Some? && h.best.value <= p) && (!dead ==> ok == answers[h.idx[p]]))
    case _ => true
  }

  predicate HalfOk(answers: seq<bool>, dead: bool, h: Half) {
    && |h.tasks| <= |h.idx|
    && (forall p :: 0 <= p < |h.idx| ==> h.idx[p] < |answers|)
    && (forall p :: 0 <= p < |h.tasks| ==> TaskOk(answers, dead, h, p))
    && (h.best.Some? ==> Reached(h, h.best.value))
    && (h.stopped ==> dead)
    && InFlight(h.tasks) <= ProbeParallel
  }

  lemma {:induction false} InFlightSet(tasks: seq<Task>, p: nat, t: Task)
    requires p < |tasks|
    ensures InFlight(tasks[p := t]) ==
            InFlight(tasks) - (if tasks[p].Finished? then 0 else 1) + (if t.Finished? then 0 else 1)
  {
    var front := tasks[..|tasks| - 1];
    if p < |front| {
      InFlightSet(front, p, t);
      assert tasks[p := t][..|tasks| - 1] == front[p := t];
    } else {
      assert tasks[p := t][..|tasks| - 1] == front;
    }
  }

  /** One task moves on, and the best known answer can only get better. */
  lemma OneTaskMoves(answers: seq<bool>, dead: bool, h: Half, p: nat, t: Task, best: Option<nat>)
    requires HalfOk(answers, dead, h) && p < |h.tasks| && !h.tasks[p].Finished?
    requires h.best.Some? ==> best.Some? && best.value <= h.best.value
    requires best == h.best || (best == Some(p) && t == Finished(Probed(true)))
    requires TaskOk(answers, dead, h.(tasks := h.tasks[p := t], best := best), p)
    ensures HalfOk(answers, dead, h.(tasks := h.tasks[p := t], best := best))
  {
    var h' := h.(tasks := h.tasks[p := t], best := best);
    InFlightSet(h.tasks, p, t);
    forall q | 0 <= q < |h'.tasks|
      ensures TaskOk(answers, dead, h', q)
    {
      if q != p { assert TaskOk(answers, dead, h, q); }
    }
  }

  lemma LaunchKept(answers: seq<bool>, dead: bool, h: Half)
    requires HalfOk(answers, dead, h) && CanStep(answers, dead, h, Launch)
    ensures HalfOk(answers, dead, StepHalf(answers, dead, h, Launch))
  {
    var h' := StepHalf(answers, dead, h, Launch);
    assert h'.tasks[..|h.tasks|] == h.tasks;
    forall q | 0 <= q < |h'.tasks|
      ensures TaskOk(answers, dead, h', q)
    {
      if q < |h.tasks| { assert TaskOk(answers, dead, h, q); }
    }
  }

  lemma HalfKept(answers: seq<bool>, dead: bool, h: Half, step: HalfStep)
    requires HalfOk(answers, dead, h) && CanStep(answers, dead, h, step)
    ensures HalfOk(answers, dead, StepHalf(answers, dead, h, step))
  {
    match step {
      case Launch => LaunchKept(answers, dead, h);
      case Stop =>
        forall q | 0 <= q < |h.tasks|
          ensures TaskOk(answers, dead, h.(stopped := true), q)
        {
          assert TaskOk(answers, dead, h, q);
        }
      case Look(p) => OneTaskMoves(answers, dead, h, p, if dead then Finished(Dropped) else Cleared, h.best);
      case Settle(p) =>
        var settled := !h.full && h.best.Some? && h.best.value < p;
        OneTaskMoves(answers, dead, h, p, if settled then Finished(Skipped) else Probing, h.best);
      case Answer(p, ok) => OneTaskMoves(answers, dead, h, p, Answered(ok), h.best);
      case Publish(p) =>
        assert TaskOk(answers, dead, h, p);
        var h' := StepHalf(answers, dead, h, step);
        OneTaskMoves(answers, dead, h, p, h'.tasks[p], h'.best);
    }
  }

  lemma DyingKeeps(answers: seq<bool>, dead: bool, h: Half)
    requires HalfOk(answers, dead, h)
    ensures HalfOk(answers, true, h)
  {
    forall p | 0 <= p < |h.tasks|
      ensures TaskOk(answers, true, h, p)
    {
      assert TaskOk(answers, dead, h, p);
    }
  }

  lemma DoneTask(answers: seq<bool>, h: Half, p: nat)
    requires HalfOk(answers, false, h) && Done(h) && p < |h.idx|
    ensures Reached(h, p) ==> answers[h.idx[p]]
    ensures !WasProbed(h, p) ==> !h.full && h.best.Some? && h.best.value < p
    ensures WasProbed(h, p) && answers[h.idx[p]] ==> Reached(h, p)
  {
    assert TaskOk(answers, false, h, p);
  }

  lemma DoneBest(answers: seq<bool>, h: Half)
    requires HalfOk(answers, false, h) && Done(h)
    ensures h.best.Some? ==> h.best.value < |h.idx| && answers[h.idx[h.best.value]]
  {
    if h.best.Some? { assert TaskOk(answers, false, h, h.best.value); }
  }

  /**
   A half that ran to its end in a live context chooses the best-ranked candidate that
   answers at all, and has asked that one and every better-ranked one.
   */
  lemma HalfChoosesTheBest(answers: seq<bool>, h: Half)
    requires HalfOk(answers, false, h) && Done(h)
    ensures FirstReachable(h, |h.idx|) == FirstAnswering(answers, h.idx)
    ensures var first := FirstAnswering(answers, h.idx);
            forall p :: 0 <= p < |h.idx| && (h.full || first.None? || p <= first.value) ==> WasProbed(h, p)
  {
    var first := FirstAnswering(answers, h.idx);
    DoneBest(answers, h);
    forall p | 0 <= p < |h.idx|
      ensures Reached(h, p) ==> answers[h.idx[p]]
      ensures h.full || first.None? || p <= first.value ==> WasProbed(h, p)
    {
      DoneTask(answers, h, p);
    }
    if first.Some? { DoneTask(answers, h, first.value); }
  }

  // ---- every half comes to an end ------------------------------------------

  function Remaining(t: Task): nat {
    match t
    case Spawned => 4
    case Cleared => 3
    case Probing => 2
    case Answered(_) => 1
    case Finished(_) => 0
  }

  function Work(tasks: seq<Task>): nat {
    if tasks == [] then 0 else Work(tasks[..|tasks| - 1]) + Remaining(tasks[|tasks| - 1])
  }

  /** Steps a half can still take. */
  function Left(h: Half): int {
    5 * (|h.idx| - |h.tasks|) + Work(h.tasks) + if h.stopped then 0 else 1
  }

  lemma {:induction false} WorkSet(tasks: seq<Task>, p: nat, t: Task)
    requires p < |tasks|
    ensures Work(tasks[p := t]) == Work(tasks) - Remaining(tasks[p]) + Remaining(t)
  {
    var front := tasks[..|tasks| - 1];
    if p < |front| {
      WorkSet(front, p, t);
      assert tasks[p := t][..|tasks| - 1] == front[p := t];
    } else {
      assert tasks[p := t][..|tasks| - 1] == front;
    }
  }

  /** Every step brings a half closer to its end, so no schedule takes more than 5 per candidate and one. */
  lemma StepsAreBounded(answers: seq<bool>, dead: bool, h: Half, step: HalfStep)
    requires HalfOk(answers, dead, h) && CanStep(answers, dead, h, step)
    ensures 0 <= Left(StepHalf(answers, dead, h, step)) < Left(h)
  {
    var h' := StepHalf(answers, dead, h, step);
    match step {
      case Launch => assert h'.tasks[..|h.tasks|] == h.tasks;
      case Stop =>
      case Look(p) => WorkSet(h.tasks, p, h'.tasks[p]);
      case Settle(p) => WorkSet(h.tasks, p, h'.tasks[p]);
      case Answer(p, ok) => WorkSet(h.tasks, p, h'.tasks[p]);
      case Publish(p) => WorkSet(h.tasks, p, h'.tasks[p]);
    }
  }

  lemma {:induction false} AllFinished(tasks: seq<Task>)
    requires forall p :: 0 <= p < |tasks| ==> tasks[p].Finished?
    ensures InFlight(tasks) == 0
  {
    if tasks != [] { AllFinished(tasks[..|tasks| - 1]); }
  }

  /** And until it has come to its end, some step of it can be taken: the six slots never block each other. */
  lemma NeverStuck(answers: seq<bool>, dead: bool, h: Half) returns (step: HalfStep)
    requires HalfOk(answers, dead, h) && !Done(h)
    ensures CanStep(answers, dead, h, step)
  {
    if p :| 0 <= p < |h.tasks| && !h.tasks[p].Finished? {
      step :=
        match h.tasks[p]
        case Spawned => Look(p)
        case Cleared => Settle(p)
        case Probing => Answer(p, answers[h.idx[p]])
        case _ => Publish(p);
    } else {
      AllFinished(h.tasks);
      step := Launch;
    }
  }

  // ---- the whole walk ------------------------------------------------------

  /** What a walk is given: the ranked candidates, what each would answer, the operator's picks, and whether to ask all of them. */
  datatype Plan = Plan(cands: seq<Endpoint>, answers: seq<bool>, full: bool, metricsPick: Option<Pick>, alertsPick: Option<Pick>)
  {
    function MetricsPin(): Option<nat> { PinOf(cands, metricsPick, false) }

    function AlertsPin(): Option<nat> { PinOf(cands, alertsPick, true) }
  }

  /** `log` lists the candidates probed, in the order the probes began. */
  datatype Walk = Walk(metrics: Half, alerts: Half, dead: bool, log: seq<nat>)

  datatype Step = OnMetrics(m: HalfStep) | OnAlerts(a: HalfStep) | Die

  /** Every candidate has an answer. */
  predicate PlanOk(plan: Plan) { |plan.answers| == |plan.cands| }

  function Queue(plan: Plan, pin: Option<nat>, alerts: bool): seq<nat> {
    Without(HalfOf(plan.cands, plan.full, alerts), pin)
  }

  /** A pin settles its half: without a full probe the rest of that half is not asked. */
  function StartHalf(plan: Plan, pin: Option<nat>, alerts: bool): Half {
    Fresh(if pin.None? || plan.full then Queue(plan, pin, alerts) else [], plan.full)
  }

  function Pinned(pin: Option<nat>): seq<nat> { if pin.Some? then [pin.value] else [] }

  /** The pins are probed before anything else. */
  function Begin(plan: Plan): Walk {
    Walk(StartHalf(plan, plan.MetricsPin(), false), StartHalf(plan, plan.AlertsPin(), true), false,
         Pinned(plan.MetricsPin()) + Pinned(plan.AlertsPin()))
  }

  predicate Enabled(plan: Plan, w: Walk, step: Step) {
    match step
    case OnMetrics(m) => CanStep(plan.answers, w.dead, w.metrics, m)
    case OnAlerts(a) => CanStep(plan.answers, w.dead, w.alerts, a)
    case Die => true
  }

  /** A probe begins when a task passes the settled check. */
  function Begun(h: Half, h': Half, step: HalfStep): seq<nat> {
    if step.Settle? && step.p < |h'.tasks| && step.p < |h'.idx| && h'.tasks[step.p].Probing? then [h'.idx[step.p]] else []
  }

  function Apply(plan: Plan, w: Walk, step: Step): Walk
    requires Enabled(plan, w, step)
  {
    match step
    case OnMetrics(m) =>
      var h := StepHalf(plan.answers, w.dead, w.metrics, m);
      w.(metrics := h, log := w.log + Begun(w.metrics, h, m))
    case OnAlerts(a) =>
      var h := StepHalf(plan.answers, w.dead, w.alerts, a);
      w.(alerts := h, log := w.log + Begun(w.alerts, h, a))
    case Die => w.(dead := true)
  }

  function Exec(plan: Plan, w: Walk, schedule: seq<Step>): Walk
    decreases |schedule|
  {
    if schedule == [] then w
    else Exec(plan, if Enabled(plan, w, schedule[0]) then Apply(plan, w, schedule[0]) else w, schedule[1..])
  }

  predicate Complete(w: Walk) { Done(w.metrics) && Done(w.alerts) }

  /** Whether the answer may be kept. */
  predicate Partial(w: Walk) { w.dead }

  /** The candidate one half of the stack ends up with. */
  function Choice(pin: Option<nat>, h: Half): Option<nat> {
    if pin.Some? then pin
    else
      var first := FirstReachable(h, |h.idx|);
      if first.Some? then Some(h.idx[first.value]) else None
  }

  function MetricsChoice(plan: Plan, w: Walk): Option<nat> { Choice(plan.MetricsPin(), w.metrics) }

  function AlertsChoice(plan: Plan, w: Walk): Option<nat> { Choice(plan.AlertsPin(), w.alerts) }

  // ---- what a walk keeps ---------------------------------------------------

  predicate NoRepeats(log: seq<nat>) { forall i, j :: 0 <= i < j < |log| ==> log[i] != log[j] }

  /** A half's queue stays what it was, holds its own kind only, and not the pin. */
  predicate QueueOk(plan: Plan, h: Half, pin: Option<nat>, alerts: bool) {
    && h.idx == StartHalf(plan, pin, alerts).idx && h.full == plan.full
    && Ascending(h.idx)
    && forall i :: i in h.idx ==> Belongs(plan.cands, plan.full, alerts, i) && pin != Some(i)
  }

  /** A candidate of a half is in the log exactly when its task has begun probing. */
  predicate LogOk(log: seq<nat>, h: Half) {
    forall p :: 0 <= p < |h.idx| ==> (h.idx[p] in log <==> WasProbed(h, p))
  }

  predicate WalkOk(plan: Plan, w: Walk) {
    && HalfOk(plan.answers, w.dead, w.metrics) && HalfOk(plan.answers, w.dead, w.alerts)
    && QueueOk(plan, w.metrics, plan.MetricsPin(), false) && QueueOk(plan, w.alerts, plan.AlertsPin(), true)
    && NoRepeats(w.log) && LogOk(w.log, w.metrics) && LogOk(w.log, w.alerts)
  }

  lemma StartQueueOk(plan: Plan, pin: Option<nat>, alerts: bool)
    requires PlanOk(plan)
    ensures QueueOk(plan, StartHalf(plan, pin, alerts), pin, alerts)
  {
    var idx := HalfOf(plan.cands, plan.full, alerts);
    HalfIsExact(plan.cands, plan.full, alerts, |plan.cands|);
    WithoutAscends(idx, pin);
    forall i: nat ensures i in Without(idx, pin) <==> i in idx && pin != Some(i) { WithoutHas(idx, pin, i); }
  }

  lemma StartOk(plan: Plan, pin: Option<nat>, alerts: bool, log: seq<nat>)
    requires PlanOk(plan)
    requires forall i :: i in log ==> i < |plan.cands| && (plan.cands[i].IsAlertSource() == alerts ==> pin == Some(i))
    ensures var h := StartHalf(plan, pin, alerts);
            HalfOk(plan.answers, false, h) && QueueOk(plan, h, pin, alerts) && LogOk(log, h)
  {
    StartQueueOk(plan, pin, alerts);
    var h := StartHalf(plan, pin, alerts);
    forall p | 0 <= p < |h.idx|
      ensures h.idx[p] < |plan.answers| && h.idx[p] !in log
    {
      assert h.idx[p] in h.idx;
      assert Belongs(plan.cands, plan.full, alerts, h.idx[p]);
    }
  }

  predicate IsPinOf(plan: Plan, i: nat) {
    i < |plan.cands| && (if plan.cands[i].IsAlertSource() then plan.AlertsPin() == Some(i) else plan.MetricsPin() == Some(i))
  }

  /** What the log begins with. */
  lemma PinsListed(m: Option<nat>, a: Option<nat>)
    ensures m.None? || a.None? || m != a ==> NoRepeats(Pinned(m) + Pinned(a))
    ensures forall i :: i in Pinned(m) + Pinned(a) <==> m == Some(i) || a == Some(i)
  {
    var log := Pinned(m) + Pinned(a);
    if m.Some? { assert log[0] == m.value; }
    if a.Some? { assert log[|log| - 1] == a.value; }
  }

  lemma PinsFirst(plan: Plan)
    requires PlanOk(plan)
    ensures NoRepeats(Begin(plan).log) && forall i :: i in Begin(plan).log ==> IsPinOf(plan, i)
  {
    var m, a := plan.MetricsPin(), plan.AlertsPin();
    PinMeans(plan.cands, plan.metricsPick, false, 0);
    PinMeans(plan.cands, plan.alertsPick, true, 0);
    PinsListed(m, a);
  }

  lemma BeginOk(plan: Plan)
    requires PlanOk(plan)
    ensures WalkOk(plan, Begin(plan))
  {
    PinsFirst(plan);
    assert forall i :: i in Begin(plan).log ==> IsPinOf(plan, i);
    StartOk(plan, plan.MetricsPin(), false, Begin(plan).log);
    StartOk(plan, plan.AlertsPin(), true, Begin(plan).log);
  }

  /** A step that begins no probe leaves what was probed as it was. */
  lemma NoProbeBegins(answers: seq<bool>, dead: bool, h: Half, step: HalfStep, log: seq<nat>)
    requires HalfOk(answers, dead, h) && CanStep(answers, dead, h, step) && LogOk(log, h)
    requires Begun(h, StepHalf(answers, dead, h, step), step) == []
    ensures LogOk(log, StepHalf(answers, dead, h, step))
  {
    var h' := StepHalf(answers, dead, h, step);
    forall p | 0 <= p < |h'.idx|
      ensures WasProbed(h', p) <==> WasProbed(h, p)
    {
    }
  }

  lemma ProbeBegins(h: Half, p: nat, log: seq<nat>)
    requires p < |h.tasks| <= |h.idx| && h.tasks[p].Cleared? && Ascending(h.idx) && LogOk(log, h)
    ensures LogOk(log + [h.idx[p]], h.(tasks := h.tasks[p := Probing])) && h.idx[p] !in log
  {
    var h' := h.(tasks := h.tasks[p := Probing]);
    forall q | 0 <= q < |h'.idx|
      ensures h'.idx[q] in log + [h.idx[p]] <==> WasProbed(h', q)
    {
      assert q != p ==> h.idx[q] != h.idx[p];
      assert h.idx[q] in log <==> WasProbed(h, q);
    }
  }

  lemma LogGrowsElsewhere(log: seq<nat>, i: nat, other: Half)
    requires LogOk(log, other) && i !in other.idx
    ensures LogOk(log + [i], other)
  {
    assert forall p :: 0 <= p < |other.idx| ==> other.idx[p] in other.idx;
  }

  /** One half moves: its own log entries follow, and the other half's are untouched. */
  lemma OneHalfMoves(plan: Plan, w: Walk, h: Half, other: Half, alerts: bool, step: HalfStep)
    requires HalfOk(plan.answers, w.dead, h) && CanStep(plan.answers, w.dead, h, step)
    requires NoRepeats(w.log) && LogOk(w.log, h) && LogOk(w.log, other)
    requires Ascending(h.idx)
    requires forall i :: i in h.idx ==> Belongs(plan.cands, plan.full, alerts, i)
    requires forall i :: i in other.idx ==> Belongs(plan.cands, plan.full, !alerts, i)
    ensures var h' := StepHalf(plan.answers, w.dead, h, step);
            var log := w.log + Begun(h, h', step);
            NoRepeats(log) && LogOk(log, h') && LogOk(log, other)
  {
    var h' := StepHalf(plan.answers, w.dead, h, step);
    if Begun(h, h', step) == [] {
      NoProbeBegins(plan.answers, w.dead, h, step, w.log);
      assert w.log + [] == w.log;
    } else {
      var i := h.idx[step.p];
      ProbeBegins(h, step.p, w.log);
      assert i in h.idx && Belongs(plan.cands, plan.full, alerts, i);
      LogGrowsElsewhere(w.log, i, other);
    }
  }

  lemma WalkStep(plan: Plan, w: Walk, step: Step)
    requires PlanOk(plan) && WalkOk(plan, w) && Enabled(plan, w, step)
    ensures WalkOk(plan, Apply(plan, w, step))
  {
    match step {
      case OnMetrics(m) =>
        HalfKept(plan.answers, w.dead, w.metrics, m);
        OneHalfMoves(plan, w, w.metrics, w.alerts, false, m);
      case OnAlerts(a) =>
        HalfKept(plan.answers, w.dead, w.alerts, a);
        OneHalfMoves(plan, w, w.alerts, w.metrics, true, a);
      case Die =>
        DyingKeeps(plan.answers, w.dead, w.metrics);
        DyingKeeps(plan.answers, w.dead, w.alerts);
    }
  }

  lemma {:induction false} WalkExec(plan: Plan, w: Walk, schedule: seq<Step>)
    requires PlanOk(plan) && WalkOk(plan, w)
    ensures WalkOk(plan, Exec(plan, w, schedule))
    decreases |schedule|
  {
    if schedule != [] {
      if Enabled(plan, w, schedule[0]) { WalkStep(plan, w, schedule[0]); }
      WalkExec(plan, if Enabled(plan, w, schedule[0]) then Apply(plan, w, schedule[0]) else w, schedule[1..]);
    }
  }

  // ---- main results --------------------------------------------------------

  /** In no schedule is a candidate probed twice, and never are more than six probes of a half in flight. */
  lemma NothingProbedTwice(plan: Plan, schedule: seq<Step>)
    requires PlanOk(plan)
    ensures var w := Exec(plan, Begin(plan), schedule);
            && NoRepeats(w.log)
            && InFlight(w.metrics.tasks) <= 6 && InFlight(w.alerts.tasks) <= 6
  {
    BeginOk(plan);
    WalkExec(plan, Begin(plan), schedule);
  }

  /** What one half of a complete walk in a live context chooses, whatever the schedule was. */
  function Expected(plan: Plan, pin: Option<nat>, alerts: bool): Option<nat>
    requires PlanOk(plan)
  {
    if pin.Some? then pin
    else
      HalfIsExactly(plan, alerts);
      var first := FirstAnswering(plan.answers, HalfOf(plan.cands, plan.full, alerts));
      if first.Some? then Some(HalfOf(plan.cands, plan.full, alerts)[first.value]) else None
  }

  lemma HalfIsExactly(plan: Plan, alerts: bool)
    requires PlanOk(plan)
    ensures var idx := HalfOf(plan.cands, plan.full, alerts);
            forall p :: 0 <= p < |idx| ==> idx[p] < |plan.answers|
  {
    HalfIsExact(plan.cands, plan.full, alerts, |plan.cands|);
    var idx := HalfOf(plan.cands, plan.full, alerts);
    assert forall p :: 0 <= p < |idx| ==> idx[p] in idx;
  }

  /** Every candidate of a half ranked no worse than its choice was asked; every one of them, when nothing was chosen. */
  ghost predicate BetterOnesAsked(plan: Plan, log: seq<nat>, alerts: bool, choice: Option<nat>) {
    forall i: nat :: Belongs(plan.cands, plan.full, alerts, i) && (choice.None? || i <= choice.value) ==> i in log
  }

  lemma HalfAsked(plan: Plan, log: seq<nat>, h: Half, alerts: bool)
    requires PlanOk(plan) && HalfOk(plan.answers, false, h) && QueueOk(plan, h, None, alerts) && LogOk(log, h)
    requires Done(h)
    ensures BetterOnesAsked(plan, log, alerts, Choice(None, h))
  {
    HalfIsExact(plan.cands, plan.full, alerts, |plan.cands|);
    WithoutNone(HalfOf(plan.cands, plan.full, alerts));
    HalfChoosesTheBest(plan.answers, h);
    var first := FirstAnswering(plan.answers, h.idx);
    forall i: nat | Belongs(plan.cands, plan.full, alerts, i) && (first.None? || i <= h.idx[first.value])
      ensures i in log
    {
      assert i in h.idx;
      var p :| 0 <= p < |h.idx| && h.idx[p] == i;
      if first.Some? { AscendingMeans(h.idx, p, first.value); }
      assert WasProbed(h, p);
    }
  }

  lemma HalfResult(plan: Plan, log: seq<nat>, h: Half, pin: Option<nat>, alerts: bool)
    requires PlanOk(plan) && HalfOk(plan.answers, false, h) && QueueOk(plan, h, pin, alerts) && LogOk(log, h)
    requires Done(h)
    ensures Choice(pin, h) == Expected(plan, pin, alerts)
    ensures pin.None? ==> BetterOnesAsked(plan, log, alerts, Choice(pin, h))
  {
    if pin.None? {
      WithoutNone(HalfOf(plan.cands, plan.full, alerts));
      HalfChoosesTheBest(plan.answers, h);
      HalfAsked(plan, log, h, alerts);
    }
  }

  /**
   Whatever the schedule, a walk that completes in a live context uses a pin that fits even if
   it did not answer, and otherwise chooses in each half the best-ranked candidate that
   answers; every better-ranked one of that half was asked.
   */
  lemma WalkChoosesTheBest(plan: Plan, schedule: seq<Step>)
    requires PlanOk(plan)
    ensures var w := Exec(plan, Begin(plan), schedule);
            Complete(w) && !Partial(w) ==>
              && MetricsChoice(plan, w) == Expected(plan, plan.MetricsPin(), false)
              && AlertsChoice(plan, w) == Expected(plan, plan.AlertsPin(), true)
              && (plan.MetricsPin().None? ==> BetterOnesAsked(plan, w.log, false, MetricsChoice(plan, w)))
              && (plan.AlertsPin().None? ==> BetterOnesAsked(plan, w.log, true, AlertsChoice(plan, w)))
  {
    BeginOk(plan);
    WalkExec(plan, Begin(plan), schedule);
    var w := Exec(plan, Begin(plan), schedule);
    if Complete(w) && !Partial(w) {
      HalfResult(plan, w.log, w.metrics, plan.MetricsPin(), false);
      HalfResult(plan, w.log, w.alerts, plan.AlertsPin(), true);
    }
  }

  lemma {:induction false} LogOnlyGrows(plan: Plan, w: Walk, schedule: seq<Step>)
    ensures w.log <= Exec(plan, w, schedule).log
    decreases |schedule|
  {
    if schedule != [] {
      LogOnlyGrows(plan, if Enabled(plan, w, schedule[0]) then Apply(plan, w, schedule[0]) else w, schedule[1..]);
    }
  }

  lemma PinsLogged(plan: Plan, schedule: seq<Step>, i: nat)
    requires plan.MetricsPin() == Some(i) || plan.AlertsPin() == Some(i)
    ensures i in Exec(plan, Begin(plan), schedule).log
  {
    var first, log := Begin(plan).log, Exec(plan, Begin(plan), schedule).log;
    LogOnlyGrows(plan, Begin(plan), schedule);
    PinsListed(plan.MetricsPin(), plan.AlertsPin());
    var j :| 0 <= j < |first| && first[j] == i;
    assert log[j] == i;
  }

  /** In every schedule the first candidate that fits the operator's pick is probed, and used whether or not it answered. */
  lemma PinnedIsUsed(plan: Plan, schedule: seq<Step>, i: nat)
    requires PlanOk(plan)
    ensures var w := Exec(plan, Begin(plan), schedule);
            && (FirstFit(plan.cands, plan.metricsPick, false, i) ==> MetricsChoice(plan, w) == Some(i) && i in w.log)
            && (FirstFit(plan.cands, plan.alertsPick, true, i) ==> AlertsChoice(plan, w) == Some(i) && i in w.log)
  {
    PinMeans(plan.cands, plan.metricsPick, false, i);
    PinMeans(plan.cands, plan.alertsPick, true, i);
    if plan.MetricsPin() == Some(i) || plan.AlertsPin() == Some(i) { PinsLogged(plan, schedule, i); }
  }

  // ---- exactly who is asked ------------------------------------------------

  lemma {:induction false} DeadMeansDied(plan: Plan, w: Walk, schedule: seq<Step>)
    ensures Exec(plan, w, schedule).dead <==> w.dead || Die in schedule
    decreases |schedule|
  {
    if schedule != [] {
      DeadMeansDied(plan, if Enabled(plan, w, schedule[0]) then Apply(plan, w, schedule[0]) else w, schedule[1..]);
      assert schedule == [schedule[0]] + schedule[1..];
    }
  }

  /** An answer is partial exactly when the walk's context died on the way. */
  lemma PartialMeans(plan: Plan, schedule: seq<Step>)
    ensures Partial(Exec(plan, Begin(plan), schedule)) <==> Die in schedule
  {
    DeadMeansDied(plan, Begin(plan), schedule);
  }

  lemma DoneHalfAskedAll(plan: Plan, w: Walk, h: Half, pin: Option<nat>, alerts: bool, i: nat)
    requires PlanOk(plan) && plan.full && HalfOk(plan.answers, false, h) && QueueOk(plan, h, pin, alerts) && LogOk(w.log, h)
    requires Done(h) && i < |plan.cands| && plan.cands[i].IsAlertSource() == alerts && pin != Some(i)
    ensures i in w.log
  {
    HalfIsExact(plan.cands, true, alerts, |plan.cands|);
    WithoutHas(HalfOf(plan.cands, true, alerts), pin, i);
    HalfChoosesTheBest(plan.answers, h);
    var p :| 0 <= p < |h.idx| && h.idx[p] == i;
    assert WasProbed(h, p);
  }

  /** A full walk that completes in a live context has asked every candidate, pinned or not, scrape targets too. */
  lemma FullWalkAsksEverybody(plan: Plan, schedule: seq<Step>, i: nat)
    requires PlanOk(plan) && plan.full && Die !in schedule && Complete(Exec(plan, Begin(plan), schedule))
    requires i < |plan.cands|
    ensures i in Exec(plan, Begin(plan), schedule).log
  {
    var w := Exec(plan, Begin(plan), schedule);
    BeginOk(plan);
    WalkExec(plan, Begin(plan), schedule);
    PartialMeans(plan, schedule);
    if plan.MetricsPin() == Some(i) || plan.AlertsPin() == Some(i) {
      PinsLogged(plan, schedule, i);
    } else if plan.cands[i].IsAlertSource() {
      DoneHalfAskedAll(plan, w, w.alerts, plan.AlertsPin(), true, i);
    } else {
      DoneHalfAskedAll(plan, w, w.metrics, plan.MetricsPin(), false, i);
    }
  }

  /** Whoever was asked is a pin or stands in one of the queues. */
  predicate LogFrom(plan: Plan, log: seq<nat>, metrics: seq<nat>, alerts: seq<nat>) {
    forall i :: i in log ==> IsPinOf(plan, i) || i in metrics || i in alerts
  }

  lemma {:induction false} OnlyQueuedAreAsked(plan: Plan, w: Walk, schedule: seq<Step>)
    requires LogFrom(plan, w.log, w.metrics.idx, w.alerts.idx)
    ensures var w' := Exec(plan, w, schedule);
            && LogFrom(plan, w'.log, w'.metrics.idx, w'.alerts.idx)
            && w'.metrics.idx == w.metrics.idx && w'.alerts.idx == w.alerts.idx
    decreases |schedule|
  {
    if schedule != [] {
      var w1 := if Enabled(plan, w, schedule[0]) then Apply(plan, w, schedule[0]) else w;
      OneMoreAsked(plan, w, schedule[0]);
      OnlyQueuedAreAsked(plan, w1, schedule[1..]);
    }
  }

  lemma OneMoreAsked(plan: Plan, w: Walk, step: Step)
    requires LogFrom(plan, w.log, w.metrics.idx, w.alerts.idx)
    ensures var w1 := if Enabled(plan, w, step) then Apply(plan, w, step) else w;
            && LogFrom(plan, w1.log, w1.metrics.idx, w1.alerts.idx)
            && w1.metrics.idx == w.metrics.idx && w1.alerts.idx == w.alerts.idx
  {
  }

  /** In every schedule whoever is asked is the pin of its half, or, unless all are asked for, neither a scrape target nor beside a pin. */
  lemma NobodyElseIsAsked(plan: Plan, schedule: seq<Step>, i: nat)
    requires PlanOk(plan) && i in Exec(plan, Begin(plan), schedule).log
    ensures i < |plan.cands|
    ensures var pick, alerts := if plan.cands[i].IsAlertSource() then plan.alertsPick else plan.metricsPick, plan.cands[i].IsAlertSource();
            || FirstFit(plan.cands, pick, alerts, i)
            || plan.full
            || (!plan.cands[i].scrapeTarget && forall j: nat :: !FirstFit(plan.cands, pick, alerts, j))
  {
    BeginOk(plan);
    WalkExec(plan, Begin(plan), schedule);
    PinsFirst(plan);
    OnlyQueuedAreAsked(plan, Begin(plan), schedule);
    AskedAsQueued(plan, i, false);
    AskedAsQueued(plan, i, true);
    var pick, alerts := if plan.cands[i].IsAlertSource() then plan.alertsPick else plan.metricsPick, plan.cands[i].IsAlertSource();
    forall j: nat ensures PinOf(plan.cands, pick, alerts) == Some(j) <==> FirstFit(plan.cands, pick, alerts, j) {
      PinMeans(plan.cands, pick, alerts, j);
    }
  }

  /** What standing in a queue means. */
  lemma AskedAsQueued(plan: Plan, i: nat, alerts: bool)
    requires PlanOk(plan)
    ensures var pin := if alerts then plan.AlertsPin() else plan.MetricsPin();
            i in StartHalf(plan, pin, alerts).idx ==>
              && i < |plan.cands| && plan.cands[i].IsAlertSource() == alerts
              && (plan.full || (!plan.cands[i].scrapeTarget && pin.None?))
  {
    var pin := if alerts then plan.AlertsPin() else plan.MetricsPin();
    StartQueueOk(plan, pin, alerts);
  }

  lemma ExecStep(plan: Plan, w: Walk, step: Step, rest: seq<Step>)
    requires Enabled(plan, w, step)
    ensures Exec(plan, w, [step] + rest) == Exec(plan, Apply(plan, w, step), rest)
  {
    assert ([step] + rest)[1..] == rest;
  }

  /** From wherever a schedule has brought a walk, it can be completed without its context dying. */
  lemma {:induction false} WalkCanComplete(plan: Plan, w: Walk) returns (rest: seq<Step>)
    requires PlanOk(plan) && WalkOk(plan, w)
    ensures Complete(Exec(plan, w, rest)) && Exec(plan, w, rest).dead == w.dead
    decreases Left(w.metrics) + Left(w.alerts)
  {
    if Complete(w) {
      rest := [];
    } else {
      var step;
      if !Done(w.metrics) {
        var m := NeverStuck(plan.answers, w.dead, w.metrics);
        StepsAreBounded(plan.answers, w.dead, w.metrics, m);
        step := OnMetrics(m);
      } else {
        var a := NeverStuck(plan.answers, w.dead, w.alerts);
        StepsAreBounded(plan.answers, w.dead, w.alerts, a);
        step := OnAlerts(a);
      }
      WalkStep(plan, w, step);
      var more := WalkCanComplete(plan, Apply(plan, w, step));
      ExecStep(plan, w, step, more);
      rest := [step] + more;
    }
  }

  predicate ScrapeTargetsLast(cands: seq<Endpoint>) {
    forall i, j :: 0 <= i < j < |cands| && cands[i].scrapeTarget ==> cands[j].scrapeTarget
  }

  /** Some scrape target of this half answers. */
  predicate ScrapeTargetAnswers(plan: Plan, alerts: bool)
    requires PlanOk(plan)
  {
    exists i :: 0 <= i < |plan.cands| && plan.cands[i].scrapeTarget && plan.cands[i].IsAlertSource() == alerts && plan.answers[i]
  }

  lemma ExpectedIsFirst(plan: Plan, alerts: bool)
    requires PlanOk(plan)
    ensures var e := Expected(plan, None, alerts);
            && (e.Some? ==> Belongs(plan.cands, plan.full, alerts, e.value) && plan.answers[e.value])
            && (forall i: nat :: Belongs(plan.cands, plan.full, alerts, i) && plan.answers[i] ==> e.Some? && e.value <= i)
  {
    HalfIsExact(plan.cands, plan.full, alerts, |plan.cands|);
    HalfIsExactly(plan, alerts);
    var idx := HalfOf(plan.cands, plan.full, alerts);
    var first := FirstAnswering(plan.answers, idx);
    if first.Some? { assert idx[first.value] in idx; }
    forall i: nat | Belongs(plan.cands, plan.full, alerts, i) && plan.answers[i]
      ensures first.Some? && idx[first.value] <= i
    {
      assert i in idx;
      var p :| 0 <= p < |idx| && idx[p] == i;
      assert first.Some? && first.value <= p;
      assert first.value < p ==> idx[first.value] < idx[p];
    }
  }

  /**
   The early-stopping walk and the full probe agree on an unpinned half exactly when the walk
   finds something or no scrape target answers either: scrape targets are ranked last and only
   the full probe asks them.
   */
  lemma QuickAgreesWithFull(plan: Plan, alerts: bool)
    requires PlanOk(plan) && !plan.full && ScrapeTargetsLast(plan.cands)
    ensures Expected(plan, None, alerts) == Expected(plan.(full := true), None, alerts) <==>
            Expected(plan, None, alerts).Some? || !ScrapeTargetAnswers(plan, alerts)
  {
    var all := plan.(full := true);
    ExpectedIsFirst(plan, alerts);
    ExpectedIsFirst(all, alerts);
    var q, f := Expected(plan, None, alerts), Expected(all, None, alerts);
    if q.Some? {
      assert Belongs(all.cands, true, alerts, q.value) && f.value <= q.value;
      assert !plan.cands[f.value].scrapeTarget;
      assert Belongs(plan.cands, false, alerts, f.value);
    } else if ScrapeTargetAnswers(plan, alerts) {
      var i :| 0 <= i < |plan.cands| && plan.cands[i].scrapeTarget && plan.cands[i].IsAlertSource() == alerts && plan.answers[i];
      assert Belongs(all.cands, true, alerts, i);
    } else {
      forall i: nat | Belongs(plan.cands, true, alerts, i)
        ensures !plan.answers[i]
      {
        if !plan.cands[i].scrapeTarget { assert Belongs(plan.cands, false, alerts, i); }
      }
    }
  }
}
