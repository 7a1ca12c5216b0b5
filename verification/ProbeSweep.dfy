/**
 One sweep over every cluster: one goroutine per cluster, a semaphore of seats for
 clusters and, inside it, a semaphore of slots for requests. A goroutine takes a slot for
 every question its probe asks, holds it only while the answer is on its way, and never
 waits for anything meanwhile; what it asks next depends on what it was told.
 */
module ProbeSweep {
  import opened Alerts
  import opened Runs
  import opened Probes

  // ---- a probe, question by question ---------------------------------------

  /** What a cluster answers; `writtenOff` says that Devtron reports it unreachable and nobody insists. */
  datatype Cluster = Cluster(
    name: string,
    writtenOff: bool,
    listing: Listing,
    nodes: Read,
    pods: string -> Read,
    fallback: seq<string>)

  datatype Question = TheNamespaces | TheNodes | ThePods(namespace: string)

  /** What a probe has been told so far. */
  datatype Memory =
    | Blank
    | Told(listing: Listing)
    | Counted(listing: Listing, nodes: Read, got: seq<Read>)

  datatype Turn = Wanted(q: Question) | Settled(reach: Reach)

  function Tried(listing: Listing, fallback: seq<string>): seq<string> {
    if listing.Listed? then Sampled(listing, fallback) else []
  }

  predicate SomeRefused(got: seq<Read>) { exists i :: 0 <= i < |got| && Refused(got[i]) }

  function TurnAfterNodes(fallback: seq<string>, listing: Listing, nodes: Read, got: seq<Read>): Turn {
    var tried := Tried(listing, fallback);
    if HasObjects(nodes) then Settled(Usable)
    else if got != [] && Decisive(got[|got| - 1]) then
      Settled(if HasObjects(got[|got| - 1]) then Usable else Broken)
    else if |got| < |tried| then Wanted(ThePods(tried[|got|]))
    else Settled(if SomeRefused(got) then Forbidden else Empty)
  }

  /** What the probe of a cluster does next: one more question, or its verdict. */
  function NextTurn(c: Cluster, m: Memory): Turn {
    if c.writtenOff then Settled(Unreachable)
    else
      match m
      case Blank => Wanted(TheNamespaces)
      case Told(NotStarted) => Settled(Unknown)
      case Told(ListFailed(why)) => Settled(why)
      case Told(Listed(namespaces)) => if namespaces == [] then Settled(Forbidden) else Wanted(TheNodes)
      case Counted(listing, nodes, got) => TurnAfterNodes(c.fallback, listing, nodes, got)
  }

  /** The answer to the question it has. */
  function Learned(c: Cluster, m: Memory): Memory {
    match m
    case Blank => Told(c.listing)
    case Told(listing) => Counted(listing, c.nodes, [])
    case Counted(listing, nodes, got) =>
      var tried := Tried(listing, c.fallback);
      if |got| < |tried| then Counted(listing, nodes, got + [c.pods(tried[|got|])]) else m
  }

  /** Why a question was not answered as the cluster would have: no slot before the end, or a read cut off. */
  datatype Loss = NeverAsked | CutOff(why: Reach)

  function LostRead(loss: Loss): Read { if loss.NeverAsked? then NotReached else Read.Failed(loss.why) }

  /** The cluster as it turned out, with that question lost. */
  function Without(c: Cluster, q: Question, loss: Loss): Cluster {
    match q
    case TheNamespaces => c.(listing := if loss.NeverAsked? then NotStarted else ListFailed(loss.why))
    case TheNodes => c.(nodes := LostRead(loss))
    case ThePods(namespace) => c.(pods := name => if name == namespace then LostRead(loss) else c.pods(name))
  }

  /** What a probe of this cluster on its own comes to. */
  function VerdictOn(c: Cluster): Reach {
    if c.writtenOff then Unreachable else ReachOf(c.listing, c.nodes, c.pods, c.fallback)
  }

  /** What was heard is what the cluster answers, and nothing was asked that need not have been. */
  predicate Follows(c: Cluster, m: Memory) {
    match m
    case Blank => true
    case Told(listing) => !c.writtenOff && listing == c.listing
    case Counted(listing, nodes, got) =>
      var tried := Tried(listing, c.fallback);
      && !c.writtenOff && listing == c.listing && listing.Listed? && listing.namespaces != []
      && nodes == c.nodes && (got != [] ==> !HasObjects(nodes))
      && |got| <= |tried|
      && (forall k :: 0 <= k < |got| ==> got[k] == c.pods(tried[k]))
      && (forall k :: 0 <= k < |got| - 1 ==> !Decisive(got[k]))
  }

  lemma LearnedFollows(c: Cluster, m: Memory)
    requires Follows(c, m) && NextTurn(c, m).Wanted?
    ensures Follows(c, Learned(c, m))
  {
  }

  lemma CappedAreDistinct(names: seq<string>, max: nat)
    requires Distinct(names)
    ensures Distinct(Capped(names, max)) && |Capped(names, max)| <= max
  {
  }

  lemma TriedAreDistinct(listing: Listing, fallback: seq<string>)
    ensures Distinct(Tried(listing, fallback)) && |Tried(listing, fallback)| <= MaxProbeNamespaces
  {
    if listing.Listed? {
      FirstsAreDistinct(fallback + listing.namespaces);
      CappedAreDistinct(Firsts(fallback + listing.namespaces), MaxProbeNamespaces);
    }
  }

  /** No question is asked twice, so losing one changes nothing that was heard before. */
  lemma LosingFollows(c: Cluster, m: Memory, loss: Loss)
    requires Follows(c, m) && NextTurn(c, m).Wanted?
    ensures var c' := Without(c, NextTurn(c, m).q, loss); Follows(c', m) && NextTurn(c', m) == NextTurn(c, m)
  {
    if m.Counted? { TriedAreDistinct(m.listing, c.fallback); }
  }

  lemma LostFollows(c: Cluster, m: Memory, loss: Loss)
    requires Follows(c, m) && NextTurn(c, m).Wanted?
    ensures var c' := Without(c, NextTurn(c, m).q, loss); Follows(c', Learned(c', m))
  {
    LosingFollows(c, m, loss);
    LearnedFollows(Without(c, NextTurn(c, m).q, loss), m);
  }

  lemma StopIs(tried: seq<string>, pods: string -> Read, n: nat)
    requires n <= |tried| && (n < |tried| ==> Decisive(pods(tried[n])))
    requires forall k :: 0 <= k < n ==> !Decisive(pods(tried[k]))
    ensures Stop(tried, pods) == n
  {
  }

  /** A probe that has asked what it had to concludes what a probe of that cluster concludes. */
  lemma SettledRightly(c: Cluster, m: Memory)
    requires Follows(c, m) && NextTurn(c, m).Settled?
    ensures NextTurn(c, m).reach == VerdictOn(c)
  {
    if m.Counted? && !HasObjects(m.nodes) {
      var tried, got := Tried(m.listing, c.fallback), m.got;
      if got != [] && Decisive(got[|got| - 1]) {
        StopIs(tried, c.pods, |got| - 1);
      } else {
        assert forall k :: 0 <= k < |tried| ==> got[k] == c.pods(tried[k]) && !Decisive(got[k]);
        StopIs(tried, c.pods, |tried|);
      }
    }
  }

  // ---- the sweep -----------------------------------------------------------

  datatype Task =
    | Parked                   // waiting for a seat
    | Seated(heard: Memory)   // between reads
    | Reading(heard: Memory)  // holding a request slot
    | Judged                   // verdict published, seat still held
    | Gone

  /** `inFlight` and `concurrency` are the configured bounds, which may be zero or negative. */
  datatype Sweep = Sweep(
    inFlight: int,
    concurrency: int,
    clusters: seq<Cluster>,            // as they turn out: questions lost at the end are lost here
    tasks: seq<Task>,
    dead: bool,                        // the sweep's context is done
    taken: nat,                        // slots taken and given back so far
    given: nat,
    verdicts: seq<Option<Reach>>,
    published: seq<nat>)               // clusters, in the order their verdicts were published

  datatype Step =
    | Sit(i: nat)
    | Take(i: nat)
    | Miss(i: nat)                     // gave up waiting for a slot
    | Give(i: nat)                     // answered, and the slot given back
    | Cut(i: nat, why: Reach)          // cut off by the end of the sweep, and the slot given back
    | Judge(i: nat)
    | Leave(i: nat)
    | Die

  function AtLeastOne(n: int): nat { if n < 1 then 1 else n }

  function Start(inFlight: int, concurrency: int, clusters: seq<Cluster>): Sweep {
    Sweep(inFlight, concurrency, clusters, seq(|clusters|, _ => Parked), false, 0, 0, seq(|clusters|, _ => None), [])
  }

  predicate Holds(t: Task) { t.Reading? }

  predicate Sits(t: Task) { t.Seated? || t.Reading? || t.Judged? }

  function Count(tasks: seq<Task>, p: Task -> bool): nat {
    if tasks == [] then 0 else Count(tasks[..|tasks| - 1], p) + if p(tasks[|tasks| - 1]) then 1 else 0
  }

  function Slots(w: Sweep): nat { Count(w.tasks, Holds) }

  function Seats(w: Sweep): nat { Count(w.tasks, Sits) }

  predicate Exists(w: Sweep, i: nat) { i < |w.tasks| && i < |w.clusters| && i < |w.verdicts| }

  /** A seated goroutine that wants an answer needs a slot; only one that wants none may judge. */
  predicate Enabled(w: Sweep, step: Step) {
    match step
    case Sit(i) => Exists(w, i) && w.tasks[i].Parked? && Seats(w) < AtLeastOne(w.concurrency)
    case Take(i) =>
      && Exists(w, i) && w.tasks[i].Seated? && NextTurn(w.clusters[i], w.tasks[i].heard).Wanted?
      && Slots(w) < AtLeastOne(w.inFlight)
    case Miss(i) =>
      Exists(w, i) && w.tasks[i].Seated? && NextTurn(w.clusters[i], w.tasks[i].heard).Wanted? && w.dead
    case Give(i) => Exists(w, i) && w.tasks[i].Reading?
    case Cut(i, why) =>
      && Exists(w, i) && w.tasks[i].Reading? && NextTurn(w.clusters[i], w.tasks[i].heard).Wanted?
      && w.dead && why in {Forbidden, Broken, Unreachable}
    case Judge(i) => Exists(w, i) && w.tasks[i].Seated? && NextTurn(w.clusters[i], w.tasks[i].heard).Settled?
    case Leave(i) => Exists(w, i) && w.tasks[i].Judged?
    case Die => true
  }

  function Move(w: Sweep, i: nat, t: Task): Sweep
    requires i < |w.tasks|
  {
    w.(tasks := w.tasks[i := t])
  }

  function Publish(w: Sweep, i: nat, reach: Reach): Sweep
    requires i < |w.tasks| && i < |w.verdicts|
  {
    Move(w, i, Judged).(verdicts := w.verdicts[i := Some(reach)], published := w.published + [i])
  }

  /** The question is lost, and the probe goes on with that. */
  function Lose(w: Sweep, i: nat, loss: Loss): Sweep
    requires Exists(w, i) && (w.tasks[i].Seated? || w.tasks[i].Reading?)
    requires NextTurn(w.clusters[i], w.tasks[i].heard).Wanted?
  {
    var c := Without(w.clusters[i], NextTurn(w.clusters[i], w.tasks[i].heard).q, loss);
    Move(w, i, Seated(Learned(c, w.tasks[i].heard))).(clusters := w.clusters[i := c])
  }

  function Apply(w: Sweep, step: Step): Sweep
    requires Enabled(w, step)
  {
    match step
    case Sit(i) => Move(w, i, Seated(Blank))
    case Take(i) => Move(w, i, Reading(w.tasks[i].heard)).(taken := w.taken + 1)
    case Miss(i) => Lose(w, i, NeverAsked)
    case Give(i) => Move(w, i, Seated(Learned(w.clusters[i], w.tasks[i].heard))).(given := w.given + 1)
    case Cut(i, why) => Lose(w, i, CutOff(why)).(given := w.given + 1)
    case Judge(i) => Publish(w, i, NextTurn(w.clusters[i], w.tasks[i].heard).reach)
    case Leave(i) => Move(w, i, Gone)
    case Die => w.(dead := true)
  }

  function Exec(w: Sweep, schedule: seq<Step>): Sweep
    decreases |schedule|
  {
    if schedule == [] then w
    else Exec(if Enabled(w, schedule[0]) then Apply(w, schedule[0]) else w, schedule[1..])
  }

  predicate Complete(w: Sweep) { forall i :: 0 <= i < |w.tasks| ==> w.tasks[i].Gone? }

  // ---- counting ------------------------------------------------------------

  lemma {:induction false} CountSet(tasks: seq<Task>, p: Task -> bool, i: nat, t: Task)
    requires i < |tasks|
    ensures Count(tasks[i := t], p) == Count(tasks, p) - (if p(tasks[i]) then 1 else 0) + (if p(t) then 1 else 0)
  {
    var front := tasks[..|tasks| - 1];
    if i < |front| {
      CountSet(front, p, i, t);
      assert tasks[i := t][..|tasks| - 1] == front[i := t];
    } else {
      assert tasks[i := t][..|tasks| - 1] == front;
    }
  }

  lemma {:induction false} CountNone(tasks: seq<Task>, p: Task -> bool)
    requires forall i :: 0 <= i < |tasks| ==> !p(tasks[i])
    ensures Count(tasks, p) == 0
  {
    if tasks != [] { CountNone(tasks[..|tasks| - 1], p); }
  }

  // ---- what is kept --------------------------------------------------------

  predicate SlotsOk(w: Sweep) {
    && Slots(w) <= AtLeastOne(w.inFlight)
    && Seats(w) <= AtLeastOne(w.concurrency)
    && w.taken == w.given + Slots(w)
  }

  predicate Sized(w: Sweep) { |w.clusters| == |w.tasks| == |w.verdicts| }

  /** A goroutine heard what its cluster answers, reads only when it wants to, and published what a probe concludes. */
  predicate TaskOk(c: Cluster, t: Task, verdict: Option<Reach>) {
    match t
    case Parked => verdict.None?
    case Seated(m) => verdict.None? && Follows(c, m)
    case Reading(m) => verdict.None? && Follows(c, m) && NextTurn(c, m).Wanted?
    case _ => verdict == Some(VerdictOn(c))
  }

  predicate TasksOk(w: Sweep) {
    Sized(w) && forall i :: 0 <= i < |w.tasks| ==> TaskOk(w.clusters[i], w.tasks[i], w.verdicts[i])
  }

  /** A verdict is published exactly once. */
  predicate VerdictsOk(w: Sweep) {
    && (forall i :: 0 <= i < |w.verdicts| ==> (w.verdicts[i].Some? <==> i in w.published))
    && (forall j :: 0 <= j < |w.published| ==> w.published[j] < |w.verdicts|)
    && (forall j, k :: 0 <= j < k < |w.published| ==> w.published[j] != w.published[k])
  }

  /** An answer is the cluster's own, or a failure of the kinds a lost question leaves. */
  predicate ReadWeathered(r0: Read, r: Read) { r == r0 || r.NotReached? || r.Failed? }

  ghost predicate Weathered(c0: Cluster, c: Cluster) {
    && c.name == c0.name && c.writtenOff == c0.writtenOff && c.fallback == c0.fallback
    && (c.listing == c0.listing || c.listing.NotStarted? || c.listing.ListFailed?)
    && ReadWeathered(c0.nodes, c.nodes)
    && forall namespace :: ReadWeathered(c0.pods(namespace), c.pods(namespace))
  }

  ghost predicate AllWeathered(clusters: seq<Cluster>, w: Sweep) {
    && |w.clusters| == |clusters|
    && (forall i :: 0 <= i < |clusters| ==> Weathered(clusters[i], w.clusters[i]))
    && (!w.dead ==> w.clusters == clusters)
  }

  ghost predicate Inv(clusters: seq<Cluster>, w: Sweep) {
    SlotsOk(w) && TasksOk(w) && VerdictsOk(w) && AllWeathered(clusters, w)
  }

  lemma SlotsKept(w: Sweep, step: Step)
    requires SlotsOk(w) && Enabled(w, step)
    ensures SlotsOk(Apply(w, step))
  {
    if !step.Die? {
      CountSet(w.tasks, Holds, step.i, Apply(w, step).tasks[step.i]);
      CountSet(w.tasks, Sits, step.i, Apply(w, step).tasks[step.i]);
    }
  }

  lemma OneTaskMoves(w: Sweep, i: nat, c: Cluster, t: Task, verdict: Option<Reach>)
    requires TasksOk(w) && i < |w.tasks| && TaskOk(c, t, verdict)
    ensures TasksOk(w.(clusters := w.clusters[i := c], tasks := w.tasks[i := t], verdicts := w.verdicts[i := verdict]))
  {
  }

  lemma OneTaskStays(w: Sweep, step: Step)
    requires TasksOk(w) && Enabled(w, step) && !step.Die?
    ensures var w' := Apply(w, step); Sized(w') && TaskOk(w'.clusters[step.i], w'.tasks[step.i], w'.verdicts[step.i])
  {
    var c, t := w.clusters[step.i], w.tasks[step.i];
    assert TaskOk(c, t, w.verdicts[step.i]);
    match step {
      case Miss(_) => LostFollows(c, t.heard, NeverAsked);
      case Cut(_, why) => LostFollows(c, t.heard, CutOff(why));
      case Give(_) => LearnedFollows(c, t.heard);
      case Judge(_) => SettledRightly(c, t.heard);
      case _ =>
    }
  }

  lemma TasksKept(w: Sweep, step: Step)
    requires TasksOk(w) && Enabled(w, step)
    ensures TasksOk(Apply(w, step))
  {
    if !step.Die? {
      var w', i := Apply(w, step), step.i;
      OneTaskStays(w, step);
      OneTaskMoves(w, i, w'.clusters[i], w'.tasks[i], w'.verdicts[i]);
      assert w'.clusters == w.clusters[i := w'.clusters[i]] && w'.verdicts == w.verdicts[i := w'.verdicts[i]];
    }
  }

  lemma VerdictsKept(w: Sweep, step: Step)
    requires TasksOk(w) && VerdictsOk(w) && Enabled(w, step)
    ensures VerdictsOk(Apply(w, step))
  {
    if step.Judge? {
      var published := Apply(w, step).published;
      assert TaskOk(w.clusters[step.i], w.tasks[step.i], w.verdicts[step.i]);
      assert published[|w.published|] == step.i;
      assert forall k :: k in published <==> k in w.published || k == step.i;
    }
  }

  lemma OneMoreLoss(c0: Cluster, c: Cluster, q: Question, loss: Loss)
    requires Weathered(c0, c)
    ensures Weathered(c0, Without(c, q, loss))
  {
  }

  lemma WeatheredKept(clusters: seq<Cluster>, w: Sweep, step: Step)
    requires AllWeathered(clusters, w) && Enabled(w, step)
    ensures AllWeathered(clusters, Apply(w, step))
  {
    if step.Miss? || step.Cut? {
      var c := w.clusters[step.i];
      OneMoreLoss(clusters[step.i], c, NextTurn(c, w.tasks[step.i].heard).q, if step.Miss? then NeverAsked else CutOff(step.why));
    }
  }

  lemma InvStep(clusters: seq<Cluster>, w: Sweep, step: Step)
    requires Inv(clusters, w) && Enabled(w, step)
    ensures Inv(clusters, Apply(w, step))
  {
    SlotsKept(w, step);
    TasksKept(w, step);
    VerdictsKept(w, step);
    WeatheredKept(clusters, w, step);
  }

  lemma StartOk(inFlight: int, concurrency: int, clusters: seq<Cluster>)
    ensures Inv(clusters, Start(inFlight, concurrency, clusters))
  {
    CountNone(Start(inFlight, concurrency, clusters).tasks, Holds);
    CountNone(Start(inFlight, concurrency, clusters).tasks, Sits);
  }

  lemma {:induction false} InvExec(clusters: seq<Cluster>, w: Sweep, schedule: seq<Step>)
    requires Inv(clusters, w)
    ensures var w' := Exec(w, schedule);
            Inv(clusters, w') && w'.inFlight == w.inFlight && w'.concurrency == w.concurrency
    decreases |schedule|
  {
    if schedule != [] {
      if Enabled(w, schedule[0]) { InvStep(clusters, w, schedule[0]); }
      InvExec(clusters, if Enabled(w, schedule[0]) then Apply(w, schedule[0]) else w, schedule[1..]);
    }
  }

  /**
   Never more requests in flight than the bound (one, when the bound is not positive), nor more
   clusters at once than theirs; every slot taken is given back exactly once.
   */
  lemma RequestsStayBounded(inFlight: int, concurrency: int, clusters: seq<Cluster>, schedule: seq<Step>)
    ensures var w := Exec(Start(inFlight, concurrency, clusters), schedule);
            && Slots(w) <= AtLeastOne(inFlight) && Seats(w) <= AtLeastOne(concurrency)
            && w.given <= w.taken && w.taken - w.given == Slots(w)
            && (Complete(w) ==> w.taken == w.given)
  {
    StartOk(inFlight, concurrency, clusters);
    InvExec(clusters, Start(inFlight, concurrency, clusters), schedule);
    var w := Exec(Start(inFlight, concurrency, clusters), schedule);
    if Complete(w) { CountNone(w.tasks, Holds); }
  }

  // ---- no deadlock, and an end ---------------------------------------------

  lemma {:induction false} SomeoneHolds(tasks: seq<Task>, p: Task -> bool) returns (i: nat)
    requires Count(tasks, p) > 0
    ensures i < |tasks| && p(tasks[i])
  {
    if p(tasks[|tasks| - 1]) {
      i := |tasks| - 1;
    } else {
      i := SomeoneHolds(tasks[..|tasks| - 1], p);
    }
  }

  /** Nobody has to give up: neither the end of the sweep nor a lost question. */
  predicate Patient(step: Step) { !step.Die? && !step.Miss? && !step.Cut? }

  /**
   After every schedule, while a goroutine is left one of them can go on without giving up,
   whatever each of them still wants to ask: whoever is waited for is never waiting itself.
   */
  lemma SweepNeverDeadlocks(clusters: seq<Cluster>, w: Sweep) returns (step: Step)
    requires Inv(clusters, w) && !Complete(w)
    ensures Enabled(w, step) && Patient(step)
  {
    var i :| 0 <= i < |w.tasks| && !w.tasks[i].Gone?;
    if w.tasks[i].Parked? {
      if Seats(w) < AtLeastOne(w.concurrency) {
        return Sit(i);
      }
      i := SomeoneHolds(w.tasks, Sits);
    }
    if w.tasks[i].Judged? {
      return Leave(i);
    }
    if w.tasks[i].Reading? {
      return Give(i);
    }
    if NextTurn(w.clusters[i], w.tasks[i].heard).Settled? {
      return Judge(i);
    }
    if Slots(w) < AtLeastOne(w.inFlight) {
      return Take(i);
    }
    i := SomeoneHolds(w.tasks, Holds);
    step := Give(i);
  }

  /** At most this many questions: the namespaces, the nodes and three pod lists. */
  const MaxReads := 2 + MaxProbeNamespaces

  function Answers(m: Memory): nat {
    match m
    case Blank => 0
    case Told(_) => 1
    case Counted(_, _, got) => 2 + |got|
  }

  function AtMost(n: nat): nat { if n <= MaxReads then MaxReads - n else 0 }

  /** Steps a goroutine can still take. */
  function TaskLeft(t: Task): nat {
    match t
    case Parked => 2 * MaxReads + 3
    case Seated(m) => 2 * AtMost(Answers(m)) + 2
    case Reading(m) => 2 * AtMost(Answers(m)) + 1
    case Judged => 1
    case Gone => 0
  }

  function Left(tasks: seq<Task>): nat {
    if tasks == [] then 0 else Left(tasks[..|tasks| - 1]) + TaskLeft(tasks[|tasks| - 1])
  }

  lemma {:induction false} LeftSet(tasks: seq<Task>, i: nat, t: Task)
    requires i < |tasks|
    ensures Left(tasks[i := t]) == Left(tasks) - TaskLeft(tasks[i]) + TaskLeft(t)
  {
    var front := tasks[..|tasks| - 1];
    if i < |front| {
      LeftSet(front, i, t);
      assert tasks[i := t][..|tasks| - 1] == front[i := t];
    } else {
      assert tasks[i := t][..|tasks| - 1] == front;
    }
  }

  /** There is always room for the answer to a question that is asked. */
  lemma QuestionsAreBounded(c: Cluster, m: Memory)
    requires NextTurn(c, m).Wanted?
    ensures Answers(m) < MaxReads
    ensures forall c': Cluster :: c'.fallback == c.fallback ==> Answers(Learned(c', m)) == Answers(m) + 1
  {
    if m.Counted? { TriedAreDistinct(m.listing, c.fallback); }
  }

  lemma OneStepLess(clusters: seq<Cluster>, w: Sweep, step: Step)
    requires Inv(clusters, w) && Enabled(w, step) && !step.Die?
    ensures TaskLeft(Apply(w, step).tasks[step.i]) < TaskLeft(w.tasks[step.i])
  {
    var c, t := w.clusters[step.i], w.tasks[step.i];
    assert TaskOk(c, t, w.verdicts[step.i]);
    if step.Take? || step.Miss? || step.Give? || step.Cut? { QuestionsAreBounded(c, t.heard); }
  }

  /** Every step of a goroutine uses one up, so every sweep comes to an end. */
  lemma SweepStepsAreBounded(clusters: seq<Cluster>, w: Sweep, step: Step)
    requires Inv(clusters, w) && Enabled(w, step) && !step.Die?
    ensures Left(Apply(w, step).tasks) < Left(w.tasks)
  {
    LeftSet(w.tasks, step.i, Apply(w, step).tasks[step.i]);
    OneStepLess(clusters, w, step);
  }

  lemma ExecStep(w: Sweep, step: Step, rest: seq<Step>)
    requires Enabled(w, step)
    ensures Exec(w, [step] + rest) == Exec(Apply(w, step), rest)
  {
    assert ([step] + rest)[1..] == rest;
  }

  lemma {:induction false} FinishFrom(clusters: seq<Cluster>, w: Sweep) returns (rest: seq<Step>)
    requires Inv(clusters, w)
    ensures Complete(Exec(w, rest)) && Exec(w, rest).dead == w.dead && Exec(w, rest).clusters == w.clusters
    decreases Left(w.tasks)
  {
    if Complete(w) {
      rest := [];
    } else {
      var step := SweepNeverDeadlocks(clusters, w);
      SweepStepsAreBounded(clusters, w, step);
      InvStep(clusters, w, step);
      var more := FinishFrom(clusters, Apply(w, step));
      ExecStep(w, step, more);
      rest := [step] + more;
    }
  }

  /** Wherever a schedule has brought a sweep, it can be completed with no further question lost. */
  lemma SweepCanComplete(inFlight: int, concurrency: int, clusters: seq<Cluster>, schedule: seq<Step>)
    returns (rest: seq<Step>)
    ensures var w := Exec(Start(inFlight, concurrency, clusters), schedule);
            Complete(Exec(w, rest)) && Exec(w, rest).dead == w.dead && Exec(w, rest).clusters == w.clusters
  {
    StartOk(inFlight, concurrency, clusters);
    InvExec(clusters, Start(inFlight, concurrency, clusters), schedule);
    rest := FinishFrom(clusters, Exec(Start(inFlight, concurrency, clusters), schedule));
  }

  // ---- the verdicts --------------------------------------------------------

  /**
   Whatever else the sweep is doing, a verdict is what a probe of that cluster on its own
   concludes: in a live sweep from the cluster's own answers, and after its end from those and
   the questions that were lost.
   */
  lemma VerdictsAreProbes(inFlight: int, concurrency: int, clusters: seq<Cluster>, schedule: seq<Step>, i: nat)
    ensures var w := Exec(Start(inFlight, concurrency, clusters), schedule);
            i < |w.verdicts| && w.verdicts[i].Some? ==>
              && i < |clusters| == |w.clusters| && Weathered(clusters[i], w.clusters[i])
              && w.verdicts[i] == Some(VerdictOn(w.clusters[i]))
              && (!w.dead ==> w.verdicts[i] == Some(VerdictOn(clusters[i])))
  {
    StartOk(inFlight, concurrency, clusters);
    InvExec(clusters, Start(inFlight, concurrency, clusters), schedule);
    var w := Exec(Start(inFlight, concurrency, clusters), schedule);
    if i < |w.verdicts| { assert TaskOk(w.clusters[i], w.tasks[i], w.verdicts[i]); }
  }

  // ---- the report ----------------------------------------------------------

  datatype Result = Result(cluster: nat, name: string, reach: Reach)

  function ReachRank(r: Reach): nat {
    match r
    case Usable => 0
    case Empty => 1
    case Forbidden => 2
    case Broken => 3
    case Unreachable => 4
    case Unknown => 5
  }

  predicate Before(a: Result, b: Result) {
    if a.reach != b.reach then ReachRank(a.reach) < ReachRank(b.reach) else TextLess(a.name, b.name)
  }

  /** What the library's sort may return: the same results, none standing before one it should follow. */
  ghost predicate IsReport(out: seq<Result>, results: seq<Result>) {
    multiset(out) == multiset(results) && forall i, j :: 0 <= i < j < |out| ==> !Before(out[j], out[i])
  }

  /** What is best comes first, and by name where the verdicts are the same. */
  lemma ReportIsOrdered(out: seq<Result>, results: seq<Result>, j: nat, k: nat)
    requires IsReport(out, results) && j < k < |out|
    ensures var a, b := out[j], out[k];
            && (b.reach.Usable? ==> a.reach.Usable?)
            && (b.reach in {Usable, Empty} ==> a.reach in {Usable, Empty})
            && (b.reach in {Usable, Empty, Forbidden} ==> a.reach in {Usable, Empty, Forbidden})
            && (b.reach in {Usable, Empty, Forbidden, Broken} ==> a.reach in {Usable, Empty, Forbidden, Broken})
            && (a.reach.Unknown? ==> b.reach.Unknown?)
            && (a.reach == b.reach ==> !TextLess(b.name, a.name))
  {
  }

  /** What the goroutines left behind, by cluster. */
  function Results(w: Sweep): seq<Result> {
    seq(|w.clusters|, i requires 0 <= i < |w.clusters| =>
      Result(i, w.clusters[i].name, if i < |w.verdicts| && w.verdicts[i].Some? then w.verdicts[i].value else Unknown))
  }

  lemma {:induction false} Multiplicity(rs: seq<Result>, j: nat, k: nat)
    requires j < k < |rs| && rs[j] == rs[k]
    ensures multiset(rs)[rs[j]] >= 2
  {
    var front := rs[..|rs| - 1];
    assert rs == front + [rs[|rs| - 1]];
    if k < |front| {
      Multiplicity(front, j, k);
    } else {
      assert front[j] in multiset(front);
    }
  }

  lemma {:induction false} OneEach(rs: seq<Result>)
    requires forall i :: 0 <= i < |rs| ==> rs[i].cluster == i
    ensures forall r :: multiset(rs)[r] <= 1 && (r in multiset(rs) ==> r.cluster < |rs| && rs[r.cluster] == r)
  {
    if rs != [] {
      var front := rs[..|rs| - 1];
      assert rs == front + [rs[|rs| - 1]];
      OneEach(front);
      assert rs[|rs| - 1] !in multiset(front);
    }
  }

  lemma NoClusterTwice(out: seq<Result>, results: seq<Result>)
    requires multiset(out) == multiset(results)
    requires forall i :: 0 <= i < |results| ==> results[i].cluster == i
    requires forall k :: 0 <= k < |out| ==> out[k].cluster < |results| && results[out[k].cluster] == out[k]
    ensures forall j, k :: 0 <= j < k < |out| ==> out[j].cluster != out[k].cluster
  {
    OneEach(results);
    forall j, k | 0 <= j < k < |out|
      ensures out[j].cluster != out[k].cluster
    {
      if out[j] == out[k] { Multiplicity(out, j, k); }
    }
  }

  lemma CompleteVerdicts(clusters: seq<Cluster>, w: Sweep)
    requires Inv(clusters, w) && Complete(w)
    ensures forall i :: 0 <= i < |clusters| ==>
              w.clusters[i].name == clusters[i].name && w.verdicts[i] == Some(VerdictOn(w.clusters[i]))
  {
    forall i | 0 <= i < |clusters|
      ensures w.clusters[i].name == clusters[i].name && w.verdicts[i] == Some(VerdictOn(w.clusters[i]))
    {
      assert Weathered(clusters[i], w.clusters[i]);
      assert w.tasks[i].Gone? && TaskOk(w.clusters[i], w.tasks[i], w.verdicts[i]);
    }
  }

  /**
   A complete sweep reports every cluster exactly once, with the verdict published for it; if
   its context lived, with what a probe of that cluster on its own concludes, however the
   goroutines took turns.
   */
  lemma OneVerdictPerCluster(inFlight: int, concurrency: int, clusters: seq<Cluster>, schedule: seq<Step>, out: seq<Result>)
    requires Complete(Exec(Start(inFlight, concurrency, clusters), schedule))
    requires IsReport(out, Results(Exec(Start(inFlight, concurrency, clusters), schedule)))
    ensures |out| == |clusters|
    ensures forall j, k :: 0 <= j < k < |out| ==> out[j].cluster != out[k].cluster
    ensures forall k :: 0 <= k < |out| ==>
              var w, i := Exec(Start(inFlight, concurrency, clusters), schedule), out[k].cluster;
              && i < |clusters| == |w.verdicts| && out[k].name == clusters[i].name
              && w.verdicts[i] == Some(out[k].reach)
              && (!w.dead ==> out[k].reach == VerdictOn(clusters[i]))
  {
    StartOk(inFlight, concurrency, clusters);
    InvExec(clusters, Start(inFlight, concurrency, clusters), schedule);
    var w := Exec(Start(inFlight, concurrency, clusters), schedule);
    var results := Results(w);
    assert |out| == |multiset(out)| == |multiset(results)|;
    OneEach(results);
    CompleteVerdicts(clusters, w);
    forall k | 0 <= k < |out|
      ensures out[k].cluster < |clusters| && results[out[k].cluster] == out[k]
    {
      assert out[k] in multiset(out);
      assert out[k] in multiset(results);
    }
    NoClusterTwice(out, results);
  }
}
