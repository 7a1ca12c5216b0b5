/**
 The cache in front of discovery: reads that miss join or open a flight, one walk per
 flight, and only a complete walk is kept in memory and on disk. Reads, probes,
 invalidations, restarts and the walks themselves interleave freely. How old a kept stack
 may grow is unbounded; when invalidating gets rid of one is told below.
 */
module DiscoveryCache {
  import opened Runs

  type Cluster = int
  type CallId = nat
  type FlightId = nat

  /** What collapses concurrent walks: the cluster, and whether every candidate is asked. */
  datatype Key = Key(cluster: Cluster, full: bool)

  /** A walk's answer. `flight` says which flight walked. */
  datatype Stack = Stack(cluster: Cluster, partial: bool, flight: FlightId)

  datatype Phase =
    | Lined               // its function has not started
    | Walking
    | Walked(stack: Stack)
    | Kept(stack: Stack)   // in the cache, not yet on disk
    | Ready(stack: Stack)  // about to answer whoever waits

  datatype Flight = Flight(key: Key, phase: Phase)

  datatype Call =
    | Missed(key: Key)                    // found nothing in the cache, or did not look
    | Waiting(key: Key, flight: FlightId)
    | Answered(key: Key, stack: Stack)
    | GaveUp

  datatype State = State(
    cache: map<Cluster, Stack>,
    disk: map<Cluster, Stack>,
    group: map<Key, FlightId>,
    flights: map<FlightId, Flight>,
    nextFlight: FlightId,
    calls: map<CallId, Call>,
    walks: seq<Stack>)                    // every answer a walk ever returned

  datatype Step =
    | Get(call: CallId, cluster: Cluster)
    | Probe(call: CallId, cluster: Cluster)
    | Join(call: CallId)
    | GiveUp(call: CallId)
    | Begin(f: FlightId)
    | Walk(f: FlightId, partial: bool)
    | Keep(f: FlightId)
    | Persist(f: FlightId, ok: bool)
    | Land(f: FlightId)
    | Invalidate(cluster: Cluster)
    | InvalidateAll
    | Forget
    | Restart(loaded: set<Cluster>)

  const Init := State(map[], map[], map[], map[], 0, map[], [])

  predicate Enabled(s: State, step: Step) {
    match step
    case Get(call, _) => call !in s.calls
    case Probe(call, _) => call !in s.calls
    case Join(call) => call in s.calls && s.calls[call].Missed?
    case GiveUp(call) => call in s.calls && s.calls[call].Waiting?
    case Begin(f) => f in s.flights && s.flights[f].phase.Lined?
    case Walk(f, _) => f in s.flights && s.flights[f].phase.Walking?
    case Keep(f) => f in s.flights && s.flights[f].phase.Walked?
    case Persist(f, _) => f in s.flights && s.flights[f].phase.Kept?
    case Land(f) => f in s.flights && s.flights[f].phase.Ready?
    case Restart(loaded) => loaded <= s.disk.Keys
    case _ => true
  }

  function Moved(s: State, f: FlightId, phase: Phase): State
    requires f in s.flights
  {
    s.(flights := s.flights[f := s.flights[f].(phase := phase)])
  }

  /** Everybody waiting for a flight gets its answer. */
  function Delivered(calls: map<CallId, Call>, f: FlightId, stack: Stack): map<CallId, Call> {
    map c | c in calls ::
      if calls[c].Waiting? && calls[c].flight == f then Answered(calls[c].key, stack) else calls[c]
  }

  function Apply(s: State, step: Step): State
    requires Enabled(s, step)
  {
    match step
    case Get(call, cluster) =>
      var key := Key(cluster, false);
      s.(calls := s.calls[call := if cluster in s.cache then Answered(key, s.cache[cluster]) else Missed(key)])
    case Probe(call, cluster) =>
      s.(cache := s.cache - {cluster}, calls := s.calls[call := Missed(Key(cluster, true))])
    case Join(call) =>
      var key := s.calls[call].key;
      if key in s.group then s.(calls := s.calls[call := Waiting(key, s.group[key])])
      else
        s.(group := s.group[key := s.nextFlight],
           flights := s.flights[s.nextFlight := Flight(key, Lined)],
           calls := s.calls[call := Waiting(key, s.nextFlight)],
           nextFlight := s.nextFlight + 1)
    case GiveUp(call) => s.(calls := s.calls[call := GaveUp])
    case Begin(f) =>
      var key := s.flights[f].key;
      // Another flight may have filled the cache while this one queued.
      Moved(s, f, if !key.full && key.cluster in s.cache then Ready(s.cache[key.cluster]) else Walking)
    case Walk(f, partial) =>
      var stack := Stack(s.flights[f].key.cluster, partial, f);
      Moved(s, f, Walked(stack)).(walks := s.walks + [stack])
    case Keep(f) =>
      var stack := s.flights[f].phase.stack;
      if stack.partial then Moved(s, f, Ready(stack))
      else Moved(s, f, Kept(stack)).(cache := s.cache[s.flights[f].key.cluster := stack])
    case Persist(f, ok) =>
      var stack := s.flights[f].phase.stack;
      Moved(s, f, Ready(stack)).(disk := if ok && stack.cluster != 0 then s.disk[stack.cluster := stack] else s.disk)
    case Land(f) =>
      s.(group := s.group - {s.flights[f].key},
         flights := s.flights - {f},
         calls := Delivered(s.calls, f, s.flights[f].phase.stack))
    case Invalidate(cluster) => s.(cache := s.cache - {cluster})
    case InvalidateAll => s.(cache := map[])
    case Forget => s.(disk := map[])
    case Restart(loaded) =>
      // Whatever could be read back from disk; everything in flight is gone.
      s.(cache := map c | c in loaded && c in s.disk :: s.disk[c], group := map[], flights := map[], calls := map[])
  }

  function Exec(s: State, schedule: seq<Step>): State
    decreases |schedule|
  {
    if schedule == [] then s
    else Exec(if Enabled(s, schedule[0]) then Apply(s, schedule[0]) else s, schedule[1..])
  }

  // ---- what is kept --------------------------------------------------------

  /** A walk for this cluster returned this. */
  predicate Genuine(s: State, cluster: Cluster, stack: Stack) { stack.cluster == cluster && stack in s.walks }

  predicate CacheOk(s: State) {
    && (forall c :: c in s.cache ==> Genuine(s, c, s.cache[c]) && !s.cache[c].partial)
    && (forall c :: c in s.disk ==> Genuine(s, c, s.disk[c]) && !s.disk[c].partial)
  }

  predicate FlightOk(s: State, f: FlightId)
    requires f in s.flights
  {
    var flight := s.flights[f];
    && f < s.nextFlight
    && flight.key in s.group && s.group[flight.key] == f
    && (flight.phase.Walked? || flight.phase.Kept? || flight.phase.Ready? ==>
          Genuine(s, flight.key.cluster, flight.phase.stack))
    && (flight.phase.Kept? ==> !flight.phase.stack.partial)
  }

  predicate GroupOk(s: State) {
    && (forall f :: f in s.flights ==> FlightOk(s, f))
    && (forall k :: k in s.group ==> s.group[k] in s.flights && s.flights[s.group[k]].key == k)
  }

  predicate CallOk(s: State, call: Call) {
    match call
    case Waiting(key, f) => f in s.flights && s.flights[f].key == key
    case Answered(key, stack) => Genuine(s, key.cluster, stack)
    case _ => true
  }

  predicate CallsOk(s: State) { forall c :: c in s.calls ==> CallOk(s, s.calls[c]) }

  predicate Inv(s: State) { CacheOk(s) && GroupOk(s) && CallsOk(s) }

  lemma KeepKeepsCache(s: State, f: FlightId)
    requires CacheOk(s) && GroupOk(s) && Enabled(s, Keep(f))
    ensures CacheOk(Apply(s, Keep(f)))
  {
    assert FlightOk(s, f);
  }

  lemma PersistKeepsCache(s: State, f: FlightId, ok: bool)
    requires CacheOk(s) && GroupOk(s) && Enabled(s, Persist(f, ok))
    ensures CacheOk(Apply(s, Persist(f, ok)))
  {
    assert FlightOk(s, f);
  }

  lemma WalkKeepsCache(s: State, f: FlightId, partial: bool)
    requires CacheOk(s) && Enabled(s, Walk(f, partial))
    ensures CacheOk(Apply(s, Walk(f, partial)))
  {
    assert s.walks <= Apply(s, Walk(f, partial)).walks;
  }

  lemma CacheKept(s: State, step: Step)
    requires CacheOk(s) && GroupOk(s) && Enabled(s, step)
    ensures CacheOk(Apply(s, step))
  {
    match step {
      case Walk(f, partial) => WalkKeepsCache(s, f, partial);
      case Keep(f) => KeepKeepsCache(s, f);
      case Persist(f, ok) => PersistKeepsCache(s, f, ok);
      case _ =>
    }
  }

  lemma OneFlightMoves(s: State, s': State, f: FlightId, phase: Phase)
    requires GroupOk(s) && f in s.flights
    requires s'.flights == s.flights[f := s.flights[f].(phase := phase)]
    requires s'.group == s.group && s'.nextFlight == s.nextFlight && s.walks <= s'.walks
    requires FlightOk(s', f)
    ensures GroupOk(s')
  {
    forall g | g in s'.flights
      ensures FlightOk(s', g)
    {
      if g != f { assert FlightOk(s, g); }
    }
  }

  lemma NoFlightMoves(s: State, s': State)
    requires GroupOk(s) && s'.flights == s.flights && s'.group == s.group
    requires s'.nextFlight == s.nextFlight && s'.walks == s.walks
    ensures GroupOk(s')
  {
    forall f | f in s'.flights
      ensures FlightOk(s', f)
    {
      assert FlightOk(s, f);
    }
  }

  lemma JoinKeepsGroup(s: State, call: CallId)
    requires GroupOk(s) && Enabled(s, Join(call))
    ensures GroupOk(Apply(s, Join(call)))
  {
    var s' := Apply(s, Join(call));
    forall f | f in s'.flights
      ensures FlightOk(s', f)
    {
      if f in s.flights { assert FlightOk(s, f); }
    }
  }

  lemma LandKeepsGroup(s: State, f: FlightId)
    requires GroupOk(s) && Enabled(s, Land(f))
    ensures GroupOk(Apply(s, Land(f)))
  {
    var s' := Apply(s, Land(f));
    assert FlightOk(s, f);
    forall g | g in s'.flights
      ensures FlightOk(s', g)
    {
      assert FlightOk(s, g);
    }
  }

  /** The steps of a flight's own function. */
  predicate WalksOn(step: Step) { step.Begin? || step.Walk? || step.Keep? || step.Persist? }

  lemma OneFlightWalksOn(s: State, step: Step)
    requires Enabled(s, step) && WalksOn(step)
    ensures var s' := Apply(s, step);
            && step.f in s'.flights
            && s'.flights == s.flights[step.f := s.flights[step.f].(phase := s'.flights[step.f].phase)]
            && s'.group == s.group && s'.calls == s.calls && s'.nextFlight == s.nextFlight && s.walks <= s'.walks
            && !s'.flights[step.f].phase.Lined?
            && (s'.flights[step.f].phase.Walking? ==> s.flights[step.f].phase.Lined?)
  {
  }

  lemma WalkingOnKeepsGroup(s: State, step: Step)
    requires CacheOk(s) && GroupOk(s) && Enabled(s, step) && WalksOn(step)
    ensures GroupOk(Apply(s, step))
  {
    var s' := Apply(s, step);
    assert FlightOk(s, step.f);
    OneFlightWalksOn(s, step);
    OneFlightMoves(s, s', step.f, s'.flights[step.f].phase);
  }

  lemma GroupKept(s: State, step: Step)
    requires CacheOk(s) && GroupOk(s) && Enabled(s, step)
    ensures GroupOk(Apply(s, step))
  {
    if WalksOn(step) {
      WalkingOnKeepsGroup(s, step);
    } else if step.Join? {
      JoinKeepsGroup(s, step.call);
    } else if step.Land? {
      LandKeepsGroup(s, step.f);
    } else if !step.Restart? {
      NoFlightMoves(s, Apply(s, step));
    }
  }

  /** Flights stay what they are for, and no walk is forgotten. */
  predicate Continues(s: State, s': State) {
    && s.walks <= s'.walks
    && forall f :: f in s.flights ==> f in s'.flights && s'.flights[f].key == s.flights[f].key
  }

  lemma SameCalls(s: State, s': State)
    requires CallsOk(s) && Continues(s, s') && s'.calls == s.calls
    ensures CallsOk(s')
  {
    forall c | c in s'.calls
      ensures CallOk(s', s'.calls[c])
    {
      assert CallOk(s, s.calls[c]);
    }
  }

  lemma OneCallMoves(s: State, s': State, call: CallId, moved: Call)
    requires CallsOk(s) && Continues(s, s') && s'.calls == s.calls[call := moved] && CallOk(s', moved)
    ensures CallsOk(s')
  {
    forall c | c in s'.calls
      ensures CallOk(s', s'.calls[c])
    {
      if c != call { assert CallOk(s, s.calls[c]); }
    }
  }

  lemma LandKeepsCalls(s: State, f: FlightId)
    requires GroupOk(s) && CallsOk(s) && Enabled(s, Land(f))
    ensures CallsOk(Apply(s, Land(f)))
  {
    var s' := Apply(s, Land(f));
    assert FlightOk(s, f);
    forall c | c in s'.calls
      ensures CallOk(s', s'.calls[c])
    {
      assert CallOk(s, s.calls[c]);
    }
  }

  lemma JoinKeepsCalls(s: State, call: CallId)
    requires GroupOk(s) && CallsOk(s) && Enabled(s, Join(call))
    ensures CallsOk(Apply(s, Join(call)))
  {
    var s' := Apply(s, Join(call));
    assert forall f :: f in s.flights ==> FlightOk(s, f) && f < s.nextFlight;
    OneCallMoves(s, s', call, s'.calls[call]);
  }

  lemma ReadKeepsCalls(s: State, step: Step)
    requires CacheOk(s) && CallsOk(s) && Enabled(s, step) && (step.Get? || step.Probe? || step.GiveUp?)
    ensures CallsOk(Apply(s, step))
  {
    var s' := Apply(s, step);
    OneCallMoves(s, s', step.call, s'.calls[step.call]);
  }

  lemma CallsKept(s: State, step: Step)
    requires CacheOk(s) && GroupOk(s) && CallsOk(s) && Enabled(s, step)
    ensures CallsOk(Apply(s, step))
  {
    if step.Get? || step.Probe? || step.GiveUp? {
      ReadKeepsCalls(s, step);
    } else if step.Join? {
      JoinKeepsCalls(s, step.call);
    } else if step.Land? {
      LandKeepsCalls(s, step.f);
    } else if WalksOn(step) {
      OneFlightWalksOn(s, step);
      SameCalls(s, Apply(s, step));
    } else if !step.Restart? {
      SameCalls(s, Apply(s, step));
    }
  }

  lemma InvKept(s: State, step: Step)
    requires Inv(s) && Enabled(s, step)
    ensures Inv(Apply(s, step))
  {
    CacheKept(s, step);
    GroupKept(s, step);
    CallsKept(s, step);
  }

  lemma {:induction false} InvExec(s: State, schedule: seq<Step>)
    requires Inv(s)
    ensures Inv(Exec(s, schedule))
    decreases |schedule|
  {
    if schedule != [] {
      if Enabled(s, schedule[0]) { InvKept(s, schedule[0]); }
      InvExec(if Enabled(s, schedule[0]) then Apply(s, schedule[0]) else s, schedule[1..]);
    }
  }

  /** Everything in the cache or on disk was returned by a walk for that very cluster, and never a partial one. */
  lemma OnlyCompleteWalksAreKept(schedule: seq<Step>)
    ensures CacheOk(Exec(Init, schedule))
  {
    InvExec(Init, schedule);
  }

  /** At most one flight runs for a cluster and kind of walk, so at most two walks for a cluster. */
  lemma OneWalkPerKey(schedule: seq<Step>, f: FlightId, g: FlightId)
    requires f in Exec(Init, schedule).flights && g in Exec(Init, schedule).flights
    ensures var s := Exec(Init, schedule); s.flights[f].key == s.flights[g].key ==> f == g
  {
    InvExec(Init, schedule);
    assert FlightOk(Exec(Init, schedule), f) && FlightOk(Exec(Init, schedule), g);
  }

  /** Whoever asked about a cluster is answered about that cluster, with what some walk of it returned. */
  lemma RepliesAreAboutWhatWasAsked(schedule: seq<Step>, call: CallId)
    requires call in Exec(Init, schedule).calls && Exec(Init, schedule).calls[call].Answered?
    ensures var s := Exec(Init, schedule); Genuine(s, s.calls[call].key.cluster, s.calls[call].stack)
  {
    InvExec(Init, schedule);
    assert CallOk(Exec(Init, schedule), Exec(Init, schedule).calls[call]);
  }

  // ---- what invalidating achieves ------------------------------------------

  /** One of these answers came from this flight. */
  predicate WalkedBy(walks: seq<Stack>, f: FlightId) { exists i :: 0 <= i < |walks| && walks[i].flight == f }

  /** A flight that has not walked yet is in nobody's answer, and neither is one still to be opened. */
  predicate Numbered(s: State, walks: seq<Stack>) {
    && (forall i :: 0 <= i < |walks| ==> walks[i].flight < s.nextFlight)
    && (forall f :: f in s.flights && Unwalked(s.flights[f]) ==> !WalkedBy(walks, f))
  }

  predicate Unwalked(flight: Flight) { flight.phase.Lined? || flight.phase.Walking? }

  lemma WalkingOnKeepsNumbered(s: State, step: Step, walks: seq<Stack>)
    requires Numbered(s, walks) && Enabled(s, step) && WalksOn(step)
    ensures Numbered(Apply(s, step), walks)
  {
    OneFlightWalksOn(s, step);
  }

  lemma JoinKeepsNumbered(s: State, call: CallId, walks: seq<Stack>)
    requires Numbered(s, walks) && Enabled(s, Join(call))
    ensures Numbered(Apply(s, Join(call)), walks)
  {
    assert !WalkedBy(walks, s.nextFlight);
  }

  /** Flights keep apart from the answers there were before. */
  lemma NumberedKept(s: State, step: Step, walks: seq<Stack>)
    requires Numbered(s, walks) && Enabled(s, step)
    ensures Numbered(Apply(s, step), walks)
  {
    if WalksOn(step) {
      WalkingOnKeepsNumbered(s, step, walks);
    } else if step.Join? {
      JoinKeepsNumbered(s, step.call, walks);
    }
  }

  lemma OneMoreWalk(s: State, walks: seq<Stack>, stack: Stack)
    requires Numbered(s, walks) && stack.flight < s.nextFlight
    requires stack.flight in s.flights ==> s.flights[stack.flight].phase.Walked?
    ensures Numbered(s, walks + [stack])
  {
    forall f | f in s.flights && Unwalked(s.flights[f])
      ensures !WalkedBy(walks + [stack], f)
    {
      assert !WalkedBy(walks, f);
    }
  }

  lemma {:induction false} NumberedExec(s: State, schedule: seq<Step>)
    requires Inv(s) && Numbered(s, s.walks)
    ensures Numbered(Exec(s, schedule), Exec(s, schedule).walks)
    decreases |schedule|
  {
    if schedule != [] {
      var step := schedule[0];
      if Enabled(s, step) {
        NumberedKept(s, step, s.walks);
        InvKept(s, step);
        if step.Walk? {
          assert FlightOk(s, step.f);
          OneMoreWalk(Apply(s, step), s.walks, Stack(s.flights[step.f].key.cluster, step.partial, step.f));
        }
      }
      NumberedExec(if Enabled(s, step) then Apply(s, step) else s, schedule[1..]);
    }
  }

  /** This flight will not put one of those answers back for this cluster. */
  predicate Harmless(flight: Flight, cluster: Cluster, past: seq<Stack>) {
    match flight.phase
    case Walked(stack) => flight.key.cluster == cluster && !stack.partial ==> stack !in past
    case Kept(stack) => flight.key.cluster == cluster && cluster != 0 ==> stack !in past
    case _ => true
  }

  /** None of those answers is stored for the cluster, nor on its way there. */
  predicate Gone(s: State, cluster: Cluster, past: seq<Stack>) {
    && (cluster in s.cache ==> s.cache[cluster] !in past)
    && (cluster in s.disk ==> s.disk[cluster] !in past)
    && (forall f :: f in s.flights ==> Harmless(s.flights[f], cluster, past))
  }

  lemma OneFlightStaysHarmless(s: State, f: FlightId, phase: Phase, s': State, cluster: Cluster, past: seq<Stack>)
    requires Gone(s, cluster, past) && f in s.flights && s'.flights == s.flights[f := s.flights[f].(phase := phase)]
    requires Harmless(s'.flights[f], cluster, past)
    ensures forall g :: g in s'.flights ==> Harmless(s'.flights[g], cluster, past)
  {
    forall g | g in s'.flights
      ensures Harmless(s'.flights[g], cluster, past)
    {
      if g != f { assert Harmless(s.flights[g], cluster, past); }
    }
  }

  lemma WalkKeepsGone(s: State, f: FlightId, partial: bool, cluster: Cluster, past: seq<Stack>)
    requires Gone(s, cluster, past) && Numbered(s, past) && Enabled(s, Walk(f, partial))
    ensures Gone(Apply(s, Walk(f, partial)), cluster, past)
  {
    var s' := Apply(s, Walk(f, partial));
    var stack := Stack(s.flights[f].key.cluster, partial, f);
    if stack in past {
      var i :| 0 <= i < |past| && past[i] == stack;
      assert WalkedBy(past, f);
      assert false;
    }
    OneFlightStaysHarmless(s, f, Walked(stack), s', cluster, past);
  }

  lemma KeepKeepsGone(s: State, f: FlightId, cluster: Cluster, past: seq<Stack>)
    requires Gone(s, cluster, past) && Enabled(s, Keep(f))
    ensures Gone(Apply(s, Keep(f)), cluster, past)
  {
    var s' := Apply(s, Keep(f));
    assert Harmless(s.flights[f], cluster, past);
    OneFlightStaysHarmless(s, f, s'.flights[f].phase, s', cluster, past);
  }

  lemma PersistKeepsGone(s: State, f: FlightId, ok: bool, cluster: Cluster, past: seq<Stack>)
    requires GroupOk(s) && Gone(s, cluster, past) && Enabled(s, Persist(f, ok))
    ensures Gone(Apply(s, Persist(f, ok)), cluster, past)
  {
    var s' := Apply(s, Persist(f, ok));
    assert FlightOk(s, f) && Harmless(s.flights[f], cluster, past);
    OneFlightStaysHarmless(s, f, s'.flights[f].phase, s', cluster, past);
  }

  lemma JoinKeepsGone(s: State, call: CallId, cluster: Cluster, past: seq<Stack>)
    requires Gone(s, cluster, past) && Enabled(s, Join(call))
    ensures Gone(Apply(s, Join(call)), cluster, past)
  {
  }

  lemma GoneKept(s: State, step: Step, cluster: Cluster, past: seq<Stack>)
    requires GroupOk(s) && Gone(s, cluster, past) && Numbered(s, past) && Enabled(s, step)
    ensures Gone(Apply(s, step), cluster, past)
  {
    var s' := Apply(s, step);
    match step {
      case Join(call) => JoinKeepsGone(s, call, cluster, past);
      case Begin(f) => OneFlightStaysHarmless(s, f, s'.flights[f].phase, s', cluster, past);
      case Walk(f, partial) => WalkKeepsGone(s, f, partial, cluster, past);
      case Keep(f) => KeepKeepsGone(s, f, cluster, past);
      case Persist(f, ok) => PersistKeepsGone(s, f, ok, cluster, past);
      case _ =>
    }
  }

  lemma {:induction false} StaysGone(s: State, schedule: seq<Step>, cluster: Cluster, past: seq<Stack>)
    requires Inv(s) && Gone(s, cluster, past) && Numbered(s, past)
    ensures Gone(Exec(s, schedule), cluster, past)
    decreases |schedule|
  {
    if schedule != [] {
      var step := schedule[0];
      if Enabled(s, step) {
        GoneKept(s, step, cluster, past);
        NumberedKept(s, step, past);
        InvKept(s, step);
      }
      StaysGone(if Enabled(s, step) then Apply(s, step) else s, schedule[1..], cluster, past);
    }
  }

  /** A walk of the cluster has a complete answer it has not stored yet. */
  predicate AboutToStore(s: State, cluster: Cluster) {
    exists f :: f in s.flights && s.flights[f].key.cluster == cluster && s.flights[f].phase.Walked? && !s.flights[f].phase.stack.partial
  }

  /** A walk has stored its answer in memory and is still to write it to disk. */
  predicate AboutToPersist(s: State, cluster: Cluster) {
    cluster != 0 && exists f :: f in s.flights && s.flights[f].key.cluster == cluster && s.flights[f].phase.Kept?
  }

  /** Some continuation stores for the cluster what a walk had measured by then. */
  ghost predicate ComesBack(s: State, cluster: Cluster, past: seq<Stack>) {
    exists schedule :: cluster in Exec(s, schedule).cache && Exec(s, schedule).cache[cluster] in past
  }

  lemma OneStepBrings(s: State, step: Step, cluster: Cluster, past: seq<Stack>)
    requires Enabled(s, step) && cluster in Apply(s, step).cache && Apply(s, step).cache[cluster] in past
    ensures ComesBack(s, cluster, past)
  {
    assert [step][1..] == [];
    assert Exec(Apply(s, step), []) == Apply(s, step);
    assert Exec(s, [step]) == Apply(s, step);
  }

  lemma TwoStepsBring(s: State, step: Step, cluster: Cluster, past: seq<Stack>)
    requires Enabled(s, step) && ComesBack(Apply(s, step), cluster, past)
    ensures ComesBack(s, cluster, past)
  {
    var rest :| cluster in Exec(Apply(s, step), rest).cache && Exec(Apply(s, step), rest).cache[cluster] in past;
    assert ([step] + rest)[1..] == rest;
    assert Exec(s, [step] + rest) == Exec(Apply(s, step), rest);
  }

  lemma DiskBrings(s: State, cluster: Cluster, past: seq<Stack>)
    requires cluster in s.disk && s.disk[cluster] in past
    ensures ComesBack(s, cluster, past)
  {
    OneStepBrings(s, Restart({cluster}), cluster, past);
  }

  lemma WalkBrings(s: State, cluster: Cluster)
    requires Inv(s) && AboutToStore(s, cluster)
    ensures ComesBack(s, cluster, s.walks)
  {
    var f :| f in s.flights && s.flights[f].key.cluster == cluster && s.flights[f].phase.Walked? && !s.flights[f].phase.stack.partial;
    assert FlightOk(s, f);
    OneStepBrings(s, Keep(f), cluster, s.walks);
  }

  lemma PersistBrings(s: State, cluster: Cluster)
    requires Inv(s) && AboutToPersist(s, cluster)
    ensures ComesBack(s, cluster, s.walks)
  {
    var f :| f in s.flights && s.flights[f].key.cluster == cluster && s.flights[f].phase.Kept?;
    assert FlightOk(s, f);
    DiskBrings(Apply(s, Persist(f, true)), cluster, s.walks);
    TwoStepsBring(s, Persist(f, true), cluster, s.walks);
  }

  /**
   Invalidating a cluster gets rid of what had been measured exactly when no walk of it is
   between answering and storing, none is between storing and persisting, and nothing is on
   disk for a restart to load. A stack that is not even stored yet comes back like any other.
   */
  lemma InvalidatedExactlyWhen(before: seq<Step>, cluster: Cluster)
    ensures var s := Exec(Init, before);
            ComesBack(Apply(s, Invalidate(cluster)), cluster, s.walks) <==>
            AboutToStore(s, cluster) || AboutToPersist(s, cluster) || cluster in s.disk
  {
    var s := Exec(Init, before);
    var s' := Apply(s, Invalidate(cluster));
    InvExec(Init, before);
    InvKept(s, Invalidate(cluster));
    if AboutToStore(s, cluster) {
      assert AboutToStore(s', cluster);
      WalkBrings(s', cluster);
    } else if AboutToPersist(s, cluster) {
      assert AboutToPersist(s', cluster);
      PersistBrings(s', cluster);
    } else if cluster in s.disk {
      DiskBrings(s', cluster, s.walks);
    } else {
      NumberedExec(Init, before);
      forall schedule
        ensures !(cluster in Exec(s', schedule).cache && Exec(s', schedule).cache[cluster] in s.walks)
      {
        StaysGone(s', schedule, cluster, s.walks);
      }
    }
  }

  // ---- which walks outlive an invalidation ---------------------------------

  /** A flight stores and persists only what it walked itself. */
  predicate OwnStacks(s: State) {
    forall f :: f in s.flights && (s.flights[f].phase.Walked? || s.flights[f].phase.Kept?) ==> s.flights[f].phase.stack.flight == f
  }

  /** This flight, begun or not, has its answer still to store, or to persist. */
  predicate CanStillStore(s: State, cluster: Cluster, f: FlightId) {
    && f in s.flights && s.flights[f].key.cluster == cluster
    && match s.flights[f].phase
       case Lined | Walking => true
       case Walked(stack) => !stack.partial
       case Kept(_) => cluster != 0
       case Ready(_) => false
  }

  predicate StoredBy(stored: map<Cluster, Stack>, cluster: Cluster, f: FlightId) {
    cluster in stored && stored[cluster].flight == f
  }

  /** Some continuation has this flight's answer in the cache. */
  ghost predicate ComesFrom(s: State, cluster: Cluster, f: FlightId) {
    exists schedule :: StoredBy(Exec(s, schedule).cache, cluster, f)
  }

  /** Nothing of this flight's is stored for the cluster, or will be. */
  predicate Spent(s: State, cluster: Cluster, f: FlightId) {
    f < s.nextFlight && !StoredBy(s.cache, cluster, f) && !StoredBy(s.disk, cluster, f) && !CanStillStore(s, cluster, f)
  }

  lemma OwnKept(s: State, step: Step)
    requires OwnStacks(s) && Enabled(s, step)
    ensures OwnStacks(Apply(s, step))
  {
    if WalksOn(step) { OneFlightWalksOn(s, step); }
  }

  lemma WalkingOnKeepsSpent(s: State, step: Step, cluster: Cluster, f: FlightId)
    requires GroupOk(s) && OwnStacks(s) && Spent(s, cluster, f) && Enabled(s, step) && WalksOn(step)
    ensures Spent(Apply(s, step), cluster, f)
  {
    assert FlightOk(s, step.f);
  }

  lemma SpentKept(s: State, step: Step, cluster: Cluster, f: FlightId)
    requires GroupOk(s) && OwnStacks(s) && Spent(s, cluster, f) && Enabled(s, step)
    ensures Spent(Apply(s, step), cluster, f)
  {
    if WalksOn(step) { WalkingOnKeepsSpent(s, step, cluster, f); }
  }

  lemma {:induction false} OwnExec(s: State, schedule: seq<Step>)
    requires OwnStacks(s)
    ensures OwnStacks(Exec(s, schedule))
    decreases |schedule|
  {
    if schedule != [] {
      if Enabled(s, schedule[0]) { OwnKept(s, schedule[0]); }
      OwnExec(if Enabled(s, schedule[0]) then Apply(s, schedule[0]) else s, schedule[1..]);
    }
  }

  lemma {:induction false} StaysSpent(s: State, schedule: seq<Step>, cluster: Cluster, f: FlightId)
    requires Inv(s) && OwnStacks(s) && Spent(s, cluster, f)
    ensures Spent(Exec(s, schedule), cluster, f)
    decreases |schedule|
  {
    if schedule != [] {
      if Enabled(s, schedule[0]) {
        SpentKept(s, schedule[0], cluster, f);
        InvKept(s, schedule[0]);
        OwnKept(s, schedule[0]);
      }
      StaysSpent(if Enabled(s, schedule[0]) then Apply(s, schedule[0]) else s, schedule[1..], cluster, f);
    }
  }

  lemma FirstStep(s: State, step: Step, cluster: Cluster, f: FlightId)
    requires Enabled(s, step) && ComesFrom(Apply(s, step), cluster, f)
    ensures ComesFrom(s, cluster, f)
  {
    var rest :| StoredBy(Exec(Apply(s, step), rest).cache, cluster, f);
    assert ([step] + rest)[1..] == rest;
    assert Exec(s, [step] + rest) == Exec(Apply(s, step), rest);
  }

  lemma AlreadyThere(s: State, cluster: Cluster, f: FlightId)
    requires StoredBy(s.cache, cluster, f)
    ensures ComesFrom(s, cluster, f)
  {
    assert Exec(s, []) == s;
  }

  lemma LoadedFromDisk(s: State, cluster: Cluster, f: FlightId)
    requires StoredBy(s.disk, cluster, f)
    ensures ComesFrom(s, cluster, f)
  {
    AlreadyThere(Apply(s, Restart({cluster})), cluster, f);
    FirstStep(s, Restart({cluster}), cluster, f);
  }

  lemma WalkedIsStored(s: State, cluster: Cluster, f: FlightId)
    requires OwnStacks(s) && CanStillStore(s, cluster, f) && s.flights[f].phase.Walked?
    ensures ComesFrom(s, cluster, f)
  {
    AlreadyThere(Apply(s, Keep(f)), cluster, f);
    FirstStep(s, Keep(f), cluster, f);
  }

  lemma KeptIsPersisted(s: State, cluster: Cluster, f: FlightId)
    requires GroupOk(s) && OwnStacks(s) && CanStillStore(s, cluster, f) && s.flights[f].phase.Kept?
    ensures ComesFrom(s, cluster, f)
  {
    assert FlightOk(s, f);
    LoadedFromDisk(Apply(s, Persist(f, true)), cluster, f);
    FirstStep(s, Persist(f, true), cluster, f);
  }

  lemma WalkingIsStored(s: State, cluster: Cluster, f: FlightId)
    requires OwnStacks(s) && CanStillStore(s, cluster, f) && s.flights[f].phase.Walking?
    ensures ComesFrom(s, cluster, f)
  {
    OwnKept(s, Walk(f, false));
    WalkedIsStored(Apply(s, Walk(f, false)), cluster, f);
    FirstStep(s, Walk(f, false), cluster, f);
  }

  /** A flight that finds the cache empty when its turn comes walks. */
  lemma LinedIsStored(s: State, cluster: Cluster, f: FlightId)
    requires OwnStacks(s) && CanStillStore(s, cluster, f) && s.flights[f].phase.Lined?
    ensures ComesFrom(s, cluster, f)
  {
    var s1 := Apply(s, Invalidate(cluster));
    var s2 := Apply(s1, Begin(f));
    OwnKept(s, Invalidate(cluster));
    OwnKept(s1, Begin(f));
    WalkingIsStored(s2, cluster, f);
    FirstStep(s1, Begin(f), cluster, f);
    FirstStep(s, Invalidate(cluster), cluster, f);
  }

  lemma StillStores(s: State, cluster: Cluster, f: FlightId)
    requires GroupOk(s) && OwnStacks(s) && CanStillStore(s, cluster, f)
    ensures ComesFrom(s, cluster, f)
  {
    match s.flights[f].phase {
      case Lined => LinedIsStored(s, cluster, f);
      case Walking => WalkingIsStored(s, cluster, f);
      case Walked(_) => WalkedIsStored(s, cluster, f);
      case Kept(_) => KeptIsPersisted(s, cluster, f);
    }
  }

  /**
   At any moment of any history: the answer of a flight that was opened by then can still be
   served exactly when it is in the cache or on disk, or the flight has its answer still to
   walk for, to store or, for a real cluster, to persist.
   */
  lemma OutlivesExactlyWhen(before: seq<Step>, cluster: Cluster, f: FlightId)
    requires f < Exec(Init, before).nextFlight
    ensures var s := Exec(Init, before);
            ComesFrom(s, cluster, f) <==>
            StoredBy(s.cache, cluster, f) || StoredBy(s.disk, cluster, f) || CanStillStore(s, cluster, f)
  {
    InvExec(Init, before);
    OwnExec(Init, before);
    OutlivesFrom(Exec(Init, before), cluster, f);
  }

  lemma OutlivesFrom(s: State, cluster: Cluster, f: FlightId)
    requires Inv(s) && OwnStacks(s) && f < s.nextFlight
    ensures ComesFrom(s, cluster, f) <==>
            StoredBy(s.cache, cluster, f) || StoredBy(s.disk, cluster, f) || CanStillStore(s, cluster, f)
  {
    if StoredBy(s.cache, cluster, f) {
      AlreadyThere(s, cluster, f);
    } else if StoredBy(s.disk, cluster, f) {
      LoadedFromDisk(s, cluster, f);
    } else if CanStillStore(s, cluster, f) {
      StillStores(s, cluster, f);
    } else {
      forall schedule ensures !StoredBy(Exec(s, schedule).cache, cluster, f) { StaysSpent(s, schedule, cluster, f); }
    }
  }

  /** So an invalidation leaves the disk and every flight that has not persisted yet, those still asking under the old choice among them. */
  lemma InvalidationSpares(before: seq<Step>, cluster: Cluster, f: FlightId)
    requires f < Exec(Init, before).nextFlight
    ensures var s := Exec(Init, before);
            ComesFrom(Apply(s, Invalidate(cluster)), cluster, f) <==> StoredBy(s.disk, cluster, f) || CanStillStore(s, cluster, f)
  {
    var s := Exec(Init, before);
    InvExec(Init, before);
    OwnExec(Init, before);
    InvKept(s, Invalidate(cluster));
    OwnKept(s, Invalidate(cluster));
    OutlivesFrom(Apply(s, Invalidate(cluster)), cluster, f);
  }

  /** And saving other settings, which also clears the stored rows, leaves exactly those flights. */
  lemma SettingsSpare(before: seq<Step>, cluster: Cluster, f: FlightId)
    requires f < Exec(Init, before).nextFlight
    ensures var s := Exec(Init, before);
            ComesFrom(Apply(Apply(s, InvalidateAll), Forget), cluster, f) <==> CanStillStore(s, cluster, f)
  {
    var s := Exec(Init, before);
    var s1 := Apply(s, InvalidateAll);
    InvExec(Init, before);
    OwnExec(Init, before);
    InvKept(s, InvalidateAll);
    OwnKept(s, InvalidateAll);
    InvKept(s1, Forget);
    OwnKept(s1, Forget);
    OutlivesFrom(Apply(s1, Forget), cluster, f);
  }

  // ---- each way back is taken ----------------------------------------------

  lemma {:induction false} ExecLast(s: State, schedule: seq<Step>, step: Step)
    requires Enabled(Exec(s, schedule), step)
    ensures Exec(s, schedule + [step]) == Apply(Exec(s, schedule), step)
    decreases |schedule|
  {
    if schedule == [] {
      assert [step][1..] == [];
      assert Exec(Apply(s, step), []) == Apply(s, step);
    } else {
      assert (schedule + [step])[1..] == schedule[1..] + [step];
      ExecLast(if Enabled(s, schedule[0]) then Apply(s, schedule[0]) else s, schedule[1..], step);
    }
  }

  /** One walk of a cluster, somewhere along its way. */
  function OneWalk(cluster: Cluster, phase: Phase, stored: map<Cluster, Stack>, persisted: map<Cluster, Stack>): State {
    var key := Key(cluster, false);
    State(stored, persisted, map[key := 0], map[0 := Flight(key, phase)], 1, map[0 := Waiting(key, 0)], [Stack(cluster, false, 0)])
  }

  lemma WalkIsReached(cluster: Cluster) returns (schedule: seq<Step>)
    ensures Exec(Init, schedule) == OneWalk(cluster, Walked(Stack(cluster, false, 0)), map[], map[])
  {
    schedule := [];
    assert Exec(Init, []) == Init;
    ExecLast(Init, schedule, Get(0, cluster));
    schedule := schedule + [Get(0, cluster)];
    ExecLast(Init, schedule, Join(0));
    schedule := schedule + [Join(0)];
    ExecLast(Init, schedule, Begin(0));
    schedule := schedule + [Begin(0)];
    ExecLast(Init, schedule, Walk(0, false));
    schedule := schedule + [Walk(0, false)];
  }

  /** Which of the three ways back are open. */
  function WaysBack(s: State, cluster: Cluster): (bool, bool, bool) {
    (AboutToStore(s, cluster), AboutToPersist(s, cluster), cluster in s.disk)
  }

  lemma WaysOfOneWalk(cluster: Cluster, phase: Phase, stored: map<Cluster, Stack>, persisted: map<Cluster, Stack>)
    requires cluster != 0
    ensures WaysBack(OneWalk(cluster, phase, stored, persisted), cluster) ==
            (phase.Walked? && !phase.stack.partial, phase.Kept?, cluster in persisted)
  {
    assert 0 in OneWalk(cluster, phase, stored, persisted).flights;
  }

  /** Schedules after which only the first, only the second and only the third way back is open. */
  lemma InvalidateCanBeOvertaken(cluster: Cluster) returns (walked: seq<Step>, kept: seq<Step>, stored: seq<Step>)
    requires cluster != 0
    ensures WaysBack(Exec(Init, walked), cluster) == (true, false, false)
    ensures WaysBack(Exec(Init, kept), cluster) == (false, true, false)
    ensures WaysBack(Exec(Init, stored), cluster) == (false, false, true)
  {
    var stack := Stack(cluster, false, 0);
    walked := WalkIsReached(cluster);
    WaysOfOneWalk(cluster, Walked(stack), map[], map[]);
    ExecLast(Init, walked, Keep(0));
    kept := walked + [Keep(0)];
    assert Exec(Init, kept) == OneWalk(cluster, Kept(stack), map[cluster := stack], map[]);
    WaysOfOneWalk(cluster, Kept(stack), map[cluster := stack], map[]);
    ExecLast(Init, kept, Persist(0, true));
    stored := kept + [Persist(0, true)];
    assert Exec(Init, stored) == OneWalk(cluster, Ready(stack), map[cluster := stack], map[cluster := stack]);
    WaysOfOneWalk(cluster, Ready(stack), map[cluster := stack], map[cluster := stack]);
  }

  // ---- what the cache is for -----------------------------------------------

  /** A step that can take a cluster's stack out of the cache. */
  predicate Drops(step: Step, cluster: Cluster) {
    || step.InvalidateAll? || step.Restart?
    || (step.Invalidate? && step.cluster == cluster) || (step.Probe? && step.cluster == cluster)
  }

  lemma {:induction false} StaysCached(s: State, schedule: seq<Step>, cluster: Cluster)
    requires cluster in s.cache && forall i :: 0 <= i < |schedule| ==> !Drops(schedule[i], cluster)
    ensures cluster in Exec(s, schedule).cache
    decreases |schedule|
  {
    if schedule != [] {
      var s1 := if Enabled(s, schedule[0]) then Apply(s, schedule[0]) else s;
      assert !Drops(schedule[0], cluster);
      assert forall i :: 0 <= i < |schedule[1..]| ==> schedule[1..][i] == schedule[i + 1];
      StaysCached(s1, schedule[1..], cluster);
    }
  }

  /**
   From the moment a cluster's stack is cached, and as long as nothing drops it: whoever asks for
   it is answered at once from the cache, without joining or opening a flight, and a flight that
   queued for it meanwhile answers from the cache and asks nobody.
   */
  lemma CachedIsServed(s: State, schedule: seq<Step>, cluster: Cluster, call: CallId, f: FlightId)
    requires cluster in s.cache && forall i :: 0 <= i < |schedule| ==> !Drops(schedule[i], cluster)
    ensures var s' := Exec(s, schedule);
            && cluster in s'.cache
            && (call !in s'.calls ==>
                  && Apply(s', Get(call, cluster)).calls[call] == Answered(Key(cluster, false), s'.cache[cluster])
                  && Apply(s', Get(call, cluster)).flights == s'.flights)
            && (Enabled(s', Begin(f)) && s'.flights[f].key == Key(cluster, false) ==>
                  && Apply(s', Begin(f)).flights[f].phase == Ready(s'.cache[cluster])
                  && !Enabled(Apply(s', Begin(f)), Walk(f, true)) && !Enabled(Apply(s', Begin(f)), Walk(f, false)))
  {
    StaysCached(s, schedule, cluster);
  }

  /**
   Without one, and for a full probe always, the flight walks; and whoever found nothing waits
   for one flight with all others who ask the same.
   */
  lemma UncachedIsWalkedFor(s: State, call: CallId, f: FlightId)
    requires GroupOk(s)
    ensures Enabled(s, Begin(f)) && (s.flights[f].key.full || s.flights[f].key.cluster !in s.cache) ==>
              Apply(s, Begin(f)).flights[f].phase.Walking?
    ensures Enabled(s, Join(call)) ==>
              var s' := Apply(s, Join(call));
              && s'.calls[call].Waiting? && s'.calls[call].key == s.calls[call].key
              && s'.calls[call].flight in s'.flights && s'.flights[s'.calls[call].flight].key == s.calls[call].key
              && (s.calls[call].key in s.group ==> s'.flights == s.flights)
  {
  }

  /** All the steps of one probe, from asking to being answered, on its own flight. */
  function Measuring(s: State, call: CallId, cluster: Cluster, ok: bool): seq<Step> {
    var f := s.nextFlight;
    [Probe(call, cluster), Join(call), Begin(f), Walk(f, false), Keep(f), Persist(f, ok), Land(f)]
  }

  /** What a probe leaves when nothing comes between its steps: a new measurement, answered with and kept. */
  predicate Measured(s: State, s': State, call: CallId, cluster: Cluster, ok: bool) {
    var stack := Stack(cluster, false, s.nextFlight);
    && s'.walks == s.walks + [stack]
    && call in s'.calls && s'.calls[call] == Answered(Key(cluster, true), stack)
    && cluster in s'.cache && s'.cache[cluster] == stack
    && (ok && cluster != 0 ==> cluster in s'.disk && s'.disk[cluster] == stack)
  }

  lemma Takes(s: State, step: Step, rest: seq<Step>)
    requires Enabled(s, step)
    ensures Exec(s, [step] + rest) == Exec(Apply(s, step), rest)
  {
    assert ([step] + rest)[1..] == rest;
  }

  lemma ProbeIsLined(s: State, call: CallId, cluster: Cluster, rest: seq<Step>) returns (s': State)
    requires call !in s.calls && Key(cluster, true) !in s.group
    ensures Exec(s, [Probe(call, cluster)] + ([Join(call)] + rest)) == Exec(s', rest)
    ensures s.nextFlight in s'.flights && s'.flights[s.nextFlight] == Flight(Key(cluster, true), Lined)
    ensures call in s'.calls && s'.calls[call] == Waiting(Key(cluster, true), s.nextFlight)
    ensures s'.walks == s.walks && s'.disk == s.disk
  {
    var s1 := Apply(s, Probe(call, cluster));
    Takes(s, Probe(call, cluster), [Join(call)] + rest);
    Takes(s1, Join(call), rest);
    s' := Apply(s1, Join(call));
  }

  lemma ProbeIsWalked(s: State, f: FlightId, cluster: Cluster, rest: seq<Step>) returns (s': State)
    requires f in s.flights && s.flights[f] == Flight(Key(cluster, true), Lined)
    ensures Exec(s, [Begin(f)] + ([Walk(f, false)] + rest)) == Exec(s', rest)
    ensures f in s'.flights && s'.flights[f] == Flight(Key(cluster, true), Walked(Stack(cluster, false, f)))
    ensures s'.walks == s.walks + [Stack(cluster, false, f)] && s'.calls == s.calls && s'.disk == s.disk
  {
    var s1 := Apply(s, Begin(f));
    Takes(s, Begin(f), [Walk(f, false)] + rest);
    Takes(s1, Walk(f, false), rest);
    s' := Apply(s1, Walk(f, false));
  }

  lemma ProbeIsKept(s: State, f: FlightId, call: CallId, cluster: Cluster, ok: bool)
    requires f in s.flights && s.flights[f] == Flight(Key(cluster, true), Walked(Stack(cluster, false, f)))
    requires call in s.calls && s.calls[call] == Waiting(Key(cluster, true), f)
    ensures var s', stack := Exec(s, [Keep(f)] + ([Persist(f, ok)] + ([Land(f)] + []))), Stack(cluster, false, f);
            && s'.walks == s.walks && call in s'.calls && s'.calls[call] == Answered(Key(cluster, true), stack)
            && cluster in s'.cache && s'.cache[cluster] == stack
            && (ok && cluster != 0 ==> cluster in s'.disk && s'.disk[cluster] == stack)
  {
    var s1 := Apply(s, Keep(f));
    Takes(s, Keep(f), [Persist(f, ok)] + ([Land(f)] + []));
    Takes(s1, Persist(f, ok), [Land(f)] + []);
    Takes(Apply(s1, Persist(f, ok)), Land(f), []);
  }

  /** Whatever is cached or under way, a probe that finds no other of its cluster asks the cluster again and keeps what it hears. */
  lemma ProbesMeasureAnew(s: State, call: CallId, cluster: Cluster, ok: bool)
    requires call !in s.calls && Key(cluster, true) !in s.group
    ensures Measured(s, Exec(s, Measuring(s, call, cluster, ok)), call, cluster, ok)
  {
    var f := s.nextFlight;
    var last := [Keep(f)] + ([Persist(f, ok)] + ([Land(f)] + []));
    var middle := [Begin(f)] + ([Walk(f, false)] + last);
    var s2 := ProbeIsLined(s, call, cluster, middle);
    var s4 := ProbeIsWalked(s2, f, cluster, last);
    ProbeIsKept(s4, f, call, cluster, ok);
    assert Measuring(s, call, cluster, ok) == [Probe(call, cluster)] + ([Join(call)] + middle);
  }
}
