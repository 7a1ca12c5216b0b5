/**
 Both ways an alert gets an investigation, the sweeper's claim and the Debug button, any
 number of them at once. A call tracks its alert, reads the runs attached to it, creates a
 run and attaches that; whatever else happens may happen in between. `World` says which
 failures the surroundings are capable of and how far calls overlap.
 */
module Claims {
  import opened Alerts
  import opened AlertKeys
  import opened Runs
  import opened Incidents

  /** Nothing in the handlers guards against any of these. */
  datatype World = World(
    readsFail: bool,     // the query for an alert's runs, whose error is dropped
    attachesFail: bool,  // linking a created run to its alert, whose error is dropped
    revivals: bool,      // a run leaving a terminal status
    atOnce: nat)         // calls for one alert between reading its runs and attaching theirs

  /** `investigate` is the Debug request's flag; a claim by the sweeper does not look at it. */
  datatype Call = Call(q: Sighting, uuid: Id, investigate: bool)

  datatype Phase =
    | Tracking(alert: Id, opener: Origin, wanted: bool)
    | Cleared(alert: Id, opener: Origin)
    | Opened(run: nat)
    | Ended

  /** Whether the run has been attached to its alert, has yet to be, or never will be. */
  datatype Link = Pending | Linked | Lost

  /** A run and the call that opened it; `beside` records whether a run attached to the alert was live at that moment. */
  datatype Opening = Opening(call: nat, alert: Id, opener: Origin, beside: bool, status: Status, link: Link)

  datatype System = System(table: Table, calls: seq<Phase>, openings: seq<Opening>)

  datatype Step =
    | Track(call: Call)
    | Read(c: nat, ok: bool)
    | Create(c: nat)
    | Stop(c: nat)
    | Attach(run: nat, ok: bool)
    | SetStatus(run: nat, status: Status)
    | Change(id: Id, st: AlertState, actor: string, now: int)

  const Init := System(EmptyTable, [], [])

  // ---- counting ------------------------------------------------------------

  function One(b: bool): nat { if b then 1 else 0 }

  predicate IsCleared(p: Phase, alert: Id) { p.Cleared? && p.alert == alert }

  /** Calls that have read the alert's runs and go on to create one. */
  function ClearedCalls(calls: seq<Phase>, alert: Id): nat {
    if calls == [] then 0
    else ClearedCalls(calls[..|calls| - 1], alert) + One(IsCleared(calls[|calls| - 1], alert))
  }

  predicate IsLive(o: Opening, alert: Id, link: Link) { o.alert == alert && o.link == link && !Terminal(o.status) }

  function Live(openings: seq<Opening>, alert: Id, link: Link): nat {
    if openings == [] then 0
    else Live(openings[..|openings| - 1], alert, link) + One(IsLive(openings[|openings| - 1], alert, link))
  }

  /** All live runs opened for the alert, attached or not. */
  function LiveRuns(s: System, alert: Id): nat {
    Live(s.openings, alert, Pending) + Live(s.openings, alert, Linked) + Live(s.openings, alert, Lost)
  }

  predicate IsWaiting(o: Opening, alert: Id) { o.alert == alert && o.link.Pending? }

  /** Runs, live or over, that their calls have still to attach. */
  function Waiting(openings: seq<Opening>, alert: Id): nat {
    if openings == [] then 0
    else Waiting(openings[..|openings| - 1], alert) + One(IsWaiting(openings[|openings| - 1], alert))
  }

  /** Calls between reading the alert's runs and attaching theirs. */
  function Window(s: System, alert: Id): nat { ClearedCalls(s.calls, alert) + Waiting(s.openings, alert) }

  // ---- the steps -----------------------------------------------------------

  /** A Debug request without a cluster or an alert name is refused before anything is read. */
  predicate Refused(call: Call) {
    call.q.origin.Manual? && (call.q.cluster == 0 || call.q.alert.name == "")
  }

  /** The sweeper investigates only what it created; a person, whatever they asked for. */
  predicate Wants(call: Call, created: bool) {
    if call.q.origin.ByRule? then created else call.investigate
  }

  /** A read that fails looks like an alert without runs. */
  predicate GoesOn(s: System, p: Phase, ok: bool) {
    p.Tracking? && p.wanted && !(ok && Live(s.openings, p.alert, Linked) > 0)
  }

  predicate Enabled(w: World, s: System, step: Step) {
    match step
    case Track(call) =>
      && !Refused(call)
      && (Find(s.table.rows, call.q.cluster, Key(call.q.alert)).Some? || WithId(s.table.rows, call.uuid).None?)
    case Read(c, ok) =>
      && c < |s.calls| && s.calls[c].Tracking? && (ok || w.readsFail)
      && (GoesOn(s, s.calls[c], ok) ==> Window(s, s.calls[c].alert) < w.atOnce)
    case Create(c) => c < |s.calls| && s.calls[c].Cleared?
    case Stop(c) => c < |s.calls| && (s.calls[c].Tracking? || s.calls[c].Cleared?)
    case Attach(run, ok) => run < |s.openings| && s.openings[run].link.Pending? && (ok || w.attachesFail)
    case SetStatus(run, status) =>
      run < |s.openings| && (w.revivals || !Terminal(s.openings[run].status) || Terminal(status))
    case Change(_, _, _, _) => true
  }

  /** The row a call's Track statement leaves its alert in. */
  function TrackedAs(t: Table, call: Call): Id {
    var rows := Upsert(t, call.uuid, call.q, Snapshot(t, call.q)).rows;
    var found := Find(rows, call.q.cluster, Key(call.q.alert));
    if found.Some? then rows[found.value].id else call.uuid
  }

  /** `Stop` is a call that gives up: a statement of its own failed, or the preflight found the alert not investigable. */
  function Apply(w: World, s: System, step: Step): System
    requires Enabled(w, s, step)
  {
    match step
    case Track(call) =>
      var created := Find(s.table.rows, call.q.cluster, Key(call.q.alert)).None?;
      s.(table := Upsert(s.table, call.uuid, call.q, Snapshot(s.table, call.q)),
         calls := s.calls + [Tracking(TrackedAs(s.table, call), call.q.origin, Wants(call, created))])
    case Read(c, ok) =>
      s.(calls := s.calls[c := if GoesOn(s, s.calls[c], ok) then Cleared(s.calls[c].alert, s.calls[c].opener) else Ended])
    case Create(c) =>
      var alert := s.calls[c].alert;
      s.(calls := s.calls[c := Opened(|s.openings|)],
         openings := s.openings
           + [Opening(c, alert, s.calls[c].opener, Live(s.openings, alert, Linked) > 0, Queued, Pending)])
    case Stop(c) => s.(calls := s.calls[c := Ended])
    case Attach(run, ok) =>
      s.(openings := s.openings[run := s.openings[run].(link := if ok then Linked else Lost)])
    case SetStatus(run, status) =>
      s.(openings := s.openings[run := s.openings[run].(status := status)])
    case Change(id, st, actor, now) => s.(table := SetState(s.table, id, st, actor, now))
  }

  function Next(w: World, s: System, step: Step): System {
    if Enabled(w, s, step) then Apply(w, s, step) else s
  }

  function Exec(w: World, s: System, schedule: seq<Step>): System {
    if schedule == [] then s
    else Next(w, Exec(w, s, schedule[..|schedule| - 1]), schedule[|schedule| - 1])
  }

  // ---- counting one change -------------------------------------------------

  lemma ClearedAppended(calls: seq<Phase>, p: Phase, alert: Id)
    ensures ClearedCalls(calls + [p], alert) == ClearedCalls(calls, alert) + One(IsCleared(p, alert))
  {
    assert (calls + [p])[..|calls|] == calls;
  }

  lemma {:induction false} ClearedReplaced(calls: seq<Phase>, c: nat, p: Phase, alert: Id)
    requires c < |calls|
    ensures ClearedCalls(calls[c := p], alert) + One(IsCleared(calls[c], alert)) ==
            ClearedCalls(calls, alert) + One(IsCleared(p, alert))
  {
    var front := calls[..|calls| - 1];
    if c < |front| {
      ClearedReplaced(front, c, p, alert);
      assert calls[c := p][..|calls| - 1] == front[c := p];
    } else {
      assert calls[c := p][..|calls| - 1] == front;
    }
  }

  lemma LiveAppended(openings: seq<Opening>, o: Opening, alert: Id, link: Link)
    ensures Live(openings + [o], alert, link) == Live(openings, alert, link) + One(IsLive(o, alert, link))
  {
    assert (openings + [o])[..|openings|] == openings;
  }

  lemma {:induction false} LiveReplaced(openings: seq<Opening>, i: nat, o: Opening, alert: Id, link: Link)
    requires i < |openings|
    ensures Live(openings[i := o], alert, link) + One(IsLive(openings[i], alert, link)) ==
            Live(openings, alert, link) + One(IsLive(o, alert, link))
  {
    var front := openings[..|openings| - 1];
    if i < |front| {
      LiveReplaced(front, i, o, alert, link);
      assert openings[i := o][..|openings| - 1] == front[i := o];
    } else {
      assert openings[i := o][..|openings| - 1] == front;
    }
  }

  lemma WaitingAppended(openings: seq<Opening>, o: Opening, alert: Id)
    ensures Waiting(openings + [o], alert) == Waiting(openings, alert) + One(IsWaiting(o, alert))
  {
    assert (openings + [o])[..|openings|] == openings;
  }

  lemma {:induction false} WaitingReplaced(openings: seq<Opening>, i: nat, o: Opening, alert: Id)
    requires i < |openings|
    ensures Waiting(openings[i := o], alert) + One(IsWaiting(openings[i], alert)) ==
            Waiting(openings, alert) + One(IsWaiting(o, alert))
  {
    var front := openings[..|openings| - 1];
    if i < |front| {
      WaitingReplaced(front, i, o, alert);
      assert openings[i := o][..|openings| - 1] == front[i := o];
    } else {
      assert openings[i := o][..|openings| - 1] == front;
    }
  }

  lemma {:induction false} LiveOnesWait(openings: seq<Opening>, alert: Id)
    ensures Live(openings, alert, Pending) <= Waiting(openings, alert)
  {
    if openings != [] { LiveOnesWait(openings[..|openings| - 1], alert); }
  }

  // ---- what is kept --------------------------------------------------------

  /**
   What the counts of one alert can be: calls cleared for it, runs still to be attached, and
   live runs among those, attached, and never attached.
   */
  predicate Tame(w: World, cleared: nat, waiting: nat, pending: nat, linked: nat, lost: nat) {
    && cleared + waiting <= w.atOnce
    && (!w.revivals ==>
          && (!w.attachesFail ==> lost == 0)
          && (!w.attachesFail && !w.readsFail ==> cleared + pending + linked <= w.atOnce)
          && (!w.readsFail && w.atOnce == 1 && cleared > 0 ==> linked == 0))
  }

  predicate TameFor(w: World, s: System, alert: Id) {
    Tame(w, ClearedCalls(s.calls, alert), Waiting(s.openings, alert),
         Live(s.openings, alert, Pending), Live(s.openings, alert, Linked), Live(s.openings, alert, Lost))
  }

  lemma TameAfterTrack(w: World, s: System, call: Call, alert: Id)
    requires TameFor(w, s, alert) && Enabled(w, s, Track(call))
    ensures TameFor(w, Apply(w, s, Track(call)), alert)
  {
    var s' := Apply(w, s, Track(call));
    ClearedAppended(s.calls, s'.calls[|s.calls|], alert);
  }

  lemma TameAfterRead(w: World, s: System, c: nat, ok: bool, alert: Id)
    requires TameFor(w, s, alert) && Enabled(w, s, Read(c, ok))
    ensures TameFor(w, Apply(w, s, Read(c, ok)), alert)
  {
    ClearedReplaced(s.calls, c, Apply(w, s, Read(c, ok)).calls[c], alert);
    LiveOnesWait(s.openings, alert);
  }

  lemma TameAfterCreate(w: World, s: System, c: nat, alert: Id)
    requires TameFor(w, s, alert) && Enabled(w, s, Create(c))
    ensures TameFor(w, Apply(w, s, Create(c)), alert)
  {
    var s' := Apply(w, s, Create(c));
    var o := s'.openings[|s.openings|];
    ClearedReplaced(s.calls, c, s'.calls[c], alert);
    WaitingAppended(s.openings, o, alert);
    LiveAppended(s.openings, o, alert, Pending);
    LiveAppended(s.openings, o, alert, Linked);
    LiveAppended(s.openings, o, alert, Lost);
  }

  lemma TameAfterStop(w: World, s: System, c: nat, alert: Id)
    requires TameFor(w, s, alert) && Enabled(w, s, Stop(c))
    ensures TameFor(w, Apply(w, s, Stop(c)), alert)
  {
    ClearedReplaced(s.calls, c, Ended, alert);
  }

  lemma TameAfterChange(w: World, s: System, run: nat, o: Opening, alert: Id)
    requires TameFor(w, s, alert) && run < |s.openings| && o.alert == s.openings[run].alert
    requires (s.openings[run].link.Pending? && o.status == s.openings[run].status && (o.link.Lost? ==> w.attachesFail))
          || (o.link == s.openings[run].link && (w.revivals || !Terminal(s.openings[run].status) || Terminal(o.status)))
    ensures TameFor(w, s.(openings := s.openings[run := o]), alert)
  {
    WaitingReplaced(s.openings, run, o, alert);
    LiveReplaced(s.openings, run, o, alert, Pending);
    LiveReplaced(s.openings, run, o, alert, Linked);
    LiveReplaced(s.openings, run, o, alert, Lost);
  }

  lemma TameNext(w: World, s: System, step: Step, alert: Id)
    requires TameFor(w, s, alert) && Enabled(w, s, step)
    ensures TameFor(w, Apply(w, s, step), alert)
  {
    match step {
      case Track(call) => TameAfterTrack(w, s, call, alert);
      case Read(c, ok) => TameAfterRead(w, s, c, ok, alert);
      case Create(c) => TameAfterCreate(w, s, c, alert);
      case Stop(c) => TameAfterStop(w, s, c, alert);
      case Attach(run, ok) =>
        TameAfterChange(w, s, run, s.openings[run].(link := if ok then Linked else Lost), alert);
      case SetStatus(run, status) => TameAfterChange(w, s, run, s.openings[run].(status := status), alert);
      case Change(_, _, _, _) =>
    }
  }

  lemma {:induction false} StaysTame(w: World, schedule: seq<Step>, alert: Id)
    ensures TameFor(w, Exec(w, Init, schedule), alert)
  {
    if schedule != [] {
      var before := schedule[..|schedule| - 1];
      StaysTame(w, before, alert);
      var s, step := Exec(w, Init, before), schedule[|schedule| - 1];
      if Enabled(w, s, step) { TameNext(w, s, step, alert); }
    }
  }

  // ---- what one call achieves ----------------------------------------------

  /** Runs and the calls that say they opened one are the same thing. */
  predicate Paired(s: System) {
    && (forall i :: 0 <= i < |s.openings| ==> s.openings[i].call < |s.calls| && s.calls[s.openings[i].call] == Opened(i))
    && (forall c :: 0 <= c < |s.calls| && s.calls[c].Opened? ==>
          s.calls[c].run < |s.openings| && s.openings[s.calls[c].run].call == c)
  }

  lemma PairedWithoutANewRun(s: System, calls: seq<Phase>, openings: seq<Opening>)
    requires Paired(s) && |s.calls| <= |calls| && |openings| == |s.openings|
    requires forall c :: 0 <= c < |s.calls| ==> calls[c] == s.calls[c] || (!s.calls[c].Opened? && !calls[c].Opened?)
    requires forall c :: |s.calls| <= c < |calls| ==> !calls[c].Opened?
    requires forall i :: 0 <= i < |openings| ==> openings[i].call == s.openings[i].call
    ensures Paired(System(s.table, calls, openings))
  {
  }

  lemma PairedWithANewRun(s: System, c: nat, o: Opening)
    requires Paired(s) && c < |s.calls| && !s.calls[c].Opened? && o.call == c
    ensures Paired(s.(calls := s.calls[c := Opened(|s.openings|)], openings := s.openings + [o]))
  {
  }

  lemma PairedNext(w: World, s: System, step: Step)
    requires Paired(s) && Enabled(w, s, step)
    ensures Paired(Apply(w, s, step))
  {
    var s' := Apply(w, s, step);
    if step.Create? {
      PairedWithANewRun(s, step.c, s'.openings[|s.openings|]);
    } else {
      PairedWithoutANewRun(s, s'.calls, s'.openings);
    }
  }

  lemma {:induction false} StaysPaired(w: World, schedule: seq<Step>)
    ensures Paired(Exec(w, Init, schedule))
  {
    if schedule != [] {
      var before := schedule[..|schedule| - 1];
      StaysPaired(w, before);
      var s, step := Exec(w, Init, before), schedule[|schedule| - 1];
      if Enabled(w, s, step) { PairedNext(w, s, step); }
    }
  }

  /** In every interleaving a call opens at most one run, and every run was opened by a call of its own. */
  lemma OneRunPerCall(w: World, schedule: seq<Step>, i: nat, j: nat)
    requires i < j < |Exec(w, Init, schedule).openings|
    ensures var s := Exec(w, Init, schedule);
            && s.openings[i].call != s.openings[j].call
            && s.openings[i].call < |s.calls| && s.calls[s.openings[i].call] == Opened(i)
  {
    StaysPaired(w, schedule);
  }

  // ---- who may open a run --------------------------------------------------

  /** How a call began: `added` says that its Track statement put the alert in the table. */
  datatype Birth = Birth(call: Call, added: bool, alert: Id)

  /** Of every call of a history, in order. */
  function Births(w: World, schedule: seq<Step>): seq<Birth> {
    if schedule == [] then []
    else
      var s, last := Exec(w, Init, schedule[..|schedule| - 1]), schedule[|schedule| - 1];
      Births(w, schedule[..|schedule| - 1]) + if last.Track? && Enabled(w, s, last) then [BirthOf(w, s, last.call)] else []
  }

  /** Told from the table before and after. */
  function BirthOf(w: World, s: System, call: Call): Birth
    requires Enabled(w, s, Track(call))
  {
    var rows' := Apply(w, s, Track(call)).table.rows;
    var found := Find(rows', call.q.cluster, Key(call.q.alert));
    Birth(call, |rows'| == |s.table.rows| + 1, if found.Some? then rows'[found.value].id else call.uuid)
  }

  /** A claim by rule may open a run if it added the alert; a request, if it asks for one. */
  predicate MayOpen(b: Birth) {
    match b.call.q.origin
    case ByRule => b.added
    case Manual => b.call.investigate
  }

  predicate CallFits(b: Birth, p: Phase) {
    match p
    case Tracking(alert, opener, wanted) => alert == b.alert && opener == b.call.q.origin && (wanted <==> MayOpen(b))
    case Cleared(alert, opener) => alert == b.alert && opener == b.call.q.origin && MayOpen(b)
    case _ => true
  }

  predicate OpeningFits(b: Birth, o: Opening) { o.alert == b.alert && o.opener == b.call.q.origin && MayOpen(b) }

  predicate BirthsFit(births: seq<Birth>, s: System) {
    && |births| == |s.calls|
    && (forall c :: 0 <= c < |births| ==> CallFits(births[c], s.calls[c]))
    && (forall i :: 0 <= i < |s.openings| ==>
          s.openings[i].call < |births| && OpeningFits(births[s.openings[i].call], s.openings[i]))
  }

  lemma TrackFits(w: World, s: System, births: seq<Birth>, call: Call)
    requires BirthsFit(births, s) && Enabled(w, s, Track(call))
    ensures BirthsFit(births + [BirthOf(w, s, call)], Apply(w, s, Track(call)))
  {
  }

  lemma OtherStepsFit(w: World, s: System, births: seq<Birth>, step: Step)
    requires BirthsFit(births, s) && Enabled(w, s, step) && !step.Track?
    ensures BirthsFit(births, Apply(w, s, step))
  {
  }

  lemma {:induction false} StaysFit(w: World, schedule: seq<Step>)
    ensures BirthsFit(Births(w, schedule), Exec(w, Init, schedule))
  {
    if schedule != [] {
      var before, last := schedule[..|schedule| - 1], schedule[|schedule| - 1];
      StaysFit(w, before);
      var s := Exec(w, Init, before);
      assert Births(w, before) + [] == Births(w, before);
      if Enabled(w, s, last) {
        if last.Track? { TrackFits(w, s, Births(w, before), last.call); } else { OtherStepsFit(w, s, Births(w, before), last); }
      }
    }
  }

  /** An alert that a call added is in the table from then on, and was not before. */
  lemma AddedOnce(w: World, s: System, call: Call)
    requires Enabled(w, s, Track(call))
    ensures var b := BirthOf(w, s, call);
            && WithId(Apply(w, s, Track(call)).table.rows, b.alert).Some?
            && (b.added ==> WithId(s.table.rows, b.alert).None?)
  {
    FoundAfterUpsert(s.table, call.uuid, call.q, Snapshot(s.table, call.q), call.q.cluster, Key(call.q.alert), call.uuid);
    var rows' := Apply(w, s, Track(call)).table.rows;
    var found := Find(rows', call.q.cluster, Key(call.q.alert));
    HasItsId(rows', found.value);
  }

  lemma HasItsId(rows: seq<Row>, i: nat)
    requires i < |rows|
    ensures WithId(rows, rows[i].id).Some?
  {
  }

  lemma IdsStay(w: World, s: System, step: Step, id: Id)
    requires Enabled(w, s, step) && WithId(s.table.rows, id).Some?
    ensures WithId(Apply(w, s, step).table.rows, id).Some?
  {
    var i := WithId(s.table.rows, id).value;
    match step {
      case Track(call) =>
        var q := call.q;
        var rows' := Apply(w, s, step).table.rows;
        assert i < |rows'| && rows'[i].id == id;
        HasItsId(rows', i);
      case Change(other, st, actor, now) =>
        FoundAfterChange(s.table, other, st, actor, now, 0, "", id);
      case _ =>
    }
  }

  /** The alerts of all calls so far are in the table, and no two calls added the same one. */
  predicate AddedApart(births: seq<Birth>, rows: seq<Row>) {
    && (forall c :: 0 <= c < |births| ==> WithId(rows, births[c].alert).Some?)
    && (forall b, c :: 0 <= b < c < |births| && births[c].added ==> births[b].alert != births[c].alert)
  }

  lemma KnownStay(w: World, s: System, step: Step, births: seq<Birth>)
    requires AddedApart(births, s.table.rows) && Enabled(w, s, step)
    ensures AddedApart(births, Apply(w, s, step).table.rows)
  {
    forall c | 0 <= c < |births| ensures WithId(Apply(w, s, step).table.rows, births[c].alert).Some? {
      IdsStay(w, s, step, births[c].alert);
    }
  }

  lemma OneMoreApart(w: World, s: System, births: seq<Birth>, call: Call)
    requires AddedApart(births, s.table.rows) && Enabled(w, s, Track(call))
    requires AddedApart(births, Apply(w, s, Track(call)).table.rows)
    ensures AddedApart(births + [BirthOf(w, s, call)], Apply(w, s, Track(call)).table.rows)
  {
    AddedOnce(w, s, call);
  }

  lemma {:induction false} StayAddedApart(w: World, schedule: seq<Step>)
    ensures AddedApart(Births(w, schedule), Exec(w, Init, schedule).table.rows)
  {
    if schedule != [] {
      var before, last := schedule[..|schedule| - 1], schedule[|schedule| - 1];
      StayAddedApart(w, before);
      var s, births := Exec(w, Init, before), Births(w, before);
      assert births + [] == births;
      if Enabled(w, s, last) {
        KnownStay(w, s, last, births);
        if last.Track? { OneMoreApart(w, s, births, last.call); }
      }
    }
  }

  lemma {:induction false} NoneWasRefused(w: World, schedule: seq<Step>)
    ensures forall c :: 0 <= c < |Births(w, schedule)| && Births(w, schedule)[c].call.q.origin.Manual? ==>
              Births(w, schedule)[c].call.q.cluster != 0 && Births(w, schedule)[c].call.q.alert.name != ""
  {
    if schedule != [] {
      NoneWasRefused(w, schedule[..|schedule| - 1]);
      assert Births(w, schedule[..|schedule| - 1]) + [] == Births(w, schedule[..|schedule| - 1]);
    }
  }

  /** A request that names no cluster or no alert never becomes a call, and every other one can, under a fresh id. */
  lemma RequestsNameTheirAlert(w: World, schedule: seq<Step>, call: Call)
    requires call.q.origin.Manual? && WithId(Exec(w, Init, schedule).table.rows, call.uuid).None?
    ensures Enabled(w, Exec(w, Init, schedule), Track(call)) <==> call.q.cluster != 0 && call.q.alert.name != ""
    ensures call.q.cluster == 0 || call.q.alert.name == "" ==>
              forall c :: 0 <= c < |Births(w, schedule)| ==> Births(w, schedule)[c].call != call
  {
    NoneWasRefused(w, schedule);
  }

  /**
   In every interleaving each run was opened by a call about that alert: a claim by rule whose
   own Track statement added the alert, or a request that asks for an investigation.
   */
  lemma OnlyTheEntitledOpen(w: World, schedule: seq<Step>, i: nat)
    requires i < |Exec(w, Init, schedule).openings|
    ensures var o, births := Exec(w, Init, schedule).openings[i], Births(w, schedule);
            && o.call < |births| && births[o.call].alert == o.alert && births[o.call].call.q.origin == o.opener
            && (o.opener.ByRule? ==> births[o.call].added)
            && (o.opener.Manual? ==> births[o.call].call.investigate)
  {
    StaysFit(w, schedule);
  }

  /** So the rules open at most one run for an alert, ever. */
  lemma RulesOpenOnce(w: World, schedule: seq<Step>, i: nat, j: nat)
    requires i < j < |Exec(w, Init, schedule).openings|
    ensures var s := Exec(w, Init, schedule);
            s.openings[i].opener.ByRule? && s.openings[j].opener.ByRule? ==> s.openings[i].alert != s.openings[j].alert
  {
    StaysFit(w, schedule);
    StayAddedApart(w, schedule);
    OneRunPerCall(w, schedule, i, j);
  }

  /** A call's own remaining statements, all of them successful. */
  function Remaining(s: System, c: nat): seq<Step> { [Read(c, true), Create(c), Attach(|s.openings|, true)] }

  lemma Stepwise(w: World, s: System, a: Step, b: Step, c: Step)
    ensures Exec(w, s, [a, b, c]) == Next(w, Next(w, Next(w, s, a), b), c)
  {
    assert [a, b, c][..2] == [a, b] && [a, b][..1] == [a] && [a][..0] == [];
    assert Exec(w, s, [a]) == Next(w, s, a);
  }

  /** The run a call opens and attaches when nothing comes between its statements. */
  function OpenedBy(s: System, c: nat): Opening
    requires c < |s.calls| && s.calls[c].Tracking?
  {
    Opening(c, s.calls[c].alert, s.calls[c].opener, Live(s.openings, s.calls[c].alert, Linked) > 0, Queued, Linked)
  }

  lemma GoesThrough(w: World, s: System, c: nat)
    requires Enabled(w, s, Read(c, true)) && GoesOn(s, s.calls[c], true)
    ensures Exec(w, s, Remaining(s, c)).openings == s.openings + [OpenedBy(s, c)]
  {
    Stepwise(w, s, Read(c, true), Create(c), Attach(|s.openings|, true));
  }

  lemma StaysOut(w: World, s: System, c: nat)
    requires Enabled(w, s, Read(c, true)) && !GoesOn(s, s.calls[c], true)
    ensures Exec(w, s, Remaining(s, c)).openings == s.openings
  {
    Stepwise(w, s, Read(c, true), Create(c), Attach(|s.openings|, true));
  }

  /**
   Whatever other calls are in the middle of, a call whose remaining statements succeed opens a
   run if and only if one is wanted and none attached to the alert is live; when one is wanted,
   one is attached and live afterwards either way.
   */
  lemma OpensExactlyWhenWanted(w: World, s: System, c: nat)
    requires Enabled(w, s, Read(c, true))
    ensures var s', alert := Exec(w, s, Remaining(s, c)), s.calls[c].alert;
            && (|s'.openings| == |s.openings| + 1 <==> s.calls[c].wanted && Live(s.openings, alert, Linked) == 0)
            && (s'.openings == s.openings <==> !s.calls[c].wanted || Live(s.openings, alert, Linked) > 0)
            && (s.calls[c].wanted ==> Live(s'.openings, alert, Linked) > 0)
  {
    if GoesOn(s, s.calls[c], true) {
      GoesThrough(w, s, c);
      LiveAppended(s.openings, OpenedBy(s, c), s.calls[c].alert, Linked);
    } else {
      StaysOut(w, s, c);
    }
  }

  /** Over every history: so a call that has tracked its alert opens one exactly when it is entitled to and none attached is live. */
  lemma EntitledCallsOpen(w: World, schedule: seq<Step>, c: nat)
    requires Enabled(w, Exec(w, Init, schedule), Read(c, true))
    ensures var s, births := Exec(w, Init, schedule), Births(w, schedule);
            && c < |births|
            && var entitled := if births[c].call.q.origin.ByRule? then births[c].added else births[c].call.investigate;
               var s' := Exec(w, s, Remaining(s, c));
               && (|s'.openings| == |s.openings| + 1 <==> entitled && Live(s.openings, births[c].alert, Linked) == 0)
               && (entitled ==> Live(s'.openings, births[c].alert, Linked) > 0)
  {
    StaysFit(w, schedule);
    OpensExactlyWhenWanted(w, Exec(w, Init, schedule), c);
  }

  // ---- schedules that go wrong ---------------------------------------------

  ghost predicate Reachable(w: World, s: System) { exists schedule :: Exec(w, Init, schedule) == s }

  lemma ReachInit(w: World)
    ensures Reachable(w, Init)
  {
    assert Exec(w, Init, []) == Init;
  }

  lemma ReachNext(w: World, s: System, step: Step)
    requires Reachable(w, s) && Enabled(w, s, step)
    ensures Reachable(w, Apply(w, s, step))
  {
    var schedule :| Exec(w, Init, schedule) == s;
    assert (schedule + [step])[..|schedule|] == schedule;
    assert Exec(w, Init, schedule + [step]) == Apply(w, s, step);
  }

  predicate Pressable(q: Sighting) { q.origin.Manual? && q.cluster != 0 && q.alert.name != "" }

  /** The id under which the alert is in the table. */
  function IdIn(t: Table, q: Sighting): Option<Id> {
    var found := Find(t.rows, q.cluster, Key(q.alert));
    if found.Some? then Some(t.rows[found.value].id) else None
  }

  /**
   The alert is known as "a", with so many cleared calls, so many runs still to be attached, all
   of them live, and so many live runs of the other kinds.
   */
  predicate Counts(s: System, q: Sighting, cleared: nat, pending: nat, linked: nat, lost: nat) {
    && IdIn(s.table, q) == Some("a")
    && ClearedCalls(s.calls, "a") == cleared
    && Waiting(s.openings, "a") == pending
    && Live(s.openings, "a", Pending) == pending
    && Live(s.openings, "a", Linked) == linked
    && Live(s.openings, "a", Lost) == lost
  }

  /** The first run is live and not attached yet. */
  predicate FirstPends(s: System) { s.openings != [] && IsLive(s.openings[0], "a", Pending) }

  /** The last call has read the alert's runs and goes on. */
  predicate LastCleared(s: System) { s.calls != [] && s.calls[|s.calls| - 1] == Cleared("a", Manual) }

  lemma TrackStep(w: World, s: System, q: Sighting, investigate: bool)
    requires Pressable(q) && (IdIn(s.table, q) == Some("a") || s.table == EmptyTable)
    ensures Enabled(w, s, Track(Call(q, "a", investigate)))
    ensures var s' := Apply(w, s, Track(Call(q, "a", investigate)));
            && IdIn(s'.table, q) == Some("a")
            && s'.calls == s.calls + [Tracking("a", Manual, investigate)] && s'.openings == s.openings
  {
    FoundAfterUpsert(s.table, "a", q, Snapshot(s.table, q), q.cluster, Key(q.alert), "a");
  }

  /** Somebody presses Debug, and having read the alert's runs the call goes on. */
  lemma Press(w: World, s: System, q: Sighting, ok: bool, cleared: nat, pending: nat, linked: nat, lost: nat)
    returns (s': System)
    requires Reachable(w, s) && Pressable(q) && Counts(s, q, cleared, pending, linked, lost)
    requires cleared + pending < w.atOnce && (if ok then linked == 0 else w.readsFail)
    ensures Reachable(w, s') && Counts(s', q, cleared + 1, pending, linked, lost)
    ensures LastCleared(s') && |s'.calls| == |s.calls| + 1 && s'.openings == s.openings
  {
    var step := Track(Call(q, "a", true));
    TrackStep(w, s, q, true);
    ReachNext(w, s, step);
    var s1 := Apply(w, s, step);
    ClearedAppended(s.calls, Tracking("a", Manual, true), "a");
    ReachNext(w, s1, Read(|s.calls|, ok));
    s' := Apply(w, s1, Read(|s.calls|, ok));
    ClearedReplaced(s1.calls, |s.calls|, Cleared("a", Manual), "a");
  }

  function Unattached(c: nat, beside: bool): Opening { Opening(c, "a", Manual, beside, Queued, Pending) }

  /** The last call, cleared, creates its run. */
  lemma CreateLast(w: World, s: System, q: Sighting, cleared: nat, pending: nat, linked: nat, lost: nat)
    returns (s': System)
    requires Reachable(w, s) && Counts(s, q, cleared, pending, linked, lost) && cleared > 0 && LastCleared(s)
    ensures Reachable(w, s') && Counts(s', q, cleared - 1, pending + 1, linked, lost)
    ensures s'.openings == s.openings + [Unattached(|s.calls| - 1, linked > 0)]
  {
    var c := |s.calls| - 1;
    var o := Unattached(c, linked > 0);
    ReachNext(w, s, Create(c));
    s' := Apply(w, s, Create(c));
    ClearedReplaced(s.calls, c, Opened(|s.openings|), "a");
    WaitingAppended(s.openings, o, "a");
    LiveAppended(s.openings, o, "a", Pending);
    LiveAppended(s.openings, o, "a", Linked);
    LiveAppended(s.openings, o, "a", Lost);
  }

  lemma PressAndCreate(w: World, s: System, q: Sighting, ok: bool, pending: nat, linked: nat, lost: nat)
    returns (s': System)
    requires Reachable(w, s) && Pressable(q) && Counts(s, q, 0, pending, linked, lost)
    requires pending < w.atOnce && (if ok then linked == 0 else w.readsFail)
    ensures Reachable(w, s') && Counts(s', q, 0, pending + 1, linked, lost)
    ensures s'.openings == s.openings + [Unattached(|s.calls|, linked > 0)]
  {
    var s1 := Press(w, s, q, ok, 0, pending, linked, lost);
    s' := CreateLast(w, s1, q, 1, pending, linked, lost);
  }

  /** That many presses, every statement of theirs successful, none attached yet. */
  lemma {:induction false} Presses(w: World, q: Sighting, n: nat) returns (s: System)
    requires Pressable(q) && n <= w.atOnce
    ensures Reachable(w, s) && Counts(s, q, 0, n, 0, 0)
    ensures |s.openings| == n && (n > 0 ==> FirstPends(s))
  {
    if n == 0 {
      var step := Track(Call(q, "a", false));
      ReachInit(w);
      TrackStep(w, Init, q, false);
      ReachNext(w, Init, step);
      s := Apply(w, Init, step);
      ClearedAppended([], Tracking("a", Manual, false), "a");
    } else {
      var fewer := Presses(w, q, n - 1);
      s := PressAndCreate(w, fewer, q, true, n - 1, 0, 0);
    }
  }

  lemma FirstRunChanges(s: System, o: Opening)
    requires s.openings != []
    ensures forall link :: Live(s.openings[0 := o], "a", link) + One(IsLive(s.openings[0], "a", link)) ==
                           Live(s.openings, "a", link) + One(IsLive(o, "a", link))
    ensures Waiting(s.openings[0 := o], "a") + One(IsWaiting(s.openings[0], "a")) ==
            Waiting(s.openings, "a") + One(IsWaiting(o, "a"))
  {
    forall link ensures Live(s.openings[0 := o], "a", link) + One(IsLive(s.openings[0], "a", link)) ==
                        Live(s.openings, "a", link) + One(IsLive(o, "a", link))
    {
      LiveReplaced(s.openings, 0, o, "a", link);
    }
    WaitingReplaced(s.openings, 0, o, "a");
  }

  /** The first run is attached to the alert, and has that status. */
  predicate FirstLinked(s: System, status: Status) {
    s.openings != [] && s.openings[0].alert == "a" && s.openings[0].link.Linked? && s.openings[0].status == status
  }

  /** The first run is attached, or its link fails. */
  lemma LinkFirst(w: World, s: System, q: Sighting, ok: bool, cleared: nat, pending: nat) returns (s': System)
    requires Reachable(w, s) && Counts(s, q, cleared, pending, 0, 0) && FirstPends(s)
    requires pending > 0 && (ok || w.attachesFail)
    ensures Reachable(w, s') && Counts(s', q, cleared, pending - 1, One(ok), One(!ok)) && s'.calls == s.calls
    ensures s'.openings != [] && (ok ==> FirstLinked(s', s.openings[0].status)) && !Terminal(s.openings[0].status)
  {
    ReachNext(w, s, Attach(0, ok));
    s' := Apply(w, s, Attach(0, ok));
    FirstRunChanges(s, s'.openings[0]);
  }

  /** The first run, attached, is canceled. */
  lemma CancelFirst(w: World, s: System, q: Sighting, pending: nat, status: Status) returns (s': System)
    requires Reachable(w, s) && Counts(s, q, 0, pending, 1, 0) && FirstLinked(s, status) && !Terminal(status)
    ensures Reachable(w, s') && Counts(s', q, 0, pending, 0, 0) && FirstLinked(s', Canceled)
  {
    ReachNext(w, s, SetStatus(0, Canceled));
    s' := Apply(w, s, SetStatus(0, Canceled));
    FirstRunChanges(s, s'.openings[0]);
  }

  /** The canceled run is started after all. */
  lemma ReviveFirst(w: World, s: System, q: Sighting, cleared: nat, pending: nat) returns (s': System)
    requires Reachable(w, s) && Counts(s, q, cleared, pending, 0, 0) && FirstLinked(s, Canceled) && w.revivals
    ensures Reachable(w, s') && Counts(s', q, cleared, pending, 1, 0) && s'.calls == s.calls
  {
    ReachNext(w, s, SetStatus(0, Running));
    s' := Apply(w, s, SetStatus(0, Running));
    FirstRunChanges(s, s'.openings[0]);
  }

  /** That many presses of which the first is attached and its run then canceled: its call is over. */
  lemma FirstIsOver(w: World, q: Sighting, n: nat) returns (s: System)
    requires Pressable(q) && 0 < n <= w.atOnce
    ensures Reachable(w, s) && Counts(s, q, 0, n - 1, 0, 0) && FirstLinked(s, Canceled)
  {
    var s1 := Presses(w, q, n);
    var s2 := LinkFirst(w, s1, q, true, 0, n);
    s := CancelFirst(w, s2, q, n - 1, s1.openings[0].status);
  }

  /** Once a run is attached, or its link has failed, its call is over, and one more press can open one more. */
  lemma OneMoreAfterLink(w: World, q: Sighting, ok: bool) returns (s: System)
    requires Pressable(q) && w.atOnce > 0 && (if ok then w.readsFail else w.attachesFail)
    ensures Reachable(w, s) && LiveRuns(s, "a") == w.atOnce + 1
  {
    s := Presses(w, q, w.atOnce);
    s := LinkFirst(w, s, q, ok, 0, w.atOnce);
    s := PressAndCreate(w, s, q, !ok, w.atOnce - 1, One(ok), One(!ok));
  }

  lemma OneMoreAfterRevival(w: World, q: Sighting) returns (s: System)
    requires Pressable(q) && w.atOnce > 0 && w.revivals
    ensures Reachable(w, s) && LiveRuns(s, "a") == w.atOnce + 1
  {
    var s1 := FirstIsOver(w, q, w.atOnce);
    var s2 := PressAndCreate(w, s1, q, true, w.atOnce - 1, 0, 0);
    s := ReviveFirst(w, s2, q, 0, w.atOnce);
  }

  // ---- how many runs one alert can have ------------------------------------

  function SomeAlert(): Sighting {
    Sighting(1, Alert("HighLatency", "", "", "", "", "", map[]), "P2", Manual)
  }

  /** With as many calls at once as the world allows, that many runs are live for one alert though nothing failed. */
  lemma OverlapIsReached(w: World, q: Sighting) returns (schedule: seq<Step>)
    requires Pressable(q)
    ensures LiveRuns(Exec(w, Init, schedule), "a") == w.atOnce
  {
    var s := Presses(w, q, w.atOnce);
    schedule :| Exec(w, Init, schedule) == s;
  }

  /** Any failure lets one more run live than calls overlap. */
  lemma FailuresExceedTheOverlap(w: World, q: Sighting) returns (schedule: seq<Step>)
    requires Pressable(q) && w.atOnce > 0 && (w.readsFail || w.attachesFail || w.revivals)
    ensures LiveRuns(Exec(w, Init, schedule), "a") == w.atOnce + 1
  {
    var s;
    if w.readsFail {
      s := OneMoreAfterLink(w, q, true);
    } else if w.attachesFail {
      s := OneMoreAfterLink(w, q, false);
    } else {
      s := OneMoreAfterRevival(w, q);
    }
    schedule :| Exec(w, Init, schedule) == s;
  }

  /**
   Over every history an alert has at most as many live runs as calls for it overlap, exactly
   when reads and links never fail and no run comes back from a terminal status.
   */
  lemma LiveRunsAreBoundedExactlyWhen(w: World)
    requires w.atOnce > 0
    ensures !w.readsFail && !w.attachesFail && !w.revivals <==>
            forall schedule, alert :: LiveRuns(Exec(w, Init, schedule), alert) <= w.atOnce
  {
    if w.readsFail || w.attachesFail || w.revivals {
      var schedule := FailuresExceedTheOverlap(w, SomeAlert());
    } else {
      forall schedule, alert ensures LiveRuns(Exec(w, Init, schedule), alert) <= w.atOnce {
        StaysTame(w, schedule, alert);
      }
    }
  }

  /**
   An alert never has two live runs exactly when, besides, no two calls for it overlap between
   reading its runs and attaching theirs.
   */
  lemma OneLiveRunExactlyWhen(w: World)
    requires w.atOnce > 0
    ensures !w.readsFail && !w.attachesFail && !w.revivals && w.atOnce == 1 <==>
            forall schedule, alert :: LiveRuns(Exec(w, Init, schedule), alert) <= 1
  {
    LiveRunsAreBoundedExactlyWhen(w);
    if w.atOnce > 1 { var schedule := OverlapIsReached(w, SomeAlert()); }
  }

  // ---- runs opened beside a live one ---------------------------------------

  predicate NoneBeside(s: System) {
    forall i :: 0 <= i < |s.openings| ==> !s.openings[i].beside
  }

  lemma {:induction false} CountedCleared(calls: seq<Phase>, c: nat)
    requires c < |calls| && calls[c].Cleared?
    ensures ClearedCalls(calls, calls[c].alert) > 0
  {
    if c < |calls| - 1 { CountedCleared(calls[..|calls| - 1], c); }
  }

  lemma {:induction false} StaysAlone(w: World, schedule: seq<Step>)
    requires !w.readsFail && !w.revivals && w.atOnce == 1
    ensures NoneBeside(Exec(w, Init, schedule))
  {
    if schedule != [] {
      var before := schedule[..|schedule| - 1];
      StaysAlone(w, before);
      var s, step := Exec(w, Init, before), schedule[|schedule| - 1];
      if Enabled(w, s, step) && step.Create? {
        StaysTame(w, before, s.calls[step.c].alert);
        CountedCleared(s.calls, step.c);
      }
    }
  }

  /** A failed read hides the attached run that is already looking at the alert. */
  lemma UnreadRunsAreDuplicated(w: World, q: Sighting) returns (s: System)
    requires Pressable(q) && w.readsFail && w.atOnce > 0
    ensures Reachable(w, s) && !NoneBeside(s)
  {
    var s1 := Presses(w, q, 1);
    var s2 := LinkFirst(w, s1, q, true, 0, 1);
    s := PressAndCreate(w, s2, q, false, 0, 1, 0);
    assert s.openings[|s2.openings|].beside;
  }

  /** A call that is already cleared creates its run after the first one was attached. */
  lemma AttachedBetween(w: World, s: System, q: Sighting) returns (s': System)
    requires Reachable(w, s) && Counts(s, q, 1, 1, 0, 0) && FirstPends(s) && LastCleared(s)
    ensures Reachable(w, s') && !NoneBeside(s') && LiveRuns(s', "a") == 2
  {
    var s1 := LinkFirst(w, s, q, true, 1, 1);
    s' := CreateLast(w, s1, q, 1, 0, 1, 0);
    assert s'.openings[|s1.openings|].beside;
  }

  /** Two overlapping presses, every statement of both successful: the second run is opened beside the first. */
  lemma TwoPressesOpenTwoRuns(w: World, q: Sighting) returns (s: System)
    requires Pressable(q) && w.atOnce > 1
    ensures Reachable(w, s) && !NoneBeside(s) && LiveRuns(s, "a") == 2
  {
    s := Presses(w, q, 1);
    s := Press(w, s, q, true, 0, 1, 0, 0);
    s := AttachedBetween(w, s, q);
  }

  /** A run that is started again after its cancellation had let the next press go on; no two calls overlap. */
  lemma RevivedRunsAreDuplicated(w: World, q: Sighting) returns (s: System)
    requires Pressable(q) && w.revivals && w.atOnce > 0
    ensures Reachable(w, s) && !NoneBeside(s)
  {
    var s1 := FirstIsOver(w, q, 1);
    var s2 := Press(w, s1, q, true, 0, 0, 0, 0);
    var s3 := ReviveFirst(w, s2, q, 1, 0);
    s := CreateLast(w, s3, q, 1, 0, 1, 0);
    assert s.openings[|s3.openings|].beside;
  }

  lemma AnythingElseDuplicates(w: World, q: Sighting) returns (schedule: seq<Step>)
    requires Pressable(q) && (w.readsFail || w.revivals || w.atOnce > 1) && w.atOnce > 0
    ensures !NoneBeside(Exec(w, Init, schedule))
  {
    var s;
    if w.readsFail {
      s := UnreadRunsAreDuplicated(w, q);
    } else if w.atOnce > 1 {
      s := TwoPressesOpenTwoRuns(w, q);
    } else {
      s := RevivedRunsAreDuplicated(w, q);
    }
    schedule :| Exec(w, Init, schedule) == s;
  }

  /**
   No run is ever opened beside a live one attached to its alert, exactly when reads never
   fail, no run is revived and no two calls overlap.
   */
  lemma NeverBesideALiveRun(w: World)
    requires w.atOnce > 0
    ensures !w.readsFail && !w.revivals && w.atOnce == 1 <==> forall schedule :: NoneBeside(Exec(w, Init, schedule))
  {
    if w.readsFail || w.revivals || w.atOnce > 1 {
      var schedule := AnythingElseDuplicates(w, SomeAlert());
    } else {
      forall schedule ensures NoneBeside(Exec(w, Init, schedule)) { StaysAlone(w, schedule); }
    }
  }
}
