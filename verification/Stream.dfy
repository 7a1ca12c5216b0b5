/**
 One server-sent-events connection: what it writes for a given replay and a given
 sequence of wake-ups.
 */
module Streams {
  import opened Runs

  /** What a connection writes. */
  datatype Frame = Item(event: Event) | Keepalive | Done(status: Option<Status>)

  /** What the select statement of the serving loop wakes up with. */
  datatype WakeUp = Live(event: Event) | ChannelClosed | Tick | ClientGone

  datatype Conn = Conn(highest: int, out: seq<Frame>, open: bool)

  /** The ledger entries among the frames, in order. */
  function Items(out: seq<Frame>): seq<Event> {
    if out == [] then []
    else
      var front := Items(out[..|out| - 1]);
      match out[|out| - 1]
      case Item(e) => front + [e]
      case _ => front
  }

  lemma ItemsAppend(out: seq<Frame>, f: Frame)
    ensures Items(out + [f]) == if f.Item? then Items(out) + [f.event] else Items(out)
  {
    assert (out + [f])[..|out|] == out;
  }

  lemma {:induction false} ItemsConcat(a: seq<Frame>, b: seq<Frame>)
    ensures Items(a + b) == Items(a) + Items(b)
  {
    if b == [] {
      assert a + b == a;
    } else {
      var c := b[..|b| - 1];
      ItemsConcat(a, c);
      assert (a + b)[..|a + b| - 1] == a + c;
    }
  }

  /** Strictly increasing sequence numbers: sorted, and no duplicate. */
  predicate Ascending(es: seq<Event>) {
    forall i, j :: 0 <= i < j < |es| ==> es[i].seqNo < es[j].seqNo
  }

  predicate Above(n: int, es: seq<Event>) { forall i :: 0 <= i < |es| ==> n < es[i].seqNo }

  // ---- the specification ---------------------------------------------------

  function ReplayFrames(replay: seq<Event>): (out: seq<Frame>)
    ensures |out| == |replay| && forall i :: 0 <= i < |out| ==> out[i] == Item(replay[i])
  {
    seq(|replay|, i requires 0 <= i < |replay| => Item(replay[i]))
  }

  function AfterReplay(after: int, replay: seq<Event>): Conn {
    Conn(if replay == [] then after else replay[|replay| - 1].seqNo, ReplayFrames(replay), true)
  }

  function Receive(c: Conn, e: Event): Conn {
    if e.seqNo <= c.highest then c
    else if Closes(e) then Conn(e.seqNo, c.out + [Item(e), Done(TerminalStatusIn(e.payload))], false)
    else Conn(e.seqNo, c.out + [Item(e)], true)
  }

  function Wake(c: Conn, w: WakeUp): Conn {
    if !c.open then c
    else
      match w
      case Live(e) => Receive(c, e)
      case ChannelClosed => c.(out := c.out + [Done(None)], open := false)
      case Tick => c.(out := c.out + [Keepalive])
      case ClientGone => c.(open := false)
  }

  function WakeAll(c: Conn, ws: seq<WakeUp>): Conn {
    if ws == [] then c else Wake(WakeAll(c, ws[..|ws| - 1]), ws[|ws| - 1])
  }

  /** `status` is the run's status as it was read before the subscription was taken. */
  function Begin(after: int, replay: seq<Event>, status: Status): Conn {
    var c := AfterReplay(after, replay);
    if Terminal(status) then Conn(c.highest, c.out + [Done(Some(status))], false) else c
  }

  function Serve(after: int, replay: seq<Event>, status: Status, ws: seq<WakeUp>): Conn {
    WakeAll(Begin(after, replay, status), ws)
  }

  // ---- what is written, read off the wake-ups ------------------------------

  /** Where the live part starts: the last number replayed, or `after`. */
  function StartOf(after: int, replay: seq<Event>): int { if replay == [] then after else replay[|replay| - 1].seqNo }

  /** The n-th wake-up is an entry above the start and above every entry that woke the loop before. */
  predicate Newest(start: int, ws: seq<WakeUp>, n: nat)
    requires n < |ws|
  {
    && ws[n].Live? && ws[n].event.seqNo > start
    && forall i :: 0 <= i < n && ws[i].Live? ==> ws[i].event.seqNo < ws[n].event.seqNo
  }

  /** It tells of the end of the run. */
  predicate LastWord(e: Event) { e.typ == "status" && e.payload.status.Some? && Terminal(e.payload.status.value) }

  /** The loop returns on it. */
  predicate Ends(start: int, ws: seq<WakeUp>, n: nat)
    requires n < |ws|
  {
    ws[n].ClientGone? || ws[n].ChannelClosed? || (Newest(start, ws, n) && LastWord(ws[n].event))
  }

  /** What it writes, if the loop is still running. */
  function FramesAt(start: int, ws: seq<WakeUp>, n: nat): seq<Frame>
    requires n < |ws|
  {
    match ws[n]
    case ClientGone => []
    case ChannelClosed => [Done(None)]
    case Tick => [Keepalive]
    case Live(e) =>
      if !Newest(start, ws, n) then []
      else if LastWord(e) then [Item(e), Done(e.payload.status)]
      else [Item(e)]
  }

  function FramesBefore(start: int, ws: seq<WakeUp>, n: nat): seq<Frame>
    requires n <= |ws|
  {
    if n == 0 then [] else FramesBefore(start, ws, n - 1) + FramesAt(start, ws, n - 1)
  }

  /** How many wake-ups the loop takes: up to and including the first it returns on. */
  function Taken(start: int, ws: seq<WakeUp>, from: nat): (n: nat)
    requires from <= |ws|
    ensures from <= n <= |ws| && (n < |ws| ==> n > from && Ends(start, ws, n - 1))
    ensures forall i :: from <= i < n - 1 ==> !Ends(start, ws, i)
    decreases |ws| - from
  {
    if from == |ws| then from
    else if Ends(start, ws, from) then from + 1
    else Taken(start, ws, from + 1)
  }

  /** While no wake-up has ended the loop, the highest number is the newest of them all. */
  predicate Follows(start: int, ws: seq<WakeUp>, highest: int) {
    && start <= highest
    && (forall i :: 0 <= i < |ws| && ws[i].Live? ==> ws[i].event.seqNo <= highest)
    && (highest == start || exists i :: 0 <= i < |ws| && ws[i].Live? && ws[i].event.seqNo == highest)
  }

  lemma NewestIsHigher(start: int, ws: seq<WakeUp>, n: nat, highest: int)
    requires n < |ws| && Follows(start, ws[..n], highest)
    ensures Newest(start, ws, n) <==> ws[n].Live? && ws[n].event.seqNo > highest
  {
    forall i | 0 <= i < n ensures ws[..n][i] == ws[i] { }
    if ws[n].Live? && Newest(start, ws, n) && highest != start {
      var i :| 0 <= i < n && ws[..n][i].Live? && ws[..n][i].event.seqNo == highest;
      assert ws[i].event.seqNo < ws[n].event.seqNo;
    }
  }

  lemma FollowsOn(start: int, ws: seq<WakeUp>, n: nat, highest: int)
    requires n < |ws| && Follows(start, ws[..n], highest)
    ensures Follows(start, ws[..n + 1], if ws[n].Live? && ws[n].event.seqNo > highest then ws[n].event.seqNo else highest)
  {
    var more := ws[..n + 1];
    assert more == ws[..n] + [ws[n]];
    assert more[n] == ws[n];
    if highest != start {
      var i :| 0 <= i < n && ws[..n][i].Live? && ws[..n][i].event.seqNo == highest;
      assert more[i] == ws[..n][i];
    }
  }

  /** One wake-up of a loop that is still running. */
  lemma WakeWrites(start: int, ws: seq<WakeUp>, n: nat, c: Conn)
    requires n < |ws| && c.open && Follows(start, ws[..n], c.highest)
    ensures var c' := Wake(c, ws[n]);
            && c'.out == c.out + FramesAt(start, ws, n) && (c'.open <==> !Ends(start, ws, n))
            && Follows(start, ws[..n + 1], c'.highest)
  {
    NewestIsHigher(start, ws, n, c.highest);
    FollowsOn(start, ws, n, c.highest);
    assert c.out + [] == c.out;
  }

  lemma WakeAllNext(c: Conn, ws: seq<WakeUp>, n: nat)
    requires n < |ws|
    ensures WakeAll(c, ws[..n + 1]) == Wake(WakeAll(c, ws[..n]), ws[n])
  {
    assert ws[..n + 1][..n] == ws[..n];
  }

  /** As long as nothing ends the loop. */
  lemma {:induction false} LoopWrites(start: int, ws: seq<WakeUp>, n: nat, c: Conn)
    requires n <= |ws| && c.open && c.highest == start
    requires forall i :: 0 <= i < n ==> !Ends(start, ws, i)
    ensures var c' := WakeAll(c, ws[..n]);
            c'.open && c'.out == c.out + FramesBefore(start, ws, n) && Follows(start, ws[..n], c'.highest)
  {
    if n == 0 {
      assert ws[..0] == [] && c.out + [] == c.out;
    } else {
      LoopWrites(start, ws, n - 1, c);
      WakeAllNext(c, ws, n - 1);
      WakeWrites(start, ws, n - 1, WakeAll(c, ws[..n - 1]));
    }
  }

  /** And up to the wake-up that does. */
  lemma LoopWritesAll(start: int, ws: seq<WakeUp>, c: Conn)
    requires c.open && c.highest == start
    ensures WakeAll(c, ws).out == c.out + FramesBefore(start, ws, Taken(start, ws, 0))
  {
    var n := Taken(start, ws, 0);
    assert ws[..|ws|] == ws;
    if n == 0 || !Ends(start, ws, n - 1) {
      LoopWrites(start, ws, n, c);
    } else {
      LoopWrites(start, ws, n - 1, c);
      WakeAllNext(c, ws, n - 1);
      WakeWrites(start, ws, n - 1, WakeAll(c, ws[..n - 1]));
      WakeAllSplit(c, ws, n);
      ClosedStays(WakeAll(c, ws[..n]), ws[n..]);
    }
  }

  /**
   Everything a connection writes: the replay, then the closing frame if the run was over by
   then, and otherwise what each wake-up asks for until one of them ends the loop.
   */
  lemma ServeWrites(after: int, replay: seq<Event>, status: Status, ws: seq<WakeUp>)
    ensures Serve(after, replay, status, ws).out == AllTold(after, replay, status, ws)
  {
    if Terminal(status) {
      ClosedStays(Begin(after, replay, status), ws);
    } else {
      LoopWritesAll(StartOf(after, replay), ws, Begin(after, replay, status));
    }
  }

  function AllTold(after: int, replay: seq<Event>, status: Status, ws: seq<WakeUp>): seq<Frame> {
    var start := StartOf(after, replay);
    ReplayFrames(replay)
    + if Terminal(status) then [Done(Some(status))] else FramesBefore(start, ws, Taken(start, ws, 0))
  }

  function Ticks(ws: seq<WakeUp>, n: nat): nat
    requires n <= |ws|
  {
    if n == 0 then 0 else Ticks(ws, n - 1) + if ws[n - 1].Tick? then 1 else 0
  }

  function Keepalives(out: seq<Frame>): nat {
    if out == [] then 0 else Keepalives(out[..|out| - 1]) + if out[|out| - 1].Keepalive? then 1 else 0
  }

  lemma KeepalivesAppended(out: seq<Frame>, f: Frame)
    ensures Keepalives(out + [f]) == Keepalives(out) + if f.Keepalive? then 1 else 0
  {
    assert (out + [f])[..|out|] == out;
  }

  lemma KeepalivesOfTwo(out: seq<Frame>, f: Frame, g: Frame)
    ensures Keepalives(out + [f, g]) == Keepalives(out) + (if f.Keepalive? then 1 else 0) + if g.Keepalive? then 1 else 0
  {
    KeepalivesAppended(out, f);
    KeepalivesAppended(out + [f], g);
    assert out + [f, g] == out + [f] + [g];
  }

  lemma KeepalivesOfOne(out: seq<Frame>, start: int, ws: seq<WakeUp>, n: nat)
    requires n < |ws|
    ensures Keepalives(out + FramesAt(start, ws, n)) == Keepalives(out) + if ws[n].Tick? then 1 else 0
  {
    assert out + [] == out;
    match ws[n] {
      case ClientGone =>
      case ChannelClosed => KeepalivesAppended(out, Done(None));
      case Tick => KeepalivesAppended(out, Keepalive);
      case Live(e) =>
        KeepalivesAppended(out, Item(e));
        KeepalivesOfTwo(out, Item(e), Done(e.payload.status));
    }
  }

  function KeepalivesBefore(start: int, ws: seq<WakeUp>, n: nat): nat
    requires n <= |ws|
  {
    Keepalives(FramesBefore(start, ws, n))
  }

  lemma OneMoreKeepalive(start: int, ws: seq<WakeUp>, n: nat)
    requires n < |ws|
    ensures KeepalivesBefore(start, ws, n + 1) == KeepalivesBefore(start, ws, n) + if ws[n].Tick? then 1 else 0
  {
    KeepalivesOfOne(FramesBefore(start, ws, n), start, ws, n);
    assert FramesBefore(start, ws, n + 1) == FramesBefore(start, ws, n) + FramesAt(start, ws, n);
  }

  lemma {:induction false} KeepalivesAreTicks(start: int, ws: seq<WakeUp>, n: nat)
    requires n <= |ws|
    ensures KeepalivesBefore(start, ws, n) == Ticks(ws, n)
  {
    if n > 0 {
      KeepalivesAreTicks(start, ws, n - 1);
      OneMoreKeepalive(start, ws, n - 1);
    }
  }

  /** A connection to a finished run writes the replay and one closing frame, which names the status. */
  lemma FinishedRunIsClosed(after: int, replay: seq<Event>, status: Status, ws: seq<WakeUp>)
    requires Terminal(status)
    ensures var out := AllTold(after, replay, status, ws);
            && |out| == |replay| + 1 && out[|replay|] == Done(Some(status))
            && forall i :: 0 <= i < |replay| ==> out[i] == Item(replay[i])
  {
  }

  /** What a live connection writes after the replay. */
  function LivePart(after: int, replay: seq<Event>, ws: seq<WakeUp>): seq<Frame> {
    FramesBefore(StartOf(after, replay), ws, Taken(StartOf(after, replay), ws, 0))
  }

  /**
   One that is not finished ends, if its channel is closed under it, on a frame that names no
   status; and every tick before the loop ends leaves one keep-alive.
   */
  lemma LiveRunGoesOn(after: int, replay: seq<Event>, status: Status, ws: seq<WakeUp>)
    requires !Terminal(status)
    ensures AllTold(after, replay, status, ws) == ReplayFrames(replay) + LivePart(after, replay, ws)
    ensures var live, n := LivePart(after, replay, ws), Taken(StartOf(after, replay), ws, 0);
            && (n > 0 && ws[n - 1].ChannelClosed? ==> live != [] && live[|live| - 1] == Done(None))
            && Keepalives(live) == Ticks(ws, n)
  {
    KeepalivesAreTicks(StartOf(after, replay), ws, Taken(StartOf(after, replay), ws, 0));
  }

  // ---- the serving loop ----------------------------------------------------

  /** What the connection has written once it has seen these wake-ups (or has returned earlier). */
  method StreamRun(after: int, replay: seq<Event>, status: Status, wakeUps: seq<WakeUp>) returns (out: seq<Frame>)
    ensures out == Serve(after, replay, status, wakeUps).out
    ensures out == AllTold(after, replay, status, wakeUps)
  {
    ServeWrites(after, replay, status, wakeUps);
    out := [];
    var highest := after;
    for i := 0 to |replay|
      invariant out == ReplayFrames(replay)[..i]
      invariant highest == if i == 0 then after else replay[i - 1].seqNo
    {
      out := out + [Item(replay[i])];
      highest := replay[i].seqNo;
    }
    if Terminal(status) {
      out := out + [Done(Some(status))];
      ClosedStays(Begin(after, replay, status), wakeUps);
      return;
    }
    for i := 0 to |wakeUps|
      invariant Conn(highest, out, true) == Serve(after, replay, status, wakeUps[..i])
    {
      var w := wakeUps[i];
      ServesOn(after, replay, status, wakeUps, i);
      match w
      case ClientGone =>
        return;
      case Tick =>
        out := out + [Keepalive];
      case ChannelClosed =>
        out := out + [Done(None)];
        return;
      case Live(e) =>
        if e.seqNo <= highest { continue; }
        highest := e.seqNo;
        out := out + [Item(e)];
        if e.typ == EvStatus && TerminalStatusIn(e.payload).Some? {
          out := out + [Done(TerminalStatusIn(e.payload))];
          return;
        }
    }
    assert wakeUps[..|wakeUps|] == wakeUps;
  }

  /** One more wake-up; and a connection that closes on it stays as it is. */
  lemma ServesOn(after: int, replay: seq<Event>, status: Status, ws: seq<WakeUp>, n: nat)
    requires n < |ws|
    ensures var c := Wake(Serve(after, replay, status, ws[..n]), ws[n]);
            && Serve(after, replay, status, ws[..n + 1]) == c
            && (!c.open ==> Serve(after, replay, status, ws) == c)
  {
    WakeAllNext(Begin(after, replay, status), ws, n);
    WakeAllSplit(Begin(after, replay, status), ws, n + 1);
    if !Serve(after, replay, status, ws[..n + 1]).open {
      ClosedStays(Serve(after, replay, status, ws[..n + 1]), ws[n + 1..]);
    }
  }

  lemma {:induction false} WakeAllSplit(c: Conn, ws: seq<WakeUp>, k: nat)
    requires k <= |ws|
    ensures WakeAll(c, ws) == WakeAll(WakeAll(c, ws[..k]), ws[k..])
  {
    if k == |ws| {
      assert ws[..k] == ws;
    } else {
      var front := ws[..|ws| - 1];
      WakeAllSplit(c, front, k);
      assert front[..k] == ws[..k] && ws[k..][..|ws| - k - 1] == front[k..];
    }
  }

  lemma {:induction false} ClosedStays(c: Conn, ws: seq<WakeUp>)
    requires !c.open
    ensures WakeAll(c, ws) == c
  {
    if ws != [] { ClosedStays(c, ws[..|ws| - 1]); }
  }

  // ---- what one connection guarantees, whatever is delivered to it ---------

  /** Every entry of `es` was replayed or delivered live. */
  predicate From(es: seq<Event>, replay: seq<Event>, ws: seq<WakeUp>) {
    forall i :: 0 <= i < |es| ==> es[i] in replay || Live(es[i]) in ws
  }

  lemma {:induction false} ReplayItems(replay: seq<Event>)
    ensures Items(ReplayFrames(replay)) == replay
  {
    if replay != [] {
      var front := replay[..|replay| - 1];
      ReplayItems(front);
      assert ReplayFrames(replay) == ReplayFrames(front) + [Item(replay[|replay| - 1])];
      ItemsAppend(ReplayFrames(front), Item(replay[|replay| - 1]));
    }
  }

  lemma ItemsAfterWake(c: Conn, w: WakeUp)
    ensures var c' := Wake(c, w);
            if c.open && w.Live? && w.event.seqNo > c.highest
            then Items(c'.out) == Items(c.out) + [w.event] && c'.highest == w.event.seqNo
            else Items(c'.out) == Items(c.out) && c'.highest == c.highest
  {
    if c.open {
      match w
      case Live(e) =>
        if e.seqNo > c.highest {
          ItemsAppend(c.out, Item(e));
          ItemsAppend(c.out + [Item(e)], Done(TerminalStatusIn(e.payload)));
          assert c.out + [Item(e), Done(TerminalStatusIn(e.payload))] == c.out + [Item(e)] + [Done(TerminalStatusIn(e.payload))];
        }
      case ChannelClosed => ItemsAppend(c.out, Done(None));
      case Tick => ItemsAppend(c.out, Keepalive);
      case ClientGone =>
    }
  }

  predicate Faithful(after: int, replay: seq<Event>, ws: seq<WakeUp>, c: Conn) {
    var es := Items(c.out);
    && after <= c.highest
    && Ascending(es) && Above(after, es)
    && (forall i :: 0 <= i < |es| ==> es[i].seqNo <= c.highest)
    && From(es, replay, ws)
  }

  lemma WakeIsFaithful(after: int, replay: seq<Event>, front: seq<WakeUp>, w: WakeUp, c: Conn)
    requires Faithful(after, replay, front, c)
    ensures Faithful(after, replay, front + [w], Wake(c, w))
  {
    ItemsAfterWake(c, w);
    var ws := front + [w];
    assert forall v :: v in front ==> v in ws;
    assert ws[|front|] == w;
  }

  lemma ReplayIsFaithful(after: int, replay: seq<Event>, status: Status)
    requires Ascending(replay) && Above(after, replay)
    ensures Faithful(after, replay, [], Serve(after, replay, status, []))
  {
    ReplayItems(replay);
    ItemsAppend(AfterReplay(after, replay).out, Done(Some(status)));
    assert Items(Serve(after, replay, status, []).out) == replay;
  }

  /**
   With no assumption on the live side at all (reordered, repeated, dropped or foreign
   deliveries, any keep-alives): what a connection writes is strictly increasing, lies
   above `after`, and only repeats what was replayed or delivered.
   */
  lemma {:induction false} NeverBackwards(after: int, replay: seq<Event>, status: Status, ws: seq<WakeUp>)
    requires Ascending(replay) && Above(after, replay)
    ensures Faithful(after, replay, ws, Serve(after, replay, status, ws))
  {
    if ws == [] {
      ReplayIsFaithful(after, replay, status);
    } else {
      var front, last := ws[..|ws| - 1], ws[|ws| - 1];
      NeverBackwards(after, replay, status, front);
      WakeIsFaithful(after, replay, front, last, Serve(after, replay, status, front));
      assert front + [last] == ws;
    }
  }

  // ---- how a connection ends -----------------------------------------------

  /** A live entry that announces a terminal status, and the done frame that must follow it. */
  predicate Announces(item: Frame, done: Frame) {
    item.Item? && Closes(item.event) && done == Done(TerminalStatusIn(item.event.payload))
  }

  /** `from` is where the live part of the output begins. */
  predicate EndsProperly(out: seq<Frame>, from: nat, open: bool, status: Status) {
    && (forall i :: 0 <= i < |out| && out[i].Done? ==> i == |out| - 1 && !open)
    && (forall i :: from <= i < |out| && out[i].Item? && Closes(out[i].event) ==>
          i == |out| - 2 && Announces(out[i], out[i + 1]))
    && (out != [] && out[|out| - 1].Done? && out[|out| - 1].status.Some? ==>
          var st := out[|out| - 1].status.value;
          Terminal(st) && (st == status || (|out| - 2 >= from && Announces(out[|out| - 2], out[|out| - 1]))))
  }

  /** No done frame yet, and no live entry that announces one. */
  predicate Undecided(out: seq<Frame>, from: nat) {
    && (forall i :: 0 <= i < |out| ==> !out[i].Done?)
    && (forall i :: from <= i < |out| && out[i].Item? ==> !Closes(out[i].event))
  }

  lemma UndecidedGoesOn(out: seq<Frame>, from: nat, f: Frame)
    requires Undecided(out, from) && !f.Done? && (f.Item? ==> !Closes(f.event))
    ensures Undecided(out + [f], from)
  {
  }

  lemma UndecidedIsDone(out: seq<Frame>, from: nat, status: Status)
    requires Undecided(out, from)
    ensures EndsProperly(out + [Done(None)], from, false, status)
  {
  }

  lemma UndecidedIsAnnounced(out: seq<Frame>, from: nat, status: Status, e: Event)
    requires Undecided(out, from) && from <= |out| && Closes(e)
    ensures EndsProperly(out + [Item(e), Done(TerminalStatusIn(e.payload))], from, false, status)
  {
  }

  lemma WakeEndsProperly(c: Conn, from: nat, status: Status, w: WakeUp)
    requires Undecided(c.out, from) && from <= |c.out| && c.open
    ensures var c' := Wake(c, w);
            && from <= |c'.out| && EndsProperly(c'.out, from, c'.open, status)
            && (c'.open ==> Undecided(c'.out, from))
  {
    match w {
      case Live(e) =>
        if e.seqNo > c.highest {
          if Closes(e) { UndecidedIsAnnounced(c.out, from, status, e); } else { UndecidedGoesOn(c.out, from, Item(e)); }
        }
      case ChannelClosed => UndecidedIsDone(c.out, from, status);
      case Tick => UndecidedGoesOn(c.out, from, Keepalive);
      case ClientGone =>
    }
  }

  /**
   A done frame is the last thing written. It names a status only if that status is terminal:
   the one the run had before the subscription, or the one the entry just before announces;
   and every live entry that announces one is followed by it.
   */
  lemma {:induction false} DoneNamesTheEnd(after: int, replay: seq<Event>, status: Status, ws: seq<WakeUp>)
    ensures var c := Serve(after, replay, status, ws);
            && |replay| <= |c.out| && EndsProperly(c.out, |replay|, c.open, status)
            && (c.open ==> Undecided(c.out, |replay|))
  {
    if ws != [] {
      var front := ws[..|ws| - 1];
      DoneNamesTheEnd(after, replay, status, front);
      var c := Serve(after, replay, status, front);
      if c.open { WakeEndsProperly(c, |replay|, status, ws[|ws| - 1]); }
    }
  }
}
