/**
 What one capability probe concludes from the answers it gets, and how it chooses which
 namespaces to ask in.
 */
module Probes {
  import opened Runs

  datatype Reach = Unknown | Usable | Empty | Forbidden | Broken | Unreachable

  /** The namespace listing the probe leads with. A failure is classified as one of three. */
  datatype Listing = NotStarted | Listed(namespaces: seq<string>) | ListFailed(why: Reach)

  /** One gated read of one kind. */
  datatype Read = NotReached | Answered(count: nat) | Failed(why: Reach)

  datatype Ask =
    | AskNamespaces(listing: Listing)
    | AskNodes(read: Read)
    | AskPods(namespace: string, read: Read)

  /** What the verdict is explained with, once namespaces were sampled to the end. */
  datatype Detail = RefusedInEveryOne | NoPodsIn(looked: nat) | SaidElsewhere

  datatype Verdict = Verdict(reach: Reach, detail: Detail, steps: seq<Ask>, shown: seq<string>, tried: seq<string>)

  const MaxProbeNamespaces := 3
  const MaxNamespacesShown := 50

  // ---- sampling ------------------------------------------------------------

  /** The non-empty names, each where it first stands. */
  function Firsts(names: seq<string>): seq<string> {
    if names == [] then []
    else
      var front, last := Firsts(names[..|names| - 1]), names[|names| - 1];
      if last == "" || last in front then front else front + [last]
  }

  function Capped(names: seq<string>, max: nat): seq<string> {
    if |names| <= max then names else names[..max]
  }

  lemma {:induction false} FirstsGrow(names: seq<string>, n: nat)
    requires n <= |names|
    ensures Firsts(names[..n]) <= Firsts(names)
  {
    if n < |names| {
      FirstsGrow(names[..|names| - 1], n);
      assert names[..|names| - 1][..n] == names[..n];
    } else {
      assert names[..n] == names;
    }
  }

  method LimitNamespaces(names: seq<string>, max: nat) returns (out: seq<string>)
    requires max > 0
    ensures out == Capped(Firsts(names), max)
    ensures out <= Firsts(names) && |out| == if |Firsts(names)| < max then |Firsts(names)| else max
  {
    var seen: set<string> := {};
    out := [];
    for n := 0 to |names|
      invariant out == Firsts(names[..n]) && |out| < max
      invariant forall s :: s in seen <==> s in out
    {
      assert names[..n + 1][..n] == names[..n];
      var name := names[n];
      if name == "" || name in seen { continue; }
      seen := seen + {name};
      out := out + [name];
      if |out| == max {
        FirstsGrow(names, n + 1);
        return;
      }
    }
    assert names[..|names|] == names;
  }

  predicate Distinct(names: seq<string>) { forall i, j :: 0 <= i < j < |names| ==> names[i] != names[j] }

  /** No name twice, none empty, and every non-empty name is there. */
  lemma {:induction false} FirstsAreDistinct(names: seq<string>)
    ensures Distinct(Firsts(names))
    ensures forall s :: s in Firsts(names) <==> s in names && s != ""
  {
    if names != [] {
      var front, last := Firsts(names[..|names| - 1]), names[|names| - 1];
      FirstsAreDistinct(names[..|names| - 1]);
      assert names == names[..|names| - 1] + [last];
      assert forall s :: s in names <==> s in names[..|names| - 1] || s == last;
      assert forall s :: s in front + [last] <==> s in front || s == last;
    }
  }

  // ---- the verdict ---------------------------------------------------------

  predicate HasObjects(read: Read) { read.Answered? && read.count > 0 }

  predicate Silent(read: Read) { read == Answered(0) }

  predicate Refused(read: Read) { read == Read.Failed(Forbidden) }

  /** A read after which no further namespace is asked. */
  predicate Decisive(read: Read) { !Silent(read) && !Refused(read) }

  predicate Fruitful(step: Ask) {
    (step.AskNodes? || step.AskPods?) && HasObjects(step.read)
  }

  function Sampled(listing: Listing, fallback: seq<string>): seq<string>
    requires listing.Listed?
  {
    Capped(Firsts(fallback + listing.namespaces), MaxProbeNamespaces)
  }

  /** The position of the first decisive read among the sampled namespaces, or their number. */
  function Stop(tried: seq<string>, pods: string -> Read): (r: nat)
    ensures r <= |tried| && (r < |tried| ==> Decisive(pods(tried[r])))
    ensures forall i :: 0 <= i < r ==> !Decisive(pods(tried[i]))
  {
    if tried == [] || Decisive(pods(tried[0])) then 0
    else
      var rest := Stop(tried[1..], pods);
      assert forall i :: 1 <= i < |tried| ==> tried[i] == tried[1..][i - 1];
      rest + 1
  }

  /** The listing worked and showed namespaces, and the nodes did not settle the matter. */
  predicate Samples(listing: Listing, nodes: Read) {
    listing.Listed? && listing.namespaces != [] && !HasObjects(nodes)
  }

  /** The pod reads that were made: up to and including the first decisive one. */
  function Asked(tried: seq<string>, pods: string -> Read): (r: seq<Ask>)
    ensures |r| == if Stop(tried, pods) < |tried| then Stop(tried, pods) + 1 else |tried|
    ensures forall i :: 0 <= i < |r| ==> r[i] == AskPods(tried[i], pods(tried[i]))
  {
    var n := if Stop(tried, pods) < |tried| then Stop(tried, pods) + 1 else |tried|;
    seq(n, i requires 0 <= i < n => AskPods(tried[i], pods(tried[i])))
  }

  predicate AnyFruitful(steps: seq<Ask>) { exists i :: 0 <= i < |steps| && Fruitful(steps[i]) }

  predicate AnyRefused(tried: seq<string>, pods: string -> Read) {
    exists i :: 0 <= i < |tried| && Refused(pods(tried[i]))
  }

  predicate AllSilent(tried: seq<string>, pods: string -> Read) {
    forall i :: 0 <= i < |tried| ==> Silent(pods(tried[i]))
  }

  /** What the sampled namespaces come to. */
  function SampledReach(tried: seq<string>, pods: string -> Read): Reach {
    var n := Stop(tried, pods);
    if n < |tried| then if HasObjects(pods(tried[n])) then Usable else Broken
    else if AnyRefused(tried, pods) then Forbidden
    else Empty
  }

  /** What a whole probe comes to. */
  function ReachOf(listing: Listing, nodes: Read, pods: string -> Read, fallback: seq<string>): Reach {
    match listing
    case NotStarted => Unknown
    case ListFailed(why) => why
    case Listed(namespaces) =>
      if namespaces == [] then Forbidden
      else if HasObjects(nodes) then Usable
      else SampledReach(Sampled(listing, fallback), pods)
  }

  method SamplePods(tried: seq<string>, pods: string -> Read) returns (reach: Reach, asked: seq<Ask>)
    ensures asked == Asked(tried, pods) && reach == SampledReach(tried, pods)
    ensures reach in {Usable, Broken, Forbidden, Empty}
    ensures reach == Usable <==> AnyFruitful(asked)
    ensures reach == Empty <==> AllSilent(tried, pods)
    ensures reach == Forbidden <==> Stop(tried, pods) == |tried| && AnyRefused(tried, pods)
  {
    var refused := false;
    asked := [];
    for n := 0 to |tried|
      invariant |asked| == n && forall i :: 0 <= i < n ==> asked[i] == AskPods(tried[i], pods(tried[i]))
      invariant forall i :: 0 <= i < n ==> !Decisive(pods(tried[i]))
      invariant refused <==> exists i :: 0 <= i < n && Refused(pods(tried[i]))
    {
      var read := pods(tried[n]);
      asked := asked + [AskPods(tried[n], read)];
      if read.Answered? && read.count > 0 {
        assert Stop(tried, pods) == n && asked == Asked(tried, pods);
        assert Fruitful(asked[n]);
        return Usable, asked;
      } else if read.Answered? {
      } else if read.Failed? && read.why == Forbidden {
        refused := true;
      } else {
        assert Stop(tried, pods) == n && asked == Asked(tried, pods);
        return Broken, asked;
      }
    }
    assert Stop(tried, pods) == |tried| && asked == Asked(tried, pods);
    reach := if refused then Forbidden else Empty;
  }

  lemma FruitfulParts(listing: Listing, nodes: Read, asked: seq<Ask>)
    ensures AnyFruitful([AskNamespaces(listing), AskNodes(nodes)] + asked) <==> HasObjects(nodes) || AnyFruitful(asked)
  {
    var steps := [AskNamespaces(listing), AskNodes(nodes)] + asked;
    assert steps[1] == AskNodes(nodes);
    assert forall i :: 0 <= i < |asked| ==> steps[2 + i] == asked[i];
    if AnyFruitful(steps) {
      var i :| 0 <= i < |steps| && Fruitful(steps[i]);
      if i > 1 { assert asked[i - 2] == steps[i]; }
    }
  }

  /** Every sampled namespace was asked and one of them refused: the probe says all of them did. */
  predicate SaysAllRefused(listing: Listing, nodes: Read, pods: string -> Read, fallback: seq<string>) {
    && Samples(listing, nodes)
    && Stop(Sampled(listing, fallback), pods) == |Sampled(listing, fallback)|
    && AnyRefused(Sampled(listing, fallback), pods)
  }

  /** The rest of a probe whose nodes did not settle the matter. */
  method AskPodsOf(listing: Listing, nodes: Read, pods: string -> Read, fallback: seq<string>, before: Verdict) returns (v: Verdict)
    requires Samples(listing, nodes) && before.steps == [AskNamespaces(listing), AskNodes(nodes)]
    ensures v.tried == Sampled(listing, fallback) && v.steps == before.steps + Asked(v.tried, pods) && v.shown == before.shown
    ensures v.reach == SampledReach(v.tried, pods) && v.reach in {Usable, Broken, Forbidden, Empty}
    ensures v.reach == Usable <==> AnyFruitful(v.steps)
    ensures v.reach == Empty <==> AllSilent(v.tried, pods)
    ensures v.reach == Forbidden <==> SaysAllRefused(listing, nodes, pods, fallback)
    ensures v.detail == match v.reach case Forbidden => RefusedInEveryOne case Empty => NoPodsIn(|v.tried|) case _ => SaidElsewhere
  {
    var tried := LimitNamespaces(fallback + listing.namespaces, MaxProbeNamespaces);
    var reach, asked := SamplePods(tried, pods);
    FruitfulParts(listing, nodes, asked);
    var detail :=
      match reach
      case Forbidden => RefusedInEveryOne
      case Empty => NoPodsIn(|tried|)
      case _ => SaidElsewhere;
    v := before.(tried := tried, reach := reach, detail := detail, steps := before.steps + asked);
  }

  method Probe(listing: Listing, nodes: Read, pods: string -> Read, fallback: seq<string>) returns (v: Verdict)
    requires listing.ListFailed? ==> listing.why in {Forbidden, Broken, Unreachable}
    ensures |v.steps| <= 5
    // Every step is one question and the answer it got, in the order asked.
    ensures v.steps == (
              if listing.NotStarted? then []
              else if listing.ListFailed? || listing.namespaces == [] then [AskNamespaces(listing)]
              else [AskNamespaces(listing), AskNodes(nodes)] + Asked(v.tried, pods))
    ensures v.tried == if Samples(listing, nodes) then Sampled(listing, fallback) else []
    ensures |v.tried| <= 3 && |v.shown| <= 50
    ensures v.shown == if listing.Listed? then Capped(Firsts(listing.namespaces), MaxNamespacesShown) else []
    // The verdict.
    ensures v.reach == ReachOf(listing, nodes, pods, fallback)
    ensures v.reach == Usable <==> AnyFruitful(v.steps)
    ensures v.reach == Unreachable <==> listing == ListFailed(Unreachable)
    ensures v.reach == Unknown <==> listing.NotStarted?
    ensures v.reach == Empty <==> Samples(listing, nodes) && AllSilent(v.tried, pods)
    ensures v.reach == Forbidden <==>
              || listing == ListFailed(Forbidden)
              || listing == Listed([])
              || SaysAllRefused(listing, nodes, pods, fallback)
    ensures v.detail == RefusedInEveryOne <==> SaysAllRefused(listing, nodes, pods, fallback)
    ensures v.reach == Empty <==> v.detail == NoPodsIn(|v.tried|)
  {
    v := Verdict(Unknown, SaidElsewhere, [], [], []);
    if listing.NotStarted? { return; }
    v := v.(steps := [AskNamespaces(listing)]);
    if listing.ListFailed? {
      v := v.(reach := listing.why);
      return;
    }
    var shown := LimitNamespaces(listing.namespaces, MaxNamespacesShown);
    v := v.(shown := shown);
    if |listing.namespaces| == 0 {
      v := v.(reach := Forbidden);
      return;
    }
    v := v.(steps := v.steps + [AskNodes(nodes)]);
    if HasObjects(nodes) {
      v := v.(reach := Usable);
      FruitfulParts(listing, nodes, []);
      return;
    }
    v := AskPodsOf(listing, nodes, pods, fallback, v);
  }

  predicate EveryOneRefused(tried: seq<string>, pods: string -> Read) {
    forall i :: 0 <= i < |tried| ==> Refused(pods(tried[i]))
  }

  predicate AnyAnswered(tried: seq<string>, pods: string -> Read) {
    exists i :: 0 <= i < |tried| && pods(tried[i]).Answered?
  }

  /** A probe that says every sampled namespace refused is right exactly when none of them answered. */
  lemma RefusalIsOverstated(listing: Listing, nodes: Read, pods: string -> Read, fallback: seq<string>)
    requires SaysAllRefused(listing, nodes, pods, fallback)
    ensures var tried := Sampled(listing, fallback); EveryOneRefused(tried, pods) <==> !AnyAnswered(tried, pods)
  {
    var tried := Sampled(listing, fallback);
    assert forall i :: 0 <= i < |tried| ==> !Decisive(pods(tried[i]));
  }

  /** Two namespaces, of which one answers with nothing and the other refuses. */
  lemma OneAnsweredAllBlamed(idle: string, closed: string, nodes: Read) returns (pods: string -> Read)
    requires idle != "" && closed != "" && idle != closed && !HasObjects(nodes)
    ensures SaysAllRefused(Listed([idle, closed]), nodes, pods, []) && AnyAnswered(Sampled(Listed([idle, closed]), []), pods)
  {
    pods := name => if name == closed then Read.Failed(Forbidden) else Answered(0);
    var tried := [idle, closed];
    assert Firsts([]) == [];
    assert [idle][..0] == [] && tried[..1] == [idle];
    assert Firsts([idle]) == [idle];
    assert Firsts(tried) == [idle] + [closed] == tried;
    assert [] + tried == tried && Sampled(Listed(tried), []) == tried;
    assert Stop(tried, pods) == 2;
    assert Refused(pods(tried[1])) && pods(tried[0]).Answered?;
  }

  /** The names that come first from the fallbacks and the listing, three of them where there are as many. */
  lemma SampledMeans(listing: Listing, fallback: seq<string>)
    requires listing.Listed?
    ensures var all, tried := Firsts(fallback + listing.namespaces), Sampled(listing, fallback);
            && tried <= all && Distinct(tried)
            && (|tried| == 3 || forall s :: s in tried <==> s != "" && (s in fallback || s in listing.namespaces))
  {
    FirstsAreDistinct(fallback + listing.namespaces);
  }

  /** A read that settles nothing: it answered with nothing, or was refused. */
  predicate Inconclusive(read: Read) { read == Answered(0) || read == Read.Failed(Forbidden) }

  /** The i-th of the sampled namespaces is the first whose read settles the matter. */
  predicate SettledBy(tried: seq<string>, pods: string -> Read, i: nat) {
    i < |tried| && !Inconclusive(pods(tried[i])) && forall j :: 0 <= j < i ==> Inconclusive(pods(tried[j]))
  }

  predicate NothingSettled(tried: seq<string>, pods: string -> Read) {
    forall j :: 0 <= j < |tried| ==> Inconclusive(pods(tried[j]))
  }

  lemma SettledStops(tried: seq<string>, pods: string -> Read, i: nat)
    requires SettledBy(tried, pods, i)
    ensures Stop(tried, pods) == i
  {
    assert Decisive(pods(tried[i]));
    assert forall j :: 0 <= j < i ==> !Decisive(pods(tried[j]));
  }

  /**
   What a probe comes to, read off the answers: what the listing failed with; forbidden with no
   namespace; usable with nodes; and otherwise as the first namespace says that says anything, a
   refusal if none does and one refused, and empty if all answered with nothing.
   */
  lemma ReachMeans(listing: Listing, nodes: Read, pods: string -> Read, fallback: seq<string>, i: nat)
    ensures var reach := ReachOf(listing, nodes, pods, fallback);
            && (listing.NotStarted? ==> reach == Unknown)
            && (listing.ListFailed? ==> reach == listing.why)
            && (listing == Listed([]) ==> reach == Forbidden)
            && (listing.Listed? && listing.namespaces != [] ==>
                  var tried := Sampled(listing, fallback);
                  if nodes.Answered? && nodes.count != 0 then reach == Usable
                  else
                    && (SettledBy(tried, pods, i) ==> reach == if pods(tried[i]).Answered? then Usable else Broken)
                    && ((forall j :: 0 <= j < |tried| ==> pods(tried[j]) == Answered(0)) ==> reach == Empty)
                    && (NothingSettled(tried, pods) && (exists j :: 0 <= j < |tried| && pods(tried[j]) == Read.Failed(Forbidden)) ==>
                          reach == Forbidden))
  {
    if listing.Listed? && listing.namespaces != [] && SettledBy(Sampled(listing, fallback), pods, i) {
      SettledStops(Sampled(listing, fallback), pods, i);
    }
  }
}
