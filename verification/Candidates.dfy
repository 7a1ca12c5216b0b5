/**
 Which Services of a cluster are candidates for its monitoring, and in what order they are
 tried. The library's stable sort is specified by insertion.
 */
module Candidates {
  import opened Alerts
  import opened Runs

  datatype Flavor = Prometheus | VictoriaMetrics | Thanos | Mimir | Alertmanager | VMAlert | Unknown

  datatype Endpoint = Endpoint(flavor: Flavor, namespace: string, name: string, scrapeTarget: bool)
  {
    predicate IsAlertSource() { flavor.Alertmanager? || flavor.VMAlert? }
  }

  /** A Service object: its name and namespace, and the two labels that can name its flavor. "" stands for a missing one. */
  datatype Object = Object(namespace: string, name: string, appName: string, app: string)

  function FlavorOf(o: Object): Flavor {
    var all := Lower(o.name) + " " + Lower(o.appName + " " + o.app);
    if Contains(all, "vmalert") && !Contains(all, "vmalertmanager") then VMAlert
    else if Contains(all, "alertmanager") then Alertmanager
    else if Contains(all, "vmsingle") || Contains(all, "vmselect") || Contains(all, "victoria") || Contains(all, "vmauth") then
      VictoriaMetrics
    else if Contains(all, "thanos") then Thanos
    else if Contains(all, "mimir") then Mimir
    else if Contains(all, "prometheus") then Prometheus
    else Unknown
  }

  const ScrapeTargetNames := [
    "node-exporter", "kube-state-metrics", "grafana", "pushgateway",
    "kubelet", "kube-etcd", "kube-scheduler", "kube-controller-manager",
    "kube-proxy", "core-dns", "coredns", "vmagent", "exporter", "operator",
    "blackbox", "statsd"]

  predicate IsScrapeTarget(name: string) {
    exists i :: 0 <= i < |ScrapeTargetNames| && Contains(Lower(name), ScrapeTargetNames[i])
  }

  function Rank(e: Endpoint): int {
    var n := Lower(e.name);
    if Contains(n, "operated") || Contains(n, "headless") then 90
    else if Contains(n, "server") || Contains(n, "vmsingle") || Contains(n, "vmselect") || Contains(n, "query-frontend") then 10
    else 50
  }

  // ---- the order -----------------------------------------------------------

  /** What two endpoints are compared by. */
  datatype Standing = Standing(scrapeTarget: bool, rank: int, namespace: string, name: string)

  function StandingOf(e: Endpoint): Standing { Standing(e.scrapeTarget, Rank(e), e.namespace, e.name) }

  predicate Better(x: Standing, y: Standing) {
    if x.scrapeTarget != y.scrapeTarget then !x.scrapeTarget
    else if x.rank != y.rank then x.rank < y.rank
    else if x.namespace != y.namespace then TextLess(x.namespace, y.namespace)
    else TextLess(x.name, y.name)
  }

  predicate Less(x: Endpoint, y: Endpoint) { Better(StandingOf(x), StandingOf(y)) }

  lemma BetterTotal(x: Standing, y: Standing)
    ensures x != y ==> Better(x, y) || Better(y, x)
    ensures !(Better(x, y) && Better(y, x))
    ensures Better(x, y) ==> x != y
  {
    TextTotal(x.namespace, y.namespace);
    TextTotal(x.name, y.name);
  }

  lemma BetterTransitive(x: Standing, y: Standing, z: Standing)
    requires Better(x, y) && Better(y, z)
    ensures Better(x, z)
  {
    TextTotal(x.namespace, y.namespace);
    if x.namespace != y.namespace && y.namespace != z.namespace {
      TextTotal(x.namespace, z.namespace);
      if TextLess(x.namespace, y.namespace) && TextLess(y.namespace, z.namespace) {
        TextTransitive(x.namespace, y.namespace, z.namespace);
      }
    }
    if TextLess(x.name, y.name) && TextLess(y.name, z.name) { TextTransitive(x.name, y.name, z.name); }
  }

  lemma NotWorse(x: Standing, y: Standing, z: Standing)
    requires !Better(y, x) && !Better(z, y)
    ensures !Better(z, x)
  {
    BetterTotal(x, y);
    BetterTotal(y, z);
    BetterTotal(x, z);
    if x != y && y != z { BetterTransitive(x, y, z); }
  }

  // ---- sorting -------------------------------------------------------------

  predicate Ordered(es: seq<Endpoint>) {
    forall i, j :: 0 <= i < j < |es| ==> !Less(es[j], es[i])
  }

  /** Behind everything that is not worse. */
  function Placed(es: seq<Endpoint>, e: Endpoint): seq<Endpoint> {
    if es == [] || !Less(e, es[|es| - 1]) then es + [e]
    else Placed(es[..|es| - 1], e) + [es[|es| - 1]]
  }

  function SortStable(es: seq<Endpoint>): seq<Endpoint> {
    if es == [] then [] else Placed(SortStable(es[..|es| - 1]), es[|es| - 1])
  }

  function Only(e: Endpoint, k: Standing): seq<Endpoint> { if StandingOf(e) == k then [e] else [] }

  /** The endpoints of one standing, in the order they come. */
  function Standings(es: seq<Endpoint>, k: Standing): seq<Endpoint> {
    if es == [] then [] else Standings(es[..|es| - 1], k) + Only(es[|es| - 1], k)
  }

  lemma StandingsAppended(es: seq<Endpoint>, e: Endpoint, k: Standing)
    ensures Standings(es + [e], k) == Standings(es, k) + Only(e, k)
  {
    assert (es + [e])[..|es|] == es;
  }

  lemma {:induction false} PlacedKeeps(es: seq<Endpoint>, e: Endpoint)
    ensures multiset(Placed(es, e)) == multiset(es) + multiset{e}
  {
    if es != [] && Less(e, es[|es| - 1]) {
      PlacedKeeps(es[..|es| - 1], e);
      assert es == es[..|es| - 1] + [es[|es| - 1]];
    }
  }

  lemma OneOfThem(front: seq<Endpoint>, a: seq<Endpoint>, b: seq<Endpoint>)
    requires a == [] || b == []
    ensures front + a + b == front + b + a
  {
  }

  lemma {:induction false} PlacedStandings(es: seq<Endpoint>, e: Endpoint, k: Standing)
    ensures Standings(Placed(es, e), k) == Standings(es, k) + Only(e, k)
  {
    if es == [] || !Less(e, es[|es| - 1]) {
      StandingsAppended(es, e, k);
    } else {
      var front, last := es[..|es| - 1], es[|es| - 1];
      PlacedStandings(front, e, k);
      StandingsAppended(Placed(front, e), last, k);
      BetterTotal(StandingOf(e), StandingOf(last));
      OneOfThem(Standings(front, k), Only(e, k), Only(last, k));
    }
  }

  lemma OrderedSnoc(es: seq<Endpoint>, e: Endpoint)
    requires Ordered(es) && (es == [] || !Less(e, es[|es| - 1]))
    ensures Ordered(es + [e])
  {
    forall i | 0 <= i < |es|
      ensures !Less(e, es[i])
    {
      if i < |es| - 1 { NotWorse(StandingOf(es[i]), StandingOf(es[|es| - 1]), StandingOf(e)); }
    }
  }

  /** Every member of a list with one more element is that element or was there already. */
  lemma PlacedMembers(es: seq<Endpoint>, e: Endpoint, i: nat) returns (j: nat)
    requires i < |Placed(es, e)| && Placed(es, e)[i] != e
    ensures j < |es| && es[j] == Placed(es, e)[i]
  {
    PlacedKeeps(es, e);
    assert Placed(es, e)[i] in multiset(Placed(es, e));
    assert Placed(es, e)[i] in multiset(es);
    j :| 0 <= j < |es| && es[j] == Placed(es, e)[i];
  }

  lemma {:induction false} PlacedIsOrdered(es: seq<Endpoint>, e: Endpoint)
    requires Ordered(es)
    ensures Ordered(Placed(es, e))
  {
    if es == [] || !Less(e, es[|es| - 1]) {
      OrderedSnoc(es, e);
    } else {
      var front, last := es[..|es| - 1], es[|es| - 1];
      PlacedIsOrdered(front, e);
      var r := Placed(front, e);
      PlacedKeeps(front, e);
      assert |r| == |multiset(r)| == |front| + 1;
      BetterTotal(StandingOf(e), StandingOf(last));
      if r[|r| - 1] != e {
        var j := PlacedMembers(front, e, |r| - 1);
        assert !Less(es[|es| - 1], es[j]);
      }
      OrderedSnoc(r, last);
    }
  }

  lemma {:induction false} EqualsKeepTheirOrder(es: seq<Endpoint>, k: Standing)
    ensures Standings(SortStable(es), k) == Standings(es, k)
  {
    if es != [] {
      EqualsKeepTheirOrder(es[..|es| - 1], k);
      PlacedStandings(SortStable(es[..|es| - 1]), es[|es| - 1], k);
    }
  }

  lemma LastIsOneOfThem(es: seq<Endpoint>)
    requires es != []
    ensures multiset(es) == multiset(es[..|es| - 1]) + multiset{es[|es| - 1]}
  {
    assert es == es[..|es| - 1] + [es[|es| - 1]];
  }

  lemma SortStep(es: seq<Endpoint>)
    requires es != []
    ensures multiset(SortStable(es)) == multiset(SortStable(es[..|es| - 1])) + multiset{es[|es| - 1]}
  {
    PlacedKeeps(SortStable(es[..|es| - 1]), es[|es| - 1]);
  }

  lemma {:induction false} SortKeeps(es: seq<Endpoint>)
    ensures multiset(SortStable(es)) == multiset(es)
  {
    if es != [] {
      SortKeeps(es[..|es| - 1]);
      SortStep(es);
      LastIsOneOfThem(es);
    }
  }

  lemma {:induction false} SortIsOrdered(es: seq<Endpoint>)
    ensures Ordered(SortStable(es))
  {
    if es != [] {
      SortIsOrdered(es[..|es| - 1]);
      PlacedIsOrdered(SortStable(es[..|es| - 1]), es[|es| - 1]);
    }
  }

  // ---- classification ------------------------------------------------------

  predicate Recognised(o: Object) { o.name != "" && o.namespace != "" && !FlavorOf(o).Unknown? }

  function EndpointOf(o: Object): Endpoint { Endpoint(FlavorOf(o), o.namespace, o.name, IsScrapeTarget(o.name)) }

  function Endpoints(objects: seq<Object>): seq<Endpoint> {
    if objects == [] then []
    else
      var last := objects[|objects| - 1];
      Endpoints(objects[..|objects| - 1]) + if Recognised(last) then [EndpointOf(last)] else []
  }

  method Classify(objects: seq<Object>) returns (out: seq<Endpoint>)
    ensures Ordered(out) && multiset(out) == multiset(Endpoints(objects))
    ensures forall k :: Standings(out, k) == Standings(Endpoints(objects), k)
    ensures forall i, j :: 0 <= i < j < |out| && out[i].scrapeTarget ==> out[j].scrapeTarget
  {
    out := [];
    for n := 0 to |objects|
      invariant out == Endpoints(objects[..n])
    {
      assert objects[..n + 1][..n] == objects[..n];
      var o := objects[n];
      if o.name == "" || o.namespace == "" { continue; }
      var f := FlavorOf(o);
      if f.Unknown? { continue; }
      out := out + [Endpoint(f, o.namespace, o.name, IsScrapeTarget(o.name))];
    }
    assert objects[..|objects|] == objects;
    SortKeeps(out);
    SortIsOrdered(out);
    forall k ensures Standings(SortStable(out), k) == Standings(out, k) { EqualsKeepTheirOrder(out, k); }
    out := SortStable(out);
  }

  // ---- what the flavors and the order are for ------------------------------

  /** What a Service is recognised by: its name and two labels, in lower case. */
  function Words(o: Object): string { Lower(o.name) + " " + Lower(o.appName + " " + o.app) }

  lemma ContainedIn(text: string, part: string, piece: string)
    requires Contains(text, part) && Contains(part, piece)
    ensures Contains(text, piece)
  {
    var i :| 0 <= i <= |text| && part <= text[i..];
    var j :| 0 <= j <= |part| && piece <= part[j..];
    assert text[i..][..|part|] == part;
    assert text[i + j..] == text[i..][j..];
    assert piece <= text[i + j..];
  }

  lemma ManagersAreManagers()
    ensures Contains("vmalertmanager", "alertmanager")
  {
    assert "alertmanager" <= "vmalertmanager"[2..];
  }

  /** A Service is an alert source exactly when something about it says alertmanager or vmalert. */
  lemma AlertSourcesAre(o: Object)
    ensures EndpointOf(o).IsAlertSource() <==> Contains(Words(o), "alertmanager") || Contains(Words(o), "vmalert")
  {
    ManagersAreManagers();
    if Contains(Words(o), "vmalertmanager") { ContainedIn(Words(o), "vmalertmanager", "alertmanager"); }
  }

  /** And a candidate at all exactly when it has a name, a namespace and one of nine words. */
  lemma CandidatesAre(o: Object)
    ensures Recognised(o) <==>
              && o.name != "" && o.namespace != ""
              && (|| Contains(Words(o), "alertmanager") || Contains(Words(o), "vmalert") || Contains(Words(o), "prometheus")
                  || Contains(Words(o), "thanos") || Contains(Words(o), "mimir") || Contains(Words(o), "victoria")
                  || Contains(Words(o), "vmsingle") || Contains(Words(o), "vmselect") || Contains(Words(o), "vmauth"))
    ensures EndpointOf(o).name == o.name && EndpointOf(o).namespace == o.namespace
  {
    AlertSourcesAre(o);
  }

  const VictoriaWords := ["vmsingle", "vmselect", "victoria", "vmauth"]

  predicate SaysVictoria(o: Object) { exists i :: 0 <= i < |VictoriaWords| && Contains(Words(o), VictoriaWords[i]) }

  /** The kind of a candidate for metrics: the one whose words it says, and of several the more specific one. */
  lemma FlavorsMean(o: Object)
    requires !EndpointOf(o).IsAlertSource()
    ensures var flavor := EndpointOf(o).flavor;
            && (flavor.VictoriaMetrics? <==> SaysVictoria(o))
            && (flavor.Thanos? <==> Contains(Words(o), "thanos") && !SaysVictoria(o))
            && (flavor.Mimir? <==> Contains(Words(o), "mimir") && !Contains(Words(o), "thanos") && !SaysVictoria(o))
            && (flavor.Prometheus? <==>
                  Contains(Words(o), "prometheus")
                  && !Contains(Words(o), "mimir") && !Contains(Words(o), "thanos") && !SaysVictoria(o))
  {
    AlertSourcesAre(o);
    assert VictoriaWords[0] == "vmsingle" && VictoriaWords[1] == "vmselect";
    assert VictoriaWords[2] == "victoria" && VictoriaWords[3] == "vmauth";
  }

  predicate Headless(name: string) { Contains(Lower(name), "operated") || Contains(Lower(name), "headless") }

  predicate Serves(name: string) {
    || Contains(Lower(name), "server") || Contains(Lower(name), "vmsingle")
    || Contains(Lower(name), "vmselect") || Contains(Lower(name), "query-frontend")
  }

  predicate SameSort(a: Endpoint, b: Endpoint) {
    && a.scrapeTarget == b.scrapeTarget && Headless(a.name) == Headless(b.name)
    && (Headless(a.name) || Serves(a.name) == Serves(b.name))
  }

  /**
   Of two candidates in a list, one that is not merely scraped stands before one that is; then a
   query service before any other, and any other before a headless one; then by namespace and name.
   */
  lemma OrderMeans(es: seq<Endpoint>, i: nat, j: nat)
    requires Ordered(es) && i < |es| && j < |es|
    ensures var a, b := es[i], es[j];
            && (!a.scrapeTarget && b.scrapeTarget ==> i < j)
            && (a.scrapeTarget == b.scrapeTarget && !Headless(a.name) && Headless(b.name) ==> i < j)
            && (a.scrapeTarget == b.scrapeTarget && !Headless(a.name) && Serves(a.name) && !Headless(b.name) && !Serves(b.name) ==> i < j)
            && (SameSort(a, b) && TextLess(a.namespace, b.namespace) ==> i < j)
            && (SameSort(a, b) && a.namespace == b.namespace && TextLess(a.name, b.name) ==> i < j)
  {
    var a, b := es[i], es[j];
    TextTotal(a.namespace, b.namespace);
    TextTotal(a.name, b.name);
    if j < i { assert !Less(a, b); }
  }

  predicate Names(o: Object, word: string) { Contains(Lower(o.name), word) }

  /** What marks a Service that only exposes metrics for something else to scrape: its own name, whatever its labels say. */
  lemma ScrapeTargetsAre(o: Object)
    ensures EndpointOf(o).scrapeTarget <==> exists word :: word in ScrapeTargetNames && Names(o, word)
  {
    if word :| word in ScrapeTargetNames && Names(o, word) {
      var i :| 0 <= i < |ScrapeTargetNames| && ScrapeTargetNames[i] == word;
      assert Contains(Lower(o.name), ScrapeTargetNames[i]);
    }
    if EndpointOf(o).scrapeTarget {
      var i :| 0 <= i < |ScrapeTargetNames| && Contains(Lower(o.name), ScrapeTargetNames[i]);
      assert Names(o, ScrapeTargetNames[i]);
    }
  }

  /** The n-th Service gives this candidate. */
  predicate Gives(objects: seq<Object>, n: nat, e: Endpoint)
    requires n < |objects|
  {
    Recognised(objects[n]) && EndpointOf(objects[n]) == e
  }

  lemma EndpointsAppended(objects: seq<Object>, o: Object)
    ensures Recognised(o) ==> Endpoints(objects + [o]) == Endpoints(objects) + [EndpointOf(o)]
    ensures !Recognised(o) ==> Endpoints(objects + [o]) == Endpoints(objects)
  {
    assert (objects + [o])[..|objects|] == objects;
    assert Endpoints(objects) + [] == Endpoints(objects);
  }

  /** The candidates are the Services recognised as such, and nothing else. */
  lemma {:induction false} EndpointsAre(objects: seq<Object>, e: Endpoint)
    ensures e in Endpoints(objects) <==> exists n :: 0 <= n < |objects| && Gives(objects, n, e)
  {
    if objects != [] {
      var front, last := objects[..|objects| - 1], objects[|objects| - 1];
      EndpointsAre(front, e);
      EndpointsAppended(front, last);
      assert objects == front + [last];
      MoreGive(front, last, e);
    }
  }

  lemma MoreGive(objects: seq<Object>, o: Object, e: Endpoint)
    ensures (exists n :: 0 <= n < |objects + [o]| && Gives(objects + [o], n, e)) <==>
            (exists n :: 0 <= n < |objects| && Gives(objects, n, e)) || (Recognised(o) && EndpointOf(o) == e)
  {
    var all := objects + [o];
    assert Gives(all, |objects|, e) <==> Recognised(o) && EndpointOf(o) == e;
    assert forall n :: 0 <= n < |objects| ==> (Gives(all, n, e) <==> Gives(objects, n, e));
  }
}
