/**
 Per-cluster rules: which alerts are shown, which open an investigation by themselves,
 and how urgent each one is. What a regular expression matches is a parameter; one that
 does not compile matches nothing.
 */
module Rules {
  import opened Alerts
  import opened Runs

  type Pattern = (string, string) -> bool

  const DefaultPriority := "P2"

  datatype Match = Match(
    name: string,
    severity: seq<string>,
    namespace: seq<string>,
    kind: seq<string>,
    labels: map<string, string>,
    labelsRegex: map<string, string>)
  {
    predicate IsEmpty() {
      name == "" && severity == [] && namespace == [] && kind == [] && labels == map[] && labelsRegex == map[]
    }

    predicate Matches(re: Pattern, a: Alert) {
      && !IsEmpty()
      && (name != "" ==> Contains(Lower(a.name), Lower(name)))
      && OneOf(severity, a.severity)
      && OneOf(namespace, a.namespace)
      && OneOf(kind, a.kind)
      && (forall k :: k in labels ==> EqualFold(Label(a, k), labels[k]))
      && (forall k :: k in labelsRegex ==> re(labelsRegex[k], Label(a, k)))
    }
  }

  datatype Rule = Rule(catchAll: bool, name: string, cond: Match, priority: string, enabled: bool)

  datatype Config = Config(
    show: seq<Rule>,
    mute: seq<Rule>,
    auto: seq<Rule>,
    autoEnabled: bool,
    priority: seq<Rule>)

  datatype Decision = Decision(show: bool, priority: string, auto: bool, why: string, mutedBy: string)

  function Label(a: Alert, k: string): string { if k in a.labels then a.labels[k] else "" }

  predicate OneOf(want: seq<string>, got: string) {
    want == [] || exists i :: 0 <= i < |want| && EqualFold(Trim(want[i]), got)
  }

  /** An enabled rule takes an alert it matches, or any alert when it is a catch-all without conditions. */
  predicate Claims(re: Pattern, r: Rule, a: Alert) {
    r.enabled && ((r.catchAll && r.cond.IsEmpty()) || r.cond.Matches(re, a))
  }

  /** A rule that counts as one an operator has finished writing. */
  predicate Active(r: Rule) { r.enabled && (r.catchAll || !r.cond.IsEmpty()) }

  function AnyMatch(re: Pattern, rs: seq<Rule>, a: Alert): Option<Rule> {
    if rs == [] then None
    else if Claims(re, rs[0], a) then Some(rs[0])
    else AnyMatch(re, rs[1..], a)
  }

  predicate HasEnabled(rs: seq<Rule>) { exists i :: 0 <= i < |rs| && Active(rs[i]) }

  function RuleLabel(r: Rule): string { if Trim(r.name) != "" then r.name else "unnamed rule" }

  /** The rule found is the first in the list that claims the alert; none is found when none claims it. */
  lemma {:induction false} FirstClaimWins(re: Pattern, rs: seq<Rule>, a: Alert)
    ensures AnyMatch(re, rs, a).None? <==> forall i :: 0 <= i < |rs| ==> !Claims(re, rs[i], a)
    ensures AnyMatch(re, rs, a).Some? ==>
              exists i :: 0 <= i < |rs| && AnyMatch(re, rs, a) == Some(rs[i]) && Claims(re, rs[i], a)
                && forall j :: 0 <= j < i ==> !Claims(re, rs[j], a)
  {
    if rs != [] && !Claims(re, rs[0], a) {
      FirstClaimWins(re, rs[1..], a);
      assert forall i :: 1 <= i < |rs| ==> rs[i] == rs[1..][i - 1];
      if AnyMatch(re, rs[1..], a).Some? {
        var i :| 0 <= i < |rs[1..]| && AnyMatch(re, rs[1..], a) == Some(rs[1..][i]) && Claims(re, rs[1..][i], a)
                 && forall j :: 0 <= j < i ==> !Claims(re, rs[1..][j], a);
        assert forall j :: 0 <= j < i + 1 ==> !Claims(re, rs[j], a);
        assert AnyMatch(re, rs, a) == Some(rs[i + 1]) && Claims(re, rs[i + 1], a);
      } else {
        assert forall i :: 1 <= i < |rs| ==> !Claims(re, rs[i], a);
      }
    }
  }

  // ---- what a decision is --------------------------------------------------

  predicate Shown(re: Pattern, c: Config, a: Alert) {
    && (HasEnabled(c.show) ==> AnyMatch(re, c.show, a).Some?)
    && AnyMatch(re, c.mute, a).None?
  }

  predicate Automatic(re: Pattern, c: Config, a: Alert) {
    c.autoEnabled && Shown(re, c, a) && AnyMatch(re, c.auto, a).Some?
  }

  function Verdict(re: Pattern, c: Config, a: Alert): Decision {
    var first := AnyMatch(re, c.priority, a);
    var ranked := first.Some? && first.value.priority != "";
    var muting := AnyMatch(re, c.mute, a);
    Decision(
      Shown(re, c, a),
      if ranked then first.value.priority else DefaultPriority,
      Automatic(re, c, a),
      if ranked then RuleLabel(first.value) else "",
      if muting.Some? then RuleLabel(muting.value) else "")
  }

  method Decide(re: Pattern, c: Config, a: Alert) returns (d: Decision)
    ensures d == Verdict(re, c, a)
    ensures d.auto ==> d.show
  {
    d := Decision(true, DefaultPriority, false, "", "");
    if HasEnabled(c.show) {
      d := d.(show := AnyMatch(re, c.show, a).Some?);
    }
    var muting := AnyMatch(re, c.mute, a);
    if muting.Some? {
      d := d.(show := false, mutedBy := RuleLabel(muting.value));
    }
    var first := AnyMatch(re, c.priority, a);
    if first.Some? && first.value.priority != "" {
      d := d.(priority := first.value.priority, why := RuleLabel(first.value));
    }
    if c.autoEnabled && d.show {
      d := d.(auto := AnyMatch(re, c.auto, a).Some?);
    }
  }

  // ---- unfinished and disabled rules change nothing ------------------------

  datatype Which = ShowList | MuteList | AutoList | PriorityList

  function Insert(rs: seq<Rule>, i: nat, r: Rule): seq<Rule>
    requires i <= |rs|
  {
    rs[..i] + [r] + rs[i..]
  }

  function Listed(c: Config, which: Which): seq<Rule> {
    match which
    case ShowList => c.show
    case MuteList => c.mute
    case AutoList => c.auto
    case PriorityList => c.priority
  }

  function WithList(c: Config, which: Which, rs: seq<Rule>): Config {
    match which
    case ShowList => c.(show := rs)
    case MuteList => c.(mute := rs)
    case AutoList => c.(auto := rs)
    case PriorityList => c.(priority := rs)
  }

  lemma {:induction false} AnyMatchConcat(re: Pattern, xs: seq<Rule>, ys: seq<Rule>, a: Alert)
    ensures AnyMatch(re, xs + ys, a) == if AnyMatch(re, xs, a).Some? then AnyMatch(re, xs, a) else AnyMatch(re, ys, a)
  {
    if xs == [] {
      assert xs + ys == ys;
    } else {
      assert (xs + ys)[1..] == xs[1..] + ys;
      AnyMatchConcat(re, xs[1..], ys, a);
    }
  }

  lemma InsertedRule(re: Pattern, rs: seq<Rule>, i: nat, r: Rule, a: Alert)
    requires i <= |rs|
    ensures !Claims(re, r, a) ==> AnyMatch(re, Insert(rs, i, r), a) == AnyMatch(re, rs, a)
    ensures Claims(re, r, a) ==> AnyMatch(re, Insert(rs, i, r), a).Some?
  {
    assert AnyMatch(re, [r], a) == if Claims(re, r, a) then Some(r) else None;
    AnyMatchConcat(re, rs[..i] + [r], rs[i..], a);
    AnyMatchConcat(re, rs[..i], [r], a);
    AnyMatchConcat(re, rs[..i], rs[i..], a);
    assert rs[..i] + rs[i..] == rs;
  }

  lemma InactiveUncounted(rs: seq<Rule>, i: nat, r: Rule)
    requires i <= |rs| && !Active(r)
    ensures HasEnabled(Insert(rs, i, r)) <==> HasEnabled(rs)
  {
    var rs' := Insert(rs, i, r);
    if HasEnabled(rs) {
      var j :| 0 <= j < |rs| && Active(rs[j]);
      assert Active(rs'[if j < i then j else j + 1]);
    }
    if HasEnabled(rs') {
      var j :| 0 <= j < |rs'| && Active(rs'[j]);
      assert Active(rs[if j < i then j else j - 1]);
    }
  }

  const NoCondition := Match("", [], [], [], map[], map[])

  /** Switched off, or without a condition and not asking for everything. */
  predicate Unfinished(r: Rule) { !r.enabled || (!r.catchAll && r.cond == NoCondition) }

  /** A disabled rule, or an enabled one left blank, changes no decision wherever it is put. */
  lemma UnfinishedRuleIsInert(re: Pattern, c: Config, which: Which, i: nat, r: Rule, a: Alert)
    requires i <= |Listed(c, which)| && Unfinished(r)
    ensures Verdict(re, WithList(c, which, Insert(Listed(c, which), i, r)), a) == Verdict(re, c, a)
  {
    InsertedRule(re, Listed(c, which), i, r, a);
    InactiveUncounted(Listed(c, which), i, r);
  }

  /** And those are the only rules with that property: any other one decides something, for every alert. */
  lemma InertExactlyWhenUnfinished(re: Pattern, r: Rule, a: Alert)
    ensures Unfinished(r) <==>
              forall c: Config, which: Which, i: nat ::
                i <= |Listed(c, which)| ==>
                  Verdict(re, WithList(c, which, Insert(Listed(c, which), i, r)), a) == Verdict(re, c, a)
  {
    if Active(r) {
      var blank := Config([], [], [], false, []);
      var which := if Claims(re, r, a) then MuteList else ShowList;
      var c' := WithList(blank, which, Insert(Listed(blank, which), 0, r));
      assert Insert([], 0, r) == [r];
      assert Listed(c', which)[0] == r;
      assert Verdict(re, blank, a).show && !Verdict(re, c', a).show;
    } else {
      forall c: Config, which: Which, i: nat | i <= |Listed(c, which)|
        ensures Verdict(re, WithList(c, which, Insert(Listed(c, which), i, r)), a) == Verdict(re, c, a)
      {
        UnfinishedRuleIsInert(re, c, which, i, r, a);
      }
    }
  }

  /** A mute rule can only take alerts away, from the list and from the automatic ones. */
  lemma MutingOnlyShrinks(re: Pattern, c: Config, i: nat, r: Rule, a: Alert)
    requires i <= |c.mute|
    ensures var muted := Verdict(re, c.(mute := Insert(c.mute, i, r)), a);
            var before := Verdict(re, c, a);
            && (muted.show <==> before.show && !Claims(re, r, a))
            && (muted.auto <==> before.auto && !Claims(re, r, a))
            && muted.priority == before.priority && muted.why == before.why
  {
    InsertedRule(re, c.mute, i, r, a);
  }

  ghost predicate SameRules(xs: seq<Rule>, ys: seq<Rule>) {
    forall r :: r in xs <==> r in ys
  }

  lemma AnyMatchIsAboutMembers(re: Pattern, xs: seq<Rule>, ys: seq<Rule>, a: Alert)
    requires SameRules(xs, ys)
    ensures AnyMatch(re, xs, a).Some? <==> AnyMatch(re, ys, a).Some?
    ensures HasEnabled(xs) <==> HasEnabled(ys)
  {
    FirstClaimWins(re, xs, a);
    FirstClaimWins(re, ys, a);
    assert forall i :: 0 <= i < |xs| ==> xs[i] in ys;
    assert forall i :: 0 <= i < |ys| ==> ys[i] in xs;
  }

  /** Only the priority list is ordered: the other three may be reordered and repeated at will. */
  lemma OnlyPriorityIsOrdered(re: Pattern, c: Config, d: Config, a: Alert)
    requires SameRules(c.show, d.show) && SameRules(c.mute, d.mute) && SameRules(c.auto, d.auto)
    requires c.autoEnabled == d.autoEnabled && c.priority == d.priority
    ensures Verdict(re, c, a) == Verdict(re, d, a).(mutedBy := Verdict(re, c, a).mutedBy)
  {
    AnyMatchIsAboutMembers(re, c.show, d.show, a);
    AnyMatchIsAboutMembers(re, c.mute, d.mute, a);
    AnyMatchIsAboutMembers(re, c.auto, d.auto, a);
  }

  // ---- whole lists ---------------------------------------------------------

  function Visible(re: Pattern, c: Config, alerts: seq<Alert>): seq<Alert> {
    if alerts == [] then []
    else
      var front, last := alerts[..|alerts| - 1], alerts[|alerts| - 1];
      if Shown(re, c, last) then Visible(re, c, front) + [last] else Visible(re, c, front)
  }

  method Apply(re: Pattern, c: Config, alerts: seq<Alert>) returns (outA: seq<Alert>, outD: seq<Decision>)
    ensures outA == Visible(re, c, alerts)
    ensures |outD| == |outA| && forall i :: 0 <= i < |outA| ==> outD[i] == Verdict(re, c, outA[i]) && outD[i].show
  {
    outA, outD := [], [];
    for n := 0 to |alerts|
      invariant outA == Visible(re, c, alerts[..n])
      invariant |outD| == |outA| && forall i :: 0 <= i < |outA| ==> outD[i] == Verdict(re, c, outA[i]) && outD[i].show
    {
      assert alerts[..n + 1][..n] == alerts[..n];
      var d := Decide(re, c, alerts[n]);
      if !d.show { continue; }
      outA, outD := outA + [alerts[n]], outD + [d];
    }
    assert alerts[..|alerts|] == alerts;
  }

  /** `at` lists, in ascending order, where in the input the shown alerts stand. */
  ghost predicate Picks(re: Pattern, c: Config, alerts: seq<Alert>, out: seq<Alert>, at: seq<nat>) {
    && |at| == |out|
    && (forall i :: 0 <= i < |at| ==> at[i] < |alerts| && out[i] == alerts[at[i]])
    && (forall i, j :: 0 <= i < j < |at| ==> at[i] < at[j])
    && (forall n: nat :: n < |alerts| ==> (Shown(re, c, alerts[n]) <==> n in at))
  }

  lemma PicksOneMore(re: Pattern, c: Config, alerts: seq<Alert>, out: seq<Alert>, at: seq<nat>, last: Alert)
    requires Picks(re, c, alerts, out, at)
    ensures Shown(re, c, last) ==> Picks(re, c, alerts + [last], out + [last], at + [|alerts|])
    ensures !Shown(re, c, last) ==> Picks(re, c, alerts + [last], out, at)
  {
    var more := alerts + [last];
    assert forall n: nat :: n < |alerts| ==> more[n] == alerts[n];
    assert |alerts| !in at;
    if Shown(re, c, last) {
      forall n: nat | n < |more|
        ensures Shown(re, c, more[n]) <==> n in at + [|alerts|]
      {
        if n < |alerts| { assert Shown(re, c, alerts[n]) <==> n in at; }
      }
    } else {
      forall n: nat | n < |more|
        ensures Shown(re, c, more[n]) <==> n in at
      {
        if n < |alerts| { assert Shown(re, c, alerts[n]) <==> n in at; }
      }
    }
  }

  lemma VisibleOneMore(re: Pattern, c: Config, alerts: seq<Alert>, last: Alert)
    ensures Visible(re, c, alerts + [last]) ==
            if Shown(re, c, last) then Visible(re, c, alerts) + [last] else Visible(re, c, alerts)
  {
    assert (alerts + [last])[..|alerts|] == alerts;
  }

  lemma StillFiltered(re: Pattern, c: Config, alerts: seq<Alert>, at: seq<nat>, last: Alert) returns (at': seq<nat>)
    requires Picks(re, c, alerts, Visible(re, c, alerts), at)
    ensures Picks(re, c, alerts + [last], Visible(re, c, alerts + [last]), at')
  {
    var out := Visible(re, c, alerts);
    PicksOneMore(re, c, alerts, out, at, last);
    at' := if Shown(re, c, last) then at + [|alerts|] else at;
    assert Picks(re, c, alerts + [last], if Shown(re, c, last) then out + [last] else out, at');
    VisibleOneMore(re, c, alerts, last);
  }

  /** Apply keeps the order and drops exactly the alerts that are not shown. */
  lemma {:induction false} ApplyIsAnOrderedFilter(re: Pattern, c: Config, alerts: seq<Alert>) returns (at: seq<nat>)
    ensures Picks(re, c, alerts, Visible(re, c, alerts), at)
  {
    if alerts == [] {
      at := [];
    } else {
      var front := ApplyIsAnOrderedFilter(re, c, alerts[..|alerts| - 1]);
      at := StillFiltered(re, c, alerts[..|alerts| - 1], front, alerts[|alerts| - 1]);
      assert alerts[..|alerts| - 1] + [alerts[|alerts| - 1]] == alerts;
    }
  }

  lemma {:induction false} AllShownKept(re: Pattern, c: Config, alerts: seq<Alert>)
    requires forall i :: 0 <= i < |alerts| ==> Shown(re, c, alerts[i])
    ensures Visible(re, c, alerts) == alerts
  {
    if alerts != [] { AllShownKept(re, c, alerts[..|alerts| - 1]); }
  }

  /** Filtering a filtered list changes nothing. */
  lemma ApplyIsIdempotent(re: Pattern, c: Config, alerts: seq<Alert>)
    ensures Visible(re, c, Visible(re, c, alerts)) == Visible(re, c, alerts)
  {
    var at := ApplyIsAnOrderedFilter(re, c, alerts);
    AllShownKept(re, c, Visible(re, c, alerts));
  }

  // ---- what each condition does --------------------------------------------

  /** A condition that names one of several texts: in any case, and with space around the ones it lists. */
  predicate Lists(want: seq<string>, got: string) {
    exists i :: 0 <= i < |want| && Lower(Trim(want[i])) == Lower(got)
  }

  /**
   Each further condition of a rule keeps, of what it claimed without it, exactly what meets the
   condition: a part of the name, one of the severities, namespaces or kinds, a label, a pattern.
   */
  lemma EachConditionCounts(re: Pattern, m: Match, a: Alert, name: string, want: seq<string>)
    requires !m.IsEmpty()
    ensures m.name == "" && name != "" ==>
              (m.(name := name).Matches(re, a) <==> m.Matches(re, a) && Contains(Lower(a.name), Lower(name)))
    ensures m.severity == [] && want != [] ==>
              (m.(severity := want).Matches(re, a) <==> m.Matches(re, a) && Lists(want, a.severity))
    ensures m.namespace == [] && want != [] ==>
              (m.(namespace := want).Matches(re, a) <==> m.Matches(re, a) && Lists(want, a.namespace))
    ensures m.kind == [] && want != [] ==>
              (m.(kind := want).Matches(re, a) <==> m.Matches(re, a) && Lists(want, a.kind))
  {
  }

  lemma EachLabelCounts(re: Pattern, m: Match, a: Alert, k: string, value: string)
    requires !m.IsEmpty()
    ensures k !in m.labels ==>
              (m.(labels := m.labels[k := value]).Matches(re, a) <==> m.Matches(re, a) && Lower(Label(a, k)) == Lower(value))
    ensures k !in m.labelsRegex ==>
              (m.(labelsRegex := m.labelsRegex[k := value]).Matches(re, a) <==> m.Matches(re, a) && re(value, Label(a, k)))
  {
    var labels, patterns := m.labels[k := value], m.labelsRegex[k := value];
    assert k !in m.labels ==> forall j :: j in m.labels ==> j in labels && labels[j] == m.labels[j];
    assert k !in m.labelsRegex ==> forall j :: j in m.labelsRegex ==> j in patterns && patterns[j] == m.labelsRegex[j];
    assert k in labels && k in patterns;
  }

  /** With one condition alone a rule claims exactly what meets it; with none, nothing, unless it asks for everything. */
  lemma OneConditionAlone(re: Pattern, a: Alert, name: string, want: seq<string>)
    ensures name != "" ==> (NoCondition.(name := name).Matches(re, a) <==> Contains(Lower(a.name), Lower(name)))
    ensures want != [] ==> (NoCondition.(severity := want).Matches(re, a) <==> Lists(want, a.severity))
    ensures want != [] ==> (NoCondition.(namespace := want).Matches(re, a) <==> Lists(want, a.namespace))
    ensures want != [] ==> (NoCondition.(kind := want).Matches(re, a) <==> Lists(want, a.kind))
    ensures !NoCondition.Matches(re, a)
    ensures forall r: Rule :: r.cond == NoCondition ==> (Claims(re, r, a) <==> r.enabled && r.catchAll)
  {
  }

  /** A label the alert does not carry reads as the empty text. */
  lemma LabelMeans(a: Alert, k: string)
    ensures (k in a.labels ==> Label(a, k) == a.labels[k]) && (k !in a.labels ==> Label(a, k) == "")
  {
  }

  /** The first rule of a list that claims the alert. */
  predicate FirstClaim(re: Pattern, rs: seq<Rule>, a: Alert, i: nat) {
    i < |rs| && Claims(re, rs[i], a) && forall j :: 0 <= j < i ==> !Claims(re, rs[j], a)
  }

  lemma {:induction false} FoundIsFirst(re: Pattern, rs: seq<Rule>, a: Alert, i: nat)
    requires FirstClaim(re, rs, a, i)
    ensures AnyMatch(re, rs, a) == Some(rs[i])
  {
    if i > 0 {
      assert !Claims(re, rs[0], a);
      FoundIsFirst(re, rs[1..], a, i - 1);
    }
  }

  lemma {:induction false} OptInMeans(rs: seq<Rule>)
    ensures HasEnabled(rs) <==> exists i :: 0 <= i < |rs| && !Unfinished(rs[i])
  {
  }

  /**
   Everything a decision says. Shown: claimed by a show rule, if there is a finished one, and by
   no mute rule. Automatic: shown, with the switch on, and claimed by an auto rule. Its priority
   and the reason are those of the first priority rule that claims it, and P2 without a reason if
   none does or that one gives none; it was muted by the first mute rule that claims it.
   */
  lemma DecisionMeans(re: Pattern, c: Config, a: Alert, i: nat, j: nat)
    ensures var d := Verdict(re, c, a);
            && (d.show <==>
                  && ((exists k :: 0 <= k < |c.show| && !Unfinished(c.show[k])) ==>
                        exists k :: 0 <= k < |c.show| && Claims(re, c.show[k], a))
                  && forall k :: 0 <= k < |c.mute| ==> !Claims(re, c.mute[k], a))
            && (d.auto <==> c.autoEnabled && d.show && exists k :: 0 <= k < |c.auto| && Claims(re, c.auto[k], a))
            && (FirstClaim(re, c.priority, a, i) && c.priority[i].priority != "" ==>
                  d.priority == c.priority[i].priority && d.why == LabelOf(c.priority[i]))
            && (FirstClaim(re, c.priority, a, i) && c.priority[i].priority == "" ==> d.priority == "P2" && d.why == "")
            && ((forall k :: 0 <= k < |c.priority| ==> !Claims(re, c.priority[k], a)) ==> d.priority == "P2" && d.why == "")
            && (FirstClaim(re, c.mute, a, j) ==> d.mutedBy == LabelOf(c.mute[j]))
            && ((forall k :: 0 <= k < |c.mute| ==> !Claims(re, c.mute[k], a)) ==> d.mutedBy == "")
  {
    OptInMeans(c.show);
    FirstClaimWins(re, c.show, a);
    FirstClaimWins(re, c.mute, a);
    FirstClaimWins(re, c.auto, a);
    FirstClaimWins(re, c.priority, a);
    if FirstClaim(re, c.priority, a, i) {
      FoundIsFirst(re, c.priority, a, i);
      LabelsAgree(c.priority[i]);
    }
    if FirstClaim(re, c.mute, a, j) {
      FoundIsFirst(re, c.mute, a, j);
      LabelsAgree(c.mute[j]);
    }
  }

  /** A rule goes by its name, unless that is blank. */
  function LabelOf(r: Rule): string { if forall i :: 0 <= i < |r.name| ==> IsSpace(r.name[i]) then "unnamed rule" else r.name }

  lemma LabelsAgree(r: Rule)
    ensures RuleLabel(r) == LabelOf(r)
  {
    TrimMeans(r.name, IsSpace);
    if Trim(r.name) == "" {
      var i, j :| 0 <= i <= j <= |r.name| && Trim(r.name) == r.name[i..j]
                  && (forall k :: 0 <= k < i ==> IsSpace(r.name[k])) && (forall k :: j <= k < |r.name| ==> IsSpace(r.name[k]));
      assert i == j;
    } else {
      BlankIsTrimmed(r.name);
    }
  }

  lemma BlankIsTrimmed(s: string)
    requires Trim(s) != ""
    ensures exists i :: 0 <= i < |s| && !IsSpace(s[i])
  {
    TrimMeans(s, IsSpace);
    var i, j :| 0 <= i <= j <= |s| && Trim(s) == s[i..j]
                && (forall k :: 0 <= k < i ==> IsSpace(s[k])) && (forall k :: j <= k < |s| ==> IsSpace(s[k]));
    assert s[i] == Trim(s)[0];
  }
}
