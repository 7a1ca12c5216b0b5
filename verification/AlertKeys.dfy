/** The identity an alert keeps across firings. */
module AlertKeys {
  import opened Alerts

  const NUL := '\U{0}'

  datatype Parts = Parts(name: string, namespace: string, resource: string)

  function Normal(a: Alert): Parts {
    Parts(Lower(Trim(a.name)), Lower(Trim(a.namespace)), Lower(Trim(a.resource)))
  }

  function Glue(part: string, rest: string): string { part + [NUL] + rest }

  /** The text that is hashed into the key. The hash is taken to be injective, so the text stands for it. */
  function Join(p: Parts): string { Glue(p.name, Glue(p.namespace, p.resource)) }

  function Key(a: Alert): string { "auto:1:" + Join(Normal(a)) }

  predicate SameAlert(a: Alert, b: Alert) { Key(a) == Key(b) }

  predicate NoNul(p: Parts) { NUL !in p.name && NUL !in p.namespace && NUL !in p.resource }

  lemma SplitsOnce(a: string, x: string, b: string, y: string)
    requires Glue(a, x) == Glue(b, y)
    requires NUL !in a && NUL !in b
    ensures a == b && x == y
  {
    var s := Glue(a, x);
    assert s[|a|] == NUL && s[|b|] == NUL;
    assert forall i :: 0 <= i < |a| ==> s[i] == a[i] && s[i] != NUL;
    assert forall i :: 0 <= i < |b| ==> s[i] == b[i] && s[i] != NUL;
    assert |a| == |b|;
    assert a == s[..|a|] && b == s[..|b|];
    assert x == s[|a| + 1..] && y == s[|b| + 1..];
  }

  function Nuls(s: string): nat {
    if s == "" then 0 else Nuls(s[..|s| - 1]) + if s[|s| - 1] == NUL then 1 else 0
  }

  lemma {:induction false} NulsConcat(a: string, b: string)
    ensures Nuls(a + b) == Nuls(a) + Nuls(b)
  {
    if b == "" {
      assert a + b == a;
    } else {
      assert (a + b)[..|a + b| - 1] == a + b[..|b| - 1];
      NulsConcat(a, b[..|b| - 1]);
    }
  }

  lemma {:induction false} NulsIn(s: string)
    ensures NUL in s <==> Nuls(s) > 0
  {
    if s != "" {
      NulsIn(s[..|s| - 1]);
      assert s == s[..|s| - 1] + [s[|s| - 1]];
    }
  }

  lemma GlueCounts(a: string, b: string)
    ensures Nuls(Glue(a, b)) == 1 + Nuls(a) + Nuls(b)
  {
    NulsConcat(a + [NUL], b);
    NulsConcat(a, [NUL]);
    assert [NUL][..0] == "";
  }

  lemma JoinCounts(p: Parts)
    ensures NoNul(p) <==> Nuls(Join(p)) == 2
  {
    GlueCounts(p.name, Glue(p.namespace, p.resource));
    GlueCounts(p.namespace, p.resource);
    NulsIn(p.name);
    NulsIn(p.namespace);
    NulsIn(p.resource);
  }

  lemma JoinInjective(p: Parts, q: Parts)
    requires NoNul(p) && Join(p) == Join(q)
    ensures p == q
  {
    JoinCounts(p);
    JoinCounts(q);
    SplitsOnce(p.name, Glue(p.namespace, p.resource), q.name, Glue(q.namespace, q.resource));
    SplitsOnce(p.namespace, p.resource, q.namespace, q.resource);
  }

  function Cut(s: string): (r: (string, string))
    requires NUL in s
    ensures s == Glue(r.0, r.1)
  {
    if s[0] == NUL then ("", s[1..]) else (var r := Cut(s[1..]); ([s[0]] + r.0, r.1))
  }

  lemma GlueAssociates(a: string, b: string, c: string)
    ensures Glue(Glue(a, b), c) == Glue(a, Glue(b, c))
  {
  }

  /** Other parts with the same text, when some part holds the separator. */
  lemma Resplit(p: Parts) returns (q: Parts)
    requires !NoNul(p)
    ensures q != p && Join(q) == Join(p)
  {
    if NUL in p.name {
      var r := Cut(p.name);
      GlueAssociates(r.0, r.1, Glue(p.namespace, p.resource));
      q := Parts(r.0, r.1, Glue(p.namespace, p.resource));
      assert |q.name| < |p.name|;
    } else if NUL in p.namespace {
      var r := Cut(p.namespace);
      GlueAssociates(r.0, r.1, p.resource);
      q := Parts(p.name, r.0, Glue(r.1, p.resource));
      assert |q.namespace| < |p.namespace|;
    } else {
      var r := Cut(p.resource);
      GlueAssociates(p.namespace, r.0, r.1);
      q := Parts(p.name, Glue(p.namespace, r.0), r.1);
      assert |q.resource| < |p.resource|;
    }
  }

  /** The joined text identifies three parts exactly when none of them holds the separator. */
  lemma JoinIdentifiesExactly(p: Parts)
    ensures NoNul(p) <==> forall q: Parts :: Join(q) == Join(p) ==> q == p
  {
    if NoNul(p) {
      forall q: Parts | Join(q) == Join(p)
        ensures q == p
      {
        JoinInjective(p, q);
      }
    } else {
      var q := Resplit(p);
    }
  }

  // ---- what normal parts look like -----------------------------------------

  /** Already trimmed and in lower case. */
  predicate Clean(s: string) {
    && (s != "" ==> !IsSpace(s[0]) && !IsSpace(s[|s| - 1]))
    && forall i :: 0 <= i < |s| ==> LowerChar(s[i]) == s[i]
  }

  predicate CleanParts(p: Parts) { Clean(p.name) && Clean(p.namespace) && Clean(p.resource) }

  lemma {:induction false} TrimLeftEnds(s: string)
    ensures var r := TrimLeft(s, IsSpace); r != "" ==> !IsSpace(r[0])
    ensures s != "" && !IsSpace(s[0]) ==> TrimLeft(s, IsSpace) == s
  {
    if s != "" && IsSpace(s[0]) { TrimLeftEnds(s[1..]); }
  }

  lemma {:induction false} TrimRightEnds(s: string)
    ensures var r := TrimRight(s, IsSpace);
            (r != "" ==> !IsSpace(r[|r| - 1])) && |r| <= |s| && r == s[..|r|]
    ensures s != "" && !IsSpace(s[|s| - 1]) ==> TrimRight(s, IsSpace) == s
  {
    if s != "" && IsSpace(s[|s| - 1]) { TrimRightEnds(s[..|s| - 1]); }
  }

  lemma LowerIsNoSpace(c: char)
    ensures IsSpace(LowerChar(c)) == IsSpace(c) && LowerChar(LowerChar(c)) == LowerChar(c)
  {
  }

  lemma NormalIsClean(s: string)
    ensures Clean(Lower(Trim(s)))
  {
    var left := TrimLeft(s, IsSpace);
    TrimLeftEnds(s);
    TrimRightEnds(left);
    var t, r := Trim(s), Lower(Trim(s));
    forall i | 0 <= i < |t| ensures r[i] == LowerChar(t[i]) && LowerChar(r[i]) == r[i] { LowerIsNoSpace(t[i]); }
    if t != "" {
      assert t[0] == left[0];
      LowerIsNoSpace(t[0]);
      LowerIsNoSpace(t[|t| - 1]);
    }
  }

  lemma CleanIsNormal(s: string)
    requires Clean(s)
    ensures Lower(Trim(s)) == s
  {
    TrimLeftEnds(s);
    TrimRightEnds(s);
  }

  // ---- which alerts are told apart -----------------------------------------

  /** A NUL with no space beside it: trimming would leave both of its sides as they are. */
  predicate Splits(s: string, i: nat) {
    && i < |s| && s[i] == NUL
    && (i > 0 ==> !IsSpace(s[i - 1]))
    && (i + 1 < |s| ==> !IsSpace(s[i + 1]))
  }

  predicate HoldsASplit(s: string) { exists i :: 0 <= i < |s| && Splits(s, i) }

  predicate Ambiguous(p: Parts) { HoldsASplit(p.name) || HoldsASplit(p.namespace) || HoldsASplit(p.resource) }

  lemma CleanGlue(a: string, b: string)
    requires Clean(a) && Clean(b)
    ensures Clean(Glue(a, b))
  {
    var s := Glue(a, b);
    assert forall i :: 0 <= i < |a| ==> s[i] == a[i];
    assert s[|a|] == NUL;
    assert forall i :: 0 <= i < |b| ==> s[|a| + 1 + i] == b[i];
    forall i | 0 <= i < |s|
      ensures LowerChar(s[i]) == s[i]
    {
      if i > |a| { assert s[i] == b[i - |a| - 1]; }
    }
    if b != "" { assert s[|s| - 1] == b[|b| - 1]; }
  }

  lemma CleanCut(s: string, i: nat)
    requires Clean(s) && Splits(s, i)
    ensures Clean(s[..i]) && Clean(s[i + 1..]) && s == Glue(s[..i], s[i + 1..])
  {
  }

  /** Where clean texts are glued together, the separator splits. */
  lemma GlueSplits(a: string, b: string)
    requires Clean(a) && Clean(b)
    ensures Splits(Glue(a, b), |a|)
  {
    var s := Glue(a, b);
    if a != "" { assert s[|a| - 1] == a[|a| - 1]; }
    if b != "" { assert s[|a| + 1] == b[0]; }
  }

  /** Every other split of a glued text lies within one of its sides. */
  lemma SplitsWithin(a: string, b: string, i: nat)
    requires Splits(Glue(a, b), i) && i != |a|
    ensures i < |a| ==> Splits(a, i)
    ensures i > |a| ==> Splits(b, i - |a| - 1)
  {
    var s := Glue(a, b);
    assert forall j :: 0 <= j < |a| ==> s[j] == a[j];
    assert forall j :: 0 <= j < |b| ==> s[|a| + 1 + j] == b[j];
  }

  /** A split of the rest, as a split of the whole. */
  lemma SplitsShift(a: string, b: string, i: nat)
    requires Clean(a) && Splits(b, i)
    ensures Splits(Glue(a, b), |a| + 1 + i)
  {
    var s := Glue(a, b);
    assert forall j :: 0 <= j < |b| ==> s[|a| + 1 + j] == b[j];
    assert s[|a|] == NUL;
  }

  /** A place where the text splits is one of the two separators, or inside a part. */
  lemma SplitsAreSeparators(p: Parts, i: nat)
    requires Splits(Join(p), i) && !Ambiguous(p)
    ensures i == |p.name| || i == |p.name| + 1 + |p.namespace|
  {
    var rest := Glue(p.namespace, p.resource);
    if i != |p.name| {
      SplitsWithin(p.name, rest, i);
      if i > |p.name| && i - |p.name| - 1 != |p.namespace| {
        SplitsWithin(p.namespace, p.resource, i - |p.name| - 1);
      }
    }
  }

  /** Clean parts that split nowhere else are the only clean parts with their text. */
  lemma UnambiguousJoin(p: Parts, q: Parts)
    requires CleanParts(q) && !Ambiguous(p) && Join(p) == Join(q)
    ensures p == q
  {
    var rest := Glue(q.namespace, q.resource);
    CleanGlue(q.namespace, q.resource);
    GlueSplits(q.name, rest);
    GlueSplits(q.namespace, q.resource);
    SplitsShift(q.name, rest, |q.namespace|);
    SplitsAreSeparators(p, |q.name|);
    SplitsAreSeparators(p, |q.name| + 1 + |q.namespace|);
    SameCut(p, q);
  }

  lemma SameCut(p: Parts, q: Parts)
    requires Join(p) == Join(q) && |p.name| == |q.name| && |p.namespace| == |q.namespace|
    ensures p == q
  {
    var s, n, m := Join(p), |p.name|, |p.name| + 1 + |p.namespace|;
    assert p.name == s[..n] && q.name == s[..n];
    assert p.namespace == s[n + 1..m] && q.namespace == s[n + 1..m];
    assert p.resource == s[m + 1..] && q.resource == s[m + 1..];
  }

  /** Other clean parts with the same text. */
  lemma CleanResplit(p: Parts) returns (q: Parts)
    requires CleanParts(p) && Ambiguous(p)
    ensures CleanParts(q) && q != p && Join(q) == Join(p)
  {
    if HoldsASplit(p.name) {
      var i :| 0 <= i < |p.name| && Splits(p.name, i);
      CleanCut(p.name, i);
      CleanGlue(p.namespace, p.resource);
      GlueAssociates(p.name[..i], p.name[i + 1..], Glue(p.namespace, p.resource));
      q := Parts(p.name[..i], p.name[i + 1..], Glue(p.namespace, p.resource));
      assert |q.name| < |p.name|;
    } else if HoldsASplit(p.namespace) {
      var i :| 0 <= i < |p.namespace| && Splits(p.namespace, i);
      CleanCut(p.namespace, i);
      CleanGlue(p.namespace[i + 1..], p.resource);
      GlueAssociates(p.namespace[..i], p.namespace[i + 1..], p.resource);
      q := Parts(p.name, p.namespace[..i], Glue(p.namespace[i + 1..], p.resource));
      assert |q.namespace| < |p.namespace|;
    } else {
      var i :| 0 <= i < |p.resource| && Splits(p.resource, i);
      CleanCut(p.resource, i);
      CleanGlue(p.namespace, p.resource[..i]);
      GlueAssociates(p.namespace, p.resource[..i], p.resource[i + 1..]);
      q := Parts(p.name, Glue(p.namespace, p.resource[..i]), p.resource[i + 1..]);
      assert |q.resource| < |p.resource|;
    }
  }

  lemma KeyIsTheText(a: Alert, b: Alert)
    ensures SameAlert(a, b) <==> Join(Normal(a)) == Join(Normal(b))
  {
    assert Join(Normal(a)) == Key(a)[7..] && Join(Normal(b)) == Key(b)[7..];
  }

  lemma NormalIsCleanParts(a: Alert)
    ensures CleanParts(Normal(a))
  {
    NormalIsClean(a.name);
    NormalIsClean(a.namespace);
    NormalIsClean(a.resource);
  }

  lemma OtherAlert(a: Alert) returns (b: Alert)
    requires Ambiguous(Normal(a))
    ensures SameAlert(a, b) && Normal(a) != Normal(b)
  {
    NormalIsCleanParts(a);
    var q := CleanResplit(Normal(a));
    b := a.(name := q.name, namespace := q.namespace, resource := q.resource);
    CleanIsNormal(q.name);
    CleanIsNormal(q.namespace);
    CleanIsNormal(q.resource);
    KeyIsTheText(a, b);
  }

  /**
   Being the same alert means to agree in name, namespace and resource up to case and outer
   space, exactly for the alerts that hold no NUL there other than beside a space.
   */
  lemma SameAlertMeans(a: Alert)
    ensures (forall b: Alert :: SameAlert(a, b) <==> Normal(a) == Normal(b)) <==> !Ambiguous(Normal(a))
  {
    if Ambiguous(Normal(a)) {
      var b := OtherAlert(a);
    } else {
      forall b: Alert
        ensures SameAlert(a, b) <==> Normal(a) == Normal(b)
      {
        KeyIsTheText(a, b);
        if SameAlert(a, b) {
          NormalIsCleanParts(b);
          UnambiguousJoin(Normal(a), Normal(b));
        }
      }
    }
  }

  // ---- what a key looks at, and what it does not ----------------------------

  /** Severity, kind, summary and labels are no part of an alert's identity. */
  lemma OtherFieldsDoNotMatter(a: Alert, severity: string, kind: string, summary: string, labels: map<string, string>)
    ensures SameAlert(a, a.(severity := severity, kind := kind, summary := summary, labels := labels))
  {
  }

  /** Neither are the case of its letters nor the space around its name, namespace and resource. */
  lemma CaseAndSpaceDoNotMatter(a: Alert, b: Alert)
    requires EqualFold(Trim(a.name), Trim(b.name)) && EqualFold(Trim(a.namespace), Trim(b.namespace))
    requires EqualFold(Trim(a.resource), Trim(b.resource))
    ensures SameAlert(a, b)
  {
  }

  lemma CleanIsSplitless(s: string)
    requires NUL !in s
    ensures !HoldsASplit(s)
  {
  }

  /** But a difference in any one of the three is a different alert, where no NUL is about. */
  lemma DifferencesMatter(a: Alert, b: Alert)
    requires NUL !in Lower(Trim(a.name)) && NUL !in Lower(Trim(a.namespace)) && NUL !in Lower(Trim(a.resource))
    ensures SameAlert(a, b) <==>
              && EqualFold(Trim(a.name), Trim(b.name))
              && EqualFold(Trim(a.namespace), Trim(b.namespace))
              && EqualFold(Trim(a.resource), Trim(b.resource))
  {
    CleanIsSplitless(Lower(Trim(a.name)));
    CleanIsSplitless(Lower(Trim(a.namespace)));
    CleanIsSplitless(Lower(Trim(a.resource)));
    SameAlertMeans(a);
  }
}
