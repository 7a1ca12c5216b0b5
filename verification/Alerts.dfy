/**
 A live alert, and the text operations its identity and the rules are built from.
 Letters are folded for ASCII only.
 */
module Alerts {

  datatype Alert = Alert(
    name: string,
    severity: string,
    namespace: string,
    kind: string,
    resource: string,
    summary: string,
    labels: map<string, string>)

  /** White space beyond Latin-1. */
  predicate WideSpace(c: char) {
    c == '\U{1680}' || '\U{2000}' <= c <= '\U{200A}' || c in "\U{2028}\U{2029}\U{202F}\U{205F}\U{3000}"
  }

  predicate IsSpace(c: char) { c == ' ' || '\t' <= c <= '\r' || c == '\U{85}' || c == '\U{A0}' || WideSpace(c) }

  function LowerChar(c: char): char {
    if 'A' <= c <= 'Z' then (c as int + 32) as char else c
  }

  function Lower(s: string): (r: string)
    ensures |r| == |s|
  {
    seq(|s|, i requires 0 <= i < |s| => LowerChar(s[i]))
  }

  function TrimLeft(s: string, space: char -> bool): string {
    if s != "" && space(s[0]) then TrimLeft(s[1..], space) else s
  }

  function TrimRight(s: string, space: char -> bool): string {
    if s != "" && space(s[|s| - 1]) then TrimRight(s[..|s| - 1], space) else s
  }

  function TrimBy(s: string, space: char -> bool): string { TrimRight(TrimLeft(s, space), space) }

  function Trim(s: string): string { TrimBy(s, IsSpace) }

  predicate EqualFold(a: string, b: string) { Lower(a) == Lower(b) }

  predicate Contains(text: string, part: string) {
    exists i :: 0 <= i <= |text| && part <= text[i..]
  }

  /** The order of strings, character by character. */
  predicate TextLess(a: string, b: string) {
    b != "" && (a == "" || a[0] < b[0] || (a[0] == b[0] && TextLess(a[1..], b[1..])))
  }

  lemma {:induction false} TextTotal(a: string, b: string)
    ensures a != b ==> TextLess(a, b) || TextLess(b, a)
    ensures !(TextLess(a, b) && TextLess(b, a))
    ensures TextLess(a, b) ==> a != b
  {
    if a != "" && b != "" {
      TextTotal(a[1..], b[1..]);
      assert a == [a[0]] + a[1..] && b == [b[0]] + b[1..];
    }
  }

  lemma {:induction false} TextTransitive(a: string, b: string, c: string)
    requires TextLess(a, b) && TextLess(b, c)
    ensures TextLess(a, c)
  {
    if a != "" && a[0] == b[0] && b[0] == c[0] { TextTransitive(a[1..], b[1..], c[1..]); }
  }

  // ---- what the text operations mean ---------------------------------------

  /** A letter in either case, and any other character only itself. */
  predicate SameLetter(c: char, d: char) {
    || c == d
    || ('A' <= c <= 'Z' && 'a' <= d <= 'z' && c as int - 'A' as int == d as int - 'a' as int)
    || ('A' <= d <= 'Z' && 'a' <= c <= 'z' && d as int - 'A' as int == c as int - 'a' as int)
  }

  /** Two texts fold to the same exactly when they agree letter by letter up to case. */
  lemma FoldMeans(a: string, b: string)
    ensures EqualFold(a, b) <==> |a| == |b| && forall i :: 0 <= i < |a| ==> SameLetter(a[i], b[i])
  {
    if EqualFold(a, b) {
      forall i | 0 <= i < |a| ensures SameLetter(a[i], b[i]) { assert Lower(a)[i] == Lower(b)[i]; }
    }
    if |a| == |b| && forall i :: 0 <= i < |a| ==> SameLetter(a[i], b[i]) {
      assert forall i :: 0 <= i < |a| ==> Lower(a)[i] == Lower(b)[i];
    }
  }

  /** The lower-case text is the same text in which no capital is left. */
  lemma LowerMeans(s: string)
    ensures EqualFold(Lower(s), s) && forall i :: 0 <= i < |s| ==> !('A' <= Lower(s)[i] <= 'Z')
  {
    assert forall i :: 0 <= i < |s| ==> Lower(Lower(s))[i] == Lower(s)[i];
    assert Lower(Lower(s)) == Lower(s);
  }

  /** What is left when the space at both ends is taken away: the most of it, and nothing else. */
  ghost predicate Stripped(s: string, r: string, space: char -> bool) {
    && (exists i, j :: 0 <= i <= j <= |s| && r == s[i..j]
          && (forall k :: 0 <= k < i ==> space(s[k])) && (forall k :: j <= k < |s| ==> space(s[k])))
    && (r != "" ==> !space(r[0]) && !space(r[|r| - 1]))
  }

  lemma {:induction false} LeftStripped(s: string, space: char -> bool) returns (i: nat)
    ensures i <= |s| && TrimLeft(s, space) == s[i..] && forall k :: 0 <= k < i ==> space(s[k])
    ensures i < |s| ==> !space(s[i])
  {
    if s != "" && space(s[0]) {
      var j := LeftStripped(s[1..], space);
      i := j + 1;
      assert s[1..][j..] == s[i..];
      forall k | 0 <= k < i ensures space(s[k]) { if k > 0 { assert s[1..][k - 1] == s[k]; } }
    } else {
      i := 0;
    }
  }

  lemma {:induction false} RightStripped(s: string, space: char -> bool) returns (j: nat)
    ensures j <= |s| && TrimRight(s, space) == s[..j] && forall k :: j <= k < |s| ==> space(s[k])
    ensures j > 0 ==> !space(s[j - 1])
  {
    if s != "" && space(s[|s| - 1]) {
      j := RightStripped(s[..|s| - 1], space);
      assert s[..|s| - 1][..j] == s[..j];
    } else {
      j := |s|;
      assert s[..j] == s;
    }
  }

  lemma TrimMeans(s: string, space: char -> bool)
    ensures Stripped(s, TrimBy(s, space), space)
  {
    var i := LeftStripped(s, space);
    var rest := s[i..];
    var j := RightStripped(rest, space);
    var r := TrimBy(s, space);
    assert r == rest[..j] && rest[..j] == s[i..i + j];
    forall k | i + j <= k < |s| ensures space(s[k]) { assert rest[k - i] == s[k]; }
    assert 0 <= i <= i + j <= |s| && r == s[i..i + j];
    if r != "" { assert r[0] == s[i] && r[|r| - 1] == rest[j - 1]; }
  }

  /** The characters that count as space. */
  lemma SpaceIs(c: char)
    ensures IsSpace(c) <==> c in {' ', '\t', '\n', '\U{0B}', '\U{0C}', '\r', '\U{85}', '\U{A0}',
                               '\U{1680}', '\U{2000}', '\U{2001}', '\U{2002}', '\U{2003}', '\U{2004}', '\U{2005}', '\U{2006}',
                               '\U{2007}', '\U{2008}', '\U{2009}', '\U{200A}', '\U{2028}', '\U{2029}', '\U{202F}', '\U{205F}', '\U{3000}'}
  {
  }

  lemma StandsThere(text: string, part: string, i: nat)
    requires i <= |text| && part <= text[i..]
    ensures text == text[..i] + part + text[i + |part|..]
  {
  }

  lemma ContainsMeans(text: string, part: string)
    ensures Contains(text, part) <==> exists a: string, b: string :: text == a + part + b
  {
    if Contains(text, part) {
      var i :| 0 <= i <= |text| && part <= text[i..];
      StandsThere(text, part, i);
    }
    if exists a: string, b: string :: text == a + part + b {
      var a: string, b: string :| text == a + part + b;
      assert text[|a|..] == part + b;
    }
  }
}
