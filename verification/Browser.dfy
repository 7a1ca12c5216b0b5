/** The browser's side of a run: the streamed list, and its merge with the ledger loaded over REST. */
module Browser {
  import opened Runs
  import opened Streams
  import StreamRace

  predicate Has(es: seq<Event>, n: int) { exists i :: 0 <= i < |es| && es[i].seqNo == n }

  predicate Below(es: seq<Event>, n: int) { forall i :: 0 <= i < |es| ==> es[i].seqNo < n }

  predicate Distinct(es: seq<Event>) { StreamRace.Distinct(es) }

  ghost predicate SameEntries(a: seq<Event>, b: seq<Event>) { forall e :: e in a <==> e in b }

  // ---- sorting by number ---------------------------------------------------

  function Insert(es: seq<Event>, e: Event): seq<Event> {
    if es == [] then [e]
    else if es[|es| - 1].seqNo <= e.seqNo then es + [e]
    else Insert(es[..|es| - 1], e) + [es[|es| - 1]]
  }

  /** The stable sort both functions below ask for. */
  function SortBySeq(es: seq<Event>): seq<Event> {
    if es == [] then [] else Insert(SortBySeq(es[..|es| - 1]), es[|es| - 1])
  }

  lemma AscendingSnoc(es: seq<Event>, e: Event)
    requires Ascending(es) && Below(es, e.seqNo)
    ensures Ascending(es + [e])
  {
  }

  lemma {:induction false} InsertMembers(es: seq<Event>, e: Event)
    ensures forall x :: x in Insert(es, e) <==> x in es || x == e
  {
    if es != [] {
      var front, last := es[..|es| - 1], es[|es| - 1];
      assert forall x :: x in es <==> x in front || x == last by { assert es == front + [last]; }
      InsertMembers(front, e);
    }
  }

  lemma {:induction false} InsertBelow(es: seq<Event>, e: Event, n: int)
    requires Below(es, n) && e.seqNo < n
    ensures Below(Insert(es, e), n)
  {
    if es != [] { InsertBelow(es[..|es| - 1], e, n); }
  }

  lemma {:induction false} InsertAscending(es: seq<Event>, e: Event)
    requires Ascending(es) && !Has(es, e.seqNo)
    ensures Ascending(Insert(es, e))
  {
    if es != [] {
      var front, last := es[..|es| - 1], es[|es| - 1];
      if last.seqNo > e.seqNo {
        InsertAscending(front, e);
        InsertBelow(front, e, last.seqNo);
        AscendingSnoc(Insert(front, e), last);
      } else {
        AscendingSnoc(es, e);
      }
    }
  }

  lemma {:induction false} SortedMembers(es: seq<Event>)
    ensures SameEntries(SortBySeq(es), es)
  {
    if es != [] {
      var front, last := es[..|es| - 1], es[|es| - 1];
      SortedMembers(front);
      InsertMembers(SortBySeq(front), last);
      assert forall x :: x in es <==> x in front || x == last by { assert es == front + [last]; }
    }
  }

  lemma SameNumbers(a: seq<Event>, b: seq<Event>, n: int)
    requires SameEntries(a, b) && Has(a, n)
    ensures Has(b, n)
  {
    var i :| 0 <= i < |a| && a[i].seqNo == n;
    assert a[i] in b;
  }

  lemma {:induction false} SortedAscending(es: seq<Event>)
    requires Distinct(es)
    ensures Ascending(SortBySeq(es))
  {
    if es != [] {
      var front, last := es[..|es| - 1], es[|es| - 1];
      SortedAscending(front);
      SortedMembers(front);
      assert !Has(front, last.seqNo);
      if Has(SortBySeq(front), last.seqNo) { SameNumbers(SortBySeq(front), front, last.seqNo); }
      InsertAscending(SortBySeq(front), last);
    }
  }

  lemma EmptyTogether(a: seq<Event>, b: seq<Event>)
    requires SameEntries(a, b)
    ensures a == [] ==> b == []
  {
    if b != [] { assert b[0] in b; }
  }

  lemma WithoutTheLast(es: seq<Event>)
    requires Ascending(es) && es != []
    ensures forall e :: e in es[..|es| - 1] <==> e in es && e != es[|es| - 1]
  {
    var front, last := es[..|es| - 1], es[|es| - 1];
    assert forall e :: e in es <==> e in front || e == last by { assert es == front + [last]; }
  }

  /** An ascending list is determined by the entries on it. */
  lemma {:induction false} AscendingIsUnique(a: seq<Event>, b: seq<Event>)
    requires Ascending(a) && Ascending(b) && SameEntries(a, b)
    ensures a == b
  {
    EmptyTogether(a, b);
    EmptyTogether(b, a);
    if a != [] {
      var x, y := a[|a| - 1], b[|b| - 1];
      assert x in b && y in a;
      assert x == y;
      WithoutTheLast(a);
      WithoutTheLast(b);
      var a', b' := a[..|a| - 1], b[..|b| - 1];
      assert SameEntries(a', b') by { assert forall e :: e in a' <==> e in a && e != x; }
      AscendingIsUnique(a', b');
      assert a == a' + [x] && b == b' + [y];
    }
  }

  // ---- the streamed list ---------------------------------------------------

  function Ingested(es: seq<Event>, e: Event): seq<Event> {
    if Has(es, e.seqNo) then es
    else if es == [] || es[|es| - 1].seqNo < e.seqNo then es + [e]
    else SortBySeq(es + [e])
  }

  function IngestAll(es: seq<Event>, arrivals: seq<Event>): seq<Event> {
    if arrivals == [] then es else Ingested(IngestAll(es, arrivals[..|arrivals| - 1]), arrivals[|arrivals| - 1])
  }

  lemma IngestedMeans(es: seq<Event>, e: Event)
    requires Ascending(es)
    ensures Ascending(Ingested(es, e))
    ensures forall x :: x in Ingested(es, e) <==> x in es || (x == e && !Has(es, e.seqNo))
    ensures forall n :: Has(Ingested(es, e), n) <==> Has(es, n) || n == e.seqNo
  {
    if !Has(es, e.seqNo) {
      if es == [] || es[|es| - 1].seqNo < e.seqNo {
        AscendingSnoc(es, e);
      } else {
        assert Distinct(es + [e]);
        SortedAscending(es + [e]);
        SortedMembers(es + [e]);
      }
      forall n
        ensures Has(Ingested(es, e), n) <==> Has(es + [e], n)
      {
        if Has(Ingested(es, e), n) { SameNumbers(Ingested(es, e), es + [e], n); }
        if Has(es + [e], n) { SameNumbers(es + [e], Ingested(es, e), n); }
      }
      HasSnoc(es, e);
    }
  }

  lemma IngestedBelow(es: seq<Event>, e: Event, n: int)
    requires Ascending(es) && Below(es, n) && e.seqNo < n
    ensures Below(Ingested(es, e), n)
  {
    IngestedMeans(es, e);
    var list := Ingested(es, e);
    forall i | 0 <= i < |list|
      ensures list[i].seqNo < n
    {
      assert list[i] in list;
    }
  }

  lemma HasIsBelow(es: seq<Event>, m: int, n: int)
    requires Below(es, n) && Has(es, m)
    ensures m < n
  {
  }

  lemma HasSnoc(es: seq<Event>, e: Event)
    ensures forall n :: Has(es + [e], n) <==> Has(es, n) || n == e.seqNo
  {
    forall n
      ensures Has(es + [e], n) <==> Has(es, n) || n == e.seqNo
    {
      assert (es + [e])[|es|] == e;
      if Has(es, n) {
        var i :| 0 <= i < |es| && es[i].seqNo == n;
        assert (es + [e])[i].seqNo == n;
      }
    }
  }

  /** The numbers seen are the numbers on the list. */
  ghost predicate Seen(seen: set<int>, es: seq<Event>) { forall n :: n in seen <==> Has(es, n) }

  lemma SeenAfter(seen: set<int>, es: seq<Event>, e: Event)
    requires Ascending(es) && Seen(seen, es)
    ensures Seen(seen + {e.seqNo}, Ingested(es, e))
    ensures e.seqNo in seen ==> Ingested(es, e) == es
  {
    IngestedMeans(es, e);
  }

  ghost predicate InStep(seen: set<int>, es: seq<Event>, lastSeq: int) {
    Ascending(es) && Seen(seen, es) && Below(es, lastSeq + 1)
  }

  function Higher(a: int, b: int): int { if a >= b then a else b }

  lemma IngestStep(seen: set<int>, es: seq<Event>, lastSeq: int, e: Event)
    requires InStep(seen, es, lastSeq)
    ensures InStep(seen + {e.seqNo}, Ingested(es, e), Higher(lastSeq, e.seqNo))
  {
    SeenAfter(seen, es, e);
    IngestedMeans(es, e);
    IngestedBelow(es, e, Higher(lastSeq, e.seqNo) + 1);
  }

  /** An entry already seen changes nothing; any other is appended, or sorted in if it is late. */
  lemma IngestCases(seen: set<int>, es: seq<Event>, lastSeq: int, e: Event)
    requires InStep(seen, es, lastSeq)
    ensures e.seqNo in seen ==>
              Ingested(es, e) == es && Higher(lastSeq, e.seqNo) == lastSeq && seen + {e.seqNo} == seen
    ensures e.seqNo !in seen ==>
              Ingested(es, e) == if es == [] || es[|es| - 1].seqNo < e.seqNo then es + [e] else SortBySeq(es + [e])
  {
    if e.seqNo in seen { HasIsBelow(es, e.seqNo, lastSeq + 1); }
  }

  /** The hook's state: the numbers seen, the list shown and the highest number. */
  class RunStream {
    var seen: set<int>
    var events: seq<Event>
    var lastSeq: int

    ghost predicate Valid()
      reads this
    {
      InStep(seen, events, lastSeq)
    }

    constructor (afterSeq: int)
      ensures Valid() && events == [] && lastSeq == afterSeq
    {
      seen, events, lastSeq := {}, [], afterSeq;
    }

    method Ingest(e: Event)
      requires Valid()
      modifies this
      ensures Valid()
      ensures events == Ingested(old(events), e)
      ensures lastSeq == Higher(old(lastSeq), e.seqNo)
      ensures lastSeq >= old(lastSeq) && lastSeq >= e.seqNo && (lastSeq == old(lastSeq) || lastSeq == e.seqNo)
    {
      IngestStep(seen, events, lastSeq, e);
      IngestCases(seen, events, lastSeq, e);
      if e.seqNo in seen { return; }
      var next := if |events| == 0 || events[|events| - 1].seqNo < e.seqNo then events + [e] else SortBySeq(events + [e]);
      assert next == Ingested(events, e);
      seen, events, lastSeq := seen + {e.seqNo}, next, Higher(lastSeq, e.seqNo);
    }

    /** Drops the buffer before a reconnect. */
    method Reset(afterSeq: int)
      modifies this
      ensures Valid() && events == [] && lastSeq == afterSeq
    {
      seen, events, lastSeq := {}, [], afterSeq;
    }
  }

  /** The arrival that came first under its number. */
  predicate FirstUnder(arrivals: seq<Event>, e: Event) {
    exists i :: 0 <= i < |arrivals| && arrivals[i] == e && forall j :: 0 <= j < i ==> arrivals[j].seqNo != e.seqNo
  }

  lemma FirstUnderSnoc(front: seq<Event>, last: Event, e: Event)
    ensures FirstUnder(front + [last], e) <==> FirstUnder(front, e) || (e == last && !Has(front, last.seqNo))
  {
    var all := front + [last];
    assert forall i :: 0 <= i < |front| ==> all[i] == front[i];
    assert all[|front|] == last;
    if FirstUnder(front, e) {
      var i :| 0 <= i < |front| && front[i] == e && forall j :: 0 <= j < i ==> front[j].seqNo != e.seqNo;
      assert all[i] == e;
    }
  }

  /** The list is ascending and holds, under every number ever received, exactly what arrived first. */
  lemma {:induction false} ListHoldsWhatArrived(arrivals: seq<Event>)
    ensures Ascending(IngestAll([], arrivals))
    ensures forall e :: e in IngestAll([], arrivals) <==> FirstUnder(arrivals, e)
    ensures forall n :: Has(IngestAll([], arrivals), n) <==> Has(arrivals, n)
  {
    if arrivals != [] {
      var front, last := arrivals[..|arrivals| - 1], arrivals[|arrivals| - 1];
      ListHoldsWhatArrived(front);
      IngestedMeans(IngestAll([], front), last);
      assert arrivals == front + [last];
      HasSnoc(front, last);
      forall e
        ensures e in IngestAll([], arrivals) <==> FirstUnder(arrivals, e)
      {
        FirstUnderSnoc(front, last, e);
      }
    }
  }

  /** One number, one entry: what the ledger guarantees of everything it sends. */
  ghost predicate Consistent(es: seq<Event>) { forall a, b :: a in es && b in es && a.seqNo == b.seqNo ==> a == b }

  lemma FirstIndex(arrivals: seq<Event>, k: nat) returns (i: nat)
    requires k < |arrivals|
    ensures i <= k && arrivals[i].seqNo == arrivals[k].seqNo
    ensures forall j :: 0 <= j < i ==> arrivals[j].seqNo != arrivals[k].seqNo
  {
    i := 0;
    while arrivals[i].seqNo != arrivals[k].seqNo
      invariant i <= k && forall j :: 0 <= j < i ==> arrivals[j].seqNo != arrivals[k].seqNo
      decreases k - i
    {
      i := i + 1;
    }
  }

  /** For a consistent delivery the list is the set of everything received. */
  lemma ListIsEverythingReceived(arrivals: seq<Event>)
    requires Consistent(arrivals)
    ensures Ascending(IngestAll([], arrivals)) && SameEntries(IngestAll([], arrivals), arrivals)
  {
    ListHoldsWhatArrived(arrivals);
    forall e | e in arrivals
      ensures FirstUnder(arrivals, e)
    {
      var k :| 0 <= k < |arrivals| && arrivals[k] == e;
      var i := FirstIndex(arrivals, k);
      assert arrivals[i] in arrivals;
    }
  }

  /** Two deliveries of the same entries, in any order and with any repetition, show the same list. */
  lemma ArrivalOrderIsIrrelevant(a: seq<Event>, b: seq<Event>)
    requires SameEntries(a, b) && Consistent(a)
    ensures IngestAll([], a) == IngestAll([], b)
  {
    ListIsEverythingReceived(a);
    ListIsEverythingReceived(b);
    AscendingIsUnique(IngestAll([], a), IngestAll([], b));
  }

  // ---- the merge -----------------------------------------------------------

  /** The last entry of a list under a number. */
  predicate LastUnder(es: seq<Event>, e: Event) {
    exists i :: 0 <= i < |es| && es[i] == e && forall j :: i < j < |es| ==> es[j].seqNo != e.seqNo
  }

  /** What a keyed merge keeps: the live entry under a number if there is one, else the ledger's. */
  predicate Kept(ledger: seq<Event>, live: seq<Event>, e: Event) {
    LastUnder(live, e) || (LastUnder(ledger, e) && !Has(live, e.seqNo))
  }

  lemma LastUnderSnoc(front: seq<Event>, last: Event, e: Event)
    ensures LastUnder(front + [last], e) <==> e == last || (LastUnder(front, e) && e.seqNo != last.seqNo)
  {
    var all := front + [last];
    assert forall i :: 0 <= i < |front| ==> all[i] == front[i];
    assert all[|front|] == last;
    if LastUnder(front, e) && e.seqNo != last.seqNo {
      var i :| 0 <= i < |front| && front[i] == e && forall j :: i < j < |front| ==> front[j].seqNo != e.seqNo;
      assert all[i] == e;
    }
  }

  lemma {:induction false} LastUnderConcat(a: seq<Event>, b: seq<Event>, e: Event)
    ensures LastUnder(a + b, e) <==> Kept(a, b, e)
  {
    if b == [] {
      assert a + b == a;
    } else {
      var front, last := b[..|b| - 1], b[|b| - 1];
      LastUnderConcat(a, front, e);
      LastUnderSnoc(a + front, last, e);
      LastUnderSnoc(front, last, e);
      HasSnoc(front, last);
      assert a + b == a + front + [last] && b == front + [last];
    }
  }

  /** An insertion-ordered Map into which a list is set entry by entry: a key stays where it was first set, and the last value wins. */
  function KeysOf(es: seq<Event>): seq<int> {
    if es == [] then []
    else
      var front, n := es[..|es| - 1], es[|es| - 1].seqNo;
      if n in BySeq(front) then KeysOf(front) else KeysOf(front) + [n]
  }

  function BySeq(es: seq<Event>): map<int, Event> {
    if es == [] then map[] else BySeq(es[..|es| - 1])[es[|es| - 1].seqNo := es[|es| - 1]]
  }

  lemma SetOne(es: seq<Event>, e: Event)
    ensures KeysOf(es + [e]) == if e.seqNo in BySeq(es) then KeysOf(es) else KeysOf(es) + [e.seqNo]
    ensures BySeq(es + [e]) == BySeq(es)[e.seqNo := e]
  {
    assert (es + [e])[..|es|] == es;
  }

  /** Each key once. */
  lemma {:induction false} KeysAreDistinct(es: seq<Event>)
    ensures forall i, j :: 0 <= i < j < |KeysOf(es)| ==> KeysOf(es)[i] != KeysOf(es)[j]
    ensures forall i :: 0 <= i < |KeysOf(es)| ==> KeysOf(es)[i] in BySeq(es)
    ensures forall n :: n in BySeq(es) ==> n in KeysOf(es)
  {
    if es != [] {
      var front, n := es[..|es| - 1], es[|es| - 1].seqNo;
      KeysAreDistinct(front);
      assert forall m :: m in KeysOf(front) + [n] <==> m in KeysOf(front) || m == n;
    }
  }

  /** Under each key the last entry with that number. */
  lemma {:induction false} ValuesAreTheLast(es: seq<Event>, e: Event)
    ensures LastUnder(es, e) <==> e.seqNo in BySeq(es) && BySeq(es)[e.seqNo] == e
  {
    if es != [] {
      var front, last := es[..|es| - 1], es[|es| - 1];
      ValuesAreTheLast(front, e);
      LastUnderSnoc(front, last, e);
      assert es == front + [last];
    }
  }

  lemma {:induction false} ValuesHaveTheirKeys(es: seq<Event>, n: int)
    requires n in BySeq(es)
    ensures BySeq(es)[n].seqNo == n
  {
    if es != [] && n != es[|es| - 1].seqNo { ValuesHaveTheirKeys(es[..|es| - 1], n); }
  }

  /** The values of such a Map, in key order. */
  function ValuesOf(keys: seq<int>, bySeq: map<int, Event>): (values: seq<Event>)
    requires forall i :: 0 <= i < |keys| ==> keys[i] in bySeq
    ensures |values| == |keys| && forall i :: 0 <= i < |keys| ==> values[i] == bySeq[keys[i]]
  {
    if keys == [] then [] else ValuesOf(keys[..|keys| - 1], bySeq) + [bySeq[keys[|keys| - 1]]]
  }

  lemma ValuesInOrder(es: seq<Event>, keys: seq<int>, bySeq: map<int, Event>)
    requires keys == KeysOf(es) && bySeq == BySeq(es)
    ensures forall i :: 0 <= i < |keys| ==> keys[i] in bySeq
    ensures Distinct(ValuesOf(keys, bySeq))
    ensures forall e :: e in ValuesOf(keys, bySeq) <==> LastUnder(es, e)
  {
    KeysAreDistinct(es);
    var values := ValuesOf(keys, bySeq);
    forall i | 0 <= i < |values| ensures values[i].seqNo == keys[i] { ValuesHaveTheirKeys(es, keys[i]); }
    forall e
      ensures e in values <==> LastUnder(es, e)
    {
      ValuesAreTheLast(es, e);
      if e.seqNo in bySeq && bySeq[e.seqNo] == e {
        var i :| 0 <= i < |keys| && keys[i] == e.seqNo;
        assert values[i] == e;
      }
    }
  }

  lemma OneFurther(before: seq<Event>, es: seq<Event>, i: nat)
    requires i < |es|
    ensures before + es[..i + 1] == before + es[..i] + [es[i]]
  {
  }

  /** Setting every entry of a list in a Map, in order. */
  method SetAll(ghost before: seq<Event>, es: seq<Event>, keys0: seq<int>, bySeq0: map<int, Event>)
    returns (keys: seq<int>, bySeq: map<int, Event>)
    requires keys0 == KeysOf(before) && bySeq0 == BySeq(before)
    ensures keys == KeysOf(before + es) && bySeq == BySeq(before + es)
  {
    keys, bySeq := keys0, bySeq0;
    ghost var done := before;
    for i := 0 to |es|
      invariant done == before + es[..i]
      invariant keys == KeysOf(done) && bySeq == BySeq(done)
    {
      var e := es[i];
      SetOne(done, e);
      OneFurther(before, es, i);
      done := done + [e];
      if e.seqNo !in bySeq { keys := keys + [e.seqNo]; }
      bySeq := bySeq[e.seqNo := e];
    }
    assert es[..|es|] == es;
  }

  method MergeEvents(ledger: seq<Event>, live: seq<Event>) returns (out: seq<Event>)
    ensures live == [] ==> out == ledger
    ensures live != [] ==> Ascending(out) && forall e :: e in out <==> Kept(ledger, live, e)
  {
    if |live| == 0 { return ledger; }
    var keys, bySeq := SetAll([], ledger, [], map[]);
    assert [] + ledger == ledger;
    keys, bySeq := SetAll(ledger, live, keys, bySeq);
    ValuesInOrder(ledger + live, keys, bySeq);
    var values := ValuesOf(keys, bySeq);
    SortedAscending(values);
    SortedMembers(values);
    out := SortBySeq(values);
    forall e
      ensures e in out <==> Kept(ledger, live, e)
    {
      LastUnderConcat(ledger, live, e);
    }
  }

  /** The list that merge returns, for the lemmas below: it is the only ascending list with those entries. */
  ghost predicate IsMerge(ledger: seq<Event>, live: seq<Event>, out: seq<Event>) {
    if live == [] then out == ledger else Ascending(out) && forall e :: e in out <==> Kept(ledger, live, e)
  }

  lemma LastOfAscending(es: seq<Event>, e: Event)
    requires Ascending(es)
    ensures LastUnder(es, e) <==> e in es
  {
    if e in es {
      var i :| 0 <= i < |es| && es[i] == e;
      assert forall j :: i < j < |es| ==> es[j].seqNo != e.seqNo;
    }
  }

  lemma ConcatHas(a: seq<Event>, b: seq<Event>, e: Event)
    requires Consistent(a + b) && e in a && Has(b, e.seqNo)
    ensures e in b
  {
    var i :| 0 <= i < |b| && b[i].seqNo == e.seqNo;
    assert b[i] in a + b && e in a + b;
  }

  /** Whichever side an entry came from, the merge of two ascending lists is their sorted union. */
  lemma MergeIsTheSortedUnion(ledger: seq<Event>, live: seq<Event>, out: seq<Event>)
    requires Ascending(ledger) && Ascending(live) && Consistent(ledger + live) && IsMerge(ledger, live, out)
    ensures Ascending(out) && forall e :: e in out <==> e in ledger || e in live
  {
    forall e
      ensures e in out <==> e in ledger || e in live
    {
      LastOfAscending(ledger, e);
      LastOfAscending(live, e);
      if e in ledger && Has(live, e.seqNo) { ConcatHas(ledger, live, e); }
    }
  }

  lemma MergeCommutes(a: seq<Event>, b: seq<Event>, ab: seq<Event>, ba: seq<Event>)
    requires Ascending(a) && Ascending(b) && Consistent(a + b) && Consistent(b + a)
    requires IsMerge(a, b, ab) && IsMerge(b, a, ba)
    ensures ab == ba
  {
    MergeIsTheSortedUnion(a, b, ab);
    MergeIsTheSortedUnion(b, a, ba);
    AscendingIsUnique(ab, ba);
  }

  // ---- from the database to the page ---------------------------------------

  /**
   The page loads the first k entries over REST and streams the rest. Whatever order the
   connections delivered it in, and however often reconnects repeated it, as soon as the
   arrivals are entries k+1..m the page shows entries 1..m.
   */
  lemma PageShowsTheLedger(ledger: seq<Event>, k: nat, m: nat, arrivals: seq<Event>, page: seq<Event>)
    requires StreamRace.Numbered(ledger) && k <= m <= |ledger|
    requires SameEntries(arrivals, ledger[k..m])
    requires IsMerge(ledger[..k], IngestAll([], arrivals), page)
    ensures page == ledger[..m]
  {
    LiveIsTheRest(ledger, k, m, arrivals);
    NumberedIsConsistent(ledger, k, m);
    var first, rest := ledger[..k], ledger[k..m];
    assert first + rest == ledger[..m];
    MergeIsTheSortedUnion(first, rest, page);
    AscendingIsUnique(page, first + rest);
  }

  lemma LiveIsTheRest(ledger: seq<Event>, k: nat, m: nat, arrivals: seq<Event>)
    requires StreamRace.Numbered(ledger) && k <= m <= |ledger|
    requires SameEntries(arrivals, ledger[k..m])
    ensures IngestAll([], arrivals) == ledger[k..m]
  {
    NumberedIsConsistent(ledger, k, m);
    ListIsEverythingReceived(arrivals);
    AscendingIsUnique(IngestAll([], arrivals), ledger[k..m]);
  }

  lemma NumberedIsConsistent(ledger: seq<Event>, k: nat, m: nat)
    requires StreamRace.Numbered(ledger) && k <= m <= |ledger|
    ensures Ascending(ledger[..k]) && Ascending(ledger[k..m]) && Ascending(ledger[..m])
    ensures Consistent(ledger[..m]) && Consistent(ledger[k..m])
  {
  }
}
