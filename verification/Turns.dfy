/**
 From a genai history to the turns the Messages API accepts: roles alternate, tool results
 ride in user turns, and the last turn is the user's.
 */
module Turns {
  import opened Alerts
  import opened Runs

  /** A marshalled value; only whether it is an error is ever looked at. */
  datatype Result = Result(body: string, isError: bool)

  datatype Part = Part(call: Option<FunctionCall>, response: Option<FunctionResponse>, text: string)

  datatype FunctionCall = FunctionCall(id: string, name: string, args: string)

  datatype FunctionResponse = FunctionResponse(id: string, name: string, result: Result)

  /** None stands for a nil pointer in the source's slices. */
  datatype Content = Content(role: string, parts: seq<Option<Part>>)

  datatype Role = User | Assistant

  datatype Block = ToolUse(id: string, args: string, name: string) | ToolResult(id: string, result: Result) | Text(text: string)

  datatype Message = Message(role: Role, content: seq<Block>)

  /** A block and the role of the turn it rides in. */
  datatype Said = Said(role: Role, block: Block)

  const ContinueTurn := Text("Continue.")

  // ---- blocks --------------------------------------------------------------

  function CallId(id: string, name: string): string { if id == "" then "call_" + name else id }

  function BlockOf(p: Option<Part>): seq<Block> {
    if p.None? then []
    else if p.value.call.Some? then
      [ToolUse(CallId(p.value.call.value.id, p.value.call.value.name), p.value.call.value.args, p.value.call.value.name)]
    else if p.value.response.Some? then
      [ToolResult(CallId(p.value.response.value.id, p.value.response.value.name), p.value.response.value.result)]
    else if p.value.text != "" then [Text(p.value.text)]
    else []
  }

  function BlocksOf(parts: seq<Option<Part>>): seq<Block> {
    if parts == [] then [] else BlocksOf(parts[..|parts| - 1]) + BlockOf(parts[|parts| - 1])
  }

  method Blocks(parts: seq<Option<Part>>) returns (out: seq<Block>)
    ensures out == BlocksOf(parts)
  {
    out := [];
    for n := 0 to |parts|
      invariant out == BlocksOf(parts[..n])
    {
      assert parts[..n + 1][..n] == parts[..n];
      if parts[n].None? { continue; }
      var p := parts[n].value;
      if p.call.Some? {
        var id := p.call.value.id;
        if id == "" { id := "call_" + p.call.value.name; }
        out := out + [ToolUse(id, p.call.value.args, p.call.value.name)];
      } else if p.response.Some? {
        var id := p.response.value.id;
        if id == "" { id := "call_" + p.response.value.name; }
        out := out + [ToolResult(id, p.response.value.result)];
      } else if p.text != "" {
        out := out + [Text(p.text)];
      }
    }
    assert parts[..|parts|] == parts;
  }

  /** `at` says, in ascending order, which part each block was made from; no part gives two, and the others give none. */
  ghost predicate MadeFrom(parts: seq<Option<Part>>, blocks: seq<Block>, at: seq<nat>) {
    && |at| == |blocks|
    && (forall k :: 0 <= k < |at| ==> at[k] < |parts| && BlockOf(parts[at[k]]) == [blocks[k]])
    && (forall j, k :: 0 <= j < k < |at| ==> at[j] < at[k])
    && (forall n: nat :: n < |parts| && n !in at ==> BlockOf(parts[n]) == [])
  }

  lemma NoMoreMade(parts: seq<Option<Part>>, last: Option<Part>, blocks: seq<Block>, at: seq<nat>)
    requires MadeFrom(parts, blocks, at) && BlockOf(last) == []
    ensures MadeFrom(parts + [last], blocks, at)
  {
    var more := parts + [last];
    assert forall n: nat :: n < |parts| ==> more[n] == parts[n];
  }

  lemma OneMoreMade(parts: seq<Option<Part>>, last: Option<Part>, blocks: seq<Block>, at: seq<nat>, b: Block)
    requires MadeFrom(parts, blocks, at) && BlockOf(last) == [b]
    ensures MadeFrom(parts + [last], blocks + [b], at + [|parts|])
  {
    var more, at' := parts + [last], at + [|parts|];
    assert at'[|at|] == |parts| && more[|parts|] == last;
    forall k | 0 <= k < |at'| ensures at'[k] < |more| && BlockOf(more[at'[k]]) == [(blocks + [b])[k]] {
      if k < |at| { assert more[at[k]] == parts[at[k]]; }
    }
    forall n: nat | n < |more| && n !in at' ensures BlockOf(more[n]) == [] {
      NotInFront(at, |parts|, n);
      assert more[n] == parts[n];
    }
  }

  lemma NotInFront(at: seq<nat>, more: nat, n: nat)
    requires n !in at + [more]
    ensures n !in at && n != more
  {
    assert forall m: nat :: m in at ==> m in at + [more];
    assert (at + [more])[|at|] == more;
  }

  lemma AtMostOneBlock(p: Option<Part>)
    ensures |BlockOf(p)| <= 1
  {
  }

  /** Each part gives at most one block, in the order of the parts, and nothing else gives one. */
  lemma {:induction false} BlocksFollowTheParts(parts: seq<Option<Part>>) returns (at: seq<nat>)
    ensures MadeFrom(parts, BlocksOf(parts), at)
  {
    if parts == [] {
      at := [];
    } else {
      var front, last := parts[..|parts| - 1], parts[|parts| - 1];
      var rest := BlocksFollowTheParts(front);
      assert front + [last] == parts;
      if BlockOf(last) == [] {
        at := rest;
        NoMoreMade(front, last, BlocksOf(front), rest);
        assert BlocksOf(front) + [] == BlocksOf(front);
      } else {
        at := rest + [|front|];
        AtMostOneBlock(last);
        OneMoreMade(front, last, BlocksOf(front), rest, BlockOf(last)[0]);
        assert BlockOf(last) == [BlockOf(last)[0]];
      }
    }
  }

  lemma OneBlockHasAnId(p: Option<Part>)
    ensures forall k :: 0 <= k < |BlockOf(p)| && !BlockOf(p)[k].Text? ==> BlockOf(p)[k].id != ""
  {
  }

  /** No tool block is ever without an id. */
  lemma {:induction false} ToolBlocksHaveIds(parts: seq<Option<Part>>)
    ensures forall k :: 0 <= k < |BlocksOf(parts)| && !BlocksOf(parts)[k].Text? ==> BlocksOf(parts)[k].id != ""
  {
    if parts != [] {
      ToolBlocksHaveIds(parts[..|parts| - 1]);
      OneBlockHasAnId(parts[|parts| - 1]);
    }
  }

  /** A call and a response that both came without an id still belong together, whenever they name one tool. */
  lemma FallbackIdsPair(c: FunctionCall, r: FunctionResponse)
    requires c.id == r.id == ""
    ensures CallId(c.id, c.name) == CallId(r.id, r.name) <==> c.name == r.name
  {
    assert CallId(c.id, c.name)[5..] == c.name && CallId(r.id, r.name)[5..] == r.name;
  }

  predicate HasFunctionResponse(parts: seq<Option<Part>>) {
    exists i :: 0 <= i < |parts| && parts[i].Some? && parts[i].value.response.Some?
  }

  function RoleOf(c: Content): Role {
    if EqualFold(c.role, "user") || c.role == "" || HasFunctionResponse(c.parts) then User else Assistant
  }

  // ---- what was said -------------------------------------------------------

  function SaidAll(role: Role, blocks: seq<Block>): seq<Said> {
    seq(|blocks|, i requires 0 <= i < |blocks| => Said(role, blocks[i]))
  }

  /** Everything a history says, block by block, with the role each content is given. */
  function History(contents: seq<Option<Content>>): seq<Said> {
    if contents == [] then []
    else
      var c := contents[|contents| - 1];
      History(contents[..|contents| - 1]) + if c.None? then [] else SaidAll(RoleOf(c.value), BlocksOf(c.value.parts))
  }

  /** Everything the turns say. */
  function Spoken(out: seq<Message>): seq<Said> {
    if out == [] then []
    else Spoken(out[..|out| - 1]) + SaidAll(out[|out| - 1].role, out[|out| - 1].content)
  }

  /** Closed with one word of the user's when the assistant spoke last. */
  function Closed(said: seq<Said>): seq<Said> {
    if said != [] && said[|said| - 1].role.Assistant? then said + [Said(User, ContinueTurn)] else said
  }

  /** The turns the API takes: none empty, and no two neighbours with the same role. */
  predicate Alternating(out: seq<Message>) {
    && (forall i :: 0 <= i < |out| ==> out[i].content != [])
    && (forall i :: 0 <= i < |out| - 1 ==> out[i].role != out[i + 1].role)
  }

  lemma SpokenSnoc(out: seq<Message>, m: Message)
    ensures Spoken(out + [m]) == Spoken(out) + SaidAll(m.role, m.content)
  {
    assert (out + [m])[..|out|] == out;
  }

  lemma SaidAllConcat(role: Role, xs: seq<Block>, ys: seq<Block>)
    ensures SaidAll(role, xs + ys) == SaidAll(role, xs) + SaidAll(role, ys)
  {
  }

  /** Appending blocks to the last turn. */
  lemma SpokenGrows(out: seq<Message>, blocks: seq<Block>)
    requires out != []
    ensures var last := out[|out| - 1];
            Spoken(out[..|out| - 1] + [last.(content := last.content + blocks)]) == Spoken(out) + SaidAll(last.role, blocks)
  {
    var last := out[|out| - 1];
    SpokenSnoc(out[..|out| - 1], last.(content := last.content + blocks));
    SaidAllConcat(last.role, last.content, blocks);
  }

  /** The last block said is the last turn's. */
  lemma LastSpeaker(out: seq<Message>)
    requires out != [] && Alternating(out)
    ensures Spoken(out) != [] && Spoken(out)[|Spoken(out)| - 1].role == out[|out| - 1].role
  {
  }

  /** A content's blocks join the last turn when the speaker is the same, and open a turn otherwise. */
  lemma TurnsGrow(out: seq<Message>, role: Role, blocks: seq<Block>, more: seq<Message>)
    requires Alternating(out) && blocks != []
    requires more == if out != [] && out[|out| - 1].role == role
                     then out[..|out| - 1] + [Message(role, out[|out| - 1].content + blocks)]
                     else out + [Message(role, blocks)]
    ensures Alternating(more) && Spoken(more) == Spoken(out) + SaidAll(role, blocks)
  {
    if out != [] && out[|out| - 1].role == role {
      SpokenGrows(out, blocks);
      assert forall i :: 0 <= i < |out| - 1 ==> more[i] == out[i];
    } else {
      SpokenSnoc(out, Message(role, blocks));
    }
  }

  /** What one more content adds to the history. */
  lemma HistoryNext(contents: seq<Option<Content>>, n: nat)
    requires n < |contents|
    ensures contents[n].None? || BlocksOf(contents[n].value.parts) == [] ==>
              History(contents[..n + 1]) == History(contents[..n])
    ensures contents[n].Some? ==>
              History(contents[..n + 1]) ==
              History(contents[..n]) + SaidAll(RoleOf(contents[n].value), BlocksOf(contents[n].value.parts))
  {
    assert contents[..n + 1][..n] == contents[..n];
    assert History(contents[..n]) + [] == History(contents[..n]);
  }

  method Messages(contents: seq<Option<Content>>) returns (out: seq<Message>)
    ensures Alternating(out)
    ensures Spoken(out) == Closed(History(contents))
    ensures out != [] ==> out[|out| - 1].role == User
  {
    out := [];
    for n := 0 to |contents|
      invariant Alternating(out)
      invariant Spoken(out) == History(contents[..n])
    {
      HistoryNext(contents, n);
      if contents[n].None? || |contents[n].value.parts| == 0 { continue; }
      var c := contents[n].value;
      var role := Assistant;
      if EqualFold(c.role, "user") || c.role == "" || HasFunctionResponse(c.parts) { role := User; }
      var blocks := Blocks(c.parts);
      if |blocks| == 0 { continue; }
      ghost var before := out;
      if |out| > 0 && out[|out| - 1].role == role {
        out := out[..|out| - 1] + [Message(role, out[|out| - 1].content + blocks)];
      } else {
        out := out + [Message(role, blocks)];
      }
      TurnsGrow(before, role, blocks, out);
    }
    assert contents[..|contents|] == contents;
    if |out| > 0 {
      LastSpeaker(out);
      if out[|out| - 1].role.Assistant? {
        TurnsGrow(out, User, [ContinueTurn], out + [Message(User, [ContinueTurn])]);
        out := out + [Message(User, [ContinueTurn])];
      }
    }
  }

  // ---- what that settles ---------------------------------------------------

  lemma {:induction false} ResultsAreBlocksOfResponses(parts: seq<Option<Part>>)
    ensures (exists i :: 0 <= i < |BlocksOf(parts)| && BlocksOf(parts)[i].ToolResult?) ==> HasFunctionResponse(parts)
  {
    if parts != [] {
      var front, last := parts[..|parts| - 1], parts[|parts| - 1];
      ResultsAreBlocksOfResponses(front);
      var blocks := BlocksOf(parts);
      if i :| 0 <= i < |blocks| && blocks[i].ToolResult? {
        if i < |BlocksOf(front)| {
          assert BlocksOf(front)[i].ToolResult?;
          var j :| 0 <= j < |front| && front[j].Some? && front[j].value.response.Some?;
          assert parts[j] == front[j];
        } else {
          assert parts[|parts| - 1].value.response.Some?;
        }
      }
    }
  }

  predicate ResultsByUser(said: seq<Said>) {
    forall i :: 0 <= i < |said| && said[i].block.ToolResult? ==> said[i].role == User
  }

  lemma OneContentsResults(c: Content)
    ensures ResultsByUser(SaidAll(RoleOf(c), BlocksOf(c.parts)))
  {
    ResultsAreBlocksOfResponses(c.parts);
  }

  lemma ResultsByUserConcat(a: seq<Said>, b: seq<Said>)
    requires ResultsByUser(a) && ResultsByUser(b)
    ensures ResultsByUser(a + b)
  {
  }

  lemma {:induction false} HistoryResults(contents: seq<Option<Content>>)
    ensures ResultsByUser(History(contents))
  {
    if contents != [] {
      var front, c := contents[..|contents| - 1], contents[|contents| - 1];
      HistoryResults(front);
      var said := if c.None? then [] else SaidAll(RoleOf(c.value), BlocksOf(c.value.parts));
      if c.Some? { OneContentsResults(c.value); }
      ResultsByUserConcat(History(front), said);
      assert History(contents) == History(front) + said;
    }
  }

  /** Whatever role its content was labelled with, a tool result is always said by the user. */
  lemma ResultsAreSaidByTheUser(contents: seq<Option<Content>>)
    ensures ResultsByUser(History(contents)) && ResultsByUser(Closed(History(contents)))
  {
    HistoryResults(contents);
    ResultsByUserConcat(History(contents), [Said(User, ContinueTurn)]);
  }

  /** Read off the turns themselves: a turn that carries a tool result is the user's. */
  lemma {:induction false} ResultsRideWithTheUser(out: seq<Message>)
    requires ResultsByUser(Spoken(out))
    ensures forall i, k :: 0 <= i < |out| && 0 <= k < |out[i].content| && out[i].content[k].ToolResult? ==> out[i].role == User
  {
    if out != [] {
      var front, last := out[..|out| - 1], out[|out| - 1];
      var said, before := Spoken(out), Spoken(front);
      assert forall i :: 0 <= i < |before| ==> said[i] == before[i];
      assert forall k :: 0 <= k < |last.content| ==> said[|before| + k] == Said(last.role, last.content[k]);
      ResultsRideWithTheUser(front);
      assert forall i :: 0 <= i < |front| ==> out[i] == front[i];
    }
  }

  /** Two ways to say the same end in the same turn. */
  lemma {:induction false} SameLastTurn(a: seq<Message>, b: seq<Message>)
    requires a != [] && b != [] && Alternating(a) && Alternating(b) && Spoken(a) == Spoken(b)
    ensures a[|a| - 1] == b[|b| - 1]
  {
    var x, y := a[|a| - 1], b[|b| - 1];
    LastSpeaker(a);
    LastSpeaker(b);
    ShorterTurnEndsEarlier(a, b);
    ShorterTurnEndsEarlier(b, a);
    assert x.content == y.content by {
      var said := Spoken(a);
      forall i | 0 <= i < |x.content|
        ensures x.content[i] == y.content[i]
      {
        assert said[|said| - |x.content| + i].block == x.content[i];
        assert said[|said| - |y.content| + i].block == y.content[i];
      }
    }
  }

  /** Of two ways to say the same, the one with the shorter last turn would have to change speaker inside the other's. */
  lemma ShorterTurnEndsEarlier(a: seq<Message>, b: seq<Message>)
    requires a != [] && b != [] && Alternating(a) && Alternating(b) && Spoken(a) == Spoken(b)
    ensures |a[|a| - 1].content| >= |b[|b| - 1].content|
  {
    var x, y, said := a[|a| - 1], b[|b| - 1], Spoken(a);
    var front := a[..|a| - 1];
    LastSpeaker(a);
    LastSpeaker(b);
    if front != [] {
      LastSpeaker(front);
      var k := |said| - |x.content| - 1;
      assert said[k] == Spoken(front)[|Spoken(front)| - 1];
      assert said[k].role != x.role;
      assert forall i :: |said| - |y.content| <= i < |said| ==> said[i].role == y.role;
    } else {
      assert Spoken(front) == [];
    }
  }

  /** Alternation leaves no choice: what is said determines the turns. */
  lemma {:induction false} TurnsAreUnique(a: seq<Message>, b: seq<Message>)
    requires Alternating(a) && Alternating(b) && Spoken(a) == Spoken(b)
    ensures a == b
  {
    if a == [] {
      if b != [] { LastSpeaker(b); }
    } else if b == [] {
      LastSpeaker(a);
    } else {
      SameLastTurn(a, b);
      var last := a[|a| - 1];
      var fa, fb := a[..|a| - 1], b[..|b| - 1];
      assert Spoken(fa) == Spoken(a)[..|Spoken(a)| - |last.content|];
      assert Spoken(fb) == Spoken(b)[..|Spoken(b)| - |last.content|];
      TurnsAreUnique(fa, fb);
      assert a == fa + [last] && b == fb + [last];
    }
  }

  // ---- what one part and one content say -----------------------------------

  lemma HistoryOfOne(c: Content)
    ensures History([Some(c)]) == SaidAll(RoleOf(c), BlocksOf(c.parts))
  {
    assert [Some(c)][..0] == [];
    assert History([]) == [];
  }

  lemma BlocksOfOne(p: Part)
    ensures BlocksOf([Some(p)]) == BlockOf(Some(p))
  {
    assert [Some(p)][..0] == [];
    assert BlocksOf([]) == [];
  }

  /**
   A call is said as one block with its own name, arguments and id, a response with its own
   result and id, and a text as it is; one without an id goes by the name of its tool; and of
   a part that is more than one of these only the first is said.
   */
  lemma OnePartSays(p: Part, role: string)
    ensures var said := History([Some(Content(role, [Some(p)]))]);
            && (p.call.Some? ==>
                  && |said| == 1 && said[0].block.ToolUse?
                  && said[0].block.name == p.call.value.name && said[0].block.args == p.call.value.args
                  && said[0].block.id == (if p.call.value.id != "" then p.call.value.id else "call_" + p.call.value.name))
            && (p.call.None? && p.response.Some? ==>
                  && |said| == 1 && said[0].block.ToolResult?
                  && said[0].block.result == p.response.value.result
                  && said[0].block.id == (if p.response.value.id != "" then p.response.value.id else "call_" + p.response.value.name))
            && (p.call.None? && p.response.None? && p.text != "" ==> |said| == 1 && said[0].block == Text(p.text))
            && (p.call.None? && p.response.None? && p.text == "" ==> said == [])
  {
    HistoryOfOne(Content(role, [Some(p)]));
    BlocksOfOne(p);
  }

  /** Who says a content: the user if it is labelled so in any case, not labelled, or carries a tool's response; otherwise the assistant. */
  lemma OneContentIsSaidBy(c: Content, i: nat)
    requires i < |History([Some(c)])|
    ensures History([Some(c)])[i].role.User? <==>
            || Lower(c.role) == "user" || c.role == ""
            || exists k :: 0 <= k < |c.parts| && c.parts[k].Some? && c.parts[k].value.response.Some?
  {
    HistoryOfOne(c);
    assert Lower("user") == "user";
  }

  /** And a history says its contents one after the other. */
  lemma HistorySaysAll(contents: seq<Option<Content>>, c: Option<Content>)
    ensures History(contents + [c]) == History(contents) + if c.Some? then History([c]) else []
  {
    assert (contents + [c])[..|contents|] == contents;
    if c.Some? { HistoryOfOne(c.value); }
  }

  /** What closes it: one word of the user's, exactly when the assistant spoke last. */
  lemma ClosedMeans(said: seq<Said>)
    ensures Closed(said) == if said == [] || said[|said| - 1].role.User? then said else said + [Said(User, Text("Continue."))]
  {
  }
}
