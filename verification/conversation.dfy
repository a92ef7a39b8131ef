/**
 * The conversation vocabulary of chat.py: content blocks, messages, model replies,
 * `mk_toolres` and `get_text`, and what it means for a message of tool results to
 * answer the tool requests of the message before it.
 */
module Conversation {
  import opened Strings

  /** The output budget a request carries when the caller gives none. */
  const DefaultMaxTokens := 4096

  datatype Role = User | Assistant

  /** One semantic unit of a message. */
  datatype ContentBlock =
    | TextBlock(text: string)
    | ToolUse(id: string, name: string, input: map<string, string>)
    | ToolResult(toolUseId: string, content: string)

  /** Message content is a plain string (the caller's text) or a list of blocks. */
  datatype Content = Plain(text: string) | Blocks(blocks: seq<ContentBlock>)

  datatype Message = Message(role: Role, content: Content)

  /** A reply of the model: its content blocks and its stop reason. */
  datatype Reply = Reply(content: seq<ContentBlock>, stopReason: string)

  /** The message `__call__` appends for the caller's text. */
  function UserText(text: string): Message
  {
    Message(User, Plain(text))
  }

  /** The message appended for a reply of the model. */
  function AssistantMsg(r: Reply): Message
  {
    Message(Assistant, Blocks(r.content))
  }

  /** `mk_toolres`: a `tool_result` block tied to the request `id`. */
  function MkToolRes(id: string, content: string): (r: ContentBlock)
    ensures r.ToolResult? && r.toolUseId == id && r.content == content
  {
    ToolResult(id, content)
  }

  /** The `tool_use` blocks of `bs`, in order. */
  function ToolUses(bs: seq<ContentBlock>): (r: seq<ContentBlock>)
    ensures |r| <= |bs|
    ensures forall k :: 0 <= k < |r| ==> r[k].ToolUse?
  {
    if bs == [] then []
    else ToolUses(bs[..|bs| - 1]) + (if bs[|bs| - 1].ToolUse? then [bs[|bs| - 1]] else [])
  }

  /** A reply asks for no tool exactly when none of its blocks is a `tool_use` block. */
  lemma {:induction false} NoToolUses(bs: seq<ContentBlock>)
    ensures ToolUses(bs) == [] <==> forall k :: 0 <= k < |bs| ==> !bs[k].ToolUse?
  {
    if bs != [] {
      var init := bs[..|bs| - 1];
      NoToolUses(init);
      if !bs[|bs| - 1].ToolUse? {
        assert forall k :: 0 <= k < |init| ==> init[k] == bs[k];
      }
    }
  }

  /**
   * The requests are exactly the `tool_use` blocks of `bs`, in order: they occur in
   * `bs` in that order, and every `tool_use` block of `bs` is collected, at the
   * position given by the number of requests before it.
   */
  lemma {:induction false} ToolUsesExact(bs: seq<ContentBlock>)
    ensures IsSubsequence(ToolUses(bs), bs)
    ensures forall k :: 0 <= k < |bs| && bs[k].ToolUse? ==>
      |ToolUses(bs[..k])| < |ToolUses(bs)| && ToolUses(bs)[|ToolUses(bs[..k])|] == bs[k]
  {
    if bs != [] {
      var init, b := bs[..|bs| - 1], bs[|bs| - 1];
      ToolUsesExact(init);
      var t := ToolUses(init);
      assert bs == init + [b];
      if b.ToolUse? {
        assert ToolUses(bs) == t + [b];
        assert (t + [b])[..|t|] == t;
      } else {
        assert ToolUses(bs) == t;
        SubsequenceExtend(t, init, b);
      }
      forall k | 0 <= k < |bs| && bs[k].ToolUse?
        ensures |ToolUses(bs[..k])| < |ToolUses(bs)| && ToolUses(bs)[|ToolUses(bs[..k])|] == bs[k]
      {
        if k < |init| {
          assert bs[..k] == init[..k];
          assert init[k] == bs[k];
        } else {
          assert bs[..k] == init;
        }
      }
    }
  }

  /** The texts of the text blocks of `bs`, in order. */
  function Texts(bs: seq<ContentBlock>): (r: seq<string>)
    ensures |r| <= |bs|
  {
    if bs == [] then []
    else (if bs[0].TextBlock? then [bs[0].text] else []) + Texts(bs[1..])
  }

  /** The texts of a concatenation are the texts of its parts, in order. */
  lemma {:induction false} TextsAppend(a: seq<ContentBlock>, b: seq<ContentBlock>)
    ensures Texts(a + b) == Texts(a) + Texts(b)
  {
    if a != [] {
      TextsAppend(a[1..], b);
      assert (a + b)[1..] == a[1..] + b;
    } else {
      assert a + b == b;
    }
  }

  /**
   * The texts are exactly the text blocks' texts, in block order: each block adds
   * its text, and only a text block adds anything, so every text block's text sits
   * at the position given by the number of texts before it.
   */
  lemma {:induction false} TextsExact(bs: seq<ContentBlock>)
    ensures forall k :: 0 <= k < |bs| ==>
      Texts(bs[..k + 1]) == Texts(bs[..k]) + (if bs[k].TextBlock? then [bs[k].text] else [])
    ensures forall k :: 0 <= k < |bs| && bs[k].TextBlock? ==>
      |Texts(bs[..k])| < |Texts(bs)| && Texts(bs)[|Texts(bs[..k])|] == bs[k].text
  {
    forall k | 0 <= k < |bs|
      ensures Texts(bs[..k + 1]) == Texts(bs[..k]) + (if bs[k].TextBlock? then [bs[k].text] else [])
      ensures bs[k].TextBlock? ==> |Texts(bs[..k])| < |Texts(bs)| && Texts(bs)[|Texts(bs[..k])|] == bs[k].text
    {
      var x := [bs[k]];
      assert bs[..k + 1] == bs[..k] + x;
      TextsAppend(bs[..k], x);
      assert Texts(x) == (if bs[k].TextBlock? then [bs[k].text] else []) + Texts(x[1..]);
      assert x[1..] == [];
      assert bs == bs[..k + 1] + bs[k + 1..];
      TextsAppend(bs[..k + 1], bs[k + 1..]);
    }
  }

  /** `get_text`: the text blocks' texts joined by line breaks; other blocks are skipped. */
  function GetText(bs: seq<ContentBlock>): (r: string)
    ensures Texts(bs) == [] ==> r == ""
    ensures |Texts(bs)| == 1 ==> r == Texts(bs)[0]
    ensures |Texts(bs)| > 1 ==> |r| > |Texts(bs)[0]| && r[..|Texts(bs)[0]|] == Texts(bs)[0] && r[|Texts(bs)[0]|] == '\n'
  {
    Join("\n", Texts(bs))
  }

  /** A reply with no text block reads as the empty string. */
  lemma {:induction false} GetTextWithoutText(bs: seq<ContentBlock>)
    requires forall k :: 0 <= k < |bs| ==> !bs[k].TextBlock?
    ensures GetText(bs) == ""
  {
    if bs != [] {
      GetTextWithoutText(bs[1..]);
    }
  }

  /** Text, a tool request and text again read as the two texts on two lines. */
  lemma GetTextSkipsToolUse(a: string, b: string, id: string, name: string, input: map<string, string>)
    ensures GetText([TextBlock(a), ToolUse(id, name, input), TextBlock(b)]) == a + "\n" + b
  {
    var bs := [TextBlock(a), ToolUse(id, name, input), TextBlock(b)];
    assert bs[1..] == [ToolUse(id, name, input), TextBlock(b)];
    assert bs[1..][1..] == [TextBlock(b)];
    assert bs[1..][1..][1..] == [];
    assert Texts(bs[1..][1..]) == [b];
    assert Texts(bs[1..]) == [b];
    assert Texts(bs) == [a, b];
    assert Join("\n", [b]) == b;
  }

  /**
   * When there is at least one text block and none holds a line break, splitting
   * the extracted text at line breaks gives back exactly the texts, in block order.
   */
  lemma GetTextRecoversTexts(bs: seq<ContentBlock>)
    requires exists k :: 0 <= k < |bs| && bs[k].TextBlock?
    requires forall k :: 0 <= k < |bs| && bs[k].TextBlock? ==> '\n' !in bs[k].text
    ensures Split(GetText(bs), '\n') == Texts(bs)
  {
    TextsOfText(bs);
    SplitJoin(Texts(bs), '\n');
  }

  lemma {:induction false} TextsOfText(bs: seq<ContentBlock>)
    requires forall k :: 0 <= k < |bs| && bs[k].TextBlock? ==> '\n' !in bs[k].text
    ensures (exists k :: 0 <= k < |bs| && bs[k].TextBlock?) ==> |Texts(bs)| >= 1
    ensures forall k :: 0 <= k < |Texts(bs)| ==> '\n' !in Texts(bs)[k]
  {
    if bs != [] {
      TextsOfText(bs[1..]);
      if exists k :: 0 <= k < |bs| && bs[k].TextBlock? {
        var k :| 0 <= k < |bs| && bs[k].TextBlock?;
        if k > 0 {
          assert bs[1..][k - 1] == bs[k];
        }
      }
    }
  }

  /**
   * `results` answers the tool requests of `request`: one `tool_result` per `tool_use`
   * block, in the same order, each carrying the id of its request.
   */
  predicate Answers(request: seq<ContentBlock>, results: seq<ContentBlock>)
  {
    var calls := ToolUses(request);
    |results| == |calls| &&
    forall k :: 0 <= k < |results| ==> results[k].ToolResult? && results[k].toolUseId == calls[k].id
  }

  /** The message after position `j` of `h` answers it whenever position `j` holds an assistant message. */
  predicate RespondsAt(h: seq<Message>, j: int)
    requires 0 <= j < |h| - 1
  {
    h[j].role == Assistant && h[j].content.Blocks? ==>
      h[j + 1].role == User && h[j + 1].content.Blocks? &&
      Answers(h[j].content.blocks, h[j + 1].content.blocks)
  }

  /** From position `from` on, every assistant message that has a successor is answered by it. */
  predicate AnsweredFrom(h: seq<Message>, from: int)
  {
    forall j :: from <= j && 0 <= j < |h| - 1 ==> RespondsAt(h, j)
  }
}
