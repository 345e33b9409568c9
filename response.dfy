/**
 * What the completion service hands back: content blocks, the text
 * `extractText` pulls out of them, and the structured values that text is
 * parsed into.
 */
module Response {
  import opened Wrappers
  import opened Text

  /** One content block of a response: its `type` tag and, for text blocks, its text. */
  datatype Block = Block(kind: string, text: string)

  /** A response message; `content` may be missing. */
  datatype Message = Message(content: Option<seq<Block>>)

  /** A parsed JSON value. */
  datatype Json =
    | JNull
    | JBool(b: bool)
    | JNumber(n: real)
    | JString(s: string)
    | JArray(items: seq<Json>)
    | JObject(members: map<string, Json>)

  const TextKind: string := "text"

  /** The texts of the text blocks, in block order. */
  function TextsOf(blocks: seq<Block>): (texts: seq<string>)
    ensures |texts| <= |blocks|
  {
    if blocks == [] then []
    else (if blocks[0].kind == TextKind then [blocks[0].text] else []) + TextsOf(blocks[1..])
  }

  /** `extractText`: the text blocks' texts joined with newlines, then trimmed. */
  function ExtractText(message: Message): (r: string)
    ensures message.content.None? ==> r == []
  {
    Trim(Join(TextsOf(message.content.GetOr([])), "\n"))
  }

  /** The extracted text neither starts nor ends with whitespace. */
  lemma ExtractTextTrimmed(message: Message)
    ensures IsTrimmed(ExtractText(message))
  {
    TrimIsTrimmed(Join(TextsOf(message.content.GetOr([])), "\n"));
  }

  /** Text selection distributes over concatenation, so it keeps block order. */
  lemma {:induction false} TextsOfAppend(xs: seq<Block>, ys: seq<Block>)
    ensures TextsOf(xs + ys) == TextsOf(xs) + TextsOf(ys)
  {
    if xs == [] {
      assert xs + ys == ys;
    } else {
      var head := if xs[0].kind == TextKind then [xs[0].text] else [];
      TextsOfAppend(xs[1..], ys);
      assert (xs + ys)[0] == xs[0] && (xs + ys)[1..] == xs[1..] + ys;
      assert TextsOf(xs + ys) == head + (TextsOf(xs[1..]) + TextsOf(ys));
      assert TextsOf(xs) == head + TextsOf(xs[1..]);
    }
  }

  /** A text appears in the selection exactly when some text block carries it. */
  lemma {:induction false} TextsOfMembers(blocks: seq<Block>, t: string)
    ensures t in TextsOf(blocks) <==> exists k :: 0 <= k < |blocks| && blocks[k].kind == TextKind && blocks[k].text == t
  {
    if blocks != [] {
      TextsOfMembers(blocks[1..], t);
      if exists k :: 0 <= k < |blocks| && blocks[k].kind == TextKind && blocks[k].text == t {
        var k :| 0 <= k < |blocks| && blocks[k].kind == TextKind && blocks[k].text == t;
        if k > 0 { assert blocks[1..][k - 1] == blocks[k]; }
      }
      if exists k :: 0 <= k < |blocks[1..]| && blocks[1..][k].kind == TextKind && blocks[1..][k].text == t {
        var k :| 0 <= k < |blocks[1..]| && blocks[1..][k].kind == TextKind && blocks[1..][k].text == t;
        assert blocks[k + 1] == blocks[1..][k];
      }
    }
  }

  /** Inserting a block that is not a text block leaves the extracted text unchanged. */
  lemma IgnoresNonText(xs: seq<Block>, b: Block, ys: seq<Block>)
    requires b.kind != TextKind
    ensures ExtractText(Message(Some(xs + [b] + ys))) == ExtractText(Message(Some(xs + ys)))
  {
    TextsOfAppend(xs, [b]);
    TextsOfAppend(xs + [b], ys);
    TextsOfAppend(xs, ys);
    assert [b][1..] == [];
    assert TextsOf([b]) == [];
    assert TextsOf(xs + [b] + ys) == TextsOf(xs + ys);
    assert Message(Some(xs + [b] + ys)).content.GetOr([]) == xs + [b] + ys;
    assert Message(Some(xs + ys)).content.GetOr([]) == xs + ys;
  }

  /** Two text blocks come out separated by one newline. */
  lemma TwoTextBlocks(x: string, y: string)
    ensures ExtractText(Message(Some([Block(TextKind, x), Block(TextKind, y)]))) == Trim(x + "\n" + y)
  {
    var blocks := [Block(TextKind, x), Block(TextKind, y)];
    assert blocks[1..] == [Block(TextKind, y)];
    assert blocks[1..][1..] == [];
    assert TextsOf(blocks) == [x, y];
    assert [x, y][1..] == [y];
    assert Join([x, y], "\n") == x + "\n" + y;
  }

  /** Re-extracting from a message made of one text block of extracted text gives the same text. */
  lemma ExtractTextStable(message: Message)
    ensures ExtractText(Message(Some([Block(TextKind, ExtractText(message))]))) == ExtractText(message)
  {
    ExtractTextTrimmed(message);
    TrimKeepsTrimmed(ExtractText(message));
  }
}
