/**
 * The unbuffered stream decoder of the messaging page
 * (src/pages/AIMessaging.tsx:114-145): every chunk is split on `\n` on its
 * own, nothing is carried from one chunk to the next, the piece after the
 * last `\n` is decoded like any other, `data: [DONE]` is skipped, and a
 * payload that does not parse is ignored. Unlike the buffered decoder, the
 * payload after `data: ` is neither trimmed nor stripped of a `\r`.
 */
module ChunkSse {
  import opened Base
  import opened Transcript
  import BufferedSse

  type Parsed = BufferedSse.Parsed

  const DataPrefix: string := "data: "
  const DoneLine: string := "data: [DONE]"

  /** The text one piece of a chunk adds to the reply. */
  function PieceText(parse: string -> Parsed, line: string): string {
    if StartsWith(line, DataPrefix) && line[|DataPrefix|..] != "[DONE]" then
      match parse(line[|DataPrefix|..])
      case Malformed => ""
      case Json(d) => if Truthy(d) then d.value else ""
    else ""
  }

  /** `PieceText` for one parser, as the framing functions take it. */
  function Reader(parse: string -> Parsed): string -> string {
    line => PieceText(parse, line)
  }

  /** The pieces' texts, in order. */
  function LinesText(piece: string -> string, lines: seq<string>): string {
    if lines == [] then "" else LinesText(piece, lines[..|lines| - 1]) + piece(lines[|lines| - 1])
  }

  /** `chunk.split("\n")` decoded piece by piece. */
  function ChunkText(piece: string -> string, chunk: string): string {
    LinesText(piece, SplitLines(chunk))
  }

  /** The text accumulated from the chunks, in order. */
  function Collect(piece: string -> string, chunks: seq<string>): string {
    if chunks == [] then "" else Collect(piece, chunks[..|chunks| - 1]) + ChunkText(piece, chunks[|chunks| - 1])
  }

  /** The reply the page accumulates from the chunks. */
  function Decode(parse: string -> Parsed, chunks: seq<string>): string {
    Collect(Reader(parse), chunks)
  }

  /**
   * The read loop (src/pages/AIMessaging.tsx:115-145). The placeholder
   * `placeholderId` shows the whole text accumulated so far and no other
   * message changes.
   */
  method DecodeStream(parse: string -> Parsed, chunks: seq<string>, messages: seq<Message>, placeholderId: string)
    returns (assistantMessage: string, shown: seq<Message>)
    ensures assistantMessage == Decode(parse, chunks)
    ensures Streaming(shown, messages, placeholderId, assistantMessage)
  {
    assistantMessage := "";
    shown := messages;
    var k := 0;
    while k < |chunks|
      invariant 0 <= k <= |chunks|
      invariant assistantMessage == Decode(parse, chunks[..k])
      invariant Streaming(shown, messages, placeholderId, assistantMessage)
    {
      assistantMessage, shown := DecodeChunk(parse, chunks[k], assistantMessage, shown, messages, placeholderId);
      assert chunks[..k + 1][..k] == chunks[..k];
      k := k + 1;
    }
    assert chunks[..k] == chunks;
  }

  /** The `for` over the pieces of one chunk (src/pages/AIMessaging.tsx:119-144). */
  method DecodeChunk(parse: string -> Parsed, chunk: string, content: string, shown: seq<Message>,
                     messages: seq<Message>, placeholderId: string)
    returns (assistantMessage: string, shownAfter: seq<Message>)
    requires Streaming(shown, messages, placeholderId, content)
    ensures assistantMessage == content + ChunkText(Reader(parse), chunk)
    ensures Streaming(shownAfter, messages, placeholderId, assistantMessage)
  {
    var lines := SplitLines(chunk);
    assistantMessage, shownAfter := content, shown;
    var j := 0;
    while j < |lines|
      invariant 0 <= j <= |lines|
      invariant assistantMessage == content + LinesText(Reader(parse), lines[..j])
      invariant Streaming(shownAfter, messages, placeholderId, assistantMessage)
    {
      var line := lines[j];
      ghost var before := assistantMessage;
      if StartsWith(line, DataPrefix) {
        var data := line[|DataPrefix|..];
        if data != "[DONE]" {
          var parsed := parse(data);
          if parsed.Json? && Truthy(parsed.delta) {
            ghost var previous := assistantMessage;
            assistantMessage := assistantMessage + parsed.delta.value;
            ShowContentAgain(shownAfter, messages, placeholderId, previous, assistantMessage);
            shownAfter := ShowContent(shownAfter, placeholderId, assistantMessage);
          }
        }
      }
      assert assistantMessage == before + PieceText(parse, line);
      LinesTextSnoc(Reader(parse), lines, j);
      AppendAssoc(content, LinesText(Reader(parse), lines[..j]), PieceText(parse, line));
      j := j + 1;
    }
    assert lines[..j] == lines;
  }

  /** The texts of the first `j + 1` pieces: those of the first `j`, then piece `j`'s. */
  lemma LinesTextSnoc(piece: string -> string, lines: seq<string>, j: nat)
    requires j < |lines|
    ensures LinesText(piece, lines[..j + 1]) == LinesText(piece, lines[..j]) + piece(lines[j])
  {
    assert lines[..j + 1][..j] == lines[..j];
  }

  /** Decoding runs chunk by chunk: the reply to two runs of chunks is the two replies joined. */
  lemma {:induction false} CollectAppend(piece: string -> string, c1: seq<string>, c2: seq<string>)
    ensures Collect(piece, c1 + c2) == Collect(piece, c1) + Collect(piece, c2)
    decreases |c2|
  {
    if c2 != [] {
      var init := c2[..|c2| - 1];
      assert (c1 + c2)[..|c1 + c2| - 1] == c1 + init;
      CollectAppend(piece, c1, init);
      AppendAssoc(Collect(piece, c1), Collect(piece, init), ChunkText(piece, c2[|c2| - 1]));
    } else {
      assert c1 + c2 == c1;
    }
  }

  /** The pieces' texts of two runs of pieces, joined. */
  lemma {:induction false} LinesTextAppend(piece: string -> string, a: seq<string>, b: seq<string>)
    ensures LinesText(piece, a + b) == LinesText(piece, a) + LinesText(piece, b)
    decreases |b|
  {
    if b != [] {
      var init := b[..|b| - 1];
      assert (a + b)[..|a + b| - 1] == a + init;
      LinesTextAppend(piece, a, init);
      AppendAssoc(LinesText(piece, a), LinesText(piece, init), piece(b[|b| - 1]));
    } else {
      assert a + b == a;
    }
  }

  /** A newline-free prefix is the first piece of the split. */
  lemma SplitLinesCons(line: string, rest: string)
    requires '\n' !in line
    ensures SplitLines(line + "\n" + rest) == [line] + SplitLines(rest)
  {
    var s := line + "\n" + rest;
    IndexOfPrefix(line + "\n", rest, '\n');
    assert (line + "\n")[|line|] == '\n';
    assert IndexOf(s, '\n') == |line|;
    assert s[..|line|] == line;
    assert s[|line| + 1..] == rest;
  }

  /** Text on the two sides of a `\n` in one chunk is decoded independently. */
  lemma {:induction false} ChunkJoin(piece: string -> string, a: string, b: string)
    ensures ChunkText(piece, a + "\n" + b) == ChunkText(piece, a) + ChunkText(piece, b)
    decreases |a|
  {
    var i := IndexOf(a, '\n');
    if i == -1 {
      SplitLinesCons(a, b);
      LinesTextAppend(piece, [a], SplitLines(b));
      assert LinesText(piece, [a]) == piece(a) by {
        assert [a][..0] == [];
      }
    } else {
      var head, tail := a[..i], a[i + 1..];
      assert a == head + "\n" + tail;
      var first := LinesText(piece, [head]);
      calc {
        ChunkText(piece, a + "\n" + b);
        { assert a + "\n" + b == head + "\n" + (tail + "\n" + b); }
        ChunkText(piece, head + "\n" + (tail + "\n" + b));
        { SplitLinesCons(head, tail + "\n" + b); LinesTextAppend(piece, [head], SplitLines(tail + "\n" + b)); }
        first + ChunkText(piece, tail + "\n" + b);
        { ChunkJoin(piece, tail, b); }
        first + (ChunkText(piece, tail) + ChunkText(piece, b));
        { AppendAssoc(first, ChunkText(piece, tail), ChunkText(piece, b)); }
        (first + ChunkText(piece, tail)) + ChunkText(piece, b);
        { SplitLinesCons(head, tail); LinesTextAppend(piece, [head], SplitLines(tail)); }
        ChunkText(piece, a) + ChunkText(piece, b);
      }
    }
  }

  /** A newline-free chunk is one piece. */
  lemma ChunkSingle(piece: string -> string, line: string)
    requires '\n' !in line
    ensures ChunkText(piece, line) == piece(line)
  {
    assert SplitLines(line) == [line];
    assert [line][..0] == [];
    assert LinesText(piece, [line]) == LinesText(piece, []) + piece(line);
  }

  /** Decoding runs chunk by chunk: the reply to two runs of chunks is the two replies joined. */
  lemma DecodeAppend(parse: string -> Parsed, c1: seq<string>, c2: seq<string>)
    ensures Decode(parse, c1 + c2) == Decode(parse, c1) + Decode(parse, c2)
  {
    CollectAppend(Reader(parse), c1, c2);
  }

  /** `data: [DONE]` itself adds no text. */
  lemma DoneAddsNothing(parse: string -> Parsed)
    ensures '\n' !in DoneLine && Reader(parse)(DoneLine) == ""
  {
    assert DoneLine[|DataPrefix|..] == "[DONE]";
  }

  /** The pieces on either side of one newline-free piece `line`, when that piece adds nothing. */
  lemma SkipPiece(piece: string -> string, before: string, line: string, after: string)
    requires '\n' !in line && piece(line) == ""
    ensures ChunkText(piece, before + "\n" + line + "\n" + after) == ChunkText(piece, before) + ChunkText(piece, after)
  {
    var rest := line + "\n" + after;
    assert before + "\n" + line + "\n" + after == before + "\n" + rest by {
      AppendAssoc(before + "\n", line, "\n");
      AppendAssoc(before + "\n", line + "\n", after);
      AppendAssoc(before, "\n", rest);
    }
    calc {
      ChunkText(piece, before + "\n" + rest);
      { ChunkJoin(piece, before, rest); }
      ChunkText(piece, before) + ChunkText(piece, rest);
      { ChunkJoin(piece, line, after); ChunkSingle(piece, line); }
      ChunkText(piece, before) + ChunkText(piece, after);
    }
  }

  /** `data: [DONE]` contributes nothing and the pieces after it are still decoded. */
  lemma DoneSkipped(parse: string -> Parsed, before: string, after: string)
    ensures ChunkText(Reader(parse), before + "\n" + DoneLine + "\n" + after)
         == ChunkText(Reader(parse), before) + ChunkText(Reader(parse), after)
  {
    DoneAddsNothing(parse);
    SkipPiece(Reader(parse), before, DoneLine, after);
  }

  /** A `data: ` piece whose payload does not parse is dropped and decoding goes on. */
  lemma MalformedSkipped(parse: string -> Parsed, before: string, line: string, after: string)
    requires '\n' !in line && StartsWith(line, DataPrefix)
    requires parse(line[|DataPrefix|..]) == BufferedSse.Malformed
    ensures ChunkText(Reader(parse), before + "\n" + line + "\n" + after)
         == ChunkText(Reader(parse), before) + ChunkText(Reader(parse), after)
  {
    assert Reader(parse)(line) == "";
    SkipPiece(Reader(parse), before, line, after);
  }

  /**
   * A `data: ` line cut in two by a chunk boundary is lost when its first
   * half does not parse and its second half does not itself start with
   * `data: `; delivered in one chunk, the same line is decoded.
   */
  lemma SplitLineLost(parse: string -> Parsed, head: string, tail: string)
    requires '\n' !in head && '\n' !in tail
    requires StartsWith(head, DataPrefix) ==> parse(head[|DataPrefix|..]) == BufferedSse.Malformed
    requires !StartsWith(tail, DataPrefix)
    ensures Decode(parse, [head, tail]) == ""
    ensures Decode(parse, [head + tail]) == PieceText(parse, head + tail)
  {
    var piece := Reader(parse);
    assert piece(head) == "" && piece(tail) == "";
    ChunkSingle(piece, head);
    ChunkSingle(piece, tail);
    assert '\n' !in head + tail;
    ChunkSingle(piece, head + tail);
    assert Collect(piece, [head]) == "" by {
      assert [head][..0] == [];
    }
    assert Collect(piece, [head, tail]) == Collect(piece, [head]) + ChunkText(piece, tail) by {
      assert [head, tail][..1] == [head];
    }
    assert Collect(piece, [head + tail]) == ChunkText(piece, head + tail) by {
      assert [head + tail][..0] == [];
    }
  }
}
