/**
 * The event-stream decoder of the employee chat page (src/pages/Employee.tsx).
 *
 * It follows a small part of the `text/event-stream` format of the WHATWG HTML
 * Living Standard (section 9.2.5, "Parsing an event stream"): the response
 * arrives as chunks of text, complete lines are cut out of a buffer that is
 * carried from chunk to chunk, comment and blank lines are skipped, and only
 * `data: ` lines are decoded. A `[DONE]` payload ends the processing of the
 * current buffer; a payload that does not parse is pushed back to the front
 * of the buffer and waits for the next chunk.
 *
 * `JSON.parse` followed by `parsed.choices?.[0]?.delta?.content` is the
 * function parameter `parse`.
 */
module BufferedSse {
  import opened Base
  import opened Transcript

  /** What parsing a payload and reading `choices[0].delta.content` gives. */
  datatype Parsed = Malformed | Json(delta: Option<string>)

  /** How the loop treats one line (after its trailing carriage return is cut). */
  datatype LineKind = Ignored | Done | Bad | Delta(text: string)

  const DataPrefix: string := "data: "

  /** `if (line.endsWith("\r")) line = line.slice(0, -1)` */
  function StripCR(line: string): string {
    if EndsWith(line, "\r") then line[..|line| - 1] else line
  }

  /** The decision the inner loop takes for one line; a falsy delta contributes no text. */
  function Classify(parse: string -> Parsed, line: string): LineKind {
    if StartsWith(line, ":") || Trim(line) == "" then Ignored
    else if !StartsWith(line, DataPrefix) then Ignored
    else
      var payload := Trim(line[|DataPrefix|..]);
      if payload == "[DONE]" then Done
      else match parse(payload)
        case Malformed => Bad
        case Json(d) => Delta(if Truthy(d) then d.value else "")
  }

  /** The buffer and the accumulated reply between two steps of the loop. */
  datatype State = State(buffer: string, content: string)

  /**
   * The inner loop: takes complete lines off the front of the buffer until
   * none is left, a `[DONE]` line is met, or a payload fails to parse.
   */
  function Drain(classify: string -> LineKind, buffer: string, content: string): State
    decreases |buffer|
  {
    var i := IndexOf(buffer, '\n');
    if i == -1 then State(buffer, content)
    else
      var line, rest := StripCR(buffer[..i]), buffer[i + 1..];
      match classify(line)
      case Ignored => Drain(classify, rest, content)
      case Done => State(rest, content)
      case Bad => State(line + "\n" + rest, content)
      case Delta(t) => Drain(classify, rest, content + t)
  }

  /** One step of `Drain` when the buffer holds a complete line. */
  lemma DrainStep(classify: string -> LineKind, buffer: string, content: string, line: string, rest: string)
    requires '\n' in buffer
    requires line == StripCR(buffer[..IndexOf(buffer, '\n')])
    requires rest == buffer[IndexOf(buffer, '\n') + 1..]
    ensures classify(line).Ignored? ==> Drain(classify, buffer, content) == Drain(classify, rest, content)
    ensures classify(line).Done? ==> Drain(classify, buffer, content) == State(rest, content)
    ensures classify(line).Bad? ==> Drain(classify, buffer, content) == State(line + "\n" + rest, content)
    ensures classify(line).Delta? ==>
      Drain(classify, buffer, content) == Drain(classify, rest, content + classify(line).text)
  {
  }

  /** The outer loop: each chunk is appended to the buffer, which is then drained. */
  function Feed(classify: string -> LineKind, chunks: seq<string>, buffer: string, content: string): State
  {
    if chunks == [] then State(buffer, content)
    else
      var s := Drain(classify, buffer + chunks[0], content);
      Feed(classify, chunks[1..], s.buffer, s.content)
  }

  /** The line decisions of the page, for a given payload parser. */
  function Reader(parse: string -> Parsed): string -> LineKind {
    line => Classify(parse, line)
  }

  /** The reply the page accumulates from a whole stream. */
  function Decode(parse: string -> Parsed, chunks: seq<string>): string {
    Feed(Reader(parse), chunks, "", "").content
  }

  /**
   * The read loop of `handleSend` (src/pages/Employee.tsx:184-218). `messages`
   * is the transcript with the placeholder (id `placeholderId`, empty content)
   * already appended; `shown` is the transcript once the stream has ended.
   */
  method DecodeStream(parse: string -> Parsed, chunks: seq<string>, messages: seq<Message>, placeholderId: string)
    returns (content: string, shown: seq<Message>)
    ensures content == Decode(parse, chunks)
    ensures Streaming(shown, messages, placeholderId, content)
  {
    var textBuffer := "";
    content := "";
    shown := messages;
    var k := 0;
    while k < |chunks|
      invariant 0 <= k <= |chunks|
      invariant Feed(Reader(parse), chunks[k..], textBuffer, content) == Feed(Reader(parse), chunks, "", "")
      invariant Streaming(shown, messages, placeholderId, content)
    {
      textBuffer, content, shown := DrainLines(parse, textBuffer + chunks[k], content, shown, messages, placeholderId);
      assert chunks[k..][1..] == chunks[k + 1..];
      k := k + 1;
    }
  }

  /**
   * The inner `while ((newlineIndex = textBuffer.indexOf("\n")) !== -1)` loop
   * for one chunk, with the transcript updated after every non-empty delta.
   */
  method DrainLines(parse: string -> Parsed, buffer: string, content: string,
                    shown: seq<Message>, messages: seq<Message>, placeholderId: string)
    returns (textBuffer: string, reply: string, shownAfter: seq<Message>)
    requires Streaming(shown, messages, placeholderId, content)
    ensures State(textBuffer, reply) == Drain(Reader(parse), buffer, content)
    ensures Streaming(shownAfter, messages, placeholderId, reply)
  {
    textBuffer, reply, shownAfter := buffer, content, shown;
    var newlineIndex := IndexOf(textBuffer, '\n');
    while newlineIndex != -1
      invariant newlineIndex == IndexOf(textBuffer, '\n')
      invariant Drain(Reader(parse), textBuffer, reply) == Drain(Reader(parse), buffer, content)
      invariant Streaming(shownAfter, messages, placeholderId, reply)
      decreases |textBuffer|
    {
      var line := StripCR(textBuffer[..newlineIndex]);
      var rest := textBuffer[newlineIndex + 1..];
      DrainStep(Reader(parse), textBuffer, reply, line, rest);
      textBuffer := rest;
      var kind := Classify(parse, line);
      if kind.Done? {
        break;
      } else if kind.Bad? {
        textBuffer := line + "\n" + textBuffer;
        break;
      } else if kind.Delta? {
        if kind.text != "" {
          var before := reply;
          reply := reply + kind.text;
          ShowContentAgain(shownAfter, messages, placeholderId, before, reply);
          shownAfter := ShowContent(shownAfter, placeholderId, reply);
        } else {
          assert reply + kind.text == reply;
        }
      }
      newlineIndex := IndexOf(textBuffer, '\n');
    }
  }

  // ---------------------------------------------------------------------
  // What the decoder computes, independently of how the stream is chunked.

  /** The complete lines of `s` (each without its newline); a trailing fragment is not a line. */
  function Lines(s: string): seq<string>
    decreases |s|
  {
    var i := IndexOf(s, '\n');
    if i == -1 then [] else [s[..i]] + Lines(s[i + 1..])
  }

  /** How the loop treats a complete line as it arrives. */
  function Kind(classify: string -> LineKind, raw: string): LineKind {
    classify(StripCR(raw))
  }

  /** The text a line adds to the reply when it is reached. */
  function Contribution(classify: string -> LineKind, raw: string): string {
    match Kind(classify, raw)
    case Delta(t) => t
    case _ => ""
  }

  /** The text of all the lines, in order. */
  function Collect(classify: string -> LineKind, lines: seq<string>): string {
    if lines == [] then "" else Contribution(classify, lines[0]) + Collect(classify, lines[1..])
  }

  /** The whole stream, as the concatenation of its chunks. */
  function Concat(chunks: seq<string>): string {
    if chunks == [] then "" else chunks[0] + Concat(chunks[1..])
  }

  /** Every payload parses. */
  ghost predicate NoMalformed(classify: string -> LineKind, lines: seq<string>) {
    forall k :: 0 <= k < |lines| ==> !Kind(classify, lines[k]).Bad?
  }

  /** No line after a `[DONE]` line carries text. */
  ghost predicate NothingAfterDone(classify: string -> LineKind, lines: seq<string>) {
    forall i, j :: 0 <= i < j < |lines| && Kind(classify, lines[i]).Done? ==> Contribution(classify, lines[j]) == ""
  }

  /** No line carries text. */
  ghost predicate Silent(classify: string -> LineKind, lines: seq<string>) {
    forall k :: 0 <= k < |lines| ==> Contribution(classify, lines[k]) == ""
  }

  /** The first newline after a line without one is the one that ends it. */
  lemma NewlineAfter(raw: string, t: string)
    requires '\n' !in raw
    ensures IndexOf(raw + "\n" + t, '\n') == |raw|
    ensures (raw + "\n" + t)[..|raw|] == raw && (raw + "\n" + t)[|raw| + 1..] == t
  {
    var s := raw + "\n" + t;
    assert s[|raw|] == '\n';
    assert s[..|raw|] == raw;
  }

  /** A line followed by its newline is the first line. */
  lemma LinesCons(raw: string, t: string)
    requires '\n' !in raw
    ensures Lines(raw + "\n" + t) == [raw] + Lines(t)
  {
    NewlineAfter(raw, t);
  }

  /** Appending text never changes the lines already complete. */
  lemma {:induction false} LinesPrefix(s: string, t: string)
    ensures Lines(s) <= Lines(s + t)
    decreases |s|
  {
    if '\n' in s {
      var i := IndexOf(s, '\n');
      var raw, rest := s[..i], s[i + 1..];
      CutLine(s);
      LinesCons(raw, rest);
      AppendAssoc(raw + "\n", rest, t);
      LinesCons(raw, rest + t);
      LinesPrefix(rest, t);
    }
  }

  /** The text of two runs of lines is the text of each, in order. */
  lemma {:induction false} CollectAppend(classify: string -> LineKind, a: seq<string>, b: seq<string>)
    ensures Collect(classify, a + b) == Collect(classify, a) + Collect(classify, b)
  {
    if a == [] {
      assert a + b == b;
    } else {
      assert (a + b)[0] == a[0];
      assert (a + b)[1..] == a[1..] + b;
      CollectAppend(classify, a[1..], b);
    }
  }

  /** Lines that carry no text add nothing. */
  lemma {:induction false} CollectSilent(classify: string -> LineKind, lines: seq<string>)
    requires Silent(classify, lines)
    ensures Collect(classify, lines) == ""
  {
    if lines != [] {
      CollectSilent(classify, lines[1..]);
    }
  }

  /** The text of a line followed by more lines. */
  lemma CollectCons(classify: string -> LineKind, raw: string, lines: seq<string>)
    ensures Collect(classify, [raw] + lines) == Contribution(classify, raw) + Collect(classify, lines)
  {
    assert ([raw] + lines)[1..] == lines;
  }

  /** The text of complete lines: each line followed by its newline. */
  function Unlines(ls: seq<string>): string {
    if ls == [] then "" else ls[0] + "\n" + Unlines(ls[1..])
  }

  /** `Lines` undoes `Unlines`, whatever text follows. */
  lemma {:induction false} LinesUnlines(ls: seq<string>, t: string)
    requires forall k :: 0 <= k < |ls| ==> '\n' !in ls[k]
    ensures Lines(Unlines(ls) + t) == ls + Lines(t)
  {
    if ls == [] {
      assert Unlines(ls) + t == t;
      assert ls + Lines(t) == Lines(t);
    } else {
      var more := Unlines(ls[1..]);
      LinesUnlines(ls[1..], t);
      AppendAssoc(ls[0] + "\n", more, t);
      LinesCons(ls[0], more + t);
      AppendAssoc([ls[0]], ls[1..], Lines(t));
      assert [ls[0]] + ls[1..] == ls;
    }
  }

  /**
   * What one drain did: it consumed the complete lines `ls` from the front
   * of the buffer, added their text, and stopped with complete lines still
   * in the buffer only after a `[DONE]` line.
   */
  ghost predicate Consumed(classify: string -> LineKind, buffer: string, content: string, ls: seq<string>, r: State) {
    (forall k :: 0 <= k < |ls| ==> '\n' !in ls[k]) &&
    buffer == Unlines(ls) + r.buffer &&
    r.content == content + Collect(classify, ls) &&
    ('\n' in r.buffer ==> ls != [] && Kind(classify, ls[|ls| - 1]).Done?)
  }

  /** A `[DONE]` line ends the drain right after it. */
  lemma ConsumedDone(classify: string -> LineKind, buffer: string, raw: string, rest: string, content: string)
    requires buffer == raw + "\n" + rest && '\n' !in raw
    requires Kind(classify, raw).Done?
    ensures Consumed(classify, buffer, content, [raw], State(rest, content))
  {
    assert [raw][1..] == [];
    assert Unlines([raw]) == raw + "\n" + "";
    assert raw + "\n" + "" == raw + "\n";
    assert Collect(classify, [raw]) == "" + "";
    assert content + "" == content;
  }

  /** A line the drain reads past joins the consumed lines. */
  lemma ConsumedLine(classify: string -> LineKind, buffer: string, raw: string, rest: string, content: string,
                     ls: seq<string>, r: State)
    requires buffer == raw + "\n" + rest && '\n' !in raw
    requires Kind(classify, raw).Ignored? || Kind(classify, raw).Delta?
    requires Consumed(classify, rest, content + Contribution(classify, raw), ls, r)
    ensures Consumed(classify, buffer, content, [raw] + ls, r)
  {
    var all := [raw] + ls;
    assert all[0] == raw && all[1..] == ls;
    assert Unlines(all) == raw + "\n" + Unlines(ls);
    AppendAssoc(raw + "\n", Unlines(ls), r.buffer);
    CollectCons(classify, raw, ls);
    AppendAssoc(content, Contribution(classify, raw), Collect(classify, ls));
    if '\n' in r.buffer {
      assert all[|all| - 1] == ls[|ls| - 1];
    }
  }

  /** The first line of a run and the rest of it parse when the whole run does. */
  lemma NoMalformedCons(classify: string -> LineKind, raw: string, lines: seq<string>)
    requires NoMalformed(classify, [raw] + lines)
    ensures !Kind(classify, raw).Bad? && NoMalformed(classify, lines)
  {
    var whole := [raw] + lines;
    assert whole[0] == raw;
    forall k | 0 <= k < |lines| ensures !Kind(classify, lines[k]).Bad? {
      assert whole[k + 1] == lines[k];
    }
  }

  /** The first complete line of a buffer whose payloads parse, and the drain step it causes. */
  lemma DrainHead(classify: string -> LineKind, buffer: string, content: string)
    requires '\n' in buffer
    requires NoMalformed(classify, Lines(buffer))
    ensures var i := IndexOf(buffer, '\n');
      var raw, rest := buffer[..i], buffer[i + 1..];
      buffer == raw + "\n" + rest && '\n' !in raw &&
      !Kind(classify, raw).Bad? && NoMalformed(classify, Lines(rest)) &&
      (Kind(classify, raw).Done? ==> Drain(classify, buffer, content) == State(rest, content)) &&
      (!Kind(classify, raw).Done? ==>
        Drain(classify, buffer, content) == Drain(classify, rest, content + Contribution(classify, raw)))
  {
    var i := IndexOf(buffer, '\n');
    var raw, rest := buffer[..i], buffer[i + 1..];
    CutLine(buffer);
    LinesCons(raw, rest);
    NoMalformedCons(classify, raw, Lines(rest));
    DrainStep(classify, buffer, content, StripCR(raw), rest);
    if Kind(classify, raw).Ignored? {
      assert content + Contribution(classify, raw) == content;
    }
  }

  /** Every drain of a buffer whose payloads parse is described by `Consumed`. */
  lemma {:induction false} DrainConsumes(classify: string -> LineKind, buffer: string, content: string)
    returns (ls: seq<string>)
    requires NoMalformed(classify, Lines(buffer))
    ensures Consumed(classify, buffer, content, ls, Drain(classify, buffer, content))
    decreases |buffer|
  {
    if '\n' !in buffer {
      ls := [];
      assert Unlines(ls) + buffer == buffer;
      assert content + Collect(classify, ls) == content;
      return;
    }
    var i := IndexOf(buffer, '\n');
    var raw, rest := buffer[..i], buffer[i + 1..];
    DrainHead(classify, buffer, content);
    if Kind(classify, raw).Done? {
      ls := [raw];
      ConsumedDone(classify, buffer, raw, rest, content);
    } else {
      var added := Contribution(classify, raw);
      var more := DrainConsumes(classify, rest, content + added);
      ls := [raw] + more;
      ConsumedLine(classify, buffer, raw, rest, content, more, Drain(classify, rest, content + added));
    }
  }

  /**
   * The outer loop from any point: with every payload parsing and no text
   * after a `[DONE]`, the reply grows by exactly the text of the remaining
   * complete lines.
   */
  lemma {:induction false} FeedCollects(classify: string -> LineKind, chunks: seq<string>, buffer: string, content: string)
    requires NoMalformed(classify, Lines(buffer + Concat(chunks)))
    requires NothingAfterDone(classify, Lines(buffer + Concat(chunks)))
    requires '\n' in buffer ==> Silent(classify, Lines(buffer + Concat(chunks)))
    ensures Feed(classify, chunks, buffer, content).content == content + Collect(classify, Lines(buffer + Concat(chunks)))
  {
    var all := Lines(buffer + Concat(chunks));
    if chunks == [] {
      assert buffer + Concat(chunks) == buffer;
      if '\n' in buffer {
        CollectSilent(classify, all);
      }
      assert content + Collect(classify, all) == content;
    } else {
      var b, tail := buffer + chunks[0], Concat(chunks[1..]);
      assert Lines(b + tail) == all by {
        AppendAssoc(buffer, chunks[0], tail);
      }
      assert NoMalformed(classify, Lines(b)) by {
        LinesPrefix(b, tail);
        assert forall k :: 0 <= k < |Lines(b)| ==> Lines(b)[k] == all[k];
      }
      var ls := DrainConsumes(classify, b, content);
      var r := Drain(classify, b, content);
      var later := Lines(r.buffer + tail);
      assert all == ls + later by {
        AppendAssoc(Unlines(ls), r.buffer, tail);
        LinesUnlines(ls, r.buffer + tail);
      }
      AfterConsumed(classify, ls, later);
      FeedCollects(classify, chunks[1..], r.buffer, r.content);
      CollectAppend(classify, ls, later);
      AppendAssoc(content, Collect(classify, ls), Collect(classify, later));
    }
  }

  /**
   * The lines after a drained prefix keep the two conditions, and carry no
   * text at all when the prefix ended with `[DONE]`.
   */
  lemma AfterConsumed(classify: string -> LineKind, front: seq<string>, later: seq<string>)
    requires NoMalformed(classify, front + later)
    requires NothingAfterDone(classify, front + later)
    ensures NoMalformed(classify, later)
    ensures NothingAfterDone(classify, later)
    ensures front != [] && Kind(classify, front[|front| - 1]).Done? ==> Silent(classify, later)
  {
    var all := front + later;
    assert forall k :: 0 <= k < |later| ==> later[k] == all[|front| + k];
    if front != [] && Kind(classify, front[|front| - 1]).Done? {
      assert all[|front| - 1] == front[|front| - 1];
    }
  }

  /**
   * The decoded reply is the text of the complete lines of the whole stream,
   * provided every payload parses and nothing follows `[DONE]`.
   */
  lemma DecodeCollects(parse: string -> Parsed, chunks: seq<string>)
    requires NoMalformed(Reader(parse), Lines(Concat(chunks)))
    requires NothingAfterDone(Reader(parse), Lines(Concat(chunks)))
    ensures Decode(parse, chunks) == Collect(Reader(parse), Lines(Concat(chunks)))
  {
    assert "" + Concat(chunks) == Concat(chunks);
    FeedCollects(Reader(parse), chunks, "", "");
  }

  /**
   * The reply depends only on the complete lines of the stream: a final
   * fragment without its newline is never read.
   */
  lemma DecodeCompleteLines(parse: string -> Parsed, chunks: seq<string>, ls: seq<string>, fragment: string)
    requires Concat(chunks) == Unlines(ls) + fragment
    requires forall k :: 0 <= k < |ls| ==> '\n' !in ls[k]
    requires '\n' !in fragment
    requires NoMalformed(Reader(parse), ls)
    requires NothingAfterDone(Reader(parse), ls)
    ensures Decode(parse, chunks) == Collect(Reader(parse), ls)
  {
    LinesUnlines(ls, fragment);
    assert Lines(fragment) == [];
    assert ls + [] == ls;
    DecodeCollects(parse, chunks);
  }

  /** How the stream is cut into chunks does not change the reply. */
  lemma DecodeIgnoresChunking(parse: string -> Parsed, chunks: seq<string>, other: seq<string>)
    requires Concat(chunks) == Concat(other)
    requires NoMalformed(Reader(parse), Lines(Concat(chunks)))
    requires NothingAfterDone(Reader(parse), Lines(Concat(chunks)))
    ensures Decode(parse, chunks) == Decode(parse, other)
  {
    DecodeCollects(parse, chunks);
    DecodeCollects(parse, other);
  }

  /** Cutting a trailing carriage return keeps a prefix that does not end in one. */
  lemma StartsWithStripCR(line: string, prefix: string)
    requires prefix == [] || prefix[|prefix| - 1] != '\r'
    ensures StartsWith(StripCR(line), prefix) == StartsWith(line, prefix)
  {
    if EndsWith(line, "\r") {
      var short := StripCR(line);
      if |short| >= |prefix| {
        assert line[..|prefix|] == short[..|prefix|];
      } else if |line| == |prefix| && prefix != [] {
        assert line[|prefix| - 1] == '\r';
      }
    }
  }

  /** Cutting a trailing carriage return does not change the trimmed text after `from`. */
  lemma TrimStripCR(line: string, from: nat)
    requires from <= |StripCR(line)|
    ensures Trim(StripCR(line)[from..]) == Trim(line[from..])
  {
    if EndsWith(line, "\r") {
      var short := StripCR(line);
      assert line[from..] == short[from..] + ['\r'];
      TrimDropsSpace(short[from..], '\r');
    }
  }

  /** Cutting a trailing carriage return a second time changes no decision. */
  lemma ClassifyIgnoresCR(parse: string -> Parsed, line: string)
    ensures Classify(parse, StripCR(line)) == Classify(parse, line)
  {
    StartsWithStripCR(line, ":");
    StartsWithStripCR(line, DataPrefix);
    TrimStripCR(line, 0);
    assert StripCR(line)[0..] == StripCR(line) && line[0..] == line;
    if StartsWith(line, DataPrefix) {
      TrimStripCR(line, |DataPrefix|);
    }
  }

  /**
   * A complete line whose payload does not parse is put back at the front of
   * the buffer and read again at every later chunk: nothing after it is ever
   * added to the reply.
   */
  lemma {:induction false} MalformedStalls(parse: string -> Parsed, chunks: seq<string>, buffer: string, content: string)
    requires '\n' in buffer
    requires Kind(Reader(parse), buffer[..IndexOf(buffer, '\n')]).Bad?
    ensures Feed(Reader(parse), chunks, buffer, content).content == content
  {
    if chunks != [] {
      var b := buffer + chunks[0];
      var i := IndexOf(buffer, '\n');
      IndexOfPrefix(buffer, chunks[0], '\n');
      assert b[..i] == buffer[..i];
      var raw, rest := buffer[..i], b[i + 1..];
      var line := StripCR(raw);
      DrainStep(Reader(parse), b, content, line, rest);
      assert '\n' !in line by {
        assert line == raw[..|line|];
      }
      NewlineAfter(line, rest);
      ClassifyIgnoresCR(parse, line);
      MalformedStalls(parse, chunks[1..], line + "\n" + rest, content);
    }
  }

  /**
   * A `[DONE]` line stops the reading of its chunk only: the lines after it
   * are kept in the buffer and are read when the next chunk, even an empty
   * one, arrives.
   */
  lemma DoneHoldsBackRest(parse: string -> Parsed, raw: string, after: string)
    requires '\n' !in raw
    requires Kind(Reader(parse), raw).Done?
    ensures Decode(parse, [raw + "\n" + after]) == ""
    ensures Decode(parse, [raw + "\n" + after, ""]) == Decode(parse, [after])
  {
    var read, chunk := Reader(parse), raw + "\n" + after;
    assert Drain(read, chunk, "") == State(after, "") by {
      NewlineAfter(raw, after);
      DrainStep(read, chunk, "", StripCR(raw), after);
    }
    FeedOne(read, chunk, "", "");
    FeedOne(read, after, "", "");
    FeedOne(read, "", after, "");
    assert Feed(read, [chunk, ""], "", "") == Feed(read, [""], after, "") by {
      assert "" + chunk == chunk && [chunk, ""][1..] == [""];
    }
    assert "" + chunk == chunk && "" + after == after && after + "" == after;
  }

  /** Feeding one chunk is one drain of the buffer with the chunk appended. */
  lemma FeedOne(classify: string -> LineKind, chunk: string, buffer: string, content: string)
    ensures Feed(classify, [chunk], buffer, content) == Drain(classify, buffer + chunk, content)
  {
    assert [chunk][1..] == [];
  }
}
