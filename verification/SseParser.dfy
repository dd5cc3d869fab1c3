/**
 The incremental parser of server-sent events. `parse` stands for JSON.parse: it accepts some
 payloads and rejects the others. The reference definition is the unique decomposition of a stream
 into clean blocks and a remainder; chunk invariance and the round trip follow from uniqueness.
 */
module SseParser {
  import opened Prelude

  // ---- the stream, decomposed ----

  predicate BreakAt(s: string, i: nat) {
    i + 1 < |s| && s[i] == '\n' && s[i + 1] == '\n'
  }

  predicate Unbroken(s: string) {
    forall i :: 0 <= i < |s| ==> !BreakAt(s, i)
  }

  /** `s.indexOf("\n\n")`, from position k on. */
  function IndexOfBreak(s: string, k: nat := 0): (r: Option<nat>)
    requires k <= |s|
    ensures r.Some? ==> k <= r.value && BreakAt(s, r.value)
    ensures forall i: nat :: k <= i && (r.Some? ==> i < r.value) ==> !BreakAt(s, i)
    decreases |s| - k
  {
    if k == |s| then None
    else if BreakAt(s, k) then Some(k)
    else IndexOfBreak(s, k + 1)
  }

  /** A block that a following blank line closes exactly at its end. */
  predicate Clean(block: string) {
    Unbroken(block) && (block != "" ==> block[|block| - 1] != '\n')
  }

  function Closed(blocks: seq<string>): string {
    if blocks == [] then "" else blocks[0] + "\n\n" + Closed(blocks[1..])
  }

  /** The complete blocks of a buffer and what is left over. */
  function Split(s: string): (seq<string>, string)
    decreases |s|
  {
    match IndexOfBreak(s)
    case None => ([], s)
    case Some(i) => var (blocks, rest) := Split(s[i + 2..]); ([s[..i]] + blocks, rest)
  }

  predicate AllClean(blocks: seq<string>) {
    forall k :: 0 <= k < |blocks| ==> Clean(blocks[k])
  }

  lemma ClosedCons(block: string, blocks: seq<string>, rest: string)
    ensures Closed([block] + blocks) + rest == block + "\n\n" + (Closed(blocks) + rest)
  {
    var all := [block] + blocks;
    assert all[1..] == blocks;
    assert Closed(all) == block + "\n\n" + Closed(blocks);
  }

  lemma HeadBlock(s: string, i: nat)
    requires IndexOfBreak(s) == Some(i)
    ensures Clean(s[..i]) && s == s[..i] + "\n\n" + s[i + 2..]
  {
    var block := s[..i];
    forall k | 0 <= k < i ensures !BreakAt(block, k) {
      assert !BreakAt(s, k);
    }
    if i > 0 {
      assert !BreakAt(s, i - 1);
    }
  }

  lemma UnbrokenHasNoBreak(s: string)
    ensures IndexOfBreak(s).None? <==> Unbroken(s)
  {
    var i := IndexOfBreak(s);
    assert i.Some? ==> BreakAt(s, i.value);
  }

  /** Blocks, their separators and the remainder rebuild the input; the remainder holds no blank line. */
  lemma {:induction false} SplitDecomposes(s: string)
    ensures Closed(Split(s).0) + Split(s).1 == s && AllClean(Split(s).0) && Unbroken(Split(s).1)
    decreases |s|
  {
    UnbrokenHasNoBreak(s);
    var i := IndexOfBreak(s);
    if i.Some? {
      HeadBlock(s, i.value);
      SplitDecomposes(s[i.value + 2..]);
      ClosedCons(s[..i.value], Split(s[i.value + 2..]).0, Split(s).1);
    } else {
      assert Split(s) == ([], s);
    }
  }

  lemma FirstBreak(block: string, tail: string)
    requires Clean(block)
    ensures IndexOfBreak(block + "\n\n" + tail) == Some(|block|)
  {
    var s := block + "\n\n" + tail;
    assert BreakAt(s, |block|);
    forall k | 0 <= k < |block| ensures !BreakAt(s, k) {
      assert !BreakAt(block, k);
    }
  }

  /** No other decomposition exists: splitting finds the one it was built from. */
  lemma {:induction false} SplitIsUnique(blocks: seq<string>, rest: string)
    requires AllClean(blocks) && Unbroken(rest)
    ensures Split(Closed(blocks) + rest) == (blocks, rest)
    decreases |blocks|
  {
    if blocks == [] {
      assert Closed(blocks) + rest == rest;
      UnbrokenHasNoBreak(rest);
    } else {
      var block, tail := blocks[0], Closed(blocks[1..]) + rest;
      assert [block] + blocks[1..] == blocks;
      ClosedCons(block, blocks[1..], rest);
      FirstBreak(block, tail);
      var s := block + "\n\n" + tail;
      assert s[|block| + 2..] == tail && s[..|block|] == block;
      SplitIsUnique(blocks[1..], rest);
    }
  }

  lemma {:induction false} ClosedAppends(a: seq<string>, b: seq<string>)
    ensures Closed(a + b) == Closed(a) + Closed(b)
    decreases |a|
  {
    if a == [] {
      assert a + b == b;
    } else {
      assert (a + b)[1..] == a[1..] + b;
      ClosedAppends(a[1..], b);
    }
  }

  lemma Associates<T>(a: seq<T>, b: seq<T>, c: seq<T>)
    ensures (a + b) + c == a + (b + c)
  {
  }

  /** Splitting a buffer early and carrying the remainder loses and changes nothing. */
  lemma SplitResumes(a: string, b: string)
    ensures var carry := Split(a).1;
            Split(a + b) == (Split(a).0 + Split(carry + b).0, Split(carry + b).1)
  {
    var first, carry := Split(a).0, Split(a).1;
    var second, rest := Split(carry + b).0, Split(carry + b).1;
    SplitDecomposes(a);
    SplitDecomposes(carry + b);
    ClosedAppends(first, second);
    Associates(Closed(first), carry, b);
    Associates(Closed(first), Closed(second), rest);
    SplitIsUnique(first + second, rest);
  }

  // ---- one block ----

  /** JavaScript's whitespace and line terminators. */
  predicate IsSpace(c: char) {
    || '\t' <= c <= '\r' || c == ' ' || c == '\U{00A0}' || c == '\U{1680}' || '\U{2000}' <= c <= '\U{200A}'
    || c == '\U{2028}' || c == '\U{2029}' || c == '\U{202F}' || c == '\U{205F}' || c == '\U{3000}' || c == '\U{FEFF}'
  }

  function Trim(s: string): string
    decreases |s|
  {
    if s == "" then s
    else if IsSpace(s[0]) then Trim(s[1..])
    else if IsSpace(s[|s| - 1]) then Trim(s[..|s| - 1])
    else s
  }

  /** `s.split("\n")`. */
  function Lines(s: string, k: nat := 0): (r: seq<string>)
    requires k <= |s|
    ensures r != []
    decreases |s| - k
  {
    if k == |s| then [s]
    else if s[k] == '\n' then [s[..k]] + Lines(s[k + 1..])
    else Lines(s, k + 1)
  }

  predicate IsData(line: string) {
    |line| >= 5 && line[..5] == "data:"
  }

  function DataOf(lines: seq<string>): seq<string> {
    if lines == [] then []
    else (if IsData(lines[0]) then [Trim(lines[0][5..])] else []) + DataOf(lines[1..])
  }

  function Join(parts: seq<string>): string {
    if parts == [] then "" else parts[0] + Join(parts[1..])
  }

  /** The event of a block: none without a data line or with a payload that does not parse. */
  function EventOf<E>(parse: string -> Option<E>, block: string): seq<E> {
    var data := DataOf(Lines(block));
    if data == [] then []
    else match parse(Join(data)) case None => [] case Some(e) => [e]
  }

  function EventsOf<E>(parse: string -> Option<E>, blocks: seq<string>): seq<E> {
    if blocks == [] then [] else EventOf(parse, blocks[0]) + EventsOf(parse, blocks[1..])
  }

  lemma {:induction false} EventsAppend<E>(parse: string -> Option<E>, a: seq<string>, b: seq<string>)
    ensures EventsOf(parse, a + b) == EventsOf(parse, a) + EventsOf(parse, b)
    decreases |a|
  {
    if a == [] {
      assert a + b == b;
    } else {
      assert (a + b)[0] == a[0] && (a + b)[1..] == a[1..] + b;
      EventsAppend(parse, a[1..], b);
      Associates(EventOf(parse, a[0]), EventsOf(parse, a[1..]), EventsOf(parse, b));
    }
  }

  /** White space by code point: tab to carriage return, the space, and the spaces and line ends beyond ASCII. */
  lemma SpaceByCode(c: char)
    ensures IsSpace(c) <==> c as int in {9, 10, 11, 12, 13, 32, 0xA0, 0x1680, 0x2028, 0x2029, 0x202F, 0x205F, 0x3000,
                                         0xFEFF}
                            || 0x2000 <= c as int <= 0x200A
  {
  }

  lemma {:induction false} TrimIsBare(s: string)
    ensures Trim(s) == "" || (!IsSpace(Trim(s)[0]) && !IsSpace(Trim(s)[|Trim(s)| - 1]))
    decreases |s|
  {
    if s != "" {
      if IsSpace(s[0]) { TrimIsBare(s[1..]); } else if IsSpace(s[|s| - 1]) { TrimIsBare(s[..|s| - 1]); }
    }
  }

  /** Trimming takes white space off both ends and nothing else. */
  lemma {:induction false} TrimIsCore(s: string) returns (i: nat, j: nat)
    ensures i <= j <= |s| && Trim(s) == s[i..j]
    ensures forall k :: 0 <= k < |s| && !(i <= k < j) ==> IsSpace(s[k])
    decreases |s|
  {
    i, j := 0, |s|;
    if s != "" {
      if IsSpace(s[0]) {
        i, j := TrimIsCore(s[1..]);
        assert s[1..][i..j] == s[i + 1..j + 1];
        assert forall k :: 0 < k < |s| ==> s[k] == s[1..][k - 1];
        i, j := i + 1, j + 1;
      } else if IsSpace(s[|s| - 1]) {
        i, j := TrimIsCore(s[..|s| - 1]);
        assert s[..|s| - 1][i..j] == s[i..j];
      }
    }
  }

  /**
   A block without a data line gives no event, and neither does one whose payload does not parse; the
   others are unaffected.
   */
  lemma SkippedBlock<E>(parse: string -> Option<E>, block: string, before: seq<string>, after: seq<string>)
    requires DataOf(Lines(block)) == [] || parse(Join(DataOf(Lines(block)))).None?
    ensures EventsOf(parse, before + [block] + after) == EventsOf(parse, before) + EventsOf(parse, after)
  {
    var one := [block];
    assert one[1..] == [] && EventsOf(parse, one[1..]) == [];
    assert EventsOf(parse, one) == [];
    EventsAppend(parse, before, one);
    EventsAppend(parse, before + one, after);
  }

  // ---- the parser ----

  method CollectDataLines(block: string) returns (data: seq<string>)
    ensures data == DataOf(Lines(block))
  {
    data := [];
    var lines := Lines(block);
    for i := 0 to |lines|
      invariant data + DataOf(lines[i..]) == DataOf(lines)
    {
      var line := lines[i];
      assert lines[i..][1..] == lines[i + 1..];
      if IsData(line) {
        data := data + [Trim(line[5..])];
      }
    }
  }

  lemma SplitStep(before: seq<string>, s: string, i: nat)
    requires IndexOfBreak(s) == Some(i)
    ensures before + Split(s).0 == (before + [s[..i]]) + Split(s[i + 2..]).0
    ensures Split(s).1 == Split(s[i + 2..]).1
  {
  }

  method ParseBlock<E>(parse: string -> Option<E>, block: string) returns (parsed: seq<E>)
    ensures parsed == EventOf(parse, block)
  {
    parsed := [];
    var data := CollectDataLines(block);
    if |data| > 0 {
      var event := parse(Join(data));
      if event.Some? {
        parsed := [event.value];
      }
    }
  }

  method ExtractCompleteSseEvents<E>(parse: string -> Option<E>, buffer: string)
    returns (parsed: seq<E>, remainder: string)
    ensures parsed == EventsOf(parse, Split(buffer).0)
    ensures remainder == Split(buffer).1
    ensures Unbroken(remainder)
  {
    parsed := [];
    remainder := buffer;
    ghost var blocks: seq<string> := [];
    while true
      invariant Split(buffer).0 == blocks + Split(remainder).0
      invariant Split(buffer).1 == Split(remainder).1
      invariant parsed == EventsOf(parse, blocks)
      decreases |remainder|
    {
      var end := IndexOfBreak(remainder);
      if end.None? {
        break;
      }
      var eventBlock := remainder[..end.value];
      SplitStep(blocks, remainder, end.value);
      EventsAppend(parse, blocks, [eventBlock]);
      EventsOfOne(parse, eventBlock);
      remainder := remainder[end.value + 2..];
      blocks := blocks + [eventBlock];
      var event := ParseBlock(parse, eventBlock);
      parsed := parsed + event;
    }
    assert Split(remainder) == ([], remainder);
    assert blocks + [] == blocks;
    SplitDecomposes(buffer);
  }

  lemma EventsOfOne<E>(parse: string -> Option<E>, block: string)
    ensures EventsOf(parse, [block]) == EventOf(parse, block)
  {
    var one := [block];
    assert one[1..] == [];
    assert EventsOf(parse, one[1..]) == [];
  }

  function Concat(chunks: seq<string>): string {
    if chunks == [] then "" else Concat(chunks[..|chunks| - 1]) + chunks[|chunks| - 1]
  }

  /**
   The reading loop: whatever way a stream is cut into chunks, parsing chunk by chunk while
   carrying the remainder gives the events and the remainder of one parse of the whole stream.
   */
  method ReadStream<E>(parse: string -> Option<E>, chunks: seq<string>) returns (events: seq<E>, buffer: string)
    ensures events == EventsOf(parse, Split(Concat(chunks)).0)
    ensures buffer == Split(Concat(chunks)).1
  {
    events, buffer := [], "";
    assert Split("") == ([], "");
    for i := 0 to |chunks|
      invariant events == EventsOf(parse, Split(Concat(chunks[..i])).0)
      invariant buffer == Split(Concat(chunks[..i])).1
    {
      assert chunks[..i + 1][..i] == chunks[..i];
      SplitResumes(Concat(chunks[..i]), chunks[i]);
      EventsAppend(parse, Split(Concat(chunks[..i])).0, Split(buffer + chunks[i]).0);
      var parsed, remainder := ExtractCompleteSseEvents(parse, buffer + chunks[i]);
      events := events + parsed;
      buffer := remainder;
    }
    assert chunks[..|chunks|] == chunks;
  }

  // ---- framing ----

  predicate NewlineFree(s: string) {
    forall i :: 0 <= i < |s| ==> s[i] != '\n'
  }

  lemma {:induction false} LinesOfFirst(head: string, tail: string, k: nat)
    requires NewlineFree(head) && k <= |head|
    ensures Lines(head + "\n" + tail, k) == [head] + Lines(tail)
    decreases |head| - k
  {
    var s := head + "\n" + tail;
    if k == |head| {
      assert s[k] == '\n' && s[..k] == head && s[k + 1..] == tail;
    } else {
      assert s[k] == head[k];
      LinesOfFirst(head, tail, k + 1);
    }
  }

  lemma {:induction false} LinesOfLast(s: string, k: nat)
    requires NewlineFree(s) && k <= |s|
    ensures Lines(s, k) == [s]
    decreases |s| - k
  {
    if k < |s| {
      LinesOfLast(s, k + 1);
    }
  }

  predicate PlainLines(lines: seq<string>) {
    forall k :: 0 <= k < |lines| ==> NewlineFree(lines[k]) && lines[k] != ""
  }

  /** The lines of a block, one after the other. */
  function Glue(lines: seq<string>): string
    requires lines != []
  {
    if |lines| == 1 then lines[0] else lines[0] + "\n" + Glue(lines[1..])
  }

  lemma {:induction false} LinesOfGlued(lines: seq<string>)
    requires lines != [] && PlainLines(lines)
    ensures Lines(Glue(lines)) == lines
  {
    if |lines| == 1 {
      LinesOfLast(lines[0], 0);
    } else {
      LinesOfGlued(lines[1..]);
      LinesOfFirst(lines[0], Glue(lines[1..]), 0);
      assert lines == [lines[0]] + lines[1..];
    }
  }

  /** Nonempty lines make a block that a following blank line closes exactly at its end. */
  lemma {:induction false} GluedIsClean(lines: seq<string>)
    requires lines != [] && PlainLines(lines)
    ensures Clean(Glue(lines)) && Glue(lines) != "" && Glue(lines)[0] != '\n'
  {
    if |lines| > 1 {
      var head, tail := lines[0], Glue(lines[1..]);
      GluedIsClean(lines[1..]);
      var s := head + "\n" + tail;
      forall i | 0 <= i < |s| ensures !BreakAt(s, i) {
        if i < |head| {
          assert s[i] == head[i];
        } else if i > |head| && i + 1 < |s| {
          assert s[i] == tail[i - |head| - 1] && s[i + 1] == tail[i - |head|];
          assert !BreakAt(tail, i - |head| - 1);
        }
      }
    }
  }

  /** A block with exactly one data line, at position d, carries that line's payload. */
  lemma {:induction false} OneDataLine(lines: seq<string>, d: nat)
    requires d < |lines| && IsData(lines[d]) && forall k :: 0 <= k < |lines| && k != d ==> !IsData(lines[k])
    ensures DataOf(lines) == [Trim(lines[d][5..])]
  {
    if d > 0 {
      OneDataLine(lines[1..], d - 1);
    } else {
      NoDataLine(lines[1..]);
    }
  }

  lemma {:induction false} NoDataLine(lines: seq<string>)
    requires forall k :: 0 <= k < |lines| ==> !IsData(lines[k])
    ensures DataOf(lines) == []
  {
    if lines != [] {
      NoDataLine(lines[1..]);
    }
  }

  lemma JoinOne(s: string)
    ensures Join([s]) == s
  {
    var one := [s];
    assert one[1..] == [];
    assert Join(one) == s + Join(one[1..]);
  }

  /** The block is clean and its one data line holds a payload that parses. */
  ghost predicate Carries<E(!new)>(parse: string -> Option<E>, block: string, json: string) {
    Clean(block) && DataOf(Lines(block)) == [json] && parse(json).Some?
  }

  /** Any block of nonempty lines with exactly one data line carries that line's payload. */
  lemma GluedCarries<E(!new)>(parse: string -> Option<E>, lines: seq<string>, d: nat, json: string)
    requires PlainLines(lines) && d < |lines| && parse(json).Some?
    requires IsData(lines[d]) && Trim(lines[d][5..]) == json && forall k :: 0 <= k < |lines| && k != d
                                                                  ==> !IsData(lines[k])
    ensures Carries(parse, Glue(lines), json)
  {
    LinesOfGlued(lines);
    GluedIsClean(lines);
    OneDataLine(lines, d);
  }

  lemma {:induction false} CarriedEvents<E(!new)>(parse: string -> Option<E>, blocks: seq<string>, jsons: seq<string>)
    requires |blocks| == |jsons| && forall k :: 0 <= k < |blocks| ==> Carries(parse, blocks[k], jsons[k])
    ensures |EventsOf(parse, blocks)| == |jsons|
    ensures forall k :: 0 <= k < |jsons| ==> parse(jsons[k]) == Some(EventsOf(parse, blocks)[k])
    decreases |blocks|
  {
    if blocks != [] {
      assert Carries(parse, blocks[0], jsons[0]);
      JoinOne(jsons[0]);
      forall k | 0 <= k < |blocks| - 1 ensures Carries(parse, blocks[1..][k], jsons[1..][k]) {
        assert Carries(parse, blocks[k + 1], jsons[k + 1]);
      }
      CarriedEvents(parse, blocks[1..], jsons[1..]);
    }
  }

  /** Clean blocks with one data line each come back in order, each once, with nothing left over. */
  lemma RoundTrip<E(!new)>(parse: string -> Option<E>, blocks: seq<string>, jsons: seq<string>)
    requires |blocks| == |jsons| && forall k :: 0 <= k < |blocks| ==> Carries(parse, blocks[k], jsons[k])
    ensures Split(Closed(blocks)) == (blocks, "")
    ensures |EventsOf(parse, blocks)| == |jsons|
    ensures forall k :: 0 <= k < |jsons| ==> parse(jsons[k]) == Some(EventsOf(parse, blocks)[k])
  {
    CarriedEvents(parse, blocks, jsons);
    forall k | 0 <= k < |blocks| ensures Clean(blocks[k]) {
      assert Carries(parse, blocks[k], jsons[k]);
    }
    SplitIsUnique(blocks, "");
    assert Closed(blocks) + "" == Closed(blocks);
  }

  // ---- the server's own frames ----

  /** An event as the server sends it on: its sequence number as text if it has one, its type and its JSON text. */
  datatype Message = Message(seqNo: Option<string>, kind: string, json: string)

  function FrameLines(m: Message): seq<string> {
    (if m.seqNo.Some? then ["id: " + m.seqNo.value] else []) + ["event: " + m.kind, "data: " + m.json]
  }

  ghost predicate Sendable<E(!new)>(parse: string -> Option<E>, m: Message) {
    && (m.seqNo.Some? ==> NewlineFree(m.seqNo.value)) && NewlineFree(m.kind) && NewlineFree(m.json)
    && Trim(m.json) == m.json && parse(m.json).Some?
  }

  lemma FrameCarries<E(!new)>(parse: string -> Option<E>, m: Message)
    requires Sendable(parse, m)
    ensures Carries(parse, Glue(FrameLines(m)), m.json)
  {
    var lines := FrameLines(m);
    var d := |lines| - 1;
    var last := "data: " + m.json;
    assert lines[d] == last && last[..5] == "data:";
    var padded := last[5..];
    assert padded == " " + m.json && padded[0] == ' ' && padded[1..] == m.json;
    assert Trim(padded) == Trim(padded[1..]);
    forall k | 0 <= k < |lines| ensures NewlineFree(lines[k]) && lines[k] != "" && (k != d ==> !IsData(lines[k])) {
      assert lines[k][0] == if k == d then 'd' else if m.seqNo.Some? && k == 0 then 'i' else 'e';
    }
    GluedCarries(parse, lines, d, m.json);
  }

  function Jsons(ms: seq<Message>): (r: seq<string>)
    ensures |r| == |ms| && forall k :: 0 <= k < |ms| ==> r[k] == ms[k].json
  {
    seq(|ms|, k requires 0 <= k < |ms| => ms[k].json)
  }

  function Frames(ms: seq<Message>): (r: seq<string>)
    ensures |r| == |ms| && forall k :: 0 <= k < |ms| ==> r[k] == Glue(FrameLines(ms[k]))
  {
    seq(|ms|, k requires 0 <= k < |ms| => Glue(FrameLines(ms[k])))
  }

  /** What the server frames, with or without a sequence number, this parser reads back. */
  lemma ServerRoundTrip<E(!new)>(parse: string -> Option<E>, ms: seq<Message>)
    requires forall k :: 0 <= k < |ms| ==> Sendable(parse, ms[k])
    ensures Split(Closed(Frames(ms))) == (Frames(ms), "")
    ensures |EventsOf(parse, Frames(ms))| == |ms|
    ensures forall k :: 0 <= k < |ms| ==> parse(ms[k].json) == Some(EventsOf(parse, Frames(ms))[k])
  {
    forall k | 0 <= k < |ms| ensures Carries(parse, Frames(ms)[k], Jsons(ms)[k]) {
      FrameCarries(parse, ms[k]);
    }
    RoundTrip(parse, Frames(ms), Jsons(ms));
    forall k | 0 <= k < |ms| ensures parse(ms[k].json) == Some(EventsOf(parse, Frames(ms))[k]) {
      assert Jsons(ms)[k] == ms[k].json;
    }
  }

  // ---- the standard ----

  // Section 9.2.6 of the WHATWG HTML standard, for the lines of one event.

  /** A line ends with CR LF, with LF, or with CR. */
  function StandardLines(s: string, k: nat := 0): (r: seq<string>)
    requires k <= |s|
    ensures r != []
    decreases |s| - k
  {
    if k == |s| then [s]
    else if s[k] == '\r' && k + 1 < |s| && s[k + 1] == '\n' then [s[..k]] + StandardLines(s[k + 2..])
    else if s[k] == '\n' || s[k] == '\r' then [s[..k]] + StandardLines(s[k + 1..])
    else StandardLines(s, k + 1)
  }

  /** At most one space after the colon does not belong to the value. */
  function StripSpace(value: string): string {
    if value != "" && value[0] == ' ' then value[1..] else value
  }

  /** The values of the data fields; a line that is just the field's name has an empty value. */
  function Fields(lines: seq<string>): seq<string> {
    if lines == [] then []
    else if IsData(lines[0]) then [StripSpace(lines[0][5..])] + Fields(lines[1..])
    else if lines[0] == "data" then [""] + Fields(lines[1..])
    else Fields(lines[1..])
  }

  /** A line feed goes between the values. */
  function JoinLines(parts: seq<string>): string {
    if parts == [] then "" else if |parts| == 1 then parts[0] else parts[0] + "\n" + JoinLines(parts[1..])
  }

  /** What an event's data is by the standard; none when it has no data field. */
  function StandardPayload(block: string): Option<string> {
    var fields := Fields(StandardLines(block));
    if fields == [] then None else Some(JoinLines(fields))
  }

  /** What this parser hands to `parse`. */
  function Payload(block: string): Option<string> {
    var data := DataOf(Lines(block));
    if data == [] then None else Some(Join(data))
  }

  lemma {:induction false} LinesAreStandard(s: string, k: nat)
    requires k <= |s| && '\r' !in s
    ensures StandardLines(s, k) == Lines(s, k)
    decreases |s| - k
  {
    if k < |s| {
      if s[k] == '\n' { LinesAreStandard(s[k + 1..], 0); } else { LinesAreStandard(s, k + 1); }
    }
  }

  predicate Bare(s: string) {
    s == "" || (!IsSpace(s[0]) && !IsSpace(s[|s| - 1]))
  }

  lemma {:induction false} TrimShortens(s: string)
    ensures |Trim(s)| <= |s| && (Trim(s) == s <==> Bare(s))
    decreases |s|
  {
    if s != "" {
      if IsSpace(s[0]) { TrimShortens(s[1..]); } else if IsSpace(s[|s| - 1]) { TrimShortens(s[..|s| - 1]); }
    }
  }

  lemma TrimOfStripped(value: string)
    ensures Trim(value) == Trim(StripSpace(value))
  {
  }

  /** Joining data lines without line feeds loses one character for every line after the first. */
  lemma {:induction false} JoinLengths(parts: seq<string>)
    ensures |JoinLines(parts)| == |Join(parts)| + if parts == [] then 0 else |parts| - 1
  {
    if |parts| == 1 {
      JoinOne(parts[0]);
      assert parts == [parts[0]];
    } else if parts != [] {
      JoinLengths(parts[1..]);
    }
  }

  /**
   The parser joins the values of `data:` lines as the standard would if and only if there is at most one
   such line.
   */
  lemma JoiningIsStandardIff(block: string)
    ensures Join(DataOf(Lines(block))) == JoinLines(DataOf(Lines(block))) <==> |DataOf(Lines(block))| <= 1
  {
    var parts := DataOf(Lines(block));
    JoinLengths(parts);
    if |parts| == 1 {
      JoinOne(parts[0]);
      assert parts == [parts[0]];
    }
  }

  /** Every data line is a data field, and trimming makes it no longer. */
  lemma {:induction false} DataAreFields(lines: seq<string>)
    ensures |DataOf(lines)| <= |Fields(lines)| && |Join(DataOf(lines))| <= |Join(Fields(lines))|
    ensures |DataOf(lines)| == |Fields(lines)| ==> forall k :: 0 <= k < |Fields(lines)|
                                                     ==> DataOf(lines)[k] == Trim(Fields(lines)[k])
  {
    if lines != [] {
      var rest := lines[1..];
      DataAreFields(rest);
      if IsData(lines[0]) {
        var v := lines[0][5..];
        assert DataOf(lines) == [Trim(v)] + DataOf(rest) && Fields(lines) == [StripSpace(v)] + Fields(rest);
        TrimOfStripped(v);
        TrimShortens(StripSpace(v));
      } else {
        assert DataOf(lines) == DataOf(rest);
        assert Fields(lines) == (if lines[0] == "data" then [""] else []) + Fields(rest);
      }
    }
  }

  /** No data field, or a single one, written with a colon, that neither begins nor ends with white space. */
  predicate PlainData(lines: seq<string>) {
    || Fields(lines) == []
    || (|Fields(lines)| == 1 && DataOf(lines) != [] && Bare(Fields(lines)[0]))
  }

  /** On a block without carriage returns the parser's payload is the standard's if and only if its data is plain. */
  lemma PayloadIsStandardIff(block: string)
    requires '\r' !in block
    ensures Payload(block) == StandardPayload(block) <==> PlainData(Lines(block))
  {
    var lines := Lines(block);
    LinesAreStandard(block, 0);
    DataAreFields(lines);
    JoinLengths(Fields(lines));
    if |Fields(lines)| == 1 && |DataOf(lines)| == 1 {
      JoinOne(DataOf(lines)[0]);
      assert DataOf(lines) == [Trim(Fields(lines)[0])];
      TrimShortens(Fields(lines)[0]);
    }
  }

  /** With carriage returns it ends no event: a stream whose lines all end with CR LF is one unfinished block. */
  lemma CarriageReturnsHideEvents(s: string)
    requires forall i :: 0 <= i < |s| && s[i] == '\n' ==> i > 0 && s[i - 1] == '\r'
    ensures Split(s) == ([], s)
  {
    UnbrokenHasNoBreak(s);
    forall i | 0 <= i < |s| ensures !BreakAt(s, i) {
      assert i + 1 < |s| && s[i + 1] == '\n' ==> s[i + 1 - 1] == '\r';
    }
  }

  lemma TwoLines(head: string, tail: string)
    requires NewlineFree(head) && NewlineFree(tail)
    ensures Lines(head + "\n" + tail) == [head, tail]
  {
    LinesOfFirst(head, tail, 0);
    LinesOfLast(tail, 0);
  }

  lemma DataOfTwo(a: string, b: string)
    ensures DataOf([a, b]) == (if IsData(a) then [Trim(a[5..])] else []) + (if IsData(b) then [Trim(b[5..])] else [])
  {
    var all := [a, b];
    var rest := all[1..];
    assert rest == [b] && rest[1..] == [];
    assert DataOf(rest) == (if IsData(b) then [Trim(b[5..])] else []) + DataOf(rest[1..]);
  }

  /**
   For instance: where the standard puts a line feed this parser puts nothing, and two data lines give
   the concatenation of their trimmed texts.
   */
  lemma DataLinesAreConcatenated(a: string, b: string)
    requires NewlineFree(a) && NewlineFree(b)
    ensures Join(DataOf(Lines("data:" + a + "\n" + ("data:" + b)))) == Trim(a) + Trim(b)
  {
    var x, y := "data:" + a, "data:" + b;
    TwoLines(x, y);
    DataOfTwo(x, y);
    assert x[..5] == "data:" && y[..5] == "data:" && x[5..] == a && y[5..] == b;
    var parts := [Trim(a), Trim(b)];
    assert DataOf([x, y]) == parts;
    assert parts[1..] == [Trim(b)];
    JoinOne(Trim(b));
  }
}
