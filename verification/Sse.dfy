/** Scanning server-sent-event lines out of the two ends of a stream, and the
    token counts read from them. Lines end at LF; trailing CRs are trimmed. */
module Sse {
  import opened Common
  import opened RingModel

  // ----- lines -----

  function IndexByte(s: Bytes, c: Byte): (i: int)
    ensures -1 <= i < |s|
    ensures i < 0 ==> c !in s
    ensures i >= 0 ==> s[i] == c && c !in s[..i]
  {
    if s == [] then -1
    else if s[0] == c then 0
    else
      var k := IndexByte(s[1..], c);
      if k < 0 then -1
      else
        assert s[..k + 1] == [s[0]] + s[1..][..k];
        k + 1
  }

  function TrimCR(s: Bytes): (r: Bytes)
    ensures r <= s
    ensures forall k :: |r| <= k < |s| ==> s[k] == '\r'
    ensures r != [] ==> r[|r| - 1] != '\r'
  {
    if s != [] && s[|s| - 1] == '\r' then TrimCR(s[..|s| - 1]) else s
  }

  /** The complete lines of data. */
  function Lines(data: Bytes): seq<Bytes>
    decreases |data|
  {
    var i := IndexByte(data, '\n');
    if i < 0 then [] else [TrimCR(data[..i])] + Lines(data[i + 1..])
  }

  /** What follows the last complete line. */
  function Residue(data: Bytes): (r: Bytes)
    ensures '\n' !in r
    decreases |data|
  {
    var i := IndexByte(data, '\n');
    if i < 0 then data else Residue(data[i + 1..])
  }

  function Fold<S>(fn: (S, Bytes) -> S, s: S, lines: seq<Bytes>): S {
    if lines == [] then s else Fold(fn, fn(s, lines[0]), lines[1..])
  }

  /** scanLines; fn's captured variables are the state it passes on. */
  method ScanLines<S>(data: Bytes, fn: (S, Bytes) -> S, init: S) returns (s: S)
    ensures s == Fold(fn, init, Lines(data))
  {
    s := init;
    var rest := data;
    while true
      invariant Fold(fn, s, Lines(rest)) == Fold(fn, init, Lines(data))
      decreases |rest|
    {
      var idx := IndexByte(rest, '\n');
      if idx < 0 {
        return;
      }
      s := fn(s, TrimCR(rest[..idx]));
      rest := rest[idx + 1..];
    }
  }

  // ----- truncation -----

  lemma IndexByteIs(s: Bytes, c: Byte, i: nat)
    requires i < |s| && s[i] == c && c !in s[..i]
    ensures IndexByte(s, c) == i
  {
  }

  /** The first line ends at the first LF. */
  lemma LinesAt(s: Bytes, i: nat)
    requires i < |s| && s[i] == '\n' && '\n' !in s[..i]
    ensures Lines(s) == [TrimCR(s[..i])] + Lines(s[i + 1..])
  {
    IndexByteIs(s, '\n', i);
  }

  lemma {:induction false} LinesConcat(a: Bytes, b: Bytes)
    ensures Lines(a + b) == Lines(a) + Lines(Residue(a) + b)
    decreases |a|
  {
    var i := IndexByte(a, '\n');
    if i >= 0 {
      assert (a + b)[..i] == a[..i];
      IndexByteIs(a + b, '\n', i);
      assert (a + b)[i + 1..] == a[i + 1..] + b;
      LinesConcat(a[i + 1..], b);
    }
  }

  /** The line that a cut before t went through. */
  function CutLine(pre: Bytes, t: Bytes): Bytes
    requires '\n' in t
  {
    TrimCR(Residue(pre) + t[..IndexByte(t, '\n')])
  }

  /** All lines of pre + t: those of pre, the line the cut went through, and
      those of t but its first. */
  lemma LinesAcrossCut(pre: Bytes, t: Bytes)
    requires Lines(t) != []
    ensures '\n' in t
    ensures Lines(pre + t) == Lines(pre) + [CutLine(pre, t)] + Lines(t)[1..]
  {
    var i := IndexByte(t, '\n');
    assert t[i] == '\n';
    LinesAt(t, i);
    LinesConcat(pre, t);
    CutLineIsFirst(Residue(pre), t, i);
    var first, rest := CutLine(pre, t), Lines(t[i + 1..]);
    hide *;
    Regroup(Lines(pre), first, rest);
  }

  lemma CutLineIsFirst(r: Bytes, t: Bytes, i: nat)
    requires '\n' !in r && i < |t| && t[i] == '\n' && '\n' !in t[..i]
    ensures Lines(r + t) == [TrimCR(r + t[..i])] + Lines(t[i + 1..])
  {
    hide Lines;
    assert (r + t)[..|r| + i] == r + t[..i] && (r + t)[|r| + i + 1..] == t[i + 1..];
    LinesAt(r + t, |r| + i);
  }

  lemma Regroup<T>(a: seq<T>, b: T, c: seq<T>)
    ensures a + ([b] + c) == a + [b] + ([b] + c)[1..]
    ensures forall x :: ([x] + c)[1..] == c
  {
  }

  lemma {:induction false} TrimCRConcat(x: Bytes, y: Bytes)
    ensures TrimCR(x + y) == if TrimCR(y) == [] then TrimCR(x) else x + TrimCR(y)
    decreases |y|
  {
    if y == [] {
      assert x + y == x;
    } else if y[|y| - 1] == '\r' {
      TrimCRConcat(x, y[..|y| - 1]);
      assert (x + y)[..|x + y| - 1] == x + y[..|y| - 1];
    }
  }

  /** A cut stream still shows its first line whole exactly if the cut fell on
      a line start or only CRs precede the line's end. */
  lemma FirstLineIntactIff(pre: Bytes, t: Bytes)
    requires Lines(t) != []
    ensures '\n' in t
    ensures CutLine(pre, t) == Lines(t)[0]
            <==> Residue(pre) == [] || (TrimCR(Residue(pre)) == [] && Lines(t)[0] == [])
  {
    var i := IndexByte(t, '\n');
    assert t[i] == '\n';
    TrimCRConcat(Residue(pre), t[..i]);
    if Residue(pre) == [] {
      assert Residue(pre) + t[..i] == t[..i];
    }
  }

  /** The head shows a prefix of the stream's lines, the tail without its first
      line a suffix of them. */
  lemma TruncationSafe(s: Bytes, headSize: nat, tailSize: nat)
    ensures Lines(FirstN(s, headSize)) <= Lines(s)
    ensures var t := Lines(LastN(s, tailSize));
            t != [] ==> |t| <= |Lines(s)| && Lines(s)[|Lines(s)| - |t| + 1..] == t[1..]
  {
    hide Lines, Residue, CutLine;
    var h, rest := FirstN(s, headSize), s[Min(headSize, |s|)..];
    assert s == h + rest;
    LinesConcat(h, rest);
    var pre, t := s[..|s| - Min(tailSize, |s|)], LastN(s, tailSize);
    assert s == pre + t;
    if Lines(t) != [] {
      LinesAcrossCut(pre, t);
    }
  }

  // ----- token usage -----

  type uint32 = n: nat | n < UINT32

  datatype Counts = Counts(prompt: uint32, completion: uint32, input: uint32, output: uint32)

  /** The JSON decoding, left uninterpreted: None stands for an error or an
      absent usage object. */
  datatype Decoder = Decoder(
    startInput: Bytes -> Option<uint32>,
    usage: Bytes -> Option<Counts>,
    deltaOutput: Bytes -> Option<uint32>)

  datatype HeadScan = HeadScan(input: uint32, event: Bytes)
  datatype TailScan = TailScan(input: uint32, output: uint32, event: Bytes)
  datatype Usage = Usage(input: uint32, output: uint32)

  predicate HasPrefix(s: Bytes, p: Bytes) {
    p <= s
  }

  function HeadLine(dec: Decoder, st: HeadScan, line: Bytes): HeadScan {
    if HasPrefix(line, "event: ") then st.(event := line[7..])
    else if st.input == 0 && st.event == "message_start" && HasPrefix(line, "data: ") then
      match dec.startInput(line[6..])
      case Some(n) => if n > 0 then st.(input := n) else st
      case None => st
    else st
  }

  function AddUsage(dec: Decoder, st: TailScan, data: Bytes): TailScan {
    if st.input == 0 || st.output == 0 then
      match dec.usage(data)
      case None => st
      case Some(c) =>
        st.(input := if st.input == 0 then (c.prompt + c.input) % UINT32 else st.input,
            output := if st.output == 0 then (c.completion + c.output) % UINT32 else st.output)
    else st
  }

  function AddDelta(dec: Decoder, st: TailScan, data: Bytes): TailScan {
    if st.event == "message_delta" && st.output == 0 then
      match dec.deltaOutput(data)
      case Some(n) => st.(output := n)
      case None => st
    else st
  }

  function TailLine(dec: Decoder, st: TailScan, line: Bytes): TailScan {
    if !HasPrefix(line, "data: ") && !HasPrefix(line, "event: ") then st
    else if HasPrefix(line, "event: ") then st.(event := line[7..])
    else
      var data := line[6..];
      if data == "[DONE]" then st else AddDelta(dec, AddUsage(dec, st, data), data)
  }

  /** The message_start count the head scan finds in data. */
  function StartCount(dec: Decoder, data: Bytes): uint32 {
    Fold((st, line) => HeadLine(dec, st, line), HeadScan(0, ""), Lines(data)).input
  }

  function UsageOf(dec: Decoder, head: Bytes, tail: Bytes): Usage {
    var t := Fold((st, line) => TailLine(dec, st, line), TailScan(StartCount(dec, head), 0, ""), Lines(tail));
    Usage(t.input, t.output)
  }

  // ----- what the counts are, line by line -----

  /** The name on the last event line, if there is one. */
  function CurrentEvent(lines: seq<Bytes>): Bytes {
    if lines == [] then ""
    else
      var line := lines[|lines| - 1];
      if "event: " <= line then line[7..] else CurrentEvent(lines[..|lines| - 1])
  }

  /** What a data line carries; the end marker carries nothing. */
  function Payload(line: Bytes): Option<Bytes> {
    if "data: " <= line && line[6..] != "[DONE]" then Some(line[6..]) else None
  }

  /** The input tokens that line k of the head reports: those of a message_start. */
  function StartedWith(dec: Decoder, lines: seq<Bytes>, k: nat): uint32
    requires k < |lines|
  {
    if "data: " <= lines[k] && CurrentEvent(lines[..k]) == "message_start" && dec.startInput(lines[k][6..]).Some?
    then dec.startInput(lines[k][6..]).value else 0
  }

  /** The input tokens that line k of the tail reports, under either of two names. */
  function PromptAt(dec: Decoder, lines: seq<Bytes>, k: nat): uint32
    requires k < |lines|
  {
    var data := Payload(lines[k]);
    if data.Some? && dec.usage(data.value).Some? then
      var c := dec.usage(data.value).value;
      (c.prompt + c.input) % UINT32
    else 0
  }

  /** Its output tokens: those of its usage object, or else of a message_delta. */
  function CompletionAt(dec: Decoder, lines: seq<Bytes>, k: nat): uint32
    requires k < |lines|
  {
    var data := Payload(lines[k]);
    if data.None? then 0
    else
      var c := dec.usage(data.value);
      var own: uint32 := if c.Some? then (c.value.completion + c.value.output) % UINT32 else 0;
      if own != 0 then own
      else if CurrentEvent(lines[..k]) == "message_delta" && dec.deltaOutput(data.value).Some?
      then dec.deltaOutput(data.value).value else 0
  }

  function Starts(dec: Decoder, lines: seq<Bytes>): seq<uint32> {
    seq(|lines|, k requires 0 <= k < |lines| => StartedWith(dec, lines, k))
  }

  function Prompts(dec: Decoder, lines: seq<Bytes>): seq<uint32> {
    seq(|lines|, k requires 0 <= k < |lines| => PromptAt(dec, lines, k))
  }

  function Completions(dec: Decoder, lines: seq<Bytes>): seq<uint32> {
    seq(|lines|, k requires 0 <= k < |lines| => CompletionAt(dec, lines, k))
  }

  /** n is the first of the counts that is not zero, or zero if all are. */
  predicate IsFirst(n: uint32, counts: seq<uint32>) {
    if n == 0 then forall k | 0 <= k < |counts| :: counts[k] == 0
    else exists k | 0 <= k < |counts| :: counts[k] == n && forall j | 0 <= j < k :: counts[j] == 0
  }

  /** The input is the first that the head reports, or else the first that the tail
      does; the output is the first that the tail reports. */
  predicate Reports(dec: Decoder, head: seq<Bytes>, tail: seq<Bytes>, u: Usage) {
    && (if IsFirst(0, Starts(dec, head)) then IsFirst(u.input, Prompts(dec, tail))
        else IsFirst(u.input, Starts(dec, head)))
    && IsFirst(u.output, Completions(dec, tail))
  }

  lemma IsFirstSnoc(n: uint32, counts: seq<uint32>, c: uint32)
    requires IsFirst(n, counts)
    ensures IsFirst(if n == 0 then c else n, counts + [c])
  {
    if n != 0 {
      var k :| 0 <= k < |counts| && counts[k] == n && forall j | 0 <= j < k :: counts[j] == 0;
      assert (counts + [c])[k] == n;
    } else if c != 0 {
      assert (counts + [c])[|counts|] == c;
    }
  }

  lemma FoldSnoc<S>(fn: (S, Bytes) -> S, s: S, p: seq<Bytes>, line: Bytes)
    ensures Fold(fn, s, p + [line]) == fn(Fold(fn, s, p), line)
  {
    FoldConcat(fn, s, p, [line]);
  }

  lemma EarlierLine(dec: Decoder, p: seq<Bytes>, line: Bytes, k: nat)
    requires k < |p|
    ensures StartedWith(dec, p + [line], k) == StartedWith(dec, p, k)
    ensures PromptAt(dec, p + [line], k) == PromptAt(dec, p, k)
    ensures CompletionAt(dec, p + [line], k) == CompletionAt(dec, p, k)
  {
    assert (p + [line])[k] == p[k] && (p + [line])[..k] == p[..k];
  }

  lemma CountsSnoc(dec: Decoder, p: seq<Bytes>, line: Bytes)
    ensures Starts(dec, p + [line]) == Starts(dec, p) + [StartedWith(dec, p + [line], |p|)]
    ensures Prompts(dec, p + [line]) == Prompts(dec, p) + [PromptAt(dec, p + [line], |p|)]
    ensures Completions(dec, p + [line]) == Completions(dec, p) + [CompletionAt(dec, p + [line], |p|)]
  {
    forall k | 0 <= k < |p|
      ensures Starts(dec, p + [line])[k] == Starts(dec, p)[k]
      ensures Prompts(dec, p + [line])[k] == Prompts(dec, p)[k]
      ensures Completions(dec, p + [line])[k] == Completions(dec, p)[k]
    {
      EarlierLine(dec, p, line, k);
    }
    hide StartedWith, PromptAt, CompletionAt;
  }

  /** What one more line changes. */
  lemma NextLine(p: seq<Bytes>, line: Bytes)
    ensures CurrentEvent(p + [line]) == (if "event: " <= line then line[7..] else CurrentEvent(p))
    ensures (p + [line])[..|p|] == p && (p + [line])[|p|] == line
    ensures "event: " <= line ==> !("data: " <= line)
  {
    assert (p + [line])[..|p|] == p;
    if "event: " <= line {
      assert line[0] == 'e';
    }
  }

  lemma HeadStep(dec: Decoder, st: HeadScan, p: seq<Bytes>, line: Bytes)
    requires IsFirst(st.input, Starts(dec, p)) && st.event == CurrentEvent(p)
    ensures var t, lines := HeadLine(dec, st, line), p + [line];
            IsFirst(t.input, Starts(dec, lines)) && t.event == CurrentEvent(lines)
  {
    NextLine(p, line);
    CountsSnoc(dec, p, line);
    IsFirstSnoc(st.input, Starts(dec, p), StartedWith(dec, p + [line], |p|));
    hide IsFirst, Starts, CurrentEvent;
  }

  lemma {:induction false} HeadScanIs(dec: Decoder, lines: seq<Bytes>)
    ensures var st := Fold((st, line) => HeadLine(dec, st, line), HeadScan(0, ""), lines);
            IsFirst(st.input, Starts(dec, lines)) && st.event == CurrentEvent(lines)
    decreases |lines|
  {
    if lines != [] {
      var p, line := lines[..|lines| - 1], lines[|lines| - 1];
      var fn := (st, line) => HeadLine(dec, st, line);
      assert lines == p + [line];
      HeadScanIs(dec, p);
      hide HeadLine, IsFirst, Starts, CurrentEvent;
      FoldSnoc(fn, HeadScan(0, ""), p, line);
      HeadStep(dec, Fold(fn, HeadScan(0, ""), p), p, line);
    }
  }

  lemma TailLineShape(dec: Decoder, st: TailScan, line: Bytes)
    ensures "event: " <= line ==> Payload(line).None?
    ensures TailLine(dec, st, line) ==
            if "event: " <= line then st.(event := line[7..])
            else match Payload(line)
                 case None => st
                 case Some(data) => AddDelta(dec, AddUsage(dec, st, data), data)
  {
    NextLine([], line);
    hide AddDelta, AddUsage;
  }

  lemma AddsCounts(dec: Decoder, st: TailScan, data: Bytes)
    ensures var t := AddDelta(dec, AddUsage(dec, st, data), data);
            var c := dec.usage(data);
            var own: uint32 := if c.Some? then (c.value.completion + c.value.output) % UINT32 else 0;
            && t.event == st.event
            && t.input == (if st.input != 0 || c.None? then st.input else (c.value.prompt + c.value.input) % UINT32)
            && t.output == if st.output != 0 then st.output
                           else if own != 0 then own
                           else if st.event == "message_delta" && dec.deltaOutput(data).Some?
                           then dec.deltaOutput(data).value
                           else 0
  {
  }

  /** What the tail scan makes of a data line carrying data, with its counts. */
  lemma CountsAt(dec: Decoder, lines: seq<Bytes>, k: nat)
    requires k < |lines|
    ensures var data := Payload(lines[k]);
            && (data.None? ==> PromptAt(dec, lines, k) == 0 && CompletionAt(dec, lines, k) == 0)
            && (data.Some? ==>
                  var c := dec.usage(data.value);
                  var own: uint32 := if c.Some? then (c.value.completion + c.value.output) % UINT32 else 0;
                  && PromptAt(dec, lines, k) == (if c.None? then 0 else (c.value.prompt + c.value.input) % UINT32)
                  && CompletionAt(dec, lines, k) ==
                     if own != 0 then own
                     else if CurrentEvent(lines[..k]) == "message_delta" && dec.deltaOutput(data.value).Some?
                     then dec.deltaOutput(data.value).value
                     else 0)
  {
    hide Payload, CurrentEvent;
  }

  lemma TailLineIs(dec: Decoder, st: TailScan, p: seq<Bytes>, line: Bytes)
    requires st.event == CurrentEvent(p)
    ensures var t, lines := TailLine(dec, st, line), p + [line];
            && t.event == CurrentEvent(lines)
            && t.input == (if st.input != 0 then st.input else PromptAt(dec, lines, |p|))
            && t.output == if st.output != 0 then st.output else CompletionAt(dec, lines, |p|)
  {
    hide CurrentEvent, TailLine, Payload, AddDelta, AddUsage, PromptAt, CompletionAt;
    NextLine(p, line);
    CountsAt(dec, p + [line], |p|);
    TailLineShape(dec, st, line);
    if Payload(line).Some? {
      AddsCounts(dec, st, Payload(line).value);
    }
  }

  lemma TailStep(dec: Decoder, input: uint32, st: TailScan, p: seq<Bytes>, line: Bytes)
    requires if input != 0 then st.input == input else IsFirst(st.input, Prompts(dec, p))
    requires IsFirst(st.output, Completions(dec, p)) && st.event == CurrentEvent(p)
    ensures var t, lines := TailLine(dec, st, line), p + [line];
            && (if input != 0 then t.input == input else IsFirst(t.input, Prompts(dec, lines)))
            && IsFirst(t.output, Completions(dec, lines)) && t.event == CurrentEvent(lines)
  {
    TailLineIs(dec, st, p, line);
    CountsSnoc(dec, p, line);
    if input == 0 {
      IsFirstSnoc(st.input, Prompts(dec, p), PromptAt(dec, p + [line], |p|));
    }
    IsFirstSnoc(st.output, Completions(dec, p), CompletionAt(dec, p + [line], |p|));
    hide IsFirst, Prompts, Completions, CurrentEvent, TailLine, PromptAt, CompletionAt;
  }

  lemma {:induction false} TailScanIs(dec: Decoder, input: uint32, lines: seq<Bytes>)
    ensures var st := Fold((st, line) => TailLine(dec, st, line), TailScan(input, 0, ""), lines);
            && (if input != 0 then st.input == input else IsFirst(st.input, Prompts(dec, lines)))
            && IsFirst(st.output, Completions(dec, lines)) && st.event == CurrentEvent(lines)
    decreases |lines|
  {
    if lines != [] {
      var p, line := lines[..|lines| - 1], lines[|lines| - 1];
      var fn := (st, line) => TailLine(dec, st, line);
      assert lines == p + [line];
      TailScanIs(dec, input, p);
      hide TailLine, IsFirst, Prompts, Completions, CurrentEvent;
      FoldSnoc(fn, TailScan(input, 0, ""), p, line);
      TailStep(dec, input, Fold(fn, TailScan(input, 0, ""), p), p, line);
    }
  }

  /** So the usage is the one its lines report. */
  lemma UsageIsReported(dec: Decoder, head: Bytes, tail: Bytes)
    ensures Reports(dec, Lines(head), Lines(tail), UsageOf(dec, head, tail))
  {
    HeadScanIs(dec, Lines(head));
    TailScanIs(dec, StartCount(dec, head), Lines(tail));
  }

  method ExtractUsage(dec: Decoder, head: Bytes, tail: Bytes) returns (u: Usage)
    ensures u == UsageOf(dec, head, tail) && Reports(dec, Lines(head), Lines(tail), u)
  {
    UsageIsReported(dec, head, tail);
    hide Reports;
    var h := ScanLines(head, (st, line) => HeadLine(dec, st, line), HeadScan(0, ""));
    var t := ScanLines(tail, (st, line) => TailLine(dec, st, line), TailScan(h.input, 0, ""));
    u := Usage(t.input, t.output);
  }

  // ----- a count found in the head is final -----

  lemma {:induction false} FoldConcat<S>(fn: (S, Bytes) -> S, s: S, a: seq<Bytes>, b: seq<Bytes>)
    ensures Fold(fn, s, a + b) == Fold(fn, Fold(fn, s, a), b)
    decreases |a|
  {
    if a == [] {
      assert a + b == b;
    } else {
      assert (a + b)[1..] == a[1..] + b;
      FoldConcat(fn, fn(s, a[0]), a[1..], b);
    }
  }

  lemma {:induction false} HeadKeepsInput(dec: Decoder, st: HeadScan, lines: seq<Bytes>)
    requires st.input != 0
    ensures Fold((st, line) => HeadLine(dec, st, line), st, lines).input == st.input
    decreases |lines|
  {
    if lines != [] {
      HeadKeepsInput(dec, HeadLine(dec, st, lines[0]), lines[1..]);
    }
  }

  lemma {:induction false} TailKeepsInput(dec: Decoder, st: TailScan, lines: seq<Bytes>)
    requires st.input != 0
    ensures Fold((st, line) => TailLine(dec, st, line), st, lines).input == st.input
    decreases |lines|
  {
    if lines != [] {
      TailKeepsInput(dec, TailLine(dec, st, lines[0]), lines[1..]);
    }
  }

  /** If the head shows a count, it is the count of the whole stream, whatever
      the tail holds and however the decoder behaves. */
  lemma PrefixStableInput(dec: Decoder, s: Bytes, headSize: nat, tail: Bytes)
    requires StartCount(dec, FirstN(s, headSize)) > 0
    ensures UsageOf(dec, FirstN(s, headSize), tail).input == StartCount(dec, s) > 0
  {
    var head := FirstN(s, headSize);
    var fn := (st, line) => HeadLine(dec, st, line);
    TruncationSafe(s, headSize, 0);
    var rest := Lines(s)[|Lines(head)|..];
    assert Lines(s) == Lines(head) + rest;
    FoldConcat(fn, HeadScan(0, ""), Lines(head), rest);
    HeadKeepsInput(dec, Fold(fn, HeadScan(0, ""), Lines(head)), rest);
    TailKeepsInput(dec, TailScan(StartCount(dec, head), 0, ""), Lines(tail));
  }

  // ----- an output count read from the tail -----

  /** The tail scan's state after lines. */
  function TailAfter(dec: Decoder, st: TailScan, lines: seq<Bytes>): TailScan {
    Fold((st, line) => TailLine(dec, st, line), st, lines)
  }

  lemma {:induction false} OutputIgnoresInput(dec: Decoder, a: TailScan, b: TailScan, lines: seq<Bytes>)
    requires a.output == b.output && a.event == b.event
    ensures TailAfter(dec, a, lines).output == TailAfter(dec, b, lines).output
    decreases |lines|
  {
    if lines != [] {
      OutputIgnoresInput(dec, TailLine(dec, a, lines[0]), TailLine(dec, b, lines[0]), lines[1..]);
    }
  }

  lemma {:induction false} OutputIsFinal(dec: Decoder, st: TailScan, lines: seq<Bytes>)
    requires st.output != 0
    ensures TailAfter(dec, st, lines).output == st.output
    decreases |lines|
  {
    if lines != [] {
      OutputIsFinal(dec, TailLine(dec, st, lines[0]), lines[1..]);
    }
  }

  /** No data line comes before the first event line. */
  predicate EventComesFirst(lines: seq<Bytes>) {
    lines == [] || HasPrefix(lines[0], "event: ")
    || (!HasPrefix(lines[0], "data: ") && EventComesFirst(lines[1..]))
  }

  lemma {:induction false} EventIsForgotten(dec: Decoder, a: TailScan, b: TailScan, lines: seq<Bytes>)
    requires a.output == b.output && EventComesFirst(lines)
    ensures TailAfter(dec, a, lines).output == TailAfter(dec, b, lines).output
    decreases |lines|
  {
    if lines != [] {
      if HasPrefix(lines[0], "event: ") {
        OutputIgnoresInput(dec, TailLine(dec, a, lines[0]), TailLine(dec, b, lines[0]), lines[1..]);
      } else {
        EventIsForgotten(dec, a, b, lines[1..]);
      }
    }
  }

  /** What the scan knows after the lines that the tail lost, the one the cut went
      through included. */
  function AfterLost(dec: Decoder, st: TailScan, pre: Bytes, tail: Bytes): TailScan
    requires Lines(tail) != [] && '\n' in tail
  {
    TailAfter(dec, st, Lines(pre) + [CutLine(pre, tail)])
  }

  /** The tail's first line, which the cut may have shortened, reported no count,
      and what the lost lines left as event name does not matter: it is the same,
      or an event line comes before any data. */
  predicate CleanCut(dec: Decoder, st: TailScan, pre: Bytes, tail: Bytes)
    requires Lines(tail) != [] && '\n' in tail
  {
    var first := TailLine(dec, st, Lines(tail)[0]);
    first.output == 0
    && (AfterLost(dec, st, pre, tail).event == first.event || EventComesFirst(Lines(tail)[1..]))
  }

  /** After a clean cut the output count read from the tail is that of a scan over
      the complete stream if and only if the lost lines reported none, or the very
      same one. */
  lemma CleanCutOutputIff(dec: Decoder, head: Bytes, pre: Bytes, tail: Bytes)
    requires Lines(tail) != [] && '\n' in tail
    requires CleanCut(dec, TailScan(StartCount(dec, head), 0, ""), pre, tail)
    ensures var lost := AfterLost(dec, TailScan(StartCount(dec, head), 0, ""), pre, tail).output;
            UsageOf(dec, head, tail).output == UsageOf(dec, head, pre + tail).output
            <==> lost == 0 || lost == UsageOf(dec, head, tail).output
  {
    var st := TailScan(StartCount(dec, head), 0, "");
    var a, b := AfterLost(dec, st, pre, tail), TailLine(dec, st, Lines(tail)[0]);
    var rest := Lines(tail)[1..];
    LinesAcrossCut(pre, tail);
    FoldConcat((st, line) => TailLine(dec, st, line), st, Lines(pre) + [CutLine(pre, tail)], rest);
    assert Lines(tail) == [Lines(tail)[0]] + rest;
    assert UsageOf(dec, head, pre + tail).output == TailAfter(dec, a, rest).output;
    assert UsageOf(dec, head, tail).output == TailAfter(dec, b, rest).output;
    if a.output != 0 {
      OutputIsFinal(dec, a, rest);
    } else if a.event == b.event {
      OutputIgnoresInput(dec, a, b, rest);
    } else {
      EventIsForgotten(dec, a, b, rest);
    }
  }

  // ----- any cut -----

  /** The lines that only the complete stream shows: those before the cut and the
      one it went through. */
  function LostLines(pre: Bytes, tail: Bytes): seq<Bytes> {
    if '\n' in tail then Lines(pre) + [CutLine(pre, tail)] else Lines(pre)
  }

  /** The line that only the tail shows: the rest of the one it starts in. */
  function OwnLines(tail: Bytes): seq<Bytes> {
    if Lines(tail) == [] then [] else [Lines(tail)[0]]
  }

  /** The lines that both show. */
  function SharedLines(tail: Bytes): seq<Bytes> {
    if Lines(tail) == [] then [] else Lines(tail)[1..]
  }

  lemma CutLines(pre: Bytes, tail: Bytes)
    ensures Lines(pre + tail) == LostLines(pre, tail) + SharedLines(tail)
    ensures Lines(tail) == OwnLines(tail) + SharedLines(tail)
  {
    if Lines(tail) != [] {
      LinesAcrossCut(pre, tail);
    } else {
      NoLines(tail);
      NoLines(Residue(pre) + tail);
      LinesConcat(pre, tail);
    }
  }

  lemma NoLines(s: Bytes)
    ensures Lines(s) == [] <==> '\n' !in s
  {
  }

  /** How many lines come before the first event line. */
  function FirstEvent(lines: seq<Bytes>): (n: nat)
    ensures n <= |lines| && EventComesFirst(lines[n..])
  {
    if lines == [] || HasPrefix(lines[0], "event: ") then 0
    else
      var n := FirstEvent(lines[1..]);
      assert lines[n + 1..] == lines[1..][n..];
      n + 1
  }

  /** The output count after lines: the one known before their first event line,
      or else the one that a scan from that line on would find by itself. */
  lemma OutputSplits(dec: Decoder, st: TailScan, before: seq<Bytes>, lines: seq<Bytes>)
    requires st.output == 0
    ensures var n := FirstEvent(lines);
            var known := TailAfter(dec, st, before + lines[..n]).output;
            TailAfter(dec, st, before + lines).output ==
            if known != 0 then known else TailAfter(dec, st, lines[n..]).output
  {
    var n := FirstEvent(lines);
    assert before + lines == (before + lines[..n]) + lines[n..];
    FoldConcat((st, line) => TailLine(dec, st, line), st, before + lines[..n], lines[n..]);
    var a := TailAfter(dec, st, before + lines[..n]);
    if a.output != 0 {
      OutputIsFinal(dec, a, lines[n..]);
    } else {
      EventIsForgotten(dec, a, st, lines[n..]);
    }
  }

  /** Wherever the stream was cut, the complete scan and the tail's scan each report
      the first count of two: that of the lines they do not share, continued up to
      the next event line, and the shared one from there on. So they agree if and
      only if the former agree, or one is absent and the other is the shared one. */
  lemma TailOutputIff(dec: Decoder, head: Bytes, pre: Bytes, tail: Bytes)
    ensures var st, lines := TailScan(StartCount(dec, head), 0, ""), SharedLines(tail);
            var n := FirstEvent(lines);
            var lost := TailAfter(dec, st, LostLines(pre, tail) + lines[..n]).output;
            var own := TailAfter(dec, st, OwnLines(tail) + lines[..n]).output;
            var shared := TailAfter(dec, st, lines[n..]).output;
            && UsageOf(dec, head, pre + tail).output == (if lost != 0 then lost else shared)
            && UsageOf(dec, head, tail).output == (if own != 0 then own else shared)
            && (UsageOf(dec, head, tail).output == UsageOf(dec, head, pre + tail).output
                <==> lost == own || (lost == 0 && own == shared) || (own == 0 && lost == shared))
  {
    var st := TailScan(StartCount(dec, head), 0, "");
    CutLines(pre, tail);
    OutputSplits(dec, st, LostLines(pre, tail), SharedLines(tail));
    OutputSplits(dec, st, OwnLines(tail), SharedLines(tail));
  }
}
