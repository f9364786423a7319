/**
 * The Server-Sent-Events decoder of `useLLMChat.sendMessage`.
 *
 * Decoded text arrives chunk by chunk. The decoder keeps the unfinished
 * last line in `buffer`, splits `buffer + chunk` on '\n', and looks at
 * every complete line: only lines that start with the exact prefix
 * "data: " are considered; the trimmed remainder is the payload; the
 * payload "[DONE]" is skipped; any other payload goes through
 * `JSON.parse` and `choices?.[0]?.delta?.content`, modelled here as the
 * oracle `parse`. A non-empty delta is appended to `fullContent` and
 * handed to the callbacks.
 *
 * This is a subset of the event-stream format of the WHATWG HTML
 * Living Standard, section 9.2.5: the space after "data:" is required,
 * there is no blank-line event dispatch and '\n' is the only line
 * terminator.
 *
 * The pure specification is `Decode(text)` over the concatenation of
 * all chunks; `StreamDecoder.Feed` is proved to keep its state equal to
 * it, so the deltas do not depend on where the chunk boundaries fall.
 */
module SseDecoder {
  import opened Wrappers
  import opened Text
  import opened Seqs

  /** What `JSON.parse(payload).choices?.[0]?.delta?.content` yields. */
  datatype DeltaLookup = Malformed | NoDelta | Delta(content: string)

  const DataPrefix: string := "data: "
  const DoneSentinel: string := "[DONE]"

  // ---------------------------------------------------------------------
  // Splitting on '\n'

  /** `[c] + t[0]` followed by the rest of `t`: the first line grows by `c`. */
  function PrependToFirst(c: char, t: seq<string>): (r: seq<string>)
    requires |t| >= 1
    ensures |r| == |t| && r[0] == [c] + t[0] && r[1..] == t[1..]
  {
    [[c] + t[0]] + t[1..]
  }

  /** `s.split('\n')`: always at least one element, none containing '\n'. */
  function Lines(s: string): (r: seq<string>)
    ensures |r| >= 1
  {
    if s == [] then [""]
    else if s[0] == '\n' then [""] + Lines(s[1..])
    else PrependToFirst(s[0], Lines(s[1..]))
  }

  /** No piece of the split contains the separator. */
  lemma {:induction false} LinesNewlineFree(s: string)
    ensures forall i :: 0 <= i < |Lines(s)| ==> '\n' !in Lines(s)[i]
  {
    if s != [] {
      LinesNewlineFree(s[1..]);
      var t := Lines(s[1..]);
      if s[0] != '\n' {
        assert '\n' !in [s[0]] + t[0] by {
          assert forall c :: c in [s[0]] + t[0] ==> c == s[0] || c in t[0];
        }
      }
    }
  }

  /** `lines.join('\n')`, the inverse of `Lines`. */
  function Join(lines: seq<string>): string
    requires |lines| >= 1
  {
    if |lines| == 1 then lines[0] else lines[0] + "\n" + Join(lines[1..])
  }

  /** The lines of `s` that a '\n' terminates. */
  function CompleteLines(s: string): (r: seq<string>)
    ensures forall i :: 0 <= i < |r| ==> '\n' !in r[i]
  {
    LinesNewlineFree(s);
    Lines(s)[..|Lines(s)| - 1]
  }

  /** `lines.pop()`: what follows the last '\n' of `s`. */
  function Rest(s: string): (r: string)
    ensures '\n' !in r
    ensures Join(CompleteLines(s) + [r]) == s
  {
    LastLine(s);
    Lines(s)[|Lines(s)| - 1]
  }

  /** The last piece of the split has no '\n', and the complete lines and it join back to the text. */
  lemma LastLine(s: string)
    ensures '\n' !in Lines(s)[|Lines(s)| - 1]
    ensures Join(CompleteLines(s) + [Lines(s)[|Lines(s)| - 1]]) == s
  {
    var t := Lines(s);
    LinesNewlineFree(s);
    assert '\n' !in t[|t| - 1];
    JoinLines(s);
    JoinSplitLast(t);
  }

  /** Joining the complete lines and the last piece joins the whole split. */
  lemma JoinSplitLast(t: seq<string>)
    requires |t| >= 1
    ensures Join(t[..|t| - 1] + [t[|t| - 1]]) == Join(t)
  {
    SplitLast(t);
  }

  /** Joining the split pieces gives back the text. */
  lemma {:induction false} JoinLines(s: string)
    ensures Join(Lines(s)) == s
  {
    if s == [] {
    } else if s[0] == '\n' {
      JoinLines(s[1..]);
      assert Lines(s)[1..] == Lines(s[1..]);
    } else {
      var t := Lines(s[1..]);
      JoinLines(s[1..]);
      if |t| == 1 {
        assert Join(Lines(s)) == [s[0]] + t[0];
      } else {
        assert Lines(s)[1..] == t[1..];
        assert Join(t) == t[0] + "\n" + Join(t[1..]);
        assert Join(Lines(s)) == ([s[0]] + t[0]) + "\n" + Join(t[1..]);
      }
    }
  }

  /** Splitting joined newline-free lines gives back the lines. */
  lemma {:induction false} LinesJoin(lines: seq<string>)
    requires |lines| >= 1
    requires forall i :: 0 <= i < |lines| ==> '\n' !in lines[i]
    ensures Lines(Join(lines)) == lines
  {
    if |lines| == 1 {
      NoNewlineOneLine(lines[0]);
    } else {
      LinesJoin(lines[1..]);
      LinesAfterNewline(lines[0], Join(lines[1..]));
      HeadTail(lines);
    }
  }

  /** Text without '\n' is a single (unfinished) line. */
  lemma {:induction false} NoNewlineOneLine(s: string)
    requires '\n' !in s
    ensures Lines(s) == [s]
  {
    if s != [] {
      assert s[0] in s;
      assert '\n' !in s[1..] by { assert forall c :: c in s[1..] ==> c in s; }
      NoNewlineOneLine(s[1..]);
      HeadTail(s);
    }
  }

  /** A newline-free prefix terminated by '\n' becomes the first line. */
  lemma {:induction false} LinesAfterNewline(f: string, s: string)
    requires '\n' !in f
    ensures Lines(f + "\n" + s) == [f] + Lines(s)
  {
    if f == [] {
      assert f + "\n" + s == "\n" + s;
      assert ("\n" + s)[1..] == s;
    } else {
      assert '\n' !in f[1..] by { assert forall c :: c in f[1..] ==> c in f; }
      assert f[0] in f;
      LinesAfterNewline(f[1..], s);
      var g := f + "\n" + s;
      assert g[0] == f[0] && g[1..] == f[1..] + "\n" + s;
      assert Lines(g) == PrependToFirst(f[0], [f[1..]] + Lines(s));
      HeadTail(f);
    }
  }

  /** How splitting unfolds on a first character. */
  lemma LinesCons(c: char, s: string)
    ensures Lines([c] + s) == if c == '\n' then [""] + Lines(s) else PrependToFirst(c, Lines(s))
  {
    assert ([c] + s)[0] == c && ([c] + s)[1..] == s;
  }

  /**
   * The chunk lemma: splitting `a + b` yields the complete lines of `a`
   * followed by the split of `a`'s unfinished last line continued by `b`.
   */
  lemma {:induction false} LinesAppend(a: string, b: string)
    ensures Lines(a + b) == CompleteLines(a) + Lines(Rest(a) + b)
  {
    if a == [] {
      AppendEmpty(a, b);
    } else {
      var c, a' := a[0], a[1..];
      HeadTail(a);
      Assoc([c], a', b);
      LinesAppend(a', b);
      LinesCons(c, a');
      LinesCons(c, a' + b);
      if c == '\n' {
        NewlineStep(a', b);
      } else {
        CharStep(c, a', b);
      }
    }
  }

  lemma NewlineStep(a': string, b: string)
    requires Lines(a' + b) == CompleteLines(a') + Lines(Rest(a') + b)
    ensures [""] + Lines(a' + b) == CompleteLines("\n" + a') + Lines(Rest("\n" + a') + b)
  {
    LinesCons('\n', a');
    var t := Lines(a');
    var u := [""] + t;
    assert u[..|u| - 1] == [""] + t[..|t| - 1];
    assert CompleteLines("\n" + a') == [""] + CompleteLines(a');
    assert Rest("\n" + a') == Rest(a');
    ConsAssoc("", CompleteLines(a'), Lines(Rest(a') + b));
  }

  lemma ConsAssoc(h: string, p: seq<string>, q: seq<string>)
    ensures [h] + (p + q) == ([h] + p) + q
  {
  }

  lemma CharStep(c: char, a': string, b: string)
    requires c != '\n'
    requires Lines(a' + b) == CompleteLines(a') + Lines(Rest(a') + b)
    ensures PrependToFirst(c, Lines(a' + b)) == CompleteLines([c] + a') + Lines(Rest([c] + a') + b)
  {
    LinesCons(c, a');
    if |Lines(a')| == 1 {
      CharStepLast(c, a', b);
    } else {
      CharStepInner(c, a', b);
    }
  }

  /** `c` joins the unfinished line when `a'` has no '\n'. */
  lemma CharStepLast(c: char, a': string, b: string)
    requires c != '\n' && |Lines(a')| == 1
    requires Lines(a' + b) == CompleteLines(a') + Lines(Rest(a') + b)
    ensures PrependToFirst(c, Lines(a' + b)) == CompleteLines([c] + a') + Lines(Rest([c] + a') + b)
  {
    LinesCons(c, a');
    var r := Rest(a');
    var x := Lines(r + b);
    assert CompleteLines(a') == [];
    assert Lines(a' + b) == x;
    var p := Lines([c] + a');
    assert |p| == 1 && p[0] == [c] + r;
    assert CompleteLines([c] + a') == [];
    assert Rest([c] + a') == [c] + r;
    Assoc([c], r, b);
    LinesCons(c, r + b);
  }

  /** `c` joins the first complete line when `a'` has a '\n'. */
  lemma CharStepInner(c: char, a': string, b: string)
    requires c != '\n' && |Lines(a')| > 1
    requires Lines(a' + b) == CompleteLines(a') + Lines(Rest(a') + b)
    ensures PrependToFirst(c, Lines(a' + b)) == CompleteLines([c] + a') + Lines(Rest([c] + a') + b)
  {
    LinesCons(c, a');
    var t := Lines(a');
    var p := PrependToFirst(c, t);
    assert CompleteLines([c] + a') == p[..|p| - 1];
    assert Rest([c] + a') == Rest(a');
    var q := CompleteLines(a');
    assert PrependToFirst(c, q) == p[..|p| - 1];
    PrependAppend(c, q, Lines(Rest(a') + b));
  }

  lemma PrependAppend(c: char, q: seq<string>, x: seq<string>)
    requires |q| >= 1
    ensures PrependToFirst(c, q + x) == PrependToFirst(c, q) + x
  {
    AppendHeadTail(q, x);
  }

  /** Complete lines and the unfinished tail after appending `b` to `a`. */
  lemma CompleteLinesAppend(a: string, b: string)
    ensures CompleteLines(a + b) == CompleteLines(a) + CompleteLines(Rest(a) + b)
    ensures Rest(a + b) == Rest(Rest(a) + b)
  {
    LinesAppend(a, b);
  }

  // ---------------------------------------------------------------------
  // Interpreting lines

  /** The payload of a data line: `line.slice(6).trim()`. */
  function Payload(line: string): (p: string)
    requires StartsWith(line, DataPrefix)
    ensures |p| <= |line| - |DataPrefix|
    ensures p == [] || (!IsJsSpace(p[0]) && !IsJsSpace(p[|p| - 1]))
  {
    TrimSpec(line[|DataPrefix|..]);
    Trim(line[|DataPrefix|..])
  }

  /** The delta a single line contributes, if any. */
  function LineDelta(line: string, parse: string -> DeltaLookup): (r: Option<string>)
    ensures r.Some? ==> r.value != ""
  {
    if !StartsWith(line, DataPrefix) then None
    else
      var data := Payload(line);
      if data == DoneSentinel then None
      else match parse(data)
        case Delta(d) => if d != "" then Some(d) else None
        case _ => None
  }

  function OptionToSeq(o: Option<string>): seq<string>
  {
    if o.Some? then [o.value] else []
  }

  /** The deltas of a sequence of complete lines, in line order. */
  function Deltas(lines: seq<string>, parse: string -> DeltaLookup): (r: seq<string>)
    ensures |r| <= |lines|
    ensures forall i :: 0 <= i < |r| ==> r[i] != ""
  {
    if lines == [] then [] else OptionToSeq(LineDelta(lines[0], parse)) + Deltas(lines[1..], parse)
  }

  /** One step of a loop that accumulates deltas line by line. */
  lemma DeltasStep(start: seq<string>, lines: seq<string>, i: nat, prev: seq<string>, next: seq<string>,
                   parse: string -> DeltaLookup)
    requires i < |lines|
    requires prev == start + Deltas(lines[..i], parse)
    requires next == prev + OptionToSeq(LineDelta(lines[i], parse))
    ensures next == start + Deltas(lines[..i + 1], parse)
  {
    DeltasSnoc(lines, i, parse);
  }

  /** One more line adds that line's delta, if any, at the end. */
  lemma DeltasSnoc(lines: seq<string>, i: nat, parse: string -> DeltaLookup)
    requires i < |lines|
    ensures Deltas(lines[..i + 1], parse) == Deltas(lines[..i], parse) + OptionToSeq(LineDelta(lines[i], parse))
  {
    Snoc(lines, i);
    DeltasAppend(lines[..i], [lines[i]], parse);
    assert [lines[i]][1..] == [];
  }

  /** The specification of the decoder: the deltas of the entire text received. */
  function Decode(text: string, parse: string -> DeltaLookup): (r: seq<string>)
    ensures |r| <= |CompleteLines(text)|
    ensures forall i :: 0 <= i < |r| ==> r[i] != ""
  {
    Deltas(CompleteLines(text), parse)
  }

  /** The in-order concatenation of strings. */
  function Concat(ss: seq<string>): string
  {
    if ss == [] then "" else ss[0] + Concat(ss[1..])
  }

  lemma {:induction false} ConcatAppend(a: seq<string>, b: seq<string>)
    ensures Concat(a + b) == Concat(a) + Concat(b)
  {
    if a == [] {
      AppendEmpty(a, b);
    } else {
      AppendHeadTail(a, b);
      ConcatAppend(a[1..], b);
      assert Concat(a + b) == a[0] + (Concat(a[1..]) + Concat(b));
    }
  }

  lemma {:induction false} DeltasAppend(a: seq<string>, b: seq<string>, parse: string -> DeltaLookup)
    ensures Deltas(a + b, parse) == Deltas(a, parse) + Deltas(b, parse)
  {
    if a == [] {
      AppendEmpty(a, b);
    } else {
      AppendHeadTail(a, b);
      DeltasAppend(a[1..], b, parse);
      var h := OptionToSeq(LineDelta(a[0], parse));
      assert Deltas(a + b, parse) == h + (Deltas(a[1..], parse) + Deltas(b, parse));
    }
  }

  /**
   * Decoding is compositional: the deltas of `a + b` are those of `a`
   * followed by those of the text the decoder holds after `a` (its
   * buffer) continued by `b`. Hence any two ways of chunking the same
   * text yield the same deltas and the same final buffer.
   */
  lemma DecodeAppend(a: string, b: string, parse: string -> DeltaLookup)
    ensures Decode(a + b, parse) == Decode(a, parse) + Deltas(CompleteLines(Rest(a) + b), parse)
    ensures Rest(a + b) == Rest(Rest(a) + b)
  {
    CompleteLinesAppend(a, b);
    DeltasAppend(CompleteLines(a), CompleteLines(Rest(a) + b), parse);
  }

  /** What one read round computes from the buffer agrees with decoding all text received. */
  lemma FeedStep(consumed: string, buffer: string, chunk: string, parse: string -> DeltaLookup)
    requires buffer == Rest(consumed)
    ensures var lines := Lines(buffer + chunk);
      && lines[|lines| - 1] == Rest(consumed + chunk) == Rest(buffer + chunk)
      && lines[..|lines| - 1] == CompleteLines(buffer + chunk)
      && Decode(consumed + chunk, parse) == Decode(consumed, parse) + Deltas(lines[..|lines| - 1], parse)
  {
    DecodeAppend(consumed, chunk, parse);
  }

  /** An unfinished line at the end of the stream is never decoded. */
  lemma UnterminatedTailIgnored(text: string, tail: string, parse: string -> DeltaLookup)
    requires '\n' !in tail
    ensures Decode(text + tail, parse) == Decode(text, parse)
    ensures Rest(text + tail) == Rest(text) + tail
  {
    DecodeAppend(text, tail, parse);
    assert '\n' !in Rest(text) + tail by {
      LinesNewlineFree(text);
      assert '\n' !in Rest(text);
      assert forall c :: c in Rest(text) + tail ==> c in Rest(text) || c in tail;
    }
    NoNewlineOneLine(Rest(text) + tail);
    assert CompleteLines(Rest(text) + tail) == [];
  }

  /** A `[DONE]` line contributes nothing, and the lines after it are still decoded. */
  lemma DoneLineSkipped(line: string, rest: seq<string>, parse: string -> DeltaLookup)
    requires StartsWith(line, DataPrefix) && Payload(line) == DoneSentinel
    ensures Deltas([line] + rest, parse) == Deltas(rest, parse)
  {
    assert ([line] + rest)[1..] == rest;
  }

  /** A payload that fails to parse contributes nothing, and no error is raised. */
  lemma MalformedLineSkipped(line: string, rest: seq<string>, parse: string -> DeltaLookup)
    requires StartsWith(line, DataPrefix) && parse(Payload(line)) == Malformed
    ensures Deltas([line] + rest, parse) == Deltas(rest, parse)
  {
    assert ([line] + rest)[1..] == rest;
  }

  /** A line without the exact prefix "data: " (such as "data:{...}") contributes nothing. */
  lemma NonDataLineSkipped(line: string, rest: seq<string>, parse: string -> DeltaLookup)
    requires !StartsWith(line, DataPrefix)
    ensures Deltas([line] + rest, parse) == Deltas(rest, parse)
  {
    assert ([line] + rest)[1..] == rest;
  }

  /** A data line whose payload parses to a non-empty delta contributes exactly that delta. */
  lemma DeltaLineDecoded(line: string, rest: seq<string>, parse: string -> DeltaLookup, d: string)
    requires StartsWith(line, DataPrefix) && Payload(line) != DoneSentinel
    requires parse(Payload(line)) == Delta(d) && d != ""
    ensures Deltas([line] + rest, parse) == [d] + Deltas(rest, parse)
  {
    assert ([line] + rest)[1..] == rest;
  }

  /** One event-stream frame `data: <payload>` terminated by '\n'. */
  function DataFrame(payload: string): string
  {
    DataPrefix + payload + "\n"
  }

  /** The frames of the payloads, in order. */
  function Frames(payloads: seq<string>): string
  {
    if payloads == [] then "" else DataFrame(payloads[0]) + Frames(payloads[1..])
  }

  /** A payload the decoder hands to `JSON.parse` unchanged and that parses to the given delta. */
  predicate WellFormedFrame(payload: string, delta: string, parse: string -> DeltaLookup)
  {
    && '\n' !in payload && Trim(payload) == payload && payload != DoneSentinel
    && parse(payload) == Delta(delta) && delta != ""
  }

  /** A frame whose payload has no '\n' is one complete line in front of the text after it. */
  lemma FrameLine(payload: string, tail: string)
    requires '\n' !in payload
    ensures CompleteLines(DataFrame(payload) + tail) == [DataPrefix + payload] + CompleteLines(tail)
    ensures StartsWith(DataPrefix + payload, DataPrefix) && Payload(DataPrefix + payload) == Trim(payload)
  {
    var line := DataPrefix + payload;
    assert DataFrame(payload) + tail == line + "\n" + tail;
    assert '\n' !in line by {
      assert forall c :: c in line ==> c in DataPrefix || c in payload;
    }
    LinesAfterNewline(line, tail);
    assert line[|DataPrefix|..] == payload;
  }

  /** The closing `data: [DONE]` frame decodes to nothing. */
  lemma DoneFrameDecoded(parse: string -> DeltaLookup)
    ensures Decode(DataFrame(DoneSentinel), parse) == []
  {
    FrameLine(DoneSentinel, "");
    assert DataFrame(DoneSentinel) + "" == DataFrame(DoneSentinel);
    DoneTrimmed();
    assert LineDelta(DataPrefix + DoneSentinel, parse) == None;
  }

  /** `[DONE]` has no white space to trim. */
  lemma DoneTrimmed()
    ensures Trim(DoneSentinel) == DoneSentinel
  {
    assert DoneSentinel[0] == '[' && DoneSentinel[|DoneSentinel| - 1] == ']';
  }

  /** The stream that holds only the closing frame decodes to nothing. */
  lemma DoneFramesDecoded(parse: string -> DeltaLookup)
    ensures Decode(Frames([DoneSentinel]), parse) == []
  {
    assert [DoneSentinel][1..] == [];
    assert Frames([DoneSentinel]) == DataFrame(DoneSentinel);
    DoneFrameDecoded(parse);
  }

  /** A well-formed frame in front of any text contributes exactly its delta. */
  lemma FrameDecoded(payload: string, delta: string, tail: string, parse: string -> DeltaLookup)
    requires WellFormedFrame(payload, delta, parse)
    ensures Decode(DataFrame(payload) + tail, parse) == [delta] + Decode(tail, parse)
  {
    FrameLine(payload, tail);
    DeltaLineDecoded(DataPrefix + payload, CompleteLines(tail), parse, delta);
  }

  /**
   * A stream of N well-formed frames followed by `data: [DONE]` decodes
   * to exactly the N deltas, in frame order.
   */
  lemma {:induction false} FramesDecoded(payloads: seq<string>, deltas: seq<string>, parse: string -> DeltaLookup)
    requires |payloads| == |deltas|
    requires forall i :: 0 <= i < |payloads| ==> WellFormedFrame(payloads[i], deltas[i], parse)
    ensures Decode(Frames(payloads + [DoneSentinel]), parse) == deltas
  {
    if payloads == [] {
      assert payloads + [DoneSentinel] == [DoneSentinel];
      DoneFramesDecoded(parse);
    } else {
      assert WellFormedFrame(payloads[0], deltas[0], parse);
      forall i | 0 <= i < |payloads| - 1 ensures WellFormedFrame(payloads[1..][i], deltas[1..][i], parse) {
        assert payloads[1..][i] == payloads[i + 1] && deltas[1..][i] == deltas[i + 1];
      }
      FramesDecoded(payloads[1..], deltas[1..], parse);
      FramesStep(payloads, deltas, parse);
    }
  }

  /** One more well-formed frame in front adds its delta in front. */
  lemma FramesStep(payloads: seq<string>, deltas: seq<string>, parse: string -> DeltaLookup)
    requires |payloads| == |deltas| > 0
    requires WellFormedFrame(payloads[0], deltas[0], parse)
    requires Decode(Frames(payloads[1..] + [DoneSentinel]), parse) == deltas[1..]
    ensures Decode(Frames(payloads + [DoneSentinel]), parse) == deltas
  {
    var tail := Frames(payloads[1..] + [DoneSentinel]);
    FramesCons(payloads, DoneSentinel);
    FrameDecoded(payloads[0], deltas[0], tail, parse);
    HeadTail(deltas);
  }

  /** The first frame comes first in the stream. */
  lemma FramesCons(payloads: seq<string>, last: string)
    requires payloads != []
    ensures Frames(payloads + [last]) == DataFrame(payloads[0]) + Frames(payloads[1..] + [last])
  {
    var ps := payloads + [last];
    assert ps[0] == payloads[0] && ps[1..] == payloads[1..] + [last];
  }

  // ---------------------------------------------------------------------
  // Callbacks

  /** One callback invocation: the per-call `onDelta` or `options.onDelta`, with its argument. */
  datatype Notification = PerCallDelta(delta: string) | OptionsDelta(delta: string)

  /** The invocations for one delta: the per-call callback first, then the options callback. */
  function NotifyOne(d: string, perCall: bool, options: bool): (r: seq<Notification>)
    ensures |r| == (if perCall then 1 else 0) + (if options then 1 else 0)
    ensures forall i :: 0 <= i < |r| ==> r[i].delta == d
    ensures perCall ==> r[0].PerCallDelta?
    ensures options ==> r[|r| - 1].OptionsDelta?
  {
    (if perCall then [PerCallDelta(d)] else []) + (if options then [OptionsDelta(d)] else [])
  }

  /** All callback invocations for a sequence of deltas, in delta order. */
  function Notifications(deltas: seq<string>, perCall: bool, options: bool): seq<Notification>
  {
    if deltas == [] then [] else NotifyOne(deltas[0], perCall, options) + Notifications(deltas[1..], perCall, options)
  }

  /** The arguments the per-call callback receives, in order. */
  function PerCallArgs(ns: seq<Notification>): seq<string>
  {
    if ns == [] then []
    else (if ns[0].PerCallDelta? then [ns[0].delta] else []) + PerCallArgs(ns[1..])
  }

  /** The arguments `options.onDelta` receives, in order. */
  function OptionsArgs(ns: seq<Notification>): seq<string>
  {
    if ns == [] then []
    else (if ns[0].OptionsDelta? then [ns[0].delta] else []) + OptionsArgs(ns[1..])
  }

  lemma {:induction false} NotificationsAppend(a: seq<string>, b: seq<string>, perCall: bool, options: bool)
    ensures Notifications(a + b, perCall, options) == Notifications(a, perCall, options) + Notifications(b, perCall, options)
  {
    if a == [] {
      AppendEmpty(a, b);
    } else {
      AppendHeadTail(a, b);
      NotificationsAppend(a[1..], b, perCall, options);
    }
  }

  /** Content and callbacks after one more delta. */
  lemma SingleDelta(emitted: seq<string>, d: string, perCall: bool, options: bool)
    ensures Concat(emitted + [d]) == Concat(emitted) + d
    ensures Notifications(emitted + [d], perCall, options) == Notifications(emitted, perCall, options) + NotifyOne(d, perCall, options)
  {
    ConcatAppend(emitted, [d]);
    NotificationsAppend(emitted, [d], perCall, options);
    assert [d][1..] == [];
    assert Concat([d]) == d;
    assert Notifications([d], perCall, options) == NotifyOne(d, perCall, options);
  }

  lemma {:induction false} PerCallArgsAppend(a: seq<Notification>, b: seq<Notification>)
    ensures PerCallArgs(a + b) == PerCallArgs(a) + PerCallArgs(b)
  {
    if a == [] {
      AppendEmpty(a, b);
    } else {
      AppendHeadTail(a, b);
      PerCallArgsAppend(a[1..], b);
      var h := if a[0].PerCallDelta? then [a[0].delta] else [];
      assert PerCallArgs(a + b) == h + PerCallArgs(a[1..] + b);
    }
  }

  lemma {:induction false} OptionsArgsAppend(a: seq<Notification>, b: seq<Notification>)
    ensures OptionsArgs(a + b) == OptionsArgs(a) + OptionsArgs(b)
  {
    if a == [] {
      AppendEmpty(a, b);
    } else {
      AppendHeadTail(a, b);
      OptionsArgsAppend(a[1..], b);
      var h := if a[0].OptionsDelta? then [a[0].delta] else [];
      assert OptionsArgs(a + b) == h + OptionsArgs(a[1..] + b);
    }
  }

  /** The arguments each callback receives distribute over appending invocation logs. */
  lemma ArgsAppend(a: seq<Notification>, b: seq<Notification>)
    ensures PerCallArgs(a + b) == PerCallArgs(a) + PerCallArgs(b)
    ensures OptionsArgs(a + b) == OptionsArgs(a) + OptionsArgs(b)
  {
    PerCallArgsAppend(a, b);
    OptionsArgsAppend(a, b);
  }

  /**
   * Each enabled callback receives exactly the deltas, unchanged and in
   * order; a callback that is not supplied is never invoked.
   */
  lemma {:induction false} CallbackArguments(deltas: seq<string>, perCall: bool, options: bool)
    ensures PerCallArgs(Notifications(deltas, perCall, options)) == if perCall then deltas else []
    ensures OptionsArgs(Notifications(deltas, perCall, options)) == if options then deltas else []
  {
    if deltas != [] {
      CallbackArguments(deltas[1..], perCall, options);
      var one := NotifyOne(deltas[0], perCall, options);
      ArgsAppend(one, Notifications(deltas[1..], perCall, options));
      ArgsAppend(if perCall then [PerCallDelta(deltas[0])] else [], if options then [OptionsDelta(deltas[0])] else []);
      HeadTail(deltas);
    }
  }

  // ---------------------------------------------------------------------
  // The incremental decoder

  /**
   * The decoder state of one `sendMessage` call. `emitted` lists the
   * deltas accepted so far, `calls` the callback invocations made so far
   * (`perCall` and `options` say which of the two callbacks were
   * supplied), and `consumed` is the text received so far.
   */
  class StreamDecoder {
    const parse: string -> DeltaLookup
    const perCall: bool
    const options: bool
    var buffer: string
    var fullContent: string
    var calls: seq<Notification>
    ghost var emitted: seq<string>
    ghost var consumed: string

    ghost predicate Valid()
      reads this
    {
      && buffer == Rest(consumed)
      && emitted == Decode(consumed, parse)
      && InStep()
    }

    /** The content and the callback log agree with the deltas accepted so far. */
    ghost predicate InStep()
      reads this
    {
      fullContent == Concat(emitted) && calls == Notifications(emitted, perCall, options)
    }

    constructor (parse: string -> DeltaLookup, perCall: bool, options: bool)
      ensures Valid() && this.parse == parse && this.perCall == perCall && this.options == options
      ensures consumed == "" && buffer == "" && fullContent == "" && emitted == [] && calls == []
    {
      this.parse := parse;
      this.perCall := perCall;
      this.options := options;
      buffer := "";
      fullContent := "";
      calls := [];
      emitted := [];
      consumed := "";
    }

    /** One `reader.read()` round: append the chunk, split, keep the tail, decode the complete lines. */
    method Feed(chunk: string)
      requires Valid()
      modifies this
      ensures Valid()
      ensures consumed == old(consumed) + chunk
      ensures buffer == Rest(old(buffer) + chunk)
      ensures emitted == old(emitted) + Deltas(CompleteLines(old(buffer) + chunk), parse)
    {
      var lines := Lines(buffer + chunk);
      FeedStep(consumed, buffer, chunk, parse);
      buffer := lines[|lines| - 1];
      DecodeLines(lines[..|lines| - 1]);
      consumed := consumed + chunk;
    }

    /** The `for (const line of lines)` loop over the complete lines of one round. */
    method DecodeLines(lines: seq<string>)
      requires InStep()
      modifies this`fullContent, this`emitted, this`calls
      ensures emitted == old(emitted) + Deltas(lines, parse)
      ensures InStep()
    {
      ghost var start := emitted;
      for i := 0 to |lines|
        invariant emitted == start + Deltas(lines[..i], parse)
        invariant InStep()
      {
        ghost var prev := emitted;
        ProcessLine(lines[i]);
        DeltasStep(start, lines, i, prev, emitted, parse);
      }
      assert lines[..|lines|] == lines;
    }

    /** The body of the `for (const line of lines)` loop. */
    method ProcessLine(line: string)
      requires InStep()
      modifies this`fullContent, this`emitted, this`calls
      ensures emitted == old(emitted) + OptionToSeq(LineDelta(line, parse))
      ensures InStep()
    {
      if StartsWith(line, DataPrefix) {
        var data := Trim(line[|DataPrefix|..]);
        assert data == Payload(line);
        if data == DoneSentinel {
          assert LineDelta(line, parse) == None;
          return;
        }
        match parse(data)
        case Delta(delta) =>
          if delta != "" {
            assert LineDelta(line, parse) == Some(delta);
            Emit(delta);
          } else {
            assert LineDelta(line, parse) == None;
          }
        case _ =>
          assert LineDelta(line, parse) == None;
      } else {
        assert LineDelta(line, parse) == None;
      }
    }

    /** `fullContent += delta; onDelta?.(delta); options.onDelta?.(delta)`. */
    method Emit(delta: string)
      requires InStep()
      modifies this`fullContent, this`emitted, this`calls
      ensures emitted == old(emitted) + [delta]
      ensures InStep()
    {
      SingleDelta(emitted, delta, perCall, options);
      fullContent := fullContent + delta;
      if perCall {
        calls := calls + [PerCallDelta(delta)];
      }
      if options {
        calls := calls + [OptionsDelta(delta)];
      }
      emitted := emitted + [delta];
    }
  }
}
