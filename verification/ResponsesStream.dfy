/**
 The event stream of an image response: lines are assembled into frames, frames are decoded into
 events, and the images of the events are collected without repetition.
 */
module ResponsesStream {
  import opened Basics
  import opened Text

  // --------------------------------------------------------------------------------------------
  // Lines and frames

  function LineEnd(text: string, from: nat): (i: nat)
    requires from <= |text|
    ensures from <= i <= |text| && (i < |text| ==> text[i] == '\n')
    ensures forall k :: from <= k < i ==> text[k] != '\n'
    decreases |text| - from
  {
    if from == |text| || text[from] == '\n' then from else LineEnd(text, from + 1)
  }

  function DropReturn(line: string): string {
    if line != "" && line[|line| - 1] == '\r' then line[..|line| - 1] else line
  }

  /** `bufio.ScanLines`: an unterminated last line counts, unless it is empty. */
  function Lines(text: string): seq<string>
    decreases |text|
  {
    if text == "" then []
    else
      var i := LineEnd(text, 0);
      if i == |text| then [DropReturn(text)] else [DropReturn(text[..i])] + Lines(text[i + 1..])
  }

  function Join(xs: seq<string>): string {
    if xs == [] then "" else if |xs| == 1 then xs[0] else xs[0] + "\n" + Join(xs[1..])
  }

  predicate IsData(line: string) { "data:" <= line }

  function DataOf(line: string): string
    requires IsData(line)
  {
    Trim(line[5..])
  }

  /** The frames in the order in which they are processed; the last one is what is left at the end of the stream. */
  function Frames(lines: seq<string>, open: seq<string>): (frames: seq<string>)
    ensures frames != []
  {
    if lines == [] then [Join(open)]
    else if lines[0] == "" then [Join(open)] + Frames(lines[1..], [])
    else if IsData(lines[0]) then Frames(lines[1..], open + [DataOf(lines[0])])
    else Frames(lines[1..], open)
  }

  /** A frame on the wire: its lines as data lines, then a blank line. */
  function PrintLines(frame: seq<string>): seq<string> {
    if frame == [] then [""] else ["data: " + frame[0]] + PrintLines(frame[1..])
  }

  function PrintFrames(frames: seq<seq<string>>): seq<string> {
    if frames == [] then [] else PrintLines(frames[0]) + PrintFrames(frames[1..])
  }

  function PrintText(lines: seq<string>): string {
    if lines == [] then "" else lines[0] + "\n" + PrintText(lines[1..])
  }

  function Joined(frames: seq<seq<string>>): seq<string> {
    if frames == [] then [] else [Join(frames[0])] + Joined(frames[1..])
  }

  /** The lines of a frame as the parser keeps them. */
  function TrimAll(frame: seq<string>): (trimmed: seq<string>)
    ensures |trimmed| == |frame| && forall k :: 0 <= k < |frame| ==> trimmed[k] == Trim(frame[k])
  {
    if frame == [] then [] else [Trim(frame[0])] + TrimAll(frame[1..])
  }

  function TrimFrames(frames: seq<seq<string>>): seq<seq<string>> {
    if frames == [] then [] else [TrimAll(frames[0])] + TrimFrames(frames[1..])
  }

  lemma DataLineIsTrimmed(line: string)
    ensures IsData("data: " + line) && DataOf("data: " + line) == Trim(line)
  {
    var whole := "data: " + line;
    assert whole[..5] == "data:";
    assert whole[5..] == " " + line;
    assert (" " + line)[1..] == line;
    assert TrimLeft(" " + line) == TrimLeft(line);
  }

  lemma {:induction false} DataLineIsRead(line: string, more: seq<string>, open: seq<string>)
    ensures Frames(["data: " + line] + more, open) == Frames(more, open + [Trim(line)])
  {
    DataLineIsTrimmed(line);
    assert (["data: " + line] + more)[1..] == more;
  }

  lemma {:induction false} SameFramesAfter(before: seq<string>, some: seq<string>, other: seq<string>,
      open: seq<string>)
    requires forall o :: Frames(some, o) == Frames(other, o)
    ensures Frames(before + some, open) == Frames(before + other, open)
    decreases |before|
  {
    if before == [] {
      assert before + some == some && before + other == other;
    } else {
      assert (before + some)[1..] == before[1..] + some && (before + other)[1..] == before[1..] + other;
      SameFramesAfter(before[1..], some, other, []);
      SameFramesAfter(before[1..], some, other, open);
      if IsData(before[0]) { SameFramesAfter(before[1..], some, other, open + [DataOf(before[0])]); }
    }
  }

  /** A line that is neither blank nor a data line, such as `event:` or a comment, makes no difference anywhere. */
  lemma {:induction false} OtherLinesAreIgnored(before: seq<string>, line: string, more: seq<string>)
    requires line != "" && !("data:" <= line)
    ensures Frames(before + ([line] + more), []) == Frames(before + more, [])
  {
    assert ([line] + more)[1..] == more;
    SameFramesAfter(before, [line] + more, more, []);
  }

  /** Nor does the white space after the colon, if there is any; a data line may be empty. */
  lemma {:induction false} SpacingIsIgnored(before: seq<string>, spaces: string, line: string, more: seq<string>)
    requires AllSpace(spaces)
    ensures Frames(before + (["data:" + spaces + line] + more), []) == Frames(before + (["data: " + line] + more), [])
  {
    var whole := "data:" + spaces + line;
    assert whole[..5] == "data:" && whole[5..] == spaces + line;
    TrimLeftSkips(spaces, line);
    assert ([whole] + more)[1..] == more;
    forall open ensures Frames([whole] + more, open) == Frames(["data: " + line] + more, open) {
      DataLineIsRead(line, more, open);
    }
    SameFramesAfter(before, [whole] + more, ["data: " + line] + more, []);
  }

  lemma {:induction false} OneFrameRoundTrip(frame: seq<string>, rest: seq<string>, open: seq<string>)
    ensures Frames(PrintLines(frame) + rest, open) == [Join(open + TrimAll(frame))] + Frames(rest, [])
    decreases |frame|
  {
    if frame == [] {
      assert open + TrimAll(frame) == open;
      assert (PrintLines(frame) + rest)[1..] == rest;
    } else {
      var more := PrintLines(frame[1..]) + rest;
      assert PrintLines(frame) + rest == ["data: " + frame[0]] + more;
      DataLineIsRead(frame[0], more, open);
      Reassociate(open, [Trim(frame[0])], TrimAll(frame[1..]));
      OneFrameRoundTrip(frame[1..], rest, open + [Trim(frame[0])]);
    }
  }

  /** Printed frames come back in order, each of their lines trimmed; what is left at the end is empty. */
  lemma {:induction false} FramesRoundTrip(frames: seq<seq<string>>)
    ensures Frames(PrintFrames(frames), []) == Joined(TrimFrames(frames)) + [""]
    decreases |frames|
  {
    if frames == [] {
      assert Joined(TrimFrames(frames)) + [""] == [""];
    } else {
      var first := TrimAll(frames[0]);
      assert [] + first == first;
      OneFrameRoundTrip(frames[0], PrintFrames(frames[1..]), []);
      FramesRoundTrip(frames[1..]);
      assert TrimFrames(frames)[1..] == TrimFrames(frames[1..]);
      Reassociate([Join(first)], Joined(TrimFrames(frames[1..])), [""]);
    }
  }

  predicate AllTrimmed(frame: seq<string>) { forall k :: 0 <= k < |frame| ==> Trimmed(frame[k]) }

  lemma AllTrimmedSplit(frame: seq<string>)
    requires frame != []
    ensures AllTrimmed(frame) <==> Trimmed(frame[0]) && AllTrimmed(frame[1..])
  {
    assert frame == [frame[0]] + frame[1..];
    assert AllTrimmed(frame) ==> forall k :: 0 <= k < |frame[1..]| ==> frame[1..][k] == frame[k + 1];
  }

  lemma {:induction false} JoinShortens(frame: seq<string>)
    ensures |Join(TrimAll(frame))| <= |Join(frame)|
    ensures |Join(TrimAll(frame))| == |Join(frame)| <==> AllTrimmed(frame)
  {
    if frame != [] {
      TrimShortensIff(frame[0]);
      JoinShortens(frame[1..]);
      assert TrimAll(frame)[1..] == TrimAll(frame[1..]);
      AllTrimmedSplit(frame);
    }
  }

  lemma {:induction false} JoinUnchangedIff(frame: seq<string>)
    ensures Join(TrimAll(frame)) == Join(frame) <==> AllTrimmed(frame)
  {
    JoinShortens(frame);
    if AllTrimmed(frame) {
      forall k | 0 <= k < |frame| ensures TrimAll(frame)[k] == frame[k] { TrimIsTrimmed(frame[k]); }
      assert TrimAll(frame) == frame;
    }
  }

  predicate EachTrimmed(frames: seq<seq<string>>) { forall k :: 0 <= k < |frames| ==> AllTrimmed(frames[k]) }

  lemma EachTrimmedSplit(frames: seq<seq<string>>)
    requires frames != []
    ensures EachTrimmed(frames) <==> AllTrimmed(frames[0]) && EachTrimmed(frames[1..])
  {
    assert frames == [frames[0]] + frames[1..];
    assert EachTrimmed(frames) ==> forall k :: 0 <= k < |frames[1..]| ==> frames[1..][k] == frames[k + 1];
  }

  /**
   Frames come back unchanged exactly if no line begins or ends with white space; section 9.2.6 of the
   HTML standard would take away only one leading space.
   */
  lemma {:induction false} FramesUnchangedIff(frames: seq<seq<string>>)
    ensures Frames(PrintFrames(frames), []) == Joined(frames) + [""] <==> EachTrimmed(frames)
  {
    FramesRoundTrip(frames);
    JoinedUnchangedIff(frames);
    var after, before := Joined(TrimFrames(frames)), Joined(frames);
    if after + [""] == before + [""] {
      assert (after + [""])[..|after|] == after && (before + [""])[..|before|] == before;
    }
  }

  lemma {:induction false} JoinedUnchangedIff(frames: seq<seq<string>>)
    ensures Joined(TrimFrames(frames)) == Joined(frames) <==> EachTrimmed(frames)
    decreases |frames|
  {
    if frames != [] {
      JoinUnchangedIff(frames[0]);
      JoinedUnchangedIff(frames[1..]);
      var later := TrimFrames(frames[1..]);
      assert TrimFrames(frames)[1..] == later;
      assert Joined(TrimFrames(frames))[0] == Join(TrimAll(frames[0]))
             && Joined(TrimFrames(frames))[1..] == Joined(later);
      assert Joined(frames)[0] == Join(frames[0]) && Joined(frames)[1..] == Joined(frames[1..]);
      EachTrimmedSplit(frames);
    }
  }

  // From lines to text and back.

  predicate OneLine(line: string) { '\n' !in line }

  predicate OneLineEach(lines: seq<string>) { forall k :: 0 <= k < |lines| ==> OneLine(lines[k]) }

  function DropAll(lines: seq<string>): (dropped: seq<string>)
    ensures |dropped| == |lines| && forall k :: 0 <= k < |lines| ==> dropped[k] == DropReturn(lines[k])
  {
    if lines == [] then [] else [DropReturn(lines[0])] + DropAll(lines[1..])
  }

  /** Lines survive being printed and scanned, except for a carriage return at their end. */
  lemma {:induction false} TextRoundTrip(lines: seq<string>)
    requires OneLineEach(lines)
    ensures Lines(PrintText(lines)) == DropAll(lines)
    decreases |lines|
  {
    if lines != [] {
      var text := PrintText(lines);
      var i := LineEnd(text, 0);
      assert text == lines[0] + ("\n" + PrintText(lines[1..]));
      assert text[|lines[0]|] == '\n';
      assert forall k :: 0 <= k < |lines[0]| ==> text[k] == lines[0][k];
      assert OneLine(lines[0]);
      assert i == |lines[0]| && text[..i] == lines[0] && text[i + 1..] == PrintText(lines[1..]);
      TextRoundTrip(lines[1..]);
    }
  }

  lemma {:induction false} DropConcat(a: seq<string>, b: seq<string>)
    ensures DropAll(a + b) == DropAll(a) + DropAll(b)
  {
  }

  /** A carriage return at the end of a frame line is white space, so nothing of the frame is lost with it. */
  lemma {:induction false} DroppedFrame(frame: seq<string>)
    ensures DropAll(PrintLines(frame)) == PrintLines(DropAll(frame)) && TrimAll(DropAll(frame)) == TrimAll(frame)
  {
    if frame == [] {
      assert DropAll(PrintLines(frame)) == [""];
    } else {
      var line := frame[0];
      DroppedFrame(frame[1..]);
      if line != "" {
        assert line == line[..|line| - 1] + [line[|line| - 1]];
        if line[|line| - 1] == '\r' { TrimIgnoresEnd(line[..|line| - 1], '\r'); }
        assert ("data: " + line)[..|"data: " + line| - 1] == "data: " + line[..|line| - 1];
      }
      assert DropReturn("data: " + line) == "data: " + DropReturn(line);
      DropConcat(["data: " + line], PrintLines(frame[1..]));
      assert DropAll(frame)[1..] == DropAll(frame[1..]);
      assert TrimAll(frame)[1..] == TrimAll(frame[1..]);
      assert TrimAll(DropAll(frame)) == [Trim(DropReturn(line))] + TrimAll(DropAll(frame[1..]));
    }
  }

  function DropFrames(frames: seq<seq<string>>): seq<seq<string>> {
    if frames == [] then [] else [DropAll(frames[0])] + DropFrames(frames[1..])
  }

  lemma {:induction false} DroppedFrames(frames: seq<seq<string>>)
    ensures DropAll(PrintFrames(frames)) == PrintFrames(DropFrames(frames))
            && TrimFrames(DropFrames(frames)) == TrimFrames(frames)
    decreases |frames|
  {
    if frames != [] {
      DroppedFrame(frames[0]);
      DroppedFrames(frames[1..]);
      DropConcat(PrintLines(frames[0]), PrintFrames(frames[1..]));
      assert DropFrames(frames)[1..] == DropFrames(frames[1..]);
    }
  }

  lemma {:induction false} PrintedFrameIsOneLineEach(frame: seq<string>)
    requires OneLineEach(frame)
    ensures OneLineEach(PrintLines(frame))
  {
    if frame != [] {
      assert OneLine(frame[0]);
      PrintedFrameIsOneLineEach(frame[1..]);
      assert OneLine("data: " + frame[0]);
    }
  }

  lemma {:induction false} PrintedFramesAreOneLineEach(frames: seq<seq<string>>)
    requires forall k :: 0 <= k < |frames| ==> OneLineEach(frames[k])
    ensures OneLineEach(PrintFrames(frames))
    decreases |frames|
  {
    if frames != [] {
      PrintedFrameIsOneLineEach(frames[0]);
      PrintedFramesAreOneLineEach(frames[1..]);
    }
  }

  /** From frames to text and back. */
  lemma {:induction false} StreamRoundTrip(frames: seq<seq<string>>)
    requires forall k :: 0 <= k < |frames| ==> OneLineEach(frames[k])
    ensures Frames(Lines(PrintText(PrintFrames(frames))), []) == Joined(TrimFrames(frames)) + [""]
  {
    PrintedFramesAreOneLineEach(frames);
    TextRoundTrip(PrintFrames(frames));
    DroppedFrames(frames);
    FramesRoundTrip(DropFrames(frames));
  }

  // --------------------------------------------------------------------------------------------
  // Events and images

  /** One finished image as an event carries it. */
  datatype Offer = Offer(b64: string, format: string)

  /** A decoded frame; a frame that is not JSON, or of no interest, is `Ignored`. */
  datatype Payload =
    | ErrorEvent(message: string)
    | Partial(item: string, b64: string)
    | Done(offers: seq<Offer>)
    | Ignored

  const DEFAULT_ERROR := "responses stream returned an error"

  predicate Blank(frame: string) { Trim(frame) == "" || Trim(frame) == "[DONE]" }

  function Decoded(frame: string, decode: string -> Payload): Payload
  {
    if Blank(frame) then Ignored else decode(Trim(frame))
  }

  /** What the frames say, up to the first error event. */
  datatype Gathered = Gathered(offers: seq<Offer>, partials: map<string, string>, error: Option<string>)

  const NOTHING := Gathered([], map[], None)

  function Absorb(g: Gathered, p: Payload): Gathered {
    if g.error.Some? then g
    else
      match p
      case ErrorEvent(m) => g.(error := Some(if Trim(m) != "" then m else DEFAULT_ERROR))
      case Partial(item, b64) => if item != "" && b64 != "" then g.(partials := g.partials[item := b64]) else g
      case Done(offers) => g.(offers := g.offers + offers)
      case Ignored => g
  }

  function Gather(frames: seq<string>, decode: string -> Payload): Gathered {
    if frames == [] then NOTHING
    else Absorb(Gather(frames[..|frames| - 1], decode), Decoded(frames[|frames| - 1], decode))
  }

  /** Every offer that is not blank, once, at its first occurrence. */
  function FirstOccurrences(offers: seq<Offer>): seq<Offer>
    decreases |offers|
  {
    if offers == [] then []
    else if Trim(offers[0].b64) == "" then FirstOccurrences(offers[1..])
    else [offers[0]] + FirstOccurrences(Without(offers[1..], offers[0].b64))
  }

  function Without(offers: seq<Offer>, b64: string): (rest: seq<Offer>)
    ensures |rest| <= |offers| && forall o :: o in rest <==> o in offers && o.b64 != b64
  {
    if offers == [] then []
    else
      assert offers == [offers[0]] + offers[1..];
      (if offers[0].b64 == b64 then [] else [offers[0]]) + Without(offers[1..], b64)
  }

  function Codes(images: seq<Offer>): set<string> { set o | o in images :: o.b64 }

  lemma CodesOfMore(images: seq<Offer>, o: Offer)
    ensures Codes(images + [o]) == Codes(images) + {o.b64}
  {
    forall b ensures b in Codes(images + [o]) <==> b in Codes(images) + {o.b64} {
      if b in Codes(images) {
        var x :| x in images && x.b64 == b;
        assert x in images + [o];
      }
      if b == o.b64 { assert o in images + [o]; }
    }
  }

  /** The program's step: remember what was emitted, and skip what was. */
  function Emitted(images: seq<Offer>, o: Offer): seq<Offer> {
    if Trim(o.b64) == "" || o.b64 in Codes(images) then images else images + [o]
  }

  function EmittedAll(images: seq<Offer>, offers: seq<Offer>): seq<Offer>
    decreases |offers|
  {
    if offers == [] then images else EmittedAll(Emitted(images, offers[0]), offers[1..])
  }

  /** The offers whose code is not among the given ones. */
  function Fresh(offers: seq<Offer>, known: set<string>): (rest: seq<Offer>)
    ensures |rest| <= |offers|
  {
    if offers == [] then [] else (if offers[0].b64 in known then [] else [offers[0]]) + Fresh(offers[1..], known)
  }

  lemma {:induction false} WithoutCons(o: Offer, rest: seq<Offer>, b64: string)
    ensures Without([o] + rest, b64) == (if o.b64 == b64 then [] else [o]) + Without(rest, b64)
  {
    assert ([o] + rest)[1..] == rest;
  }

  lemma {:induction false} FirstOccurrencesCons(o: Offer, rest: seq<Offer>)
    ensures FirstOccurrences([o] + rest)
            == if Trim(o.b64) == "" then FirstOccurrences(rest) else [o] + FirstOccurrences(Without(rest, o.b64))
  {
    assert ([o] + rest)[1..] == rest;
  }

  lemma {:induction false} FreshMore(offers: seq<Offer>, known: set<string>, b64: string)
    ensures Fresh(offers, known + {b64}) == Without(Fresh(offers, known), b64)
    decreases |offers|
  {
    if offers != [] {
      FreshMore(offers[1..], known, b64);
      var o, rest := offers[0], Fresh(offers[1..], known);
      if o.b64 !in known {
        WithoutCons(o, rest, b64);
      } else {
        assert [] + rest == rest && [] + Fresh(offers[1..], known + {b64}) == Fresh(offers[1..], known + {b64});
      }
    }
  }

  lemma {:induction false} EmittedIsFirst(images: seq<Offer>, o: Offer, rest: seq<Offer>)
    requires o.b64 !in Codes(images)
    ensures Emitted(images, o) + FirstOccurrences(Fresh(rest, Codes(Emitted(images, o))))
            == images + FirstOccurrences([o] + Fresh(rest, Codes(images)))
  {
    var codes := Codes(images);
    var later := Fresh(rest, codes);
    FirstOccurrencesCons(o, later);
    if Trim(o.b64) != "" {
      CodesOfMore(images, o);
      FreshMore(rest, codes, o.b64);
      Reassociate(images, [o], FirstOccurrences(Without(later, o.b64)));
    }
  }

  /** Skipping what was seen, offer by offer, leaves exactly the first occurrences. */
  lemma {:induction false} EmittingIsDeduplicating(images: seq<Offer>, offers: seq<Offer>)
    ensures EmittedAll(images, offers) == images + FirstOccurrences(Fresh(offers, Codes(images)))
    decreases |offers|
  {
    if offers != [] {
      var o, rest := offers[0], Fresh(offers[1..], Codes(images));
      EmittingIsDeduplicating(Emitted(images, o), offers[1..]);
      if o.b64 in Codes(images) {
        assert [] + rest == rest;
      } else {
        EmittedIsFirst(images, o, offers[1..]);
      }
    }
  }

  lemma {:induction false} FreshOfNone(offers: seq<Offer>)
    ensures Fresh(offers, {}) == offers
  {
    if offers != [] { FreshOfNone(offers[1..]); }
  }

  lemma {:induction false} EmittedFromNone(offers: seq<Offer>)
    ensures EmittedAll([], offers) == FirstOccurrences(offers)
  {
    EmittingIsDeduplicating([], offers);
    assert Codes([]) == {};
    FreshOfNone(offers);
    assert [] + FirstOccurrences(offers) == FirstOccurrences(offers);
  }

  /** The first occurrences name every non-blank image of the stream, and none twice. */
  lemma {:induction false} FirstOccurrencesAreAll(offers: seq<Offer>)
    ensures forall b :: b in Codes(FirstOccurrences(offers)) <==> b in Codes(offers) && Trim(b) != ""
    ensures forall i, j :: 0 <= i < j < |FirstOccurrences(offers)| ==>
            FirstOccurrences(offers)[i].b64 != FirstOccurrences(offers)[j].b64
    decreases |offers|
  {
    if offers != [] {
      var o, rest := offers[0], offers[1..];
      assert offers == [o] + rest;
      if Trim(o.b64) == "" {
        FirstOccurrencesAreAll(rest);
      } else {
        var without := Without(rest, o.b64);
        FirstOccurrencesAreAll(without);
        var tail := FirstOccurrences(without);
        forall i | 0 <= i < |tail| ensures tail[i].b64 != o.b64 { assert tail[i].b64 in Codes(tail); }
        forall b ensures b in Codes([o] + tail) <==> b in Codes(offers) && Trim(b) != "" {
          if b in Codes(offers) && b != o.b64 {
            var x :| x in offers && x.b64 == b;
            assert x in without;
          }
          if b == o.b64 { assert o in [o] + tail; }
          if b in Codes(tail) { var y :| y in tail && y.b64 == b; assert y in [o] + tail; }
        }
      }
    }
  }

  lemma {:induction false} EmittedAllConcat(images: seq<Offer>, a: seq<Offer>, b: seq<Offer>)
    ensures EmittedAll(images, a + b) == EmittedAll(EmittedAll(images, a), b)
    decreases |a|
  {
    if a == [] {
      assert a + b == b;
    } else {
      assert (a + b)[1..] == a[1..] + b;
      EmittedAllConcat(Emitted(images, a[0]), a[1..], b);
    }
  }

  /** Nothing after an error event is looked at. */
  lemma {:induction false} ErrorsStick(done: seq<string>, rest: seq<string>, decode: string -> Payload)
    requires Gather(done, decode).error.Some?
    ensures Gather(done + rest, decode) == Gather(done, decode)
    decreases |rest|
  {
    if rest == [] {
      assert done + rest == done;
    } else {
      assert (done + rest)[..|done + rest| - 1] == done + rest[..|rest| - 1];
      ErrorsStick(done, rest[..|rest| - 1], decode);
    }
  }

  lemma {:induction false} GatherMore(done: seq<string>, frame: string, decode: string -> Payload)
    ensures Gather(done + [frame], decode) == Absorb(Gather(done, decode), Decoded(frame, decode))
  {
    assert (done + [frame])[..|done|] == done;
  }

  // --------------------------------------------------------------------------------------------
  // The parser

  datatype Result = Images(images: seq<Offer>) | StreamError(message: string) | ReadError | NoImages

  predicate DistinctCodes(images: seq<Offer>)
  {
    forall i, j :: 0 <= i < j < |images| ==> images[i].b64 != images[j].b64
  }

  /** What a stream must give: the final images, or else the latest partial image of each item, in any order. */
  ghost predicate Answers(r: Result, lines: seq<string>, unreadable: bool, decode: string -> Payload) {
    var frames := Frames(lines, []);
    var complete := Gather(frames[..|frames| - 1], decode);
    var all := Gather(frames, decode);
    if complete.error.Some? then r == StreamError(complete.error.value)
    else if unreadable then r == ReadError
    else if all.error.Some? then r == StreamError(all.error.value)
    else if FirstOccurrences(all.offers) != [] then r == Images(FirstOccurrences(all.offers))
    else if Latest(all.partials) == {} then r == NoImages
    else r.Images? && DistinctCodes(r.images) && Codes(r.images) == Latest(all.partials)
         && forall o :: o in r.images ==> o.format == "png"
  }

  /** The latest partial images of some items; those that are blank do not count. */
  function LatestOf(partials: map<string, string>, items: set<string>): set<string> {
    set item | item in items && item in partials && Trim(partials[item]) != "" :: partials[item]
  }

  function Latest(partials: map<string, string>): set<string> { LatestOf(partials, partials.Keys) }

  lemma LatestOfMore(partials: map<string, string>, items: set<string>, item: string)
    requires item in partials
    ensures LatestOf(partials, items + {item})
            == LatestOf(partials, items) + if Trim(partials[item]) != "" then {partials[item]} else {}
  {
    forall b ensures b in LatestOf(partials, items + {item})
                     <==> b in LatestOf(partials, items) + if Trim(partials[item]) != "" then {partials[item]} else {}
    {
      if b in LatestOf(partials, items) {
        var x :| x in items && x in partials && Trim(partials[x]) != "" && partials[x] == b;
        assert x in items + {item};
      }
      if Trim(partials[item]) != "" && b == partials[item] { assert item in items + {item}; }
    }
  }

  lemma {:induction false} ErrorAnswers(lines: seq<string>, unreadable: bool, decode: string -> Payload,
      done: seq<string>, rest: seq<string>)
    requires Frames(lines, []) == done + rest && rest != []
    requires Gather(done, decode).error.Some?
    ensures Answers(StreamError(Gather(done, decode).error.value), lines, unreadable, decode)
  {
    assert (done + rest)[..|done + rest| - 1] == done + rest[..|rest| - 1];
    ErrorsStick(done, rest[..|rest| - 1], decode);
  }

  lemma NextFrame(done: seq<string>, frame: string, rest: seq<string>)
    ensures done + ([frame] + rest) == (done + [frame]) + rest
    ensures (done + [frame])[..|done|] == done
  {
  }

  // --------------------------------------------------------------------------------------------
  // What the answer means for the frames

  /** A frame that is looked at: neither white space nor the end marker. */
  predicate LookedAt(frame: string) { !AllSpace(frame) && Trim(frame) != "[DONE]" }

  predicate Fails(frame: string, decode: string -> Payload) { LookedAt(frame) && decode(Trim(frame)).ErrorEvent? }

  predicate NoneFails(frames: seq<string>, decode: string -> Payload) {
    forall k :: 0 <= k < |frames| ==> !Fails(frames[k], decode)
  }

  predicate FirstToFail(frames: seq<string>, decode: string -> Payload, k: int) {
    0 <= k < |frames| && Fails(frames[k], decode) && forall j :: 0 <= j < k ==> !Fails(frames[j], decode)
  }

  /** The message of an error event, or the default in place of a blank one. */
  function Message(frame: string, decode: string -> Payload): string
    requires Fails(frame, decode)
  {
    var m := decode(Trim(frame)).message;
    if AllSpace(m) then "responses stream returned an error" else m
  }

  /** The finished images one frame carries, and those of all frames, one after the other. */
  function FinishedIn(frame: string, decode: string -> Payload): seq<Offer> {
    if LookedAt(frame) && decode(Trim(frame)).Done? then decode(Trim(frame)).offers else []
  }

  function AllFinished(frames: seq<string>, decode: string -> Payload): seq<Offer>
    decreases |frames|
  {
    if frames == [] then [] else FinishedIn(frames[0], decode) + AllFinished(frames[1..], decode)
  }

  /** The partial image one frame carries for an item, if any. */
  function PartialIn(frame: string, decode: string -> Payload, item: string): string {
    if LookedAt(frame) && decode(Trim(frame)).Partial? && decode(Trim(frame)).item == item
    then decode(Trim(frame)).b64 else ""
  }

  /** Frame `k` carries the last partial image of an item. */
  predicate LastPartial(frames: seq<string>, decode: string -> Payload, item: string, b64: string, k: int) {
    && 0 <= k < |frames| && item != "" && b64 != "" && PartialIn(frames[k], decode, item) == b64
    && forall j :: k < j < |frames| ==> PartialIn(frames[j], decode, item) == ""
  }

  lemma {:induction false} AllFinishedConcat(a: seq<string>, b: seq<string>, decode: string -> Payload)
    ensures AllFinished(a + b, decode) == AllFinished(a, decode) + AllFinished(b, decode)
    decreases |a|
  {
    if a == [] {
      assert a + b == b;
    } else {
      assert (a + b)[1..] == a[1..] + b;
      AllFinishedConcat(a[1..], b, decode);
    }
  }

  lemma {:induction false} GatherFinished(frames: seq<string>, decode: string -> Payload)
    requires NoneFails(frames, decode)
    ensures Gather(frames, decode).error.None? && Gather(frames, decode).offers == AllFinished(frames, decode)
    decreases |frames|
  {
    if frames != [] {
      var init, last := frames[..|frames| - 1], frames[|frames| - 1];
      GatherFinished(init, decode);
      BlankIff(last);
      assert frames == init + [last];
      AllFinishedConcat(init, [last], decode);
      assert AllFinished([last], decode) == FinishedIn(last, decode) by { assert [last][1..] == []; }
    }
  }

  lemma {:induction false} GatherFirstError(frames: seq<string>, decode: string -> Payload, k: nat)
    requires FirstToFail(frames, decode, k)
    ensures Gather(frames, decode).error == Some(Message(frames[k], decode))
    decreases |frames|
  {
    var n := |frames| - 1;
    if k < n {
      GatherFirstError(frames[..n], decode, k);
    } else {
      GatherFinished(frames[..n], decode);
      BlankIff(frames[n]);
      BlankIff(decode(Trim(frames[n])).message);
    }
  }

  lemma AbsorbPartial(g: Gathered, frame: string, decode: string -> Payload, item: string)
    requires g.error.None?
    ensures var b64 := if item == "" then "" else PartialIn(frame, decode, item);
            var after := Absorb(g, Decoded(frame, decode)).partials;
            && (item in after <==> item in g.partials || b64 != "")
            && (item in after ==> after[item] == if b64 != "" then b64 else g.partials[item])
  {
    BlankIff(frame);
  }

  /** Of each item the last partial image is kept. */
  lemma {:induction false} GatherPartials(frames: seq<string>, decode: string -> Payload, item: string)
    requires NoneFails(frames, decode)
    ensures var partials := Gather(frames, decode).partials;
            && (item in partials ==> exists k :: LastPartial(frames, decode, item, partials[item], k))
            && (item !in partials ==> item == "" || forall k :: 0 <= k < |frames| ==>
                  PartialIn(frames[k], decode, item) == "")
    decreases |frames|
  {
    if frames != [] {
      var n := |frames| - 1;
      var before, after := Gather(frames[..n], decode).partials, Gather(frames, decode).partials;
      GatherPartials(frames[..n], decode, item);
      GatherFinished(frames[..n], decode);
      AbsorbPartial(Gather(frames[..n], decode), frames[n], decode, item);
      PartialsMore(frames, decode, item, before, after);
    }
  }

  lemma PartialsMore(frames: seq<string>, decode: string -> Payload, item: string, before: map<string, string>,
      after: map<string, string>)
    requires frames != []
    requires var n := |frames| - 1;
             var b64 := if item == "" then "" else PartialIn(frames[n], decode, item);
             && (item in before ==> exists k :: LastPartial(frames[..n], decode, item, before[item], k))
             && (item !in before ==> item == "" || forall k :: 0 <= k < n ==>
                   PartialIn(frames[..n][k], decode, item) == "")
             && (item in after <==> item in before || b64 != "")
             && (item in after ==> after[item] == if b64 != "" then b64 else before[item])
    ensures item in after ==> exists k :: LastPartial(frames, decode, item, after[item], k)
    ensures item !in after ==> item == "" || forall k :: 0 <= k < |frames| ==>
              PartialIn(frames[k], decode, item) == ""
  {
    var n := |frames| - 1;
    assert forall k :: 0 <= k < n ==> frames[..n][k] == frames[k];
    if item != "" && PartialIn(frames[n], decode, item) != "" {
      assert LastPartial(frames, decode, item, after[item], n);
    } else if item in before {
      var k :| LastPartial(frames[..n], decode, item, before[item], k);
      assert LastPartial(frames, decode, item, after[item], k);
    }
  }

  lemma {:induction false} LastPartialIsKept(frames: seq<string>, decode: string -> Payload, item: string, b64: string,
      k: int)
    requires NoneFails(frames, decode) && LastPartial(frames, decode, item, b64, k)
    ensures var partials := Gather(frames, decode).partials; item in partials && partials[item] == b64
  {
    GatherPartials(frames, decode, item);
    var partials := Gather(frames, decode).partials;
    assert PartialIn(frames[k], decode, item) != "";
    var j :| LastPartial(frames, decode, item, partials[item], j);
    assert j == k;
  }

  /** The first time an image is offered that is not blank. */
  predicate IsFirst(offers: seq<Offer>, k: int) {
    && 0 <= k < |offers| && !AllSpace(offers[k].b64)
    && forall j :: 0 <= j < k ==> offers[j].b64 != offers[k].b64
  }

  /** `images` are the offers at exactly those positions, in order. */
  ghost predicate PickedAt(images: seq<Offer>, offers: seq<Offer>, at: seq<nat>) {
    && |at| == |images|
    && (forall i, j :: 0 <= i < j < |at| ==> at[i] < at[j])
    && (forall i :: 0 <= i < |at| ==> at[i] < |offers| && images[i] == offers[at[i]])
    && (forall k :: k in at <==> IsFirst(offers, k))
  }

  lemma {:induction false} FirstOccurrencesMore(offers: seq<Offer>, o: Offer)
    ensures FirstOccurrences(offers + [o])
            == FirstOccurrences(offers) + if AllSpace(o.b64) || o.b64 in Codes(offers) then [] else [o]
  {
    EmittedFromNone(offers + [o]);
    EmittedFromNone(offers);
    EmittedAllConcat([], offers, [o]);
    FirstOccurrencesAreAll(offers);
    BlankIff(o.b64);
    var images := FirstOccurrences(offers);
    assert EmittedAll(images, [o]) == Emitted(images, o) by { assert [o][1..] == []; }
  }

  /** The first occurrences are the offers made for the first time, in the order of the stream. */
  lemma FirstOccurrencesAt(offers: seq<Offer>) returns (at: seq<nat>)
    ensures PickedAt(FirstOccurrences(offers), offers, at)
    decreases |offers|
  {
    if offers == [] {
      at := [];
    } else {
      var n := |offers| - 1;
      var init, o := offers[..n], offers[n];
      assert offers == init + [o];
      FirstOccurrencesMore(init, o);
      var before := FirstOccurrencesAt(init);
      var first := !AllSpace(o.b64) && o.b64 !in Codes(init);
      FirstIffNew(init, o);
      PickedMore(FirstOccurrences(init), init, before, o, first);
      at := before + if first then [n] else [];
    }
  }

  lemma PickedMore(images: seq<Offer>, offers: seq<Offer>, at: seq<nat>, o: Offer, first: bool)
    requires PickedAt(images, offers, at) && (first <==> IsFirst(offers + [o], |offers|))
    ensures PickedAt(images + (if first then [o] else []), offers + [o], at + if first then [|offers|] else [])
  {
    var n, later := |offers|, at + if first then [|offers|] else [];
    assert forall i :: 0 <= i < |at| ==> at[i] in at;
    forall k ensures k in later <==> IsFirst(offers + [o], k) {
      assert k in later <==> k in at || (first && k == n);
      if 0 <= k < n { FirstOfMore(offers, o, k); }
    }
  }

  lemma FirstOfMore(offers: seq<Offer>, o: Offer, k: nat)
    requires k < |offers|
    ensures IsFirst(offers + [o], k) <==> IsFirst(offers, k)
  {
    assert forall j :: 0 <= j <= k ==> (offers + [o])[j] == offers[j];
  }

  lemma FirstIffNew(offers: seq<Offer>, o: Offer)
    ensures IsFirst(offers + [o], |offers|) <==> !AllSpace(o.b64) && o.b64 !in Codes(offers)
  {
    var all := offers + [o];
    assert all[|offers|] == o && forall j :: 0 <= j < |offers| ==> all[j] == offers[j];
    if o.b64 in Codes(offers) {
      var x :| x in offers && x.b64 == o.b64;
      var j :| 0 <= j < |offers| && offers[j] == x;
      assert all[j].b64 == o.b64;
    }
    forall j | 0 <= j < |offers| ensures offers[j].b64 in Codes(offers) {}
  }

  /** Some frame offers an image that is not blank. */
  predicate AnyOffered(offers: seq<Offer>) { exists k :: 0 <= k < |offers| && !AllSpace(offers[k].b64) }

  /** An image that is the last partial of some item. */
  ghost predicate IsLastPartial(frames: seq<string>, decode: string -> Payload, b64: string) {
    !AllSpace(b64) && exists item, k :: LastPartial(frames, decode, item, b64, k)
  }

  /**
   The answer for frames without an error event: if any frame finishes an image, all images that frames
   finish, each where it is offered first; otherwise the last partial image of each item, none twice.
   */
  ghost predicate Reports(r: Result, frames: seq<string>, decode: string -> Payload) {
    var offers := AllFinished(frames, decode);
    if AnyOffered(offers) then r.Images? && exists at :: PickedAt(r.images, offers, at)
    else if exists b64 :: IsLastPartial(frames, decode, b64) then
      && r.Images? && DistinctCodes(r.images) && (forall o :: o in r.images ==> o.format == "png")
      && forall b64 :: b64 in Codes(r.images) <==> IsLastPartial(frames, decode, b64)
    else r == NoImages
  }

  /** The result, told from the frames: an error event, a read error, or the images. */
  ghost predicate Reads(r: Result, lines: seq<string>, unreadable: bool, decode: string -> Payload) {
    var frames := Frames(lines, []);
    var last := |frames| - 1;
    && (forall k :: FirstToFail(frames, decode, k) && (k < last || !unreadable) ==>
          r == StreamError(Message(frames[k], decode)))
    && (unreadable && NoneFails(frames[..last], decode) ==> r == ReadError)
    && (!unreadable && NoneFails(frames, decode) ==> Reports(r, frames, decode))
  }

  lemma AnswersReads(r: Result, lines: seq<string>, unreadable: bool, decode: string -> Payload)
    requires Answers(r, lines, unreadable, decode)
    ensures Reads(r, lines, unreadable, decode)
  {
    var frames := Frames(lines, []);
    var init := frames[..|frames| - 1];
    forall k | FirstToFail(frames, decode, k) && (k < |frames| - 1 || !unreadable)
      ensures r == StreamError(Message(frames[k], decode))
    {
      GatherFirstError(frames, decode, k);
      if k < |frames| - 1 { GatherFirstError(init, decode, k); } else { GatherFinished(init, decode); }
    }
    if NoneFails(init, decode) { GatherFinished(init, decode); }
    if !unreadable && NoneFails(frames, decode) {
      assert NoneFails(init, decode);
      AnswersReport(r, lines, decode, frames);
    }
  }

  lemma {:induction false} AnswersReport(r: Result, lines: seq<string>, decode: string -> Payload, frames: seq<string>)
    requires Answers(r, lines, false, decode) && frames == Frames(lines, [])
    requires NoneFails(frames, decode) && NoneFails(frames[..|frames| - 1], decode)
    ensures Reports(r, frames, decode)
  {
    GatherFinished(frames, decode);
    GatherFinished(frames[..|frames| - 1], decode);
    var offers, partials := AllFinished(frames, decode), Gather(frames, decode).partials;
    var at := FirstOccurrencesAt(offers);
    AnyIsFirst(offers, at);
    forall b64 ensures b64 in Latest(partials) <==> IsLastPartial(frames, decode, b64) {
      LatestAreLast(frames, decode, b64);
    }
    assert Latest(partials) == {} <==> !exists b64 :: IsLastPartial(frames, decode, b64);
  }

  lemma {:induction false} AnyIsFirst(offers: seq<Offer>, at: seq<nat>)
    requires PickedAt(FirstOccurrences(offers), offers, at)
    ensures AnyOffered(offers) <==> FirstOccurrences(offers) != []
  {
    FirstOccurrencesAreAll(offers);
    if at != [] { assert at[0] in at && IsFirst(offers, at[0]); }
    if AnyOffered(offers) {
      var k :| 0 <= k < |offers| && !AllSpace(offers[k].b64);
      BlankIff(offers[k].b64);
      assert offers[k].b64 in Codes(offers);
    }
  }

  lemma {:induction false} LatestAreLast(frames: seq<string>, decode: string -> Payload, b64: string)
    requires NoneFails(frames, decode)
    ensures b64 in Latest(Gather(frames, decode).partials) <==> IsLastPartial(frames, decode, b64)
  {
    var partials := Gather(frames, decode).partials;
    BlankIff(b64);
    if b64 in Latest(partials) {
      var item :| item in partials && Trim(partials[item]) != "" && partials[item] == b64;
      GatherPartials(frames, decode, item);
    }
    if IsLastPartial(frames, decode, b64) {
      var item, k :| LastPartial(frames, decode, item, b64, k);
      LastPartialIsKept(frames, decode, item, b64, k);
    }
  }

  class Parser {
    const decode: string -> Payload
    var finals: seq<Offer>
    var seen: set<string>
    var partials: map<string, string>

    constructor (decode: string -> Payload)
      ensures this.decode == decode && finals == [] && seen == {} && partials == map[]
    {
      this.decode := decode;
      finals, seen, partials := [], {}, map[];
    }

    predicate Valid()
      reads this
    {
      seen == Codes(finals)
    }

    /** `emitImage`. */
    method Emit(o: Offer)
      requires Valid()
      modifies `finals, `seen
      ensures Valid() && finals == Emitted(old(finals), o)
    {
      if Trim(o.b64) == "" { return; }
      if o.b64 in seen { return; }
      CodesOfMore(finals, o);
      seen := seen + {o.b64};
      finals := finals + [o];
    }

    method EmitAll(offers: seq<Offer>)
      requires Valid()
      modifies `finals, `seen
      ensures Valid() && finals == EmittedAll(old(finals), offers)
    {
      for k := 0 to |offers|
        invariant Valid() && EmittedAll(finals, offers[k..]) == EmittedAll(old(finals), offers)
      {
        assert offers[k..][1..] == offers[k + 1..];
        Emit(offers[k]);
      }
    }

    /** The parser holds what the frames so far say. */
    ghost predicate Holds(g: Gathered)
      reads this
    {
      Valid() && finals == EmittedAll([], g.offers) && partials == g.partials
    }

    /** `processFrame`. */
    method ProcessFrame(frame: string, ghost g: Gathered) returns (error: Option<string>)
      requires Holds(g) && g.error.None?
      modifies `finals, `seen, `partials
      ensures Holds(Absorb(g, Decoded(frame, decode))) && error == Absorb(g, Decoded(frame, decode)).error
    {
      if Blank(frame) { return None; }
      match decode(Trim(frame))
      case ErrorEvent(m) =>
        return Some(if Trim(m) != "" then m else DEFAULT_ERROR);
      case Partial(item, b64) =>
        if item != "" && b64 != "" { partials := partials[item := b64]; }
        return None;
      case Done(offers) =>
        EmittedAllConcat([], g.offers, offers);
        EmitAll(offers);
        return None;
      case Ignored =>
        return None;
    }

    /** The fall-back: one image per item, in whatever order the map is ranged over. */
    method EmitPartials()
      requires Valid() && finals == []
      modifies `finals, `seen
      ensures Valid() && DistinctCodes(finals) && Codes(finals) == Latest(partials)
      ensures forall o :: o in finals ==> o.format == "png"
    {
      var todo := partials.Keys;
      ghost var tried: set<string> := {};
      assert Codes(finals) == {} && LatestOf(partials, {}) == {};
      while todo != {}
        invariant Valid() && todo + tried == partials.Keys && DistinctCodes(finals)
        invariant forall o :: o in finals ==> o.format == "png"
        invariant Codes(finals) == LatestOf(partials, tried)
        decreases todo
      {
        var item :| item in todo;
        ghost var before := finals;
        assert forall o :: o in before ==> o.b64 in Codes(before);
        CodesOfMore(before, Offer(partials[item], "png"));
        LatestOfMore(partials, tried, item);
        Emit(Offer(partials[item], "png"));
        todo, tried := todo - {item}, tried + {item};
      }
      assert tried == partials.Keys;
    }

    /** The end of the stream: the frame still open, then the fall-back. */
    method Finish(lines: seq<string>, open: seq<string>, ghost done: seq<string>) returns (r: Result)
      requires Frames(lines, []) == done + [Join(open)]
      requires Holds(Gather(done, decode)) && Gather(done, decode).error.None?
      modifies `finals, `seen, `partials
      ensures Answers(r, lines, false, decode)
    {
      ghost var g := Gather(done, decode);
      ghost var all := Absorb(g, Decoded(Join(open), decode));
      GatherMore(done, Join(open), decode);
      assert (done + [Join(open)])[..|done|] == done;
      var error := ProcessFrame(Join(open), g);
      if error.Some? { return StreamError(error.value); }
      EmittedFromNone(all.offers);
      if finals == [] { EmitPartials(); }
      if finals == [] { return NoImages; }
      assert finals[0].b64 in Codes(finals);
      return Images(finals);
    }

    /** `parseResponsesSSE`, from the lines the scanner gave; `unreadable` says that the scanner then failed. */
    method Parse(lines: seq<string>, unreadable: bool) returns (r: Result)
      requires finals == [] && seen == {} && partials == map[]
      modifies `finals, `seen, `partials
      ensures Answers(r, lines, unreadable, decode) && Reads(r, lines, unreadable, decode)
    {
      var open: seq<string> := [];
      ghost var done: seq<string> := [];
      assert Codes([]) == {};
      for i := 0 to |lines|
        invariant Frames(lines, []) == done + Frames(lines[i..], open)
        invariant Holds(Gather(done, decode)) && Gather(done, decode).error.None?
      {
        var line := lines[i];
        assert lines[i..][0] == line && lines[i..][1..] == lines[i + 1..];
        if line == "" {
          ghost var rest := Frames(lines[i + 1..], []);
          NextFrame(done, Join(open), rest);
          GatherMore(done, Join(open), decode);
          var error := ProcessFrame(Join(open), Gather(done, decode));
          done := done + [Join(open)];
          if error.Some? {
            ErrorAnswers(lines, unreadable, decode, done, rest);
            AnswersReads(StreamError(error.value), lines, unreadable, decode);
            return StreamError(error.value);
          }
          open := [];
        } else if IsData(line) {
          open := open + [DataOf(line)];
        }
      }
      NextFrame(done, Join(open), []);
      if unreadable {
        AnswersReads(ReadError, lines, true, decode);
        return ReadError;
      }
      r := Finish(lines, open, done);
      AnswersReads(r, lines, false, decode);
    }
  }
}
