/** When the way a stream ends does not depend on how its bytes were cut into chunks. */
module SseEnd {
  import opened Common
  import opened SseFrames
  import opened SseLaws

  ghost predicate AllChunks(items: seq<Item>) {
    forall i | 0 <= i < |items| :: items[i].Chunk?
  }

  /** The outcome of `Yield` on its own. */
  function Finish(s: string, at: nat, items: seq<Item>): Outcome
    requires at <= |s|
    decreases |items|, |s| - at
  {
    var found := FrameEnd(s, at);
    if found.Some? then Finish(s, found.value.0 + found.value.1, items)
    else if items == [] then if at == |s| then Ended else Partial
    else if items[0].Failure? then Broken
    else Finish(s + items[0].bytes, at, items[1..])
  }

  lemma {:induction false} FinishIsOutcome(s: string, at: nat, items: seq<Item>)
    requires at <= |s|
    ensures Finish(s, at, items) == Yield(s, at, items).outcome
    decreases |items|, |s| - at
  {
    var found := FrameEnd(s, at);
    if found.Some? {
      FinishIsOutcome(s, found.value.0 + found.value.1, items);
    } else if items != [] && items[0].Chunk? {
      FinishIsOutcome(s + items[0].bytes, at, items[1..]);
    }
  }

  /** How a stream received in one piece ends, from `at` on. */
  function EndOf(w: string, at: nat): Outcome
    requires at <= |w|
  {
    Finish(w, at, [])
  }

  /** The first byte at or after `at` that is not part of a line ending, or the end. */
  function FirstText(w: string, at: nat): (x: nat)
    requires at <= |w|
    ensures at <= x <= |w|
    ensures x < |w| ==> !IsEol(w[x])
    ensures forall j | at <= j < x :: IsEol(w[j])
    decreases |w| - at
  {
    if at == |w| || !IsEol(w[at]) then at else FirstText(w, at + 1)
  }

  /** No blank line that ends in CRLF closes a frame with only line endings after it. */
  ghost predicate Steady(w: string, at: nat)
    requires at <= |w|
    decreases |w| - at
  {
    var found := FrameEnd(w, at);
    found.Some? ==>
      var (e, n) := found.value;
      FrameStartsHere(w, at, e, n);
      && (n - LineEndingLen(w, e).value == 2 ==> FirstText(w, e + n) < |w|)
      && Steady(w, e + n)
  }

  /** Two adjacent line endings are a frame end. */
  lemma BlankFrame(w: string, at: nat)
    requires at < |w| && IsEol(w[at])
    ensures var next := at + LineEndingLen(w, at).value;
      FrameEnd(w, at) == if next < |w| && IsEol(w[next])
        then Some((at, LineEndingLen(w, at).value + LineEndingLen(w, next).value))
        else FrameEnd(w, next)
  {
    var next := at + LineEndingLen(w, at).value;
    if !(next < |w| && IsEol(w[next])) {
      if LineEndingLen(w, at).value == 2 {
        assert LineEndingLen(w, at + 1) == Some(1);
        assert FrameEnd(w, at) == FrameEnd(w, at + 1) == FrameEnd(w, at + 2);
      }
    }
  }

  /** Line endings before text do not change how the stream ends. */
  lemma {:induction false} SkipEndings(w: string, at: nat)
    requires at <= |w| && FirstText(w, at) < |w|
    ensures EndOf(w, at) == EndOf(w, FirstText(w, at))
    ensures Steady(w, at) <==> Steady(w, FirstText(w, at))
    decreases |w| - at
  {
    if at < FirstText(w, at) {
      var later := SkipSome(w, at);
      SkipEndings(w, later);
    }
  }

  lemma SkipSome(w: string, at: nat) returns (later: nat)
    requires at <= |w| && at < FirstText(w, at) < |w|
    ensures at < later <= |w| && FirstText(w, later) == FirstText(w, at)
    ensures EndOf(w, at) == EndOf(w, later) && (Steady(w, at) <==> Steady(w, later))
  {
    var next := at + LineEndingLen(w, at).value;
    EndingBeforeText(w, at, next);
    if IsEol(w[next]) {
      later := next + LineEndingLen(w, next).value;
      SkipPair(w, at, next, later);
    } else {
      later := next;
      SkipOne(w, at, next);
    }
  }

  lemma SkipOne(w: string, at: nat, next: nat)
    requires at < |w| && IsEol(w[at]) && next == at + LineEndingLen(w, at).value < |w| && !IsEol(w[next])
    ensures FirstText(w, at) == next
    ensures EndOf(w, at) == EndOf(w, next) && (Steady(w, at) <==> Steady(w, next))
  {
    BlankFrame(w, at);
    TextStays(w, at, next);
  }

  lemma EndingBeforeText(w: string, at: nat, next: nat)
    requires at <= |w| && FirstText(w, at) < |w| && at < FirstText(w, at)
    requires next == at + LineEndingLen(w, at).value
    ensures next < |w|
  {
  }

  lemma SkipPair(w: string, at: nat, next: nat, after: nat)
    requires at < |w| && IsEol(w[at]) && next == at + LineEndingLen(w, at).value < |w| && IsEol(w[next])
    requires after == next + LineEndingLen(w, next).value && FirstText(w, at) < |w|
    ensures FirstText(w, after) == FirstText(w, at)
    ensures EndOf(w, at) == EndOf(w, after) && (Steady(w, at) <==> Steady(w, after))
  {
    BlankFrame(w, at);
    FinishFrame(w, at, [], at, after - at);
    TextStays(w, at, after);
  }

  lemma TextStays(w: string, at: nat, later: nat)
    requires at <= later <= |w| && forall j | at <= j < later :: IsEol(w[j])
    ensures FirstText(w, later) == FirstText(w, at)
  {
  }

  /** With more bytes the first frame end stays where it is, except that a delimiter that ended with
      the buffer may take in a line feed. */
  lemma FrameEndAppend(s: string, t: string, at: nat, e: nat, n: nat)
    requires FrameEnd(s, at) == Some((e, n))
    ensures var w := s + t;
      || FrameEnd(w, at) == Some((e, n))
      || (e + n == |s| && t != "" && t[0] == '\n' && FrameEnd(w, at) == Some((e, n + 1))
          && LineEndingLen(s, e).Some? && n - LineEndingLen(s, e).value == 1
          && LineEndingLen(w, e) == LineEndingLen(s, e))
    decreases |s| - at
  {
    if LineEndingLen(s, at).Some? {
      var first := LineEndingLen(s, at).value;
      if at < e {
        FrameEndAppend(s, t, at + 1, e, n);
        FrameStartsHere(s, at + 1, e, n);
        assert at + first <= e;
        assert LineEndingLen(s + t, at) == LineEndingLen(s, at);
        assert at + first < |s|;
        assert !IsEol(s[at + first]);
      }
    } else {
      FrameEndAppend(s, t, at + 1, e, n);
    }
  }

  lemma FinishFrame(s: string, at: nat, items: seq<Item>, e: nat, n: nat)
    requires at <= |s| && FrameEnd(s, at) == Some((e, n))
    ensures Finish(s, at, items) == Finish(s, e + n, items)
  {
  }

  lemma SteadyFrame(w: string, at: nat, e: nat, n: nat)
    requires at <= |w| && FrameEnd(w, at) == Some((e, n)) && Steady(w, at)
    ensures Steady(w, e + n)
    ensures LineEndingLen(w, e).Some?
    ensures n - LineEndingLen(w, e).value == 2 ==> FirstText(w, e + n) < |w|
  {
    FrameStartsHere(w, at, e, n);
  }

  lemma SameEnd(w: string, p: nat, q: nat)
    requires p <= q <= |w| && FirstText(w, q) < |w| && forall j | p <= j < q :: IsEol(w[j])
    ensures EndOf(w, p) == EndOf(w, q) && (Steady(w, p) <==> Steady(w, q))
  {
    TextStays(w, p, q);
    SkipEndings(w, p);
    SkipEndings(w, q);
  }

  /** A CRLF that closes a frame of a steady stream may be split: text follows. */
  lemma SplitDelimiter(w: string, at: nat, e: nat, n: nat, cut: nat)
    requires at <= |w| && FrameEnd(w, at) == Some((e, n)) && Steady(w, at)
    requires LineEndingLen(w, e).Some? && n - LineEndingLen(w, e).value == 2
    requires cut == e + n - 1 && IsEol(w[cut])
    ensures Steady(w, cut) && EndOf(w, at) == EndOf(w, cut)
  {
    SteadyFrame(w, at, e, n);
    FinishFrame(w, at, [], e, n);
    SameEnd(w, cut, e + n);
  }

  /** A frame taken from the buffer, and the same frame in the whole stream. */
  lemma FrameTaken(w: string, s: string, t: string, at: nat, e: nat, n: nat)
    requires at <= |s| && w == s + t && FrameEnd(s, at) == Some((e, n)) && Steady(w, at)
    ensures Steady(w, e + n) && EndOf(w, at) == EndOf(w, e + n)
  {
    FrameEndAppend(s, t, at, e, n);
    if FrameEnd(w, at) == Some((e, n)) {
      SteadyFrame(w, at, e, n);
      FinishFrame(w, at, [], e, n);
    } else {
      assert w[e + n] == '\n';
      SplitDelimiter(w, at, e, n + 1, e + n);
    }
  }

  /** Of a steady stream, every way of cutting it ends like the stream in one piece. */
  lemma {:induction false} SteadyEnds(w: string, s: string, at: nat, items: seq<Item>)
    requires at <= |s| && AllChunks(items) && w == s + Received(items) && Steady(w, at)
    ensures Finish(s, at, items) == EndOf(w, at)
    decreases |items|, |s| - at
  {
    var found := FrameEnd(s, at);
    if found.Some? {
      var (e, n) := found.value;
      FrameTaken(w, s, Received(items), at, e, n);
      SteadyEnds(w, s, e + n, items);
    } else if items == [] {
      assert w == s;
    } else {
      SteadyEnds(w, s + items[0].bytes, at, items[1..]);
    }
  }

  // ------------------------------------------------ streams that are not steady

  /** How many line endings the rest of the stream consists of. */
  function Endings(w: string, at: nat): nat
    requires at <= |w|
    decreases |w| - at
  {
    match LineEndingLen(w, at) case None => 0 case Some(n) => 1 + Endings(w, at + n)
  }

  /** A stream that ends in line endings only ends cleanly exactly when they pair up. */
  lemma {:induction false} EndingsPairUp(w: string, at: nat)
    requires at <= |w| && FirstText(w, at) == |w|
    ensures EndOf(w, at) == if Endings(w, at) % 2 == 0 then Ended else Partial
    decreases |w| - at
  {
    if at < |w| {
      BlankFrame(w, at);
      var next := at + LineEndingLen(w, at).value;
      if next < |w| {
        var after := next + LineEndingLen(w, next).value;
        TextStays(w, at, after);
        EndingsPairUp(w, after);
        assert Endings(w, at) == 2 + Endings(w, after);
      } else {
        assert FrameEnd(w, next) == None;
        assert Endings(w, at) == 1;
      }
    }
  }

  lemma LineFeedFlipsEnd(w: string, p: nat)
    requires p < |w| && w[p] == '\n' && FirstText(w, p) == |w|
    ensures EndOf(w, p) != EndOf(w, p + 1)
  {
    TextStays(w, p, p + 1);
    EndingsPairUp(w, p);
    EndingsPairUp(w, p + 1);
  }

  lemma NextPiece(w: string, cut: nat)
    requires cut <= |w|
    ensures Finish(w[..cut], cut, [Chunk(w[cut..])]) == EndOf(w, cut)
  {
    assert w[..cut] + w[cut..] == w;
    assert [Chunk(w[cut..])][1..] == [];
    assert FrameEnd(w[..cut], cut) == None;
  }

  /** Cutting inside the CRLF that closes the last frame changes how the stream ends. */
  lemma CutLastFrame(w: string, at: nat, e: nat, n: nat)
    requires at <= |w| && FrameEnd(w, at) == Some((e, n)) && LineEndingLen(w, e).Some?
    requires n - LineEndingLen(w, e).value == 2 && FirstText(w, e + n) == |w|
    ensures Finish(w[..e + n - 1], at, [Chunk(w[e + n - 1..])]) != EndOf(w, at)
  {
    var cut := e + n - 1;
    LastFrameCut(w, at, e, n, cut);
    PieceEnds(w, w[..cut], at, e, n - 1, cut);
    LastFeed(w, at, e, n, cut);
  }

  lemma LastFeed(w: string, at: nat, e: nat, n: nat, cut: nat)
    requires at <= |w| && FrameEnd(w, at) == Some((e, n)) && e <= cut == e + n - 1
    requires w[cut] == '\n' && FirstText(w, e + n) == |w|
    ensures EndOf(w, cut) != EndOf(w, at)
  {
    TextStays(w, cut, cut + 1);
    LineFeedFlipsEnd(w, cut);
    FinishFrame(w, at, [], e, n);
  }

  /** A first piece that a frame fills leaves the rest to the second. */
  lemma PieceEnds(w: string, piece: string, at: nat, e: nat, n: nat, cut: nat)
    requires cut <= |w| && piece == w[..cut] && at <= |piece| && FrameEnd(piece, at) == Some((e, n))
    requires e + n == cut
    ensures Finish(piece, at, [Chunk(w[cut..])]) == EndOf(w, cut)
  {
    NextPiece(w, cut);
    FinishFrame(piece, at, [Chunk(w[cut..])], e, n);
  }

  lemma LastFrameCut(w: string, at: nat, e: nat, n: nat, cut: nat)
    requires at <= |w| && FrameEnd(w, at) == Some((e, n)) && LineEndingLen(w, e).Some?
    requires n - LineEndingLen(w, e).value == 2 && cut == e + n - 1
    ensures at <= e < cut < e + n <= |w| && w[cut] == '\n' && FrameEnd(w[..cut], at) == Some((e, n - 1))
  {
    FrameStartsHere(w, at, e, n);
    FrameEndCut(w, cut, at, e, n);
  }

  lemma CutBefore(w: string, cut: nat, at: nat, e: nat, n: nat)
    requires at <= |w| && FrameEnd(w, at) == Some((e, n)) && e + n < cut <= |w|
    requires Finish(w[..cut], e + n, [Chunk(w[cut..])]) != EndOf(w, e + n)
    ensures Finish(w[..cut], at, [Chunk(w[cut..])]) != EndOf(w, at)
  {
    FrameEndCut(w, cut, at, e, n);
    FinishFrame(w[..cut], at, [Chunk(w[cut..])], e, n);
    FinishFrame(w, at, [], e, n);
  }

  lemma UnsteadyFrame(w: string, at: nat) returns (e: nat, n: nat)
    requires at <= |w| && !Steady(w, at)
    ensures FrameEnd(w, at) == Some((e, n)) && LineEndingLen(w, e).Some?
    ensures !Steady(w, e + n) || (n - LineEndingLen(w, e).value == 2 && FirstText(w, e + n) == |w|)
  {
    e, n := FrameEnd(w, at).value.0, FrameEnd(w, at).value.1;
    FrameStartsHere(w, at, e, n);
  }

  lemma {:induction false} CutChangesEnd(w: string, at: nat) returns (cut: nat)
    requires at <= |w| && !Steady(w, at)
    ensures at < cut <= |w|
    ensures Finish(w[..cut], at, [Chunk(w[cut..])]) != EndOf(w, at)
    decreases |w| - at
  {
    var e, n := UnsteadyFrame(w, at);
    if Steady(w, e + n) {
      cut := e + n - 1;
      CutLastFrame(w, at, e, n);
    } else {
      cut := CutChangesEnd(w, e + n);
      CutBefore(w, cut, at, e, n);
    }
  }

  /** The first frame end in a piece that reaches at least to its last byte but one. */
  lemma {:induction false} FrameEndCut(w: string, cut: nat, at: nat, e: nat, n: nat)
    requires at <= cut <= |w| && FrameEnd(w, at) == Some((e, n))
    requires
      || e + n < cut
      || (cut == e + n - 1 && LineEndingLen(w, e).Some? && n - LineEndingLen(w, e).value == 2)
    ensures FrameEnd(w[..cut], at) == Some((e, if e + n < cut then n else n - 1))
    decreases |w| - at
  {
    FrameStartsHere(w, at, e, n);
    if at < e {
      FrameEndCut(w, cut, at + 1, e, n);
      NoFrameCut(w, cut, at, e, n);
    } else {
      FrameEndCutHere(w, cut, e, n);
    }
  }

  lemma FrameEndCutHere(w: string, cut: nat, e: nat, n: nat)
    requires e <= cut <= |w| && FrameEnd(w, e) == Some((e, n)) && LineEndingLen(w, e).Some?
    requires e + n < cut || (cut == e + n - 1 && n - LineEndingLen(w, e).value == 2)
    ensures FrameEnd(w[..cut], e) == Some((e, if e + n < cut then n else n - 1))
  {
    var first := LineEndingLen(w, e).value;
    FrameStartsHere(w, e, e, n);
    LineEndingCut(w, cut, e);
    LineEndingCut(w, cut, e + first);
    SecondEnding(w[..cut], e, first, if e + n < cut then n else n - 1);
  }

  lemma SecondEnding(s: string, e: nat, first: nat, n: nat)
    requires e < |s| && n > first && LineEndingLen(s, e) == Some(first)
    requires LineEndingLen(s, e + first) == Some(n - first)
    ensures FrameEnd(s, e) == Some((e, n))
  {
    FrameEndIs(s, e, first, n - first);
  }

  /** A line ending in a piece that reaches at least to its first byte. */
  lemma LineEndingCut(w: string, cut: nat, i: nat)
    requires i < cut <= |w| && LineEndingLen(w, i).Some?
    ensures var n := LineEndingLen(w, i).value;
      LineEndingLen(w[..cut], i) == Some(if i + n <= cut then n else 1)
  {
  }

  lemma FrameEndIs(s: string, e: nat, first: nat, second: nat)
    requires e < |s| && LineEndingLen(s, e) == Some(first) && LineEndingLen(s, e + first) == Some(second)
    ensures FrameEnd(s, e) == Some((e, first + second))
  {
  }

  lemma NoFrameCut(w: string, cut: nat, at: nat, e: nat, n: nat)
    requires at < e < cut <= |w| && FrameEnd(w, at) == Some((e, n))
    ensures FrameEnd(w[..cut], at) == FrameEnd(w[..cut], at + 1)
  {
    if LineEndingLen(w, at).Some? {
      NoFrameBefore(w, at, at);
      assert LineEndingLen(w[..cut], at) == LineEndingLen(w, at);
    }
  }

  lemma SteadyAgrees(w: string, items: seq<Item>)
    requires Steady(w, 0) && AllChunks(items) && Received(items) == w
    ensures Yield("", 0, items).outcome == Yield(w, 0, []).outcome
  {
    assert "" + w == w;
    SteadyEnds(w, "", 0, items);
    FinishIsOutcome("", 0, items);
    FinishIsOutcome(w, 0, []);
  }

  lemma UnsteadyDiffers(w: string) returns (items: seq<Item>)
    requires !Steady(w, 0)
    ensures AllChunks(items) && Received(items) == w
    ensures Yield("", 0, items).outcome != Yield(w, 0, []).outcome
  {
    var cut := CutChangesEnd(w, 0);
    TwoPieces(w, cut);
    items := [Chunk(w[..cut]), Chunk(w[cut..])];
    FinishIsOutcome("", 0, items);
    FinishIsOutcome(w, 0, []);
  }

  /** The stream ends the same way however it is cut. */
  ghost predicate EndsAlike(w: string) {
    forall items | AllChunks(items) && Received(items) == w ::
      Yield("", 0, items).outcome == Yield(w, 0, []).outcome
  }

  /** Every way of cutting a stream ends like the stream in one piece exactly when it is steady. */
  lemma EndIsSteadyIff(w: string)
    ensures EndsAlike(w) <==> Steady(w, 0)
  {
    if Steady(w, 0) {
      forall items | AllChunks(items) && Received(items) == w
        ensures Yield("", 0, items).outcome == Yield(w, 0, []).outcome
      {
        SteadyAgrees(w, items);
      }
    } else {
      var items := UnsteadyDiffers(w);
    }
  }

  /** For example: one frame closed by two CRLFs ends cleanly in one piece, and not when its last line
      feed comes on its own. */
  lemma LastLineFeedApart()
    ensures Yield("", 0, [Chunk("data\r\n\r\n")]).outcome == Ended
    ensures Yield("", 0, [Chunk("data\r\n\r"), Chunk("\n")]).outcome == Partial
  {
    InOnePiece("data\r\n\r\n");
    WithLastApart("data\r\n\r\n", "data\r\n\r");
  }

  lemma InOnePiece(whole: string)
    requires whole == "data\r\n\r\n"
    ensures Yield("", 0, [Chunk(whole)]).outcome == Ended
  {
    FrameAfterText(whole, 2);
    FinishFrame(whole, 0, [], 4, 4);
    FinishIsOutcome("", 0, [Chunk(whole)]);
    assert "" + whole == whole && [Chunk(whole)][1..] == [];
  }

  lemma WithLastApart(whole: string, most: string)
    requires whole == "data\r\n\r\n" && most == "data\r\n\r"
    ensures Yield("", 0, [Chunk(most), Chunk("\n")]).outcome == Partial
  {
    var rest := [Chunk("\n")];
    FrameAfterText(most, 1);
    FinishFrame(most, 0, rest, 4, 3);
    FinishIsOutcome("", 0, [Chunk(most), Chunk("\n")]);
    assert "" + most == most && [Chunk(most), Chunk("\n")][1..] == rest;
    FeedAlone(whole, most, rest);
  }

  lemma FeedAlone(whole: string, most: string, rest: seq<Item>)
    requires whole == most + "\n" && |most| == 7 && rest == [Chunk("\n")]
    ensures Finish(most, 7, rest) == Partial
  {
    assert rest[1..] == [] && FrameEnd(most, 7) == None;
    assert LineEndingLen(whole, 7) == Some(1) && FrameEnd(whole, 8) == None;
    assert FrameEnd(whole, 7) == None;
  }

  lemma FrameAfterText(s: string, second: nat)
    requires |s| == 6 + second && s[..6] == "data\r\n" && LineEndingLen(s, 6) == Some(second)
    ensures FrameEnd(s, 0) == Some((4, 2 + second))
  {
    assert forall i | 0 <= i < 6 :: s[i] == "data\r\n"[i];
    assert FrameEnd(s, 4) == Some((4, 2 + second));
    assert FrameEnd(s, 2) == FrameEnd(s, 3) == FrameEnd(s, 4);
  }

  lemma TwoPieces(w: string, cut: nat)
    requires cut <= |w|
    ensures var items := [Chunk(w[..cut]), Chunk(w[cut..])];
      && AllChunks(items) && Received(items) == w
      && Finish("", 0, items) == Finish(w[..cut], 0, [Chunk(w[cut..])])
  {
    var items := [Chunk(w[..cut]), Chunk(w[cut..])];
    assert items[1..] == [Chunk(w[cut..])] && items[1..][1..] == [];
    assert Received(items[1..]) == w[cut..] + "" == w[cut..];
    assert "" + w[..cut] == w[..cut];
  }
}
