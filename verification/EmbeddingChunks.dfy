/**
 Embedding of texts that may be longer than the context of the local model: an over-long text is cut
 into chunks that fit, chunks are sent in batches, and the vectors of one text are added up, each
 weighted with the number of tokens it stands for. The tokenizer and the model are oracles.
 */
module EmbeddingChunks {
  import opened Common
  import opened GreedyBatches

  const BATCH_TOKEN_LIMIT := 2048

  datatype Segment = Segment(inputIndex: nat, text: string, contentTokens: nat, requestTokens: nat)

  datatype ChunkError =
    | OracleFailed
    | InvalidContext
    | ContextTooSmall
    | NoContentTokens(input: nat)
    | CannotChunk(input: nat)

  /** The runtime: context size, tokens of a text (with or without special tokens), and text of tokens. */
  datatype Runtime = Runtime(
    context: Option<int>,
    tokenize: (string, bool) -> Option<seq<int>>,
    detokenize: seq<int> -> Option<string>)

  function SequenceLimit(context: int): (limit: int)
    ensures limit <= 2048 && limit <= context && (limit == 2048 || limit == context)
  {
    if context > BATCH_TOKEN_LIMIT then BATCH_TOKEN_LIMIT else context
  }

  /** Special tokens that the tokenizer adds, measured on a probe text. */
  function Overhead(rt: Runtime): Option<nat> {
    var plain, special := rt.tokenize("context", false), rt.tokenize("context", true);
    if plain.None? || special.None? then None else Some(Max(0, |special.value| - |plain.value|))
  }

  /** How many content tokens a request has room for. */
  function MaxContent(limit: int, rt: Runtime): int {
    if Overhead(rt).None? then 0 else limit - Overhead(rt).value
  }

  /** The size of the request for a stretch of tokens, whose text is tokenized anew. */
  function RequestSize(stretch: seq<int>, rt: Runtime): Option<nat> {
    var text := rt.detokenize(stretch);
    if text.None? then None
    else
      var tokens := rt.tokenize(text.value, true);
      if tokens.None? then None else Some(|tokens.value|)
  }

  /** A stretch is too long by a number of tokens, and loses as many at its end. */
  predicate Shrunk(tokens: seq<int>, start: nat, end: int, next: int, limit: int, rt: Runtime) {
    && start < end <= |tokens|
    && var size := RequestSize(tokens[start..end], rt);
       size.Some? && size.value > limit && next == end - (size.value - limit)
  }

  /** The ends that are tried for the stretch from `start` on. */
  ghost predicate Shrinks(ends: seq<int>, tokens: seq<int>, start: nat, limit: int, rt: Runtime) {
    && ends != []
    && ends[0] == (if start + MaxContent(limit, rt) > |tokens| then |tokens| else start + MaxContent(limit, rt))
    && forall k :: 1 <= k < |ends| ==> Shrunk(tokens, start, ends[k - 1], ends[k], limit, rt)
  }

  ghost predicate Tried(tokens: seq<int>, start: nat, end: int, limit: int, rt: Runtime) {
    exists ends :: Shrinks(ends, tokens, start, limit, rt) && ends[|ends| - 1] == end
  }

  /** The first end that is tried and fits. */
  ghost predicate ChunkEnds(tokens: seq<int>, start: nat, end: int, limit: int, rt: Runtime) {
    && start < end <= |tokens| && Tried(tokens, start, end, limit, rt)
    && RequestSize(tokens[start..end], rt).Some? && RequestSize(tokens[start..end], rt).value <= limit
  }

  /** None of the ends that are tried fits. */
  ghost predicate Stuck(tokens: seq<int>, start: nat, limit: int, rt: Runtime) {
    exists end :: end <= start && Tried(tokens, start, end, limit, rt)
  }

  /** The tokenizer fails on an end that is tried. */
  ghost predicate Fails(tokens: seq<int>, start: nat, limit: int, rt: Runtime) {
    exists end :: start < end <= |tokens| && Tried(tokens, start, end, limit, rt) && RequestSize(tokens[start..end], rt).None?
  }

  /** An end at which the trials stop. */
  predicate Stops(tokens: seq<int>, start: nat, end: int, limit: int, rt: Runtime) {
    end <= start || (end <= |tokens| && (RequestSize(tokens[start..end], rt).None? || RequestSize(tokens[start..end], rt).value <= limit))
  }

  /** Every end that is tried follows from the one before. */
  lemma {:induction false} SameTrial(x: seq<int>, y: seq<int>, tokens: seq<int>, start: nat, limit: int, rt: Runtime, k: nat)
    requires Shrinks(x, tokens, start, limit, rt) && Shrinks(y, tokens, start, limit, rt) && k < |x| && k < |y|
    ensures x[k] == y[k]
  {
    if k > 0 {
      SameTrial(x, y, tokens, start, limit, rt, k - 1);
      assert Shrunk(tokens, start, x[k - 1], x[k], limit, rt) && Shrunk(tokens, start, y[k - 1], y[k], limit, rt);
    }
  }

  lemma GoesOn(x: seq<int>, tokens: seq<int>, start: nat, limit: int, rt: Runtime, k: nat)
    requires Shrinks(x, tokens, start, limit, rt) && k < |x| - 1
    ensures !Stops(tokens, start, x[k], limit, rt)
  {
    assert Shrunk(tokens, start, x[k], x[k + 1], limit, rt);
  }

  lemma OneLastTrial(tokens: seq<int>, start: nat, e: int, f: int, limit: int, rt: Runtime)
    requires Tried(tokens, start, e, limit, rt) && Stops(tokens, start, e, limit, rt)
    requires Tried(tokens, start, f, limit, rt) && Stops(tokens, start, f, limit, rt)
    ensures e == f
  {
    hide Stops;
    var x :| Shrinks(x, tokens, start, limit, rt) && x[|x| - 1] == e;
    var y :| Shrinks(y, tokens, start, limit, rt) && y[|y| - 1] == f;
    var k := if |x| < |y| then |x| - 1 else |y| - 1;
    SameTrial(x, y, tokens, start, limit, rt, k);
    if |x| < |y| {
      GoesOn(y, tokens, start, limit, rt, k);
    } else if |y| < |x| {
      GoesOn(x, tokens, start, limit, rt, k);
    }
  }

  /** A stretch has one outcome: it is stuck, the tokenizer fails on it, or it ends in one place. */
  lemma OneOutcome(tokens: seq<int>, start: nat, limit: int, rt: Runtime)
    ensures !(Stuck(tokens, start, limit, rt) && Fails(tokens, start, limit, rt))
    ensures forall end :: ChunkEnds(tokens, start, end, limit, rt) ==>
              !Stuck(tokens, start, limit, rt) && !Fails(tokens, start, limit, rt)
    ensures forall end, other :: ChunkEnds(tokens, start, end, limit, rt) && ChunkEnds(tokens, start, other, limit, rt) ==> end == other
  {
    hide Tried;
    forall e, f | && Tried(tokens, start, e, limit, rt) && Stops(tokens, start, e, limit, rt)
                  && Tried(tokens, start, f, limit, rt) && Stops(tokens, start, f, limit, rt)
      ensures e == f
    {
      OneLastTrial(tokens, start, e, f, limit, rt);
    }
  }

  /** Segments that stand for the tokens up to `end`, one stretch after the other, each a request within the limit. */
  ghost predicate Covers(segments: seq<Segment>, input: nat, tokens: seq<int>, end: nat, limit: int, rt: Runtime)
    requires end <= |tokens|
    decreases |segments|
  {
    if segments == [] then end == 0
    else
      var s := segments[|segments| - 1];
      && 1 <= s.contentTokens <= end
      && s.inputIndex == input
      && rt.detokenize(tokens[end - s.contentTokens..end]) == Some(s.text)
      && RequestWithin(s, limit, rt)
      && ChunkEnds(tokens, end - s.contentTokens, end, limit, rt)
      && Covers(segments[..|segments| - 1], input, tokens, end - s.contentTokens, limit, rt)
  }

  predicate RequestWithin(s: Segment, limit: int, rt: Runtime) {
    var tokens := rt.tokenize(s.text, true);
    tokens.Some? && |tokens.value| <= limit && s.requestTokens == Max(1, |tokens.value|)
  }

  /** The segments of one input: the text itself if it fits, and otherwise chunks of its tokens. */
  ghost predicate SegmentsOf(segments: seq<Segment>, input: nat, text: string, limit: int, rt: Runtime) {
    var plain, full := rt.tokenize(text, false), rt.tokenize(text, true);
    && plain.Some? && full.Some?
    && if |full.value| <= limit
       then segments == [Segment(input, text, Max(1, |plain.value|), Max(1, |full.value|))]
       else segments != [] && Covers(segments, input, plain.value, |plain.value|, limit, rt)
  }

  /** The segments of the first inputs, in order; `counts` says how many each input has. */
  ghost predicate Prepared(segments: seq<Segment>, counts: seq<nat>, inputs: seq<string>, limit: int, rt: Runtime)
    requires |counts| <= |inputs|
    decreases |counts|
  {
    if counts == [] then segments == []
    else
      var i := |counts| - 1;
      && counts[i] <= |segments|
      && SegmentsOf(segments[|segments| - counts[i]..], i, inputs[i], limit, rt)
      && Prepared(segments[..|segments| - counts[i]], counts[..i], inputs, limit, rt)
  }

  /**
   A stretch of tokens from `start` on, shrunk by the overflow until its text fits. It is not always the
   longest that would do.
   */
  method TakeChunk(tokens: seq<int>, start: nat, maxContent: nat, limit: int, input: nat, rt: Runtime)
    returns (r: Result<Segment, ChunkError>)
    requires start < |tokens| && maxContent == MaxContent(limit, rt) > 0
    ensures r.Ok? ==>
              && 1 <= r.value.contentTokens <= |tokens| - start
              && r.value.contentTokens <= maxContent
              && r.value.inputIndex == input
              && rt.detokenize(tokens[start..start + r.value.contentTokens]) == Some(r.value.text)
              && RequestWithin(r.value, limit, rt)
              && ChunkEnds(tokens, start, start + r.value.contentTokens, limit, rt)
    ensures r.Err? ==> r.error == OracleFailed || r.error == CannotChunk(input)
    ensures r == Err(CannotChunk(input)) <==> Stuck(tokens, start, limit, rt)
    ensures r == Err(OracleFailed) <==> Fails(tokens, start, limit, rt)
  {
    hide RequestSize, MaxContent;
    OneOutcome(tokens, start, limit, rt);
    var end := start + maxContent;
    if end > |tokens| {
      end := |tokens|;
    }
    ghost var ends: seq<int> := [end];
    while end > start
      invariant end <= |tokens| && end <= start + maxContent
      invariant Shrinks(ends, tokens, start, limit, rt) && ends[|ends| - 1] == end
      decreases end
    {
      var text := rt.detokenize(tokens[start..end]);
      SizeOf(tokens[start..end], rt);
      if text.None? {
        return Err(OracleFailed);
      }
      var retokens := rt.tokenize(text.value, true);
      if retokens.None? {
        return Err(OracleFailed);
      }
      if |retokens.value| <= limit {
        return Ok(Segment(input, text.value, end - start, Max(1, |retokens.value|)));
      }
      var overflow := |retokens.value| - limit;
      ghost var next := end - overflow;
      assert Shrunk(tokens, start, end, next, limit, rt);
      ends := ends + [next];
      end := end - Max(1, overflow);
    }
    assert Tried(tokens, start, end, limit, rt);
    r := Err(CannotChunk(input));
  }

  lemma SizeOf(stretch: seq<int>, rt: Runtime)
    ensures rt.detokenize(stretch).None? ==> RequestSize(stretch, rt).None?
    ensures rt.detokenize(stretch).Some? ==>
              var tokens := rt.tokenize(rt.detokenize(stretch).value, true);
              RequestSize(stretch, rt) == if tokens.None? then None else Some(|tokens.value|)
  {
  }

  /** The chunks of an over-long input come to a place where the next one is stuck. */
  ghost predicate GetsStuck(input: nat, tokens: seq<int>, limit: int, rt: Runtime) {
    exists segments, start: nat ::
      start < |tokens| && Covers(segments, input, tokens, start, limit, rt) && Stuck(tokens, start, limit, rt)
  }

  /** Chunks one over-long input. */
  method ChunkTokens(tokens: seq<int>, maxContent: nat, limit: int, input: nat, rt: Runtime)
    returns (r: Result<seq<Segment>, ChunkError>)
    requires tokens != [] && maxContent == MaxContent(limit, rt) > 0
    ensures r.Ok? ==> r.value != [] && Covers(r.value, input, tokens, |tokens|, limit, rt)
    ensures r.Err? ==> r.error == OracleFailed || r.error == CannotChunk(input)
    ensures r == Err(CannotChunk(input)) ==> GetsStuck(input, tokens, limit, rt)
    ensures r == Err(OracleFailed) ==> exists start: nat :: start < |tokens| && Fails(tokens, start, limit, rt)
  {
    hide ChunkEnds, Stuck, Fails, MaxContent;
    var start: nat, segments := 0, [];
    while start < |tokens|
      invariant 0 <= start <= |tokens|
      invariant Covers(segments, input, tokens, start, limit, rt)
      invariant segments == [] ==> start == 0
    {
      var chunk := TakeChunk(tokens, start, maxContent, limit, input, rt);
      if chunk.Err? {
        return Err(chunk.error);
      }
      var more := segments + [chunk.value];
      assert more[..|more| - 1] == segments;
      segments := more;
      start := start + chunk.value.contentTokens;
    }
    r := Ok(segments);
  }

  method SpecialOverhead(rt: Runtime) returns (r: Option<nat>)
    ensures r == Overhead(rt)
  {
    var plain := rt.tokenize("context", false);
    if plain.None? {
      return None;
    }
    var special := rt.tokenize("context", true);
    if special.None? {
      return None;
    }
    var overhead := |special.value| - |plain.value|;
    if overhead < 0 {
      overhead := 0;
    }
    r := Some(overhead);
  }

  /** The runtime answers every call. */
  ghost predicate Returns(rt: Runtime) {
    && rt.context.Some?
    && (forall text, special :: rt.tokenize(text, special).Some?)
    && (forall stretch :: rt.detokenize(stretch).Some?)
  }

  lemma NoFailure(tokens: seq<int>, start: nat, limit: int, rt: Runtime)
    requires Returns(rt)
    ensures !Fails(tokens, start, limit, rt)
  {
  }

  /** An input that exceeds the limit although the tokenizer finds nothing in it. */
  ghost predicate OnlySpecial(text: string, limit: int, rt: Runtime) {
    && rt.tokenize(text, false) == Some([])
    && rt.tokenize(text, true).Some? && |rt.tokenize(text, true).value| > limit
  }

  /** An input that exceeds the limit and whose chunks get stuck. */
  ghost predicate Unchunkable(text: string, input: nat, limit: int, rt: Runtime) {
    && rt.tokenize(text, false).Some? && rt.tokenize(text, true).Some? && |rt.tokenize(text, true).value| > limit
    && GetsStuck(input, rt.tokenize(text, false).value, limit, rt)
  }

  method PrepareInput(text: string, input: nat, maxContent: nat, limit: int, rt: Runtime)
    returns (r: Result<seq<Segment>, ChunkError>)
    requires maxContent == MaxContent(limit, rt) > 0
    ensures r.Ok? ==> SegmentsOf(r.value, input, text, limit, rt)
    ensures r.Err? ==> r.error in {OracleFailed, NoContentTokens(input), CannotChunk(input)}
    ensures r == Err(OracleFailed) ==> !Returns(rt)
    ensures r == Err(NoContentTokens(input)) ==> OnlySpecial(text, limit, rt)
    ensures r == Err(CannotChunk(input)) ==> Unchunkable(text, input, limit, rt)
  {
    hide Covers, GetsStuck, Fails, MaxContent;
    var plain := rt.tokenize(text, false);
    if plain.None? {
      return Err(OracleFailed);
    }
    var full := rt.tokenize(text, true);
    if full.None? {
      return Err(OracleFailed);
    }
    if |full.value| <= limit {
      return Ok([Segment(input, text, Max(1, |plain.value|), Max(1, |full.value|))]);
    }
    if |plain.value| == 0 {
      return Err(NoContentTokens(input));
    }
    r := ChunkTokens(plain.value, maxContent, limit, input, rt);
    if r == Err(OracleFailed) && Returns(rt) {
      var start: nat :| start < |plain.value| && Fails(plain.value, start, limit, rt);
      NoFailure(plain.value, start, limit, rt);
    }
  }

  /** Every stretch that a request has room for is within the limit when it is tokenized anew. */
  ghost predicate StretchesFit(tokens: seq<int>, limit: int, rt: Runtime) {
    forall start, end :: 0 <= start < end <= |tokens| && end - start <= MaxContent(limit, rt) ==>
      RequestSize(tokens[start..end], rt).Some? && RequestSize(tokens[start..end], rt).value <= limit
  }

  lemma FittingIsNotStuck(tokens: seq<int>, start: nat, limit: int, rt: Runtime)
    requires start < |tokens| && MaxContent(limit, rt) > 0 && StretchesFit(tokens, limit, rt)
    ensures !Stuck(tokens, start, limit, rt)
  {
    hide StretchesFit, MaxContent;
    forall end | Tried(tokens, start, end, limit, rt) ensures end > start {
      var ends :| Shrinks(ends, tokens, start, limit, rt) && ends[|ends| - 1] == end;
      if |ends| > 1 {
        FirstIsTooLong(ends, tokens, start, limit, rt);
      }
    }
  }

  lemma FirstIsTooLong(ends: seq<int>, tokens: seq<int>, start: nat, limit: int, rt: Runtime)
    requires Shrinks(ends, tokens, start, limit, rt) && |ends| > 1
    ensures !StretchesFit(tokens, limit, rt)
  {
    assert Shrunk(tokens, start, ends[0], ends[1], limit, rt);
    assert 0 <= start < ends[0] <= |tokens| && ends[0] - start <= MaxContent(limit, rt);
  }

  /** An input that is sure to be prepared: it fits, or it has content of which every stretch fits. */
  ghost predicate Tractable(text: string, limit: int, rt: Runtime) {
    && rt.tokenize(text, false).Some? && rt.tokenize(text, true).Some?
    && (|rt.tokenize(text, true).value| > limit ==>
          rt.tokenize(text, false).value != [] && StretchesFit(rt.tokenize(text, false).value, limit, rt))
  }

  lemma TractableIsPrepared(text: string, input: nat, limit: int, rt: Runtime)
    requires Tractable(text, limit, rt) && MaxContent(limit, rt) > 0
    ensures !OnlySpecial(text, limit, rt) && !Unchunkable(text, input, limit, rt)
  {
    hide Stuck, StretchesFit, MaxContent;
    if Unchunkable(text, input, limit, rt) {
      var tokens := rt.tokenize(text, false).value;
      var segments, start: nat :|
        start < |tokens| && Covers(segments, input, tokens, start, limit, rt) && Stuck(tokens, start, limit, rt);
      FittingIsNotStuck(tokens, start, limit, rt);
    }
  }

  /** The end of the stretches that the first segments stand for. */
  function EndOf(segments: seq<Segment>): nat {
    if segments == [] then 0 else EndOf(segments[..|segments| - 1]) + segments[|segments| - 1].contentTokens
  }

  lemma {:induction false} CoversFirst(segments: seq<Segment>, input: nat, tokens: seq<int>, end: nat, limit: int, rt: Runtime, k: nat)
    requires end <= |tokens| && Covers(segments, input, tokens, end, limit, rt) && k <= |segments|
    ensures EndOf(segments) == end && EndOf(segments[..k]) <= end
    ensures Covers(segments[..k], input, tokens, EndOf(segments[..k]), limit, rt)
    ensures k < |segments| ==>
              EndOf(segments[..k + 1]) <= end && ChunkEnds(tokens, EndOf(segments[..k]), EndOf(segments[..k + 1]), limit, rt)
  {
    hide ChunkEnds;
    if segments != [] {
      var n := |segments| - 1;
      var s := segments[n];
      if k <= n {
        CoversFirst(segments[..n], input, tokens, end - s.contentTokens, limit, rt, k);
        assert segments[..n][..k] == segments[..k];
        if k < n {
          assert segments[..n][..k + 1] == segments[..k + 1];
        } else {
          assert segments[..k + 1] == segments;
        }
      } else {
        CoversFirst(segments[..n], input, tokens, end - s.contentTokens, limit, rt, n);
        assert segments[..k] == segments && segments[..n][..n] == segments[..n];
      }
    }
  }

  /** The chunks of an input end in the same places, however far they go. */
  lemma {:induction false} SameEnds(x: seq<Segment>, d: nat, y: seq<Segment>, e: nat, input: nat, tokens: seq<int>, limit: int, rt: Runtime, k: nat)
    requires d <= |tokens| && Covers(x, input, tokens, d, limit, rt) && k <= |x|
    requires e <= |tokens| && Covers(y, input, tokens, e, limit, rt) && k <= |y|
    ensures EndOf(x[..k]) == EndOf(y[..k])
  {
    hide ChunkEnds, Covers;
    if k > 0 {
      SameEnds(x, d, y, e, input, tokens, limit, rt, k - 1);
      CoversFirst(x, input, tokens, d, limit, rt, k - 1);
      CoversFirst(y, input, tokens, e, limit, rt, k - 1);
      OneOutcome(tokens, EndOf(x[..k - 1]), limit, rt);
    } else {
      assert x[..0] == [] && y[..0] == [];
    }
  }

  /** Chunks that get stuck cannot be completed in another way: the error is reported for no input that could be prepared. */
  lemma StuckIsFinal(segments: seq<Segment>, input: nat, tokens: seq<int>, limit: int, rt: Runtime)
    requires GetsStuck(input, tokens, limit, rt)
    ensures !Covers(segments, input, tokens, |tokens|, limit, rt)
  {
    hide ChunkEnds, Covers, Stuck;
    if Covers(segments, input, tokens, |tokens|, limit, rt) {
      var first, start: nat :|
        start < |tokens| && Covers(first, input, tokens, start, limit, rt) && Stuck(tokens, start, limit, rt);
      CoversFirst(first, input, tokens, start, limit, rt, |first|);
      assert first[..|first|] == first && segments[..|segments|] == segments;
      if |first| < |segments| {
        SameEnds(first, start, segments, |tokens|, input, tokens, limit, rt, |first|);
        CoversFirst(segments, input, tokens, |tokens|, limit, rt, |first|);
        OneOutcome(tokens, start, limit, rt);
      } else {
        SameEnds(first, start, segments, |tokens|, input, tokens, limit, rt, |segments|);
        CoversFirst(segments, input, tokens, |tokens|, limit, rt, |segments|);
        CoversFirst(first, input, tokens, start, limit, rt, |segments|);
      }
    }
  }

  /** A runtime that makes five tokens of the text of two, and two tokens of every shorter one. */
  function Expanding(): Runtime {
    Runtime(Some(3),
            (text: string, special: bool) =>
              Some(if text != "ab" then if special then [1, 2] else [1] else if special then [1, 2, 3, 4, 5] else [7, 8]),
            (stretch: seq<int>) => Some(if stretch == [7, 8] then "ab" else "a"))
  }

  lemma ExpandingSizes()
    ensures MaxContent(3, Expanding()) == 2 && RequestSize([7, 8], Expanding()) == Some(5)
    ensures RequestSize([7], Expanding()) == Some(2) && RequestSize([8], Expanding()) == Some(2)
  {
  }

  /**
   An input whose chunks get stuck although shorter ones would fit: two tokens exceed the limit of three
   by two, so both are taken off at once, and each of them alone would have fitted.
   */
  lemma ShrinkingSkipsFit() returns (rt: Runtime)
    ensures Returns(rt) && rt.context == Some(3) && rt.tokenize("ab", false) == Some([7, 8])
    ensures Unchunkable("ab", 0, 3, rt)
    ensures RequestSize([7], rt) == Some(2) && RequestSize([8], rt) == Some(2)
  {
    hide MaxContent, RequestSize;
    rt := Expanding();
    ExpandingSizes();
    var tokens := [7, 8];
    assert tokens[0..2] == tokens;
    assert Shrunk(tokens, 0, 2, 0, 3, rt);
    assert Shrinks([2, 0], tokens, 0, 3, rt);
    assert Tried(tokens, 0, 0, 3, rt) by { assert [2, 0][|[2, 0]| - 1] == 0; }
    assert Covers([], 0, tokens, 0, 3, rt);
  }

  /** The segments of all inputs, for every tokenizer that returns; it always terminates. */
  method PrepareSegments(inputs: seq<string>, rt: Runtime)
    returns (r: Result<(seq<Segment>, seq<nat>), ChunkError>)
    ensures r.Ok? ==>
              && rt.context.Some? && |r.value.1| == |inputs|
              && Prepared(r.value.0, r.value.1, inputs, SequenceLimit(rt.context.value), rt)
    ensures r == Err(OracleFailed) ==> !Returns(rt)
    ensures r == Err(InvalidContext) <==> rt.context.Some? && rt.context.value <= 0
    ensures r == Err(ContextTooSmall) <==>
              && rt.context.Some? && rt.context.value > 0 && Overhead(rt).Some?
              && MaxContent(SequenceLimit(rt.context.value), rt) <= 0
    ensures r.Err? && r.error.NoContentTokens? ==>
              rt.context.Some? && r.error.input < |inputs| && OnlySpecial(inputs[r.error.input], SequenceLimit(rt.context.value), rt)
    ensures r.Err? && r.error.CannotChunk? ==>
              rt.context.Some? && r.error.input < |inputs|
              && Unchunkable(inputs[r.error.input], r.error.input, SequenceLimit(rt.context.value), rt)
    ensures (&& Returns(rt) && MaxContent(SequenceLimit(rt.context.value), rt) > 0
             && forall i :: 0 <= i < |inputs| ==> Tractable(inputs[i], SequenceLimit(rt.context.value), rt)) ==> r.Ok?
  {
    hide SegmentsOf, Unchunkable, OnlySpecial, Tractable;
    if rt.context.None? {
      return Err(OracleFailed);
    }
    var limit := rt.context.value;
    if limit > BATCH_TOKEN_LIMIT {
      limit := BATCH_TOKEN_LIMIT;
    }
    if limit <= 0 {
      return Err(InvalidContext);
    }
    var overhead := SpecialOverhead(rt);
    if overhead.None? {
      return Err(OracleFailed);
    }
    var maxContent := limit - overhead.value;
    if maxContent <= 0 {
      return Err(ContextTooSmall);
    }
    var segments, counts: seq<nat> := [], [];
    for i := 0 to |inputs|
      invariant |counts| == i
      invariant Prepared(segments, counts, inputs, limit, rt)
    {
      var part := PrepareInput(inputs[i], i, maxContent, limit, rt);
      if part.Err? {
        if Tractable(inputs[i], limit, rt) {
          TractableIsPrepared(inputs[i], i, limit, rt);
        }
        return Err(part.error);
      }
      var allSegments, allCounts := segments + part.value, counts + [|part.value|];
      assert allSegments[|segments|..] == part.value && allSegments[..|segments|] == segments;
      assert allCounts[..i] == counts;
      segments, counts := allSegments, allCounts;
    }
    r := Ok((segments, counts));
  }

  // ---------------------------------------------------------------------------------------------
  // Batching
  // ---------------------------------------------------------------------------------------------

  function Cost(s: Segment): nat {
    Max(1, s.requestTokens)
  }

  function Costs(segments: seq<Segment>): nat {
    if segments == [] then 0 else Costs(segments[..|segments| - 1]) + Cost(segments[|segments| - 1])
  }

  /** Batches within the token limit; a single segment is always sent. */
  function Within(limit: int): seq<Segment> -> bool {
    part => |part| <= 1 || Costs(part) <= limit
  }

  lemma CostsAppend(segments: seq<Segment>, s: Segment)
    ensures Costs(segments + [s]) == Costs(segments) + Cost(s)
  {
    assert (segments + [s])[..|segments|] == segments;
  }

  lemma {:induction false} CostsOfPart(x: seq<Segment>, i: nat, j: nat)
    requires i <= j <= |x|
    ensures Costs(x[i..j]) <= Costs(x)
    decreases |x|
  {
    if i == j {
      assert x[i..j] == [];
    } else {
      var init, last := x[..|x| - 1], x[|x| - 1];
      CostsAppend(init, last);
      assert init + [last] == x;
      if j < |x| {
        assert x[i..j] == init[i..j];
        CostsOfPart(init, i, j);
      } else {
        CostsOfPart(init, i, j - 1);
        CostsAppend(init[i..j - 1], last);
        assert x[i..j] == init[i..j - 1] + [last];
      }
    }
  }

  lemma WithinIsHereditary(limit: int)
    ensures Hereditary(Within(limit))
  {
    var fits := Within(limit);
    forall x: seq<Segment>, i, j | 0 <= i <= j <= |x| && fits(x) ensures fits(x[i..j]) {
      CostsOfPart(x, i, j);
    }
  }

  /** Batches of the segments before `start`, and the batch that is being filled with those up to `i`. */
  ghost predicate Grouping(batches: seq<seq<Segment>>, current: seq<Segment>, segments: seq<Segment>, start: nat, i: nat, limit: int) {
    && start <= i <= |segments| && current == segments[start..i] && Within(limit)(current)
    && Batching(batches, segments[..start], Within(limit)) && Greedy(batches, Within(limit))
    && (start < |segments| && batches != [] ==> !Within(limit)(batches[|batches| - 1] + [segments[start]]))
  }

  lemma ExtendGroup(batches: seq<seq<Segment>>, current: seq<Segment>, segments: seq<Segment>, start: nat, i: nat, limit: int)
    requires Grouping(batches, current, segments, start, i, limit) && i < |segments|
    requires current == [] || Costs(current) + Cost(segments[i]) <= limit
    ensures Grouping(batches, current + [segments[i]], segments, start, i + 1, limit)
  {
    CostsAppend(current, segments[i]);
  }

  lemma CloseGroup(batches: seq<seq<Segment>>, current: seq<Segment>, segments: seq<Segment>, start: nat, i: nat, limit: int)
    requires Grouping(batches, current, segments, start, i, limit) && current != []
    requires i < |segments| ==> Costs(current) + Cost(segments[i]) > limit
    ensures Grouping(batches + [current], [], segments, i, i, limit)
  {
    hide Batching, Greedy;
    AppendPart(batches, segments[..start], current, Within(limit));
    assert segments[..start] + current == segments[..i];
    if i < |segments| {
      CostsAppend(current, segments[i]);
    }
  }

  /** Groups the segments into requests; a limit that is not positive stands for the built-in one. */
  method SegmentBatches(segments: seq<Segment>, tokenLimit: int) returns (batches: seq<seq<Segment>>)
    ensures var limit := if tokenLimit <= 0 then BATCH_TOKEN_LIMIT else tokenLimit;
            Batching(batches, segments, Within(limit)) && Greedy(batches, Within(limit))
  {
    hide Batching, Greedy;
    var limit := if tokenLimit <= 0 then BATCH_TOKEN_LIMIT else tokenLimit;
    batches := [];
    NoParts(Within(limit));
    if |segments| == 0 {
      return;
    }
    var current: seq<Segment>, currentTokens := [], 0;
    ghost var start := 0;
    for i := 0 to |segments|
      invariant Grouping(batches, current, segments, start, i, limit)
      invariant currentTokens == Costs(current) && (i > 0 ==> current != [])
    {
      var cost := Max(1, segments[i].requestTokens);
      if |current| > 0 && currentTokens + cost > limit {
        CloseGroup(batches, current, segments, start, i, limit);
        batches := batches + [current];
        current, currentTokens := [], 0;
        start := i;
      }
      ExtendGroup(batches, current, segments, start, i, limit);
      CostsAppend(current, segments[i]);
      current := current + [segments[i]];
      currentTokens := currentTokens + cost;
    }
    if |current| > 0 {
      CloseGroup(batches, current, segments, start, |segments|, limit);
      batches := batches + [current];
    }
    assert segments[..|segments|] == segments;
  }

  /** No way of grouping the segments in order within the limit uses fewer requests. */
  lemma BatchesAreFewest(batches: seq<seq<Segment>>, other: seq<seq<Segment>>, segments: seq<Segment>, limit: int)
    requires Batching(batches, segments, Within(limit)) && Greedy(batches, Within(limit))
    requires Batching(other, segments, Within(limit))
    ensures |batches| <= |other|
  {
    WithinIsHereditary(limit);
    GreedyIsFewest(batches, other, segments, Within(limit));
  }

  // ---------------------------------------------------------------------------------------------
  // What the segments stand for
  // ---------------------------------------------------------------------------------------------

  /** The stretch of tokens that each segment of an over-long input stands for. */
  function Stretches(segments: seq<Segment>, tokens: seq<int>, end: nat): seq<seq<int>>
    requires end <= |tokens|
    decreases |segments|
  {
    if segments == [] then []
    else
      var n := segments[|segments| - 1].contentTokens;
      if n > end then []
      else Stretches(segments[..|segments| - 1], tokens, end - n) + [tokens[end - n..end]]
  }

  /** The stretches put together in order are the tokens of the input. */
  lemma {:induction false} ChunksPartition(segments: seq<Segment>, input: nat, tokens: seq<int>, end: nat, limit: int, rt: Runtime)
    requires end <= |tokens| && Covers(segments, input, tokens, end, limit, rt)
    ensures |Stretches(segments, tokens, end)| == |segments|
    ensures Flatten(Stretches(segments, tokens, end)) == tokens[..end]
    decreases |segments|
  {
    if segments != [] {
      var n := segments[|segments| - 1].contentTokens;
      var init := segments[..|segments| - 1];
      ChunksPartition(init, input, tokens, end - n, limit, rt);
      FlattenAppend(Stretches(init, tokens, end - n), tokens[end - n..end]);
      assert tokens[..end - n] + tokens[end - n..end] == tokens[..end];
    }
  }

  /** The text of each segment is the text of its stretch, and no stretch is empty. */
  lemma {:induction false} ChunkTexts(segments: seq<Segment>, input: nat, tokens: seq<int>, end: nat, limit: int, rt: Runtime, i: nat)
    requires end <= |tokens| && Covers(segments, input, tokens, end, limit, rt) && i < |segments|
    ensures |Stretches(segments, tokens, end)| == |segments|
    ensures Stretches(segments, tokens, end)[i] != []
    ensures rt.detokenize(Stretches(segments, tokens, end)[i]) == Some(segments[i].text)
    decreases |segments|
  {
    var n := segments[|segments| - 1].contentTokens;
    var init := segments[..|segments| - 1];
    ChunksPartition(init, input, tokens, end - n, limit, rt);
    if i < |init| {
      ChunkTexts(init, input, tokens, end - n, limit, rt, i);
    }
  }

  lemma {:induction false} CoversWithin(segments: seq<Segment>, input: nat, tokens: seq<int>, end: nat, limit: int, rt: Runtime)
    requires end <= |tokens| && limit >= 1 && Covers(segments, input, tokens, end, limit, rt)
    ensures forall s :: s in segments ==> Cost(s) <= limit && s.inputIndex == input
    decreases |segments|
  {
    if segments != [] {
      var last := segments[|segments| - 1];
      var init := segments[..|segments| - 1];
      CoversWithin(init, input, tokens, end - last.contentTokens, limit, rt);
      assert segments == init + [last];
    }
  }

  /** Every segment is a request within the context limit. */
  lemma {:induction false} RequestsWithin(segments: seq<Segment>, counts: seq<nat>, inputs: seq<string>, limit: int, rt: Runtime)
    requires |counts| <= |inputs| && limit >= 1 && Prepared(segments, counts, inputs, limit, rt)
    ensures forall s :: s in segments ==> Cost(s) <= limit && s.inputIndex < |counts|
    decreases |counts|
  {
    if counts != [] {
      var i := |counts| - 1;
      var before, mine := segments[..|segments| - counts[i]], segments[|segments| - counts[i]..];
      RequestsWithin(before, counts[..i], inputs, limit, rt);
      var plain, full := rt.tokenize(inputs[i], false).value, rt.tokenize(inputs[i], true).value;
      if |full| > limit {
        CoversWithin(mine, i, plain, |plain|, limit, rt);
      }
      assert segments == before + mine;
    }
  }

  /** So every batch that is sent is within the token limit, also one of a single segment. */
  lemma {:induction false} BatchWithin(batch: seq<Segment>, limit: int)
    requires Within(limit)(batch) && forall s :: s in batch ==> Cost(s) <= limit
    requires limit >= 0
    ensures Costs(batch) <= limit
  {
    if |batch| == 1 {
      assert batch[..0] == [] && batch[0] in batch;
    }
  }

  // ---------------------------------------------------------------------------------------------
  // Aggregation
  // ---------------------------------------------------------------------------------------------

  type Vector = seq<real>

  function Weight(s: Segment): real {
    if s.contentTokens <= 0 then 1.0 else s.contentTokens as real
  }

  /** The sum over the segments of one input of their vectors, each weighted with its tokens. */
  function WeightedSum(segments: seq<Segment>, input: nat, embed: string -> Vector, d: nat): real {
    if segments == [] then 0.0
    else
      var s := segments[|segments| - 1];
      WeightedSum(segments[..|segments| - 1], input, embed, d)
      + if s.inputIndex == input && d < |embed(s.text)| then embed(s.text)[d] * Weight(s) else 0.0
  }

  /** Adds the weighted vector of one segment to the aggregate of its input. */
  method AddSegment(aggregate: Vector, vector: Vector, weight: real) returns (sum: Vector)
    requires |vector| == |aggregate|
    ensures |sum| == |aggregate|
    ensures forall d :: 0 <= d < |sum| ==> sum[d] == aggregate[d] + vector[d] * weight
  {
    sum := [];
    for d := 0 to |aggregate|
      invariant |sum| == d
      invariant forall k :: 0 <= k < d ==> sum[k] == aggregate[k] + vector[k] * weight
    {
      sum := sum + [aggregate[d] + vector[d] * weight];
    }
  }

  lemma WeightedSumAppend(segments: seq<Segment>, s: Segment, input: nat, embed: string -> Vector, d: nat)
    ensures WeightedSum(segments + [s], input, embed, d) ==
            WeightedSum(segments, input, embed, d)
            + if s.inputIndex == input && d < |embed(s.text)| then embed(s.text)[d] * Weight(s) else 0.0
  {
    assert (segments + [s])[..|segments|] == segments;
  }

  /** The only segment of an input that has just one. */
  ghost predicate SinglesAreSingle(segments: seq<Segment>, counts: seq<nat>) {
    && (forall k :: 0 <= k < |segments| ==> segments[k].inputIndex < |counts|)
    && forall j, k :: 0 <= j < k < |segments| && segments[j].inputIndex == segments[k].inputIndex ==>
         counts[segments[j].inputIndex] != 1
  }

  /** The vectors found so far: copied for an input with one segment, added up for the others. */
  ghost predicate Collected(results: seq<Vector>, aggregates: seq<Vector>, segments: seq<Segment>, n: nat,
                            counts: seq<nat>, dimensions: nat, embed: string -> Vector)
    requires n <= |segments| && SinglesAreSingle(segments, counts)
  {
    && |results| == |aggregates| == |counts|
    && (forall i :: 0 <= i < |aggregates| ==> |aggregates[i]| == dimensions)
    && (forall k :: 0 <= k < n && counts[segments[k].inputIndex] == 1 ==>
          results[segments[k].inputIndex] == embed(segments[k].text))
    && (forall i, d :: 0 <= i < |aggregates| && counts[i] != 1 && 0 <= d < dimensions ==>
          aggregates[i][d] == WeightedSum(segments[..n], i, embed, d))
  }

  /** The treatment of one segment after its batch was embedded. */
  method CollectSegment(results: seq<Vector>, aggregates: seq<Vector>, ghost segments: seq<Segment>, ghost n: nat, s: Segment,
                        counts: seq<nat>, dimensions: nat, embed: string -> Vector)
    returns (results': seq<Vector>, aggregates': seq<Vector>)
    requires forall t :: |embed(t)| == dimensions
    requires n < |segments| && s == segments[n] && SinglesAreSingle(segments, counts)
    requires Collected(results, aggregates, segments, n, counts, dimensions, embed)
    ensures Collected(results', aggregates', segments, n + 1, counts, dimensions, embed)
  {
    results', aggregates' := results, aggregates;
    assert segments[..n + 1] == segments[..n] + [s];
    forall i, d: nat | 0 <= i < |counts|
      ensures WeightedSum(segments[..n + 1], i, embed, d) ==
              WeightedSum(segments[..n], i, embed, d)
              + if s.inputIndex == i && d < |embed(s.text)| then embed(s.text)[d] * Weight(s) else 0.0
    {
      WeightedSumAppend(segments[..n], s, i, embed, d);
    }
    if counts[s.inputIndex] == 1 {
      results' := results[s.inputIndex := embed(s.text)];
    } else {
      var sum := AddSegment(aggregates[s.inputIndex], embed(s.text), Weight(s));
      aggregates' := aggregates[s.inputIndex := sum];
    }
  }

  /** Embeds batch after batch and collects the vectors of each input; the batch boundaries leave no trace. */
  method CollectBatches(batches: seq<seq<Segment>>, counts: seq<nat>, dimensions: nat, embed: string -> Vector)
    returns (results: seq<Vector>, aggregates: seq<Vector>)
    requires forall t :: |embed(t)| == dimensions
    requires SinglesAreSingle(Flatten(batches), counts)
    ensures Collected(results, aggregates, Flatten(batches), |Flatten(batches)|, counts, dimensions, embed)
  {
    hide Collected, SinglesAreSingle;
    ghost var all, n := Flatten(batches), 0;
    results, aggregates := NothingCollected(all, counts, dimensions, embed);
    for b := 0 to |batches|
      invariant n == |Flatten(batches[..b])| <= |all|
      invariant Collected(results, aggregates, all, n, counts, dimensions, embed)
    {
      var batch := batches[b];
      FlattenAt(batches, b);
      ghost var start := n;
      for k := 0 to |batch|
        invariant n == start + k
        invariant Collected(results, aggregates, all, n, counts, dimensions, embed)
      {
        assert all[start..start + |batch|][k] == all[n];
        results, aggregates := CollectSegment(results, aggregates, all, n, batch[k], counts, dimensions, embed);
        n := n + 1;
      }
    }
    assert batches[..|batches|] == batches;
  }

  method NothingCollected(ghost segments: seq<Segment>, counts: seq<nat>, dimensions: nat, embed: string -> Vector)
    returns (results: seq<Vector>, aggregates: seq<Vector>)
    requires SinglesAreSingle(segments, counts)
    ensures Collected(results, aggregates, segments, 0, counts, dimensions, embed)
  {
    results := seq(|counts|, _ => []);
    aggregates := seq(|counts|, _ => seq(dimensions, _ => 0.0));
  }

  /** Segments of one more input join those of the inputs before it. */
  lemma SinglesJoin(before: seq<Segment>, mine: seq<Segment>, counts: seq<nat>, i: nat)
    requires |counts| == i + 1 && |mine| == counts[i] && SinglesAreSingle(before, counts[..i])
    requires forall k :: 0 <= k < |mine| ==> mine[k].inputIndex == i
    ensures SinglesAreSingle(before + mine, counts)
  {
    var all := before + mine;
    assert forall k :: 0 <= k < |before| ==> all[k] == before[k];
    assert forall k :: |before| <= k < |all| ==> all[k] == mine[k - |before|];
    forall j, k | 0 <= j < k < |all| && all[j].inputIndex == all[k].inputIndex ensures counts[all[j].inputIndex] != 1 {
      if k < |before| {
        assert before[j].inputIndex == before[k].inputIndex;
      }
    }
  }

  lemma OneInput(mine: seq<Segment>, i: nat, text: string, limit: int, rt: Runtime)
    requires SegmentsOf(mine, i, text, limit, rt) && limit >= 1
    ensures forall k :: 0 <= k < |mine| ==> mine[k].inputIndex == i
  {
    var plain, full := rt.tokenize(text, false).value, rt.tokenize(text, true).value;
    if |full| > limit {
      CoversWithin(mine, i, plain, |plain|, limit, rt);
    }
  }

  /** The segments that were prepared have one segment for every input counted with one. */
  lemma {:induction false} PreparedSingles(segments: seq<Segment>, counts: seq<nat>, inputs: seq<string>, limit: int, rt: Runtime)
    requires |counts| <= |inputs| && limit >= 1 && Prepared(segments, counts, inputs, limit, rt)
    ensures SinglesAreSingle(segments, counts)
    decreases |counts|
  {
    hide SegmentsOf, SinglesAreSingle;
    if counts == [] {
      NoSegments(segments, counts);
    } else {
      var i := |counts| - 1;
      var before, mine := segments[..|segments| - counts[i]], segments[|segments| - counts[i]..];
      PreparedSingles(before, counts[..i], inputs, limit, rt);
      OneInput(mine, i, inputs[i], limit, rt);
      SinglesJoin(before, mine, counts, i);
      assert segments == before + mine;
    }
  }

  lemma NoSegments(segments: seq<Segment>, counts: seq<nat>)
    requires segments == []
    ensures SinglesAreSingle(segments, counts)
  {
  }

  /** The weight of all segments together. */
  function TotalWeight(segments: seq<Segment>): real {
    if segments == [] then 0.0 else TotalWeight(segments[..|segments| - 1]) + Weight(segments[|segments| - 1])
  }

  /** The weights of the chunks of an input add up to the number of its tokens. */
  lemma {:induction false} WeightsAddUp(segments: seq<Segment>, input: nat, tokens: seq<int>, end: nat, limit: int, rt: Runtime)
    requires end <= |tokens| && Covers(segments, input, tokens, end, limit, rt)
    ensures TotalWeight(segments) == end as real
    decreases |segments|
  {
    hide ChunkEnds;
    if segments != [] {
      var s := segments[|segments| - 1];
      WeightsAddUp(segments[..|segments| - 1], input, tokens, end - s.contentTokens, limit, rt);
    }
  }

  /** If all segments of an input have the same vector, its weighted sum is that vector, times their weight; other inputs do not count. */
  lemma {:induction false} EqualVectorsSum(segments: seq<Segment>, input: nat, embed: string -> Vector, d: nat, x: real)
    requires forall i :: 0 <= i < |segments| ==> segments[i].inputIndex == input && d < |embed(segments[i].text)| && embed(segments[i].text)[d] == x
    ensures WeightedSum(segments, input, embed, d) == x * TotalWeight(segments)
    ensures forall other :: other != input ==> WeightedSum(segments, other, embed, d) == 0.0
    decreases |segments|
  {
    hide Weight;
    if segments != [] {
      var init, s := segments[..|segments| - 1], segments[|segments| - 1];
      assert forall i :: 0 <= i < |init| ==> init[i] == segments[i];
      EqualVectorsSum(init, input, embed, d, x);
      Distributes(x, TotalWeight(init), Weight(s));
    }
  }

  lemma Distributes(x: real, a: real, b: real)
    ensures x * (a + b) == x * a + x * b
  {
  }
}
