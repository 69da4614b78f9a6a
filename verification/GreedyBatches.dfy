/**
 Cutting a list of work into contiguous batches.

 A batching is greedy when no batch could have taken the first item of the next one. For a capacity
 that every part of a fitting batch also meets, greedy batchings use the fewest batches possible. The
 tool-enrichment splitter, which shrinks a batch until its encoding fits, is proved greedy here; the
 embedding batcher in `EmbeddingChunks` is another instance.
 */
module GreedyBatches {
  import opened Common

  function Flatten<T>(parts: seq<seq<T>>): seq<T> {
    if parts == [] then [] else parts[0] + Flatten(parts[1..])
  }

  lemma {:induction false} FlattenAppend<T>(parts: seq<seq<T>>, last: seq<T>)
    ensures Flatten(parts + [last]) == Flatten(parts) + last
  {
    if parts == [] {
      assert parts + [last] == [last];
    } else {
      FlattenAppend(parts[1..], last);
      assert (parts + [last])[1..] == parts[1..] + [last];
    }
  }

  /** Where the items of one batch stand among all items. */
  lemma {:induction false} FlattenAt<T>(parts: seq<seq<T>>, b: nat)
    requires b < |parts|
    ensures var start := |Flatten(parts[..b])|;
            && start + |parts[b]| == |Flatten(parts[..b + 1])| <= |Flatten(parts)|
            && Flatten(parts)[start..start + |parts[b]|] == parts[b]
    decreases b
  {
    if b == 0 {
      assert parts[..1] == [parts[0]] && Flatten([parts[0]]) == parts[0] + Flatten([]) == parts[0];
      assert parts[..0] == [];
    } else {
      FlattenAt(parts[1..], b - 1);
      assert parts[..b][1..] == parts[1..][..b - 1] && parts[..b + 1][1..] == parts[1..][..b];
    }
  }

  /** Contiguous, non-empty batches of `items`, each within the capacity. */
  ghost predicate Batching<T>(parts: seq<seq<T>>, items: seq<T>, fits: seq<T> -> bool) {
    && Flatten(parts) == items
    && forall i :: 0 <= i < |parts| ==> parts[i] != [] && fits(parts[i])
  }

  /** No batch could have taken one item more. */
  ghost predicate Greedy<T>(parts: seq<seq<T>>, fits: seq<T> -> bool) {
    forall i, j :: 0 <= i < j < |parts| && j == i + 1 ==> parts[j] != [] && !fits(parts[i] + [parts[j][0]])
  }

  lemma NoParts<T>(fits: seq<T> -> bool)
    ensures Batching([], [], fits) && Greedy([], fits)
  {
  }

  lemma AppendPart<T>(parts: seq<seq<T>>, items: seq<T>, part: seq<T>, fits: seq<T> -> bool)
    requires Batching(parts, items, fits) && Greedy(parts, fits) && part != [] && fits(part)
    requires parts != [] ==> !fits(parts[|parts| - 1] + [part[0]])
    ensures Batching(parts + [part], items + part, fits) && Greedy(parts + [part], fits)
  {
    FlattenAppend(parts, part);
  }

  /** Every contiguous part of a fitting batch fits. */
  ghost predicate Hereditary<T(!new)>(fits: seq<T> -> bool) {
    forall x: seq<T>, i, j :: 0 <= i <= j <= |x| && fits(x) ==> fits(x[i..j])
  }

  /** The batching that remains when the first `d` items are taken away. */
  function WithoutFirst<T>(parts: seq<seq<T>>, d: nat): seq<seq<T>>
    requires d <= |Flatten(parts)|
  {
    if d == 0 then parts
    else if d >= |parts[0]| then WithoutFirst(parts[1..], d - |parts[0]|)
    else [parts[0][d..]] + parts[1..]
  }

  lemma {:induction false} WithoutFirstKeeps<T(!new)>(parts: seq<seq<T>>, items: seq<T>, fits: seq<T> -> bool, d: nat)
    requires Batching(parts, items, fits) && Hereditary(fits) && d <= |items|
    ensures Batching(WithoutFirst(parts, d), items[d..], fits)
    ensures |WithoutFirst(parts, d)| <= |parts|
    decreases |parts|
  {
    hide Batching;
    FlattenOf(parts, items, fits);
    if d == 0 {
      assert items[d..] == items;
    } else if d >= |parts[0]| {
      TailBatching(parts, items, fits);
      WithoutFirstKeeps(parts[1..], items[|parts[0]|..], fits, d - |parts[0]|);
      assert items[|parts[0]|..][d - |parts[0]|..] == items[d..];
    } else {
      CutBatching(parts, items, fits, d);
    }
  }

  lemma FlattenOf<T>(parts: seq<seq<T>>, items: seq<T>, fits: seq<T> -> bool)
    requires Batching(parts, items, fits)
    ensures Flatten(parts) == items
  {
  }

  /** All but the first batch is a batching of what follows it. */
  lemma TailBatching<T>(parts: seq<seq<T>>, items: seq<T>, fits: seq<T> -> bool)
    requires Batching(parts, items, fits) && parts != []
    ensures |parts[0]| <= |items| && parts[0] == items[..|parts[0]|]
    ensures Batching(parts[1..], items[|parts[0]|..], fits)
  {
    var rest := parts[1..];
    assert Flatten(rest) == items[|parts[0]|..];
    assert forall i :: 0 <= i < |rest| ==> rest[i] == parts[i + 1];
  }

  /** The first batch may lose items at its start. */
  lemma CutBatching<T(!new)>(parts: seq<seq<T>>, items: seq<T>, fits: seq<T> -> bool, d: nat)
    requires Batching(parts, items, fits) && Hereditary(fits) && parts != [] && d < |parts[0]|
    ensures Batching([parts[0][d..]] + parts[1..], items[d..], fits)
  {
    var cut := [parts[0][d..]] + parts[1..];
    assert cut[1..] == parts[1..];
    assert Flatten(cut) == items[d..];
    assert parts[0][d..] == parts[0][d..|parts[0]|];
    assert forall i :: 1 <= i < |cut| ==> cut[i] == parts[i];
  }

  lemma PrefixFits<T(!new)>(x: seq<T>, y: seq<T>, items: seq<T>, fits: seq<T> -> bool)
    requires Hereditary(fits) && fits(x) && |y| <= |x| <= |items| && x == items[..|x|] && y == items[..|y|]
    ensures fits(y)
  {
    assert x[0..|y|] == y;
  }

  /** The first batch of any batching is no longer than the first batch of a greedy one. */
  lemma FirstIsLongest<T(!new)>(greedy: seq<seq<T>>, other: seq<seq<T>>, items: seq<T>, fits: seq<T> -> bool)
    requires Batching(greedy, items, fits) && Greedy(greedy, fits) && Hereditary(fits)
    requires Batching(other, items, fits) && greedy != [] && other != []
    ensures |other[0]| <= |greedy[0]|
  {
    assert other[0] == items[..|other[0]|];
    if |greedy| == 1 {
      assert Flatten(greedy) == greedy[0] + Flatten(greedy[1..]) == greedy[0];
    } else {
      var longer := greedy[0] + [greedy[1][0]];
      assert Flatten(greedy) == greedy[0] + (greedy[1] + Flatten(greedy[1..][1..]));
      assert longer == items[..|longer|];
      if |longer| <= |other[0]| {
        PrefixFits(other[0], longer, items, fits);
        assert false;
      }
    }
  }

  /** A greedy batching uses as few batches as any batching of the same items. */
  lemma {:induction false} GreedyIsFewest<T(!new)>(greedy: seq<seq<T>>, other: seq<seq<T>>, items: seq<T>, fits: seq<T> -> bool)
    requires Batching(greedy, items, fits) && Greedy(greedy, fits) && Hereditary(fits)
    requires Batching(other, items, fits)
    ensures |greedy| <= |other|
    decreases |greedy|
  {
    if greedy != [] {
      assert items != [];
      assert other != [];
      FirstIsLongest(greedy, other, items, fits);
      var g, o := greedy[0], other[0];
      TailBatching(other, items, fits);
      TailBatching(greedy, items, fits);
      WithoutFirstKeeps(other[1..], items[|o|..], fits, |g| - |o|);
      assert items[|o|..][|g| - |o|..] == items[|g|..];
      assert Greedy(greedy[1..], fits) by {
        assert forall i :: 0 <= i < |greedy[1..]| ==> greedy[1..][i] == greedy[i + 1];
      }
      GreedyIsFewest(greedy[1..], WithoutFirst(other[1..], |g| - |o|), items[|g|..], fits);
    }
  }

  // ---------------------------------------------------------------------------------------------
  // The tool-enrichment splitter
  // ---------------------------------------------------------------------------------------------

  /** A request within both bounds; `size` is the length of its encoding. */
  predicate RequestFits<T>(part: seq<T>, batchSize: nat, maxBytes: int, size: seq<T> -> nat) {
    |part| <= batchSize && size(part) <= maxBytes
  }

  function Bounds<T>(batchSize: nat, maxBytes: int, size: seq<T> -> nat): seq<T> -> bool {
    part => RequestFits(part, batchSize, maxBytes, size)
  }

  /** The item whose request alone is too large, if there is one. */
  ghost predicate Oversized<T>(items: seq<T>, maxBytes: int, size: seq<T> -> nat, i: nat) {
    i < |items| && size([items[i]]) > maxBytes
  }

  /** The longest prefix of the work from `start` on whose request fits, found by shrinking from the longest allowed. */
  method TakeBatch<T>(items: seq<T>, start: nat, batchSize: nat, maxBytes: int, size: seq<T> -> nat) returns (end: nat)
    requires start < |items| && batchSize > 0
    ensures start <= end <= |items| && end - start <= batchSize
    ensures end > start ==> size(items[start..end]) <= maxBytes
    ensures end == start ==> size([items[start]]) > maxBytes
    ensures forall e :: end < e <= |items| && e - start <= batchSize ==> size(items[start..e]) > maxBytes
  {
    end := start + batchSize;
    if end > |items| {
      end := |items|;
    }
    while size(items[start..end]) > maxBytes
      invariant start < end <= |items| && end - start <= batchSize
      invariant forall e :: end < e <= |items| && e - start <= batchSize ==> size(items[start..e]) > maxBytes
      decreases end
    {
      if end - start == 1 {
        assert items[start..end] == [items[start]];
        return start;
      }
      end := end - 1;
    }
  }

  /** Splits the pending work into batches, or names an item that does not fit even alone. */
  method SplitWork<T>(items: seq<T>, batchSize: nat, maxBytes: int, size: seq<T> -> nat)
    returns (r: Result<seq<seq<T>>, nat>)
    requires batchSize > 0
    ensures r.Err? ==> Oversized(items, maxBytes, size, r.error)
    ensures r.Ok? ==> Batching(r.value, items, Bounds(batchSize, maxBytes, size))
    ensures r.Ok? ==> Greedy(r.value, Bounds(batchSize, maxBytes, size))
    ensures r.Ok? ==> forall k :: 0 <= k < |r.value| ==> 0 < |r.value[k]| <= batchSize && size(r.value[k]) <= maxBytes
  {
    hide Batching, Greedy;
    var start, parts := 0, [];
    ghost var fits := Bounds(batchSize, maxBytes, size);
    NoParts(fits);
    assert items[..0] == [];
    while start < |items|
      invariant 0 <= start <= |items|
      invariant Batching(parts, items[..start], fits)
      invariant Greedy(parts, fits)
      invariant forall k :: 0 <= k < |parts| ==> 0 < |parts[k]| <= batchSize && size(parts[k]) <= maxBytes
      invariant start < |items| && parts != [] ==> !fits(parts[|parts| - 1] + [items[start]])
    {
      var end := TakeBatch(items, start, batchSize, maxBytes, size);
      if end == start {
        return Err(start);
      }
      var part := items[start..end];
      AppendPart(parts, items[..start], part, fits);
      assert items[..start] + part == items[..end];
      if end < |items| {
        assert part + [items[end]] == items[start..end + 1];
      }
      parts := parts + [part];
      start := end;
    }
    assert items[..start] == items;
    r := Ok(parts);
  }

  /** With an encoding that grows with the work, the splitter uses as few batches as possible. */
  lemma SplitIsFewest<T(!new)>(parts: seq<seq<T>>, other: seq<seq<T>>, items: seq<T>,
                               batchSize: nat, maxBytes: int, size: seq<T> -> nat)
    requires forall x: seq<T>, i, j :: 0 <= i <= j <= |x| ==> size(x[i..j]) <= size(x)
    requires Batching(parts, items, Bounds(batchSize, maxBytes, size)) && Greedy(parts, Bounds(batchSize, maxBytes, size))
    requires Batching(other, items, Bounds(batchSize, maxBytes, size))
    ensures |parts| <= |other|
  {
    var fits := Bounds(batchSize, maxBytes, size);
    forall x: seq<T>, i, j | 0 <= i <= j <= |x| && fits(x) ensures fits(x[i..j]) {
      assert size(x[i..j]) <= size(x);
    }
    GreedyIsFewest(parts, other, items, fits);
  }
}
