/**
 Paging of large work items: a page holds as many items as fit, and a client follows the offset of the
 next page until it is told that the request is complete.
 */
module RequestPaging {
  import opened Common

  const DEFAULT_PAGE_ITEMS := 16
  const MAX_PAGE_ITEMS := 64
  const MAX_PAGE_BYTES := 128 * 1024

  datatype Page<T> = Page(items: seq<T>, offset: nat, total: nat, complete: bool, next: Option<nat>)

  datatype PagingError = NegativeOffset | NotPageable | OffsetTooLarge

  function EffectiveLimit(itemLimit: int): (n: nat)
    ensures 1 <= n <= MAX_PAGE_ITEMS
    ensures 1 <= itemLimit <= 64 ==> n == itemLimit
    ensures itemLimit > 64 ==> n == 64
    ensures itemLimit <= 0 ==> n == 16
  {
    if itemLimit <= 0 then DEFAULT_PAGE_ITEMS else if itemLimit > MAX_PAGE_ITEMS then MAX_PAGE_ITEMS else itemLimit
  }

  /** Where a page may end: within the item limit, and within the byte budget unless it has a single item. */
  ghost predicate MayEnd<T>(items: seq<T>, offset: nat, end: nat, itemLimit: int, size: seq<T> -> nat) {
    && offset <= end <= |items| && end - offset <= EffectiveLimit(itemLimit)
    && (offset < |items| ==> offset < end)
    && (end > offset + 1 ==> size(items[offset..end]) <= 131072)
  }

  /** The page at an offset: the longest one allowed; a request without items has no page. */
  method PageRequest<T>(items: Option<seq<T>>, offset: int, itemLimit: int, size: seq<T> -> nat)
    returns (r: Result<Option<Page<T>>, PagingError>)
    ensures offset < 0 ==> r == Err(NegativeOffset)
    ensures offset >= 0 && items.None? ==> r == if offset != 0 then Err(NotPageable) else Ok(None)
    ensures offset >= 0 && items.Some? && offset > |items.value| ==> r == Err(OffsetTooLarge)
    ensures 0 <= offset && items.Some? && offset <= |items.value| ==>
              && r.Ok? && r.value.Some?
              && var p, end := r.value.value, PageEnd(items.value, offset, itemLimit, size);
                 && MayEnd(items.value, offset, end, itemLimit, size)
                 && (forall e: nat :: MayEnd(items.value, offset, e, itemLimit, size) ==> e <= end)
                 && p == Page(items.value[offset..end], offset, |items.value|, end == |items.value|,
                              if end == |items.value| then None else Some(end))
  {
    if offset < 0 {
      return Err(NegativeOffset);
    }
    if items.None? {
      if offset != 0 {
        return Err(NotPageable);
      }
      return Ok(None);
    }
    var all := items.value;
    if offset > |all| {
      return Err(OffsetTooLarge);
    }
    var limit := EffectiveLimit(itemLimit);
    var end := offset + limit;
    if end > |all| {
      end := |all|;
    }
    PageEndFacts(all, offset, itemLimit, size);
    while end > offset + 1
      invariant offset <= end <= |all|
      invariant PageEnd(all, offset, itemLimit, size) == Shrunk(all, offset, end, size)
      decreases end
    {
      if size(all[offset..end]) <= MAX_PAGE_BYTES {
        break;
      }
      end := end - 1;
    }
    r := Ok(Some(Page(all[offset..end], offset, |all|, end == |all|, if end == |all| then None else Some(end))));
  }

  /** Shrinks a page from its end until it fits or has one item. */
  function Shrunk<T>(items: seq<T>, offset: nat, end: nat, size: seq<T> -> nat): nat
    requires offset <= end <= |items|
    decreases end
  {
    if end <= offset + 1 || size(items[offset..end]) <= MAX_PAGE_BYTES then end else Shrunk(items, offset, end - 1, size)
  }

  function PageEnd<T>(items: seq<T>, offset: nat, itemLimit: int, size: seq<T> -> nat): nat
    requires offset <= |items|
  {
    var end := offset + EffectiveLimit(itemLimit);
    Shrunk(items, offset, if end > |items| then |items| else end, size)
  }

  lemma {:induction false} ShrunkFacts<T>(items: seq<T>, offset: nat, end: nat, size: seq<T> -> nat)
    requires offset <= end <= |items|
    ensures offset <= Shrunk(items, offset, end, size) <= end
    ensures offset < end ==> offset < Shrunk(items, offset, end, size)
    ensures var s := Shrunk(items, offset, end, size);
            && (s > offset + 1 ==> size(items[offset..s]) <= MAX_PAGE_BYTES)
            && (forall e :: s < e <= end ==> e > offset + 1 && size(items[offset..e]) > MAX_PAGE_BYTES)
    decreases end
  {
    if !(end <= offset + 1 || size(items[offset..end]) <= MAX_PAGE_BYTES) {
      ShrunkFacts(items, offset, end - 1, size);
    }
  }

  /** A page is never empty while items remain, and no longer page is allowed. */
  lemma PageEndFacts<T>(items: seq<T>, offset: nat, itemLimit: int, size: seq<T> -> nat)
    requires offset <= |items|
    ensures var end := PageEnd(items, offset, itemLimit, size);
            && MayEnd(items, offset, end, itemLimit, size)
            && (forall e: nat :: MayEnd(items, offset, e, itemLimit, size) ==> e <= end)
  {
    var end := offset + EffectiveLimit(itemLimit);
    ShrunkFacts(items, offset, if end > |items| then |items| else end, size);
  }

  // ---------------------------------------------------------------------------------------------
  // Following the pages
  // ---------------------------------------------------------------------------------------------

  /** The items a client collects that follows the next offset, asking for any number of items each time. */
  function Follow<T>(items: seq<T>, offset: nat, limits: nat -> int, size: seq<T> -> nat, n: nat): seq<T>
    requires offset <= |items|
    decreases |items| - offset
  {
    PageEndFacts(items, offset, limits(n), size);
    var end := PageEnd(items, offset, limits(n), size);
    items[offset..end] + if end == |items| then [] else Follow(items, end, limits, size, n + 1)
  }

  lemma {:induction false} FollowIsRest<T>(items: seq<T>, offset: nat, limits: nat -> int, size: seq<T> -> nat, n: nat)
    requires offset <= |items|
    ensures Follow(items, offset, limits, size, n) == items[offset..]
    decreases |items| - offset
  {
    PageEndFacts(items, offset, limits(n), size);
    var end := PageEnd(items, offset, limits(n), size);
    if end != |items| {
      FollowIsRest(items, end, limits, size, n + 1);
      assert items[offset..end] + items[end..] == items[offset..];
    }
  }

  /** Following the pages from the start terminates with exactly the items of the request. */
  lemma FollowIsComplete<T>(items: seq<T>, limits: nat -> int, size: seq<T> -> nat)
    ensures Follow(items, 0, limits, size, 0) == items
  {
    FollowIsRest(items, 0, limits, size, 0);
  }

  // ---------------------------------------------------------------------------------------------
  // Clients that can only send a limit
  // ---------------------------------------------------------------------------------------------

  datatype BatchKind = ToolEnrichment | CapabilityReconciliation | AmbiguityReview

  /** Batch limit and request offset that a call means. */
  function Resolve(kind: BatchKind, limit: int, offset: int): (int, int) {
    if kind.CapabilityReconciliation? then (1, if offset == 0 && limit > 1 then limit else offset) else (limit, offset)
  }

  /** There is one capability batch, and only for it a limit above one is an offset when none is given; other calls mean what they say. */
  lemma ResolveMeans(kind: BatchKind, limit: int, offset: int)
    ensures var (batches, at) := Resolve(kind, limit, offset);
            && (kind.CapabilityReconciliation? ==> batches == 1 && (offset != 0 || limit <= 1 ==> at == offset) && (offset == 0 && limit > 1 ==> at == limit))
            && (kind.ToolEnrichment? || kind.AmbiguityReview? ==> batches == limit && at == offset)
  {
  }

  /** The offset of the page that a client reaches with its n-th call, as long as pages remain. */
  function CursorAt<T>(items: seq<T>, itemLimit: int, size: seq<T> -> nat, n: nat): (offset: nat)
    ensures offset <= |items|
  {
    if n == 0 then 0
    else
      var previous := CursorAt(items, itemLimit, size, n - 1);
      PageEndFacts(items, previous, itemLimit, size);
      PageEnd(items, previous, itemLimit, size)
  }

  /** The same for a client that sends the next offset as a limit. */
  function LegacyAt<T>(items: seq<T>, itemLimit: int, size: seq<T> -> nat, n: nat): (offset: nat)
    ensures offset <= |items|
  {
    if n == 0 then 0
    else
      var previous := LegacyAt(items, itemLimit, size, n - 1);
      PageEndFacts(items, previous, itemLimit, size);
      Resolve(CapabilityReconciliation, PageEnd(items, previous, itemLimit, size), 0).1
  }

  /** The pages that remain to be asked for are the same for both clients. */
  ghost predicate LegacyAgrees<T>(items: seq<T>, itemLimit: int, size: seq<T> -> nat) {
    forall n: nat :: CursorAt(items, itemLimit, size, n) < |items| ==>
      LegacyAt(items, itemLimit, size, n) == CursorAt(items, itemLimit, size, n)
  }

  lemma {:induction false} CursorGrows<T>(items: seq<T>, itemLimit: int, size: seq<T> -> nat, n: nat)
    ensures n >= 1 && CursorAt(items, itemLimit, size, n) < |items| ==>
              && CursorAt(items, itemLimit, size, n - 1) < CursorAt(items, itemLimit, size, n)
              && CursorAt(items, itemLimit, size, n) >= PageEnd(items, 0, itemLimit, size)
  {
    if n >= 1 {
      var previous := CursorAt(items, itemLimit, size, n - 1);
      PageEndFacts(items, previous, itemLimit, size);
      CursorGrows(items, itemLimit, size, n - 1);
      assert CursorAt(items, itemLimit, size, 0) == 0;
    }
  }

  lemma {:induction false} LegacyFollowsCursor<T>(items: seq<T>, itemLimit: int, size: seq<T> -> nat, n: nat)
    requires PageEnd(items, 0, itemLimit, size) >= 2 && CursorAt(items, itemLimit, size, n) < |items|
    ensures LegacyAt(items, itemLimit, size, n) == CursorAt(items, itemLimit, size, n)
  {
    if n > 0 {
      CursorGrows(items, itemLimit, size, n);
      LegacyFollowsCursor(items, itemLimit, size, n - 1);
    }
  }

  /** A first page of one item sends the limit-only client back to the start for ever. */
  lemma {:induction false} LegacyIsStuck<T>(items: seq<T>, itemLimit: int, size: seq<T> -> nat, n: nat)
    requires PageEnd(items, 0, itemLimit, size) == 1
    ensures LegacyAt(items, itemLimit, size, n) == 0
  {
    if n > 0 {
      LegacyIsStuck(items, itemLimit, size, n - 1);
    }
  }

  /** The limit-only client sees the same pages exactly if the first one is complete or has at least two items. */
  lemma LegacyAgreesIff<T>(items: seq<T>, itemLimit: int, size: seq<T> -> nat)
    ensures LegacyAgrees(items, itemLimit, size) <==>
              PageEnd(items, 0, itemLimit, size) == |items| || PageEnd(items, 0, itemLimit, size) >= 2
  {
    var first := PageEnd(items, 0, itemLimit, size);
    PageEndFacts(items, 0, itemLimit, size);
    assert CursorAt(items, itemLimit, size, 1) == first by {
      assert CursorAt(items, itemLimit, size, 0) == 0;
    }
    if first == |items| {
      forall n: nat | CursorAt(items, itemLimit, size, n) < |items|
        ensures LegacyAt(items, itemLimit, size, n) == CursorAt(items, itemLimit, size, n)
      {
        CursorGrows(items, itemLimit, size, n);
      }
    } else if first >= 2 {
      forall n: nat | CursorAt(items, itemLimit, size, n) < |items|
        ensures LegacyAt(items, itemLimit, size, n) == CursorAt(items, itemLimit, size, n)
      {
        LegacyFollowsCursor(items, itemLimit, size, n);
      }
    } else {
      LegacyIsStuck(items, itemLimit, size, 1);
    }
  }
}
