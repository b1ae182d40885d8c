/**
  A bitmap allocator of contiguous pages. The search for a block jumps ahead after a
  conflict, over the conflicting page and one page more, and never tries the last start.
 */
module PageAllocator {
  import opened Options

  /** What the search does, as a function of the bitmap: 0 is free, 1 is used. */
  type Bitmap = seq<int>

  predicate Bits(b: Bitmap) { forall k :: 0 <= k < |b| ==> b[k] == 0 || b[k] == 1 }

  predicate FreeRun(b: Bitmap, start: nat, count: nat) {
    start + count <= |b| && forall k :: start <= k < start + count ==> b[k] == 0
  }

  /** Page i is the first of a free gap. */
  predicate GapStart(b: Bitmap, i: nat)
    requires i < |b|
  {
    b[i] == 0 && (i == 0 || b[i - 1] == 1)
  }

  /**
    The search passes over the first page of the gap at i: one used page separates the gap
    from another, and the search hit that page from a start in that other gap. It had a start
    there if the other gap has two pages, or if its only page was not passed over itself.
   */
  predicate PassedOver(b: Bitmap, i: nat)
    requires i < |b|
  {
    && i >= 2 && b[i - 1] == 1 && b[i - 2] == 0
    && ((i >= 3 && b[i - 3] == 0) || !PassedOver(b, i - 2))
  }

  /** A start that the search can grant. */
  predicate Admissible(b: Bitmap, count: nat, t: nat) {
    t + count < |b| && FreeRun(b, t, count) && !(GapStart(b, t) && PassedOver(b, t))
  }

  /** The first used page of a block, as an offset from its start. */
  function Conflict(b: Bitmap, start: nat, count: nat, j: nat): (r: Option<nat>)
    requires start + count <= |b| && j <= count
    ensures r.Some? ==> j <= r.value < count && b[start + r.value] == 1
    ensures forall k :: start + j <= k < start + (if r.Some? then r.value else count) ==> b[k] != 1
    decreases count - j
  {
    if j == count then None else if b[start + j] == 1 then Some(j) else Conflict(b, start, count, j + 1)
  }

  /** The search from page i on. */
  function Search(b: Bitmap, count: nat, i: nat): Option<nat>
    requires count <= |b|
    decreases |b| - count - i
  {
    if i >= |b| - count then None
    else if b[i] != 0 then Search(b, count, i + 1)
    else match Conflict(b, i, count, 0)
         case None => Some(i)
         case Some(j) => Search(b, count, i + j + 2)
  }

  // -------------------------------------------------------- what the search finds

  /** What holds whenever the search looks at page i. */
  predicate AtHead(b: Bitmap, count: nat, i: nat) {
    && (i < |b| && GapStart(b, i) ==> !PassedOver(b, i))
    && (1 <= i <= |b| && b[i - 1] == 0 ==> i >= 2 && b[i - 2] == 1 && PassedOver(b, i - 1))
    && (forall t :: 0 <= t < i ==> !Admissible(b, count, t))
  }

  lemma PastUsed(b: Bitmap, count: nat, i: nat)
    requires Bits(b) && 0 < count && i + count < |b| && AtHead(b, count, i) && b[i] == 1
    ensures AtHead(b, count, i + 1)
  {
  }

  lemma PastConflict(b: Bitmap, count: nat, i: nat, j: nat)
    requires Bits(b) && 0 < count && i + count < |b| && AtHead(b, count, i) && b[i] == 0
    requires 0 < j < count && b[i + j] == 1 && forall k :: i <= k < i + j ==> b[k] == 0
    ensures AtHead(b, count, i + j + 2)
  {
    var p := i + j;
    assert PassedOver(b, p + 1);
    forall t | 0 <= t < p + 2 ensures !Admissible(b, count, t) {
      if i <= t <= p { assert t <= p < t + count; }
    }
  }

  lemma {:induction false} SearchFrom(b: Bitmap, count: nat, i: nat)
    requires Bits(b) && 0 < count <= |b| && AtHead(b, count, i)
    ensures match Search(b, count, i)
      case Some(t) => Admissible(b, count, t) && forall u :: 0 <= u < t ==> !Admissible(b, count, u)
      case None => forall u :: !Admissible(b, count, u)
    decreases |b| - count - i
  {
    if i < |b| - count {
      if b[i] != 0 {
        PastUsed(b, count, i);
        SearchFrom(b, count, i + 1);
      } else {
        var c := Conflict(b, i, count, 0);
        if c.Some? {
          assert c.value > 0;
          PastConflict(b, count, i, c.value);
          SearchFrom(b, count, i + c.value + 2);
        }
      }
    }
  }

  /** The search grants the lowest admissible start, and refuses exactly if there is none. */
  lemma SearchIsExact(b: Bitmap, count: nat)
    requires Bits(b) && 0 < count <= |b|
    ensures match Search(b, count, 0)
      case Some(t) => Admissible(b, count, t) && forall u :: 0 <= u < t ==> !Admissible(b, count, u)
      case None => forall u :: !Admissible(b, count, u)
  {
    SearchFrom(b, count, 0);
  }

  /**
    Soundness and near-completeness: a granted block is free; a request for `count` pages is
    granted whenever there is a free run of one page more that ends before the last page, and
    then at a start no later than the second page of that run.
   */
  lemma SearchNearlyComplete(b: Bitmap, count: nat, s: nat)
    requires Bits(b) && 0 < count <= |b|
    ensures Search(b, count, 0).Some? ==> FreeRun(b, Search(b, count, 0).value, count) && Search(b, count, 0).value + count < |b|
    ensures FreeRun(b, s, count + 1) && s + count < |b| - 1 ==> Search(b, count, 0).Some? && Search(b, count, 0).value <= s + 1
  {
    SearchIsExact(b, count);
    if FreeRun(b, s, count + 1) && s + count < |b| - 1 {
      assert Admissible(b, count, s + 1);
    }
  }

  /** The search is not complete: of a bitmap whose last pages alone are free, it grants none. */
  lemma LastStartNeverTried(n: nat, count: nat)
    requires 0 < count <= n
    ensures var b := seq(n, k => if k < n - count then 1 else 0);
      FreeRun(b, n - count, count) && Search(b, count, 0) == None
  {
    var b := seq(n, k => if k < n - count then 1 else 0);
    forall t: nat ensures !Admissible(b, count, t) {
      assert FreeRun(b, t, count) ==> b[t] == 0;
    }
    SearchIsExact(b, count);
  }

  /** Nor away from the end: a gap of the right size is passed over after a gap too small. */
  lemma GapPassedOver(count: nat)
    requires count >= 2
    ensures var b := seq(count + 4, k => if k == 0 || 2 <= k < count + 2 then 0 else 1);
      FreeRun(b, 2, count) && Search(b, count, 0) == None
  {
    var b := seq(count + 4, k => if k == 0 || 2 <= k < count + 2 then 0 else 1);
    assert GapStart(b, 2) && PassedOver(b, 2);
    forall t: nat ensures !Admissible(b, count, t) {
      assert FreeRun(b, t, count) ==> b[t] == 0 && b[t + 1] == 0 && b[t + (count - 1)] == 0;
    }
    SearchIsExact(b, count);
  }

  // -------------------------------------------------------------- the allocator

  /** A bitmap with `count` pages from `first` on set to v. */
  function Marked(b: Bitmap, first: nat, count: nat, v: int): (r: Bitmap)
    requires first + count <= |b|
    ensures |r| == |b|
    ensures forall k :: 0 <= k < |b| ==> r[k] == if first <= k < first + count then v else b[k]
  {
    b[..first] + seq(count, k => v) + b[first + count..]
  }

  /** Freeing what was just granted restores the bitmap. */
  lemma FreeUndoesAllocate(b: Bitmap, first: nat, count: nat)
    requires FreeRun(b, first, count)
    ensures Marked(Marked(b, first, count, 1), first, count, 0) == b
  {
  }

  datatype Outcome =
    | InvalidInput | Granted(first: nat) | NoBlock | ProtectionFailed
    | NotAllocated | Freed | FewerAllocated

  class Allocator {
    const pages: nat
    var bitmap: array<int>
    /** Access mode of each page of the mapping: readable and writable, or none. */
    var accessible: array<bool>

    ghost predicate Valid()
      reads this, bitmap, accessible
    {
      && bitmap.Length == accessible.Length == pages && Bits(bitmap[..])
      && forall k :: 0 <= k < pages ==> (accessible[k] <==> bitmap[k] == 1)
    }

    constructor (pages: nat)
      ensures Valid() && this.pages == pages && fresh(bitmap) && fresh(accessible)
      ensures bitmap[..] == seq(pages, k => 0)
    {
      this.pages := pages;
      bitmap := new int[pages](k => 0);
      accessible := new bool[pages](k => false);
    }

    /** The two nested loops that look for a block; the inner one moves the outer index. */
    method FindBlock(contiguous: nat) returns (r: Option<nat>)
      requires Valid() && 0 < contiguous <= pages
      ensures r == Search(bitmap[..], contiguous, 0)
    {
      var found := false;
      var i: nat := 0;
      while i < pages - contiguous
        invariant !found && Search(bitmap[..], contiguous, 0) == Search(bitmap[..], contiguous, i)
      {
        if bitmap[i] == 0 {
          found := true;
          var start, j: nat := i, 0;
          while j < contiguous
            invariant found && i == start && j <= contiguous
            invariant Conflict(bitmap[..], start, contiguous, 0) == Conflict(bitmap[..], start, contiguous, j)
          {
            if bitmap[i + j] == 1 {
              found := false;
              i := i + j + 1;
              break;
            }
            j := j + 1;
          }
          if found { return Some(i); }
        }
        i := i + 1;
      }
      r := None;
    }

    method SetRange(first: nat, count: nat, v: int)
      requires Valid() && first + count <= pages && (v == 0 || v == 1)
      modifies bitmap, accessible
      ensures Valid() && bitmap[..] == Marked(old(bitmap[..]), first, count, v)
    {
      Mprotect(first, count, v == 1);
      ghost var was := bitmap[..];
      var j := first;
      while j < first + count
        invariant first <= j <= first + count
        invariant forall k :: 0 <= k < pages ==> bitmap[k] == if first <= k < j then v else was[k]
        invariant forall k :: 0 <= k < pages ==> accessible[k] == if first <= k < first + count then v == 1 else was[k] == 1
      {
        bitmap[j] := v;
        j := j + 1;
      }
      assert bitmap[..] == Marked(was, first, count, v);
    }

    /** Changes the access mode of a range of pages. */
    method Mprotect(first: nat, count: nat, access: bool)
      requires accessible.Length == pages && first + count <= pages
      modifies accessible
      ensures forall k :: 0 <= k < pages ==> accessible[k] == if first <= k < first + count then access else old(accessible[k])
    {
      forall k | first <= k < first + count { accessible[k] := access; }
    }

    /** Menu entry 1. The input may be no number; the system may refuse to change the access mode. */
    method Allocate(input: Option<nat>, protects: bool) returns (r: Outcome)
      requires Valid()
      modifies bitmap, accessible
      ensures Valid()
      ensures r == InvalidInput <==> input == None || input.value == 0 || input.value > pages
      ensures r != InvalidInput ==>
        match Search(old(bitmap[..]), input.value, 0)
        case None => r == NoBlock
        case Some(i) => r == if protects then Granted(i) else ProtectionFailed
      ensures r.Granted? ==>
        && FreeRun(old(bitmap[..]), r.first, input.value)
        && bitmap[..] == Marked(old(bitmap[..]), r.first, input.value, 1)
      ensures !r.Granted? ==> bitmap[..] == old(bitmap[..])
    {
      if input == None || input.value == 0 || input.value > pages { return InvalidInput; }
      var block := FindBlock(input.value);
      if block == None { return NoBlock; }
      if !protects { return ProtectionFailed; }
      SearchNearlyComplete(bitmap[..], input.value, 0);
      SetRange(block.value, input.value, 1);
      r := Granted(block.value);
    }

    /** Menu entry 2. */
    method Free(firstInput: Option<nat>, countInput: Option<nat>, protects: bool) returns (r: Outcome)
      requires Valid()
      modifies bitmap, accessible
      ensures Valid()
      ensures r in {InvalidInput, NotAllocated, FewerAllocated, ProtectionFailed, Freed}
      ensures r == NotAllocated <==>
        firstInput.Some? && firstInput.value < pages && old(bitmap[..])[firstInput.value] == 0
      ensures r in {FewerAllocated, ProtectionFailed, Freed} <==>
        && firstInput.Some? && firstInput.value < pages && old(bitmap[..])[firstInput.value] == 1
        && countInput.Some? && 0 < countInput.value && firstInput.value + countInput.value <= pages
      ensures r in {FewerAllocated, ProtectionFailed, Freed} ==>
        (r == FewerAllocated <==>
           exists k :: firstInput.value <= k < firstInput.value + countInput.value && old(bitmap[..])[k] == 0)
      ensures r == ProtectionFailed ==> !protects
      ensures r == Freed ==> protects && bitmap[..] == Marked(old(bitmap[..]), firstInput.value, countInput.value, 0)
      ensures r != Freed ==> bitmap[..] == old(bitmap[..])
    {
      if firstInput == None || firstInput.value >= pages { return InvalidInput; }
      var first := firstInput.value;
      if bitmap[first] == 0 { return NotAllocated; }
      if countInput == None || countInput.value == 0 || first + countInput.value > pages { return InvalidInput; }
      var contiguous := countInput.value;
      var found := true;
      var i := first;
      while i < first + contiguous
        invariant first <= i <= first + contiguous && found
        invariant forall k :: first <= k < i ==> bitmap[k] == 1
      {
        if bitmap[i] == 0 {
          found := false;
          break;
        }
        i := i + 1;
      }
      if !found { return FewerAllocated; }
      if !protects { return ProtectionFailed; }
      SetRange(first, contiguous, 0);
      r := Freed;
    }
  }
}
