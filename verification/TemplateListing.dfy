/** Listing templates: the paged fetch of one status, and the offset cursor over the merged drafts. */
module TemplateListing {
  import opened Calls
  import opened StableSort

  // ---------- Fetching one status, page by page ----------

  function Flatten<T>(pages: seq<seq<T>>): seq<T> {
    if pages == [] then [] else Flatten(pages[..|pages|-1]) + pages[|pages|-1]
  }

  const MAX_ITEMS := 500

  /**
   The pages of the index, fetched until the last or until 500 items are there.  With at most 50
   items a page no more than 549 come back, and nothing is missing when everything
   before the last page is below the limit.
   */
  method QueryAllTemplatesByStatus<T>(pages: seq<seq<T>>) returns (items: seq<T>, fetched: nat)
    requires |pages| > 0
    ensures 1 <= fetched <= |pages| && items == Flatten(pages[..fetched])
    ensures fetched < |pages| ==> |items| >= 500
    ensures forall k :: 1 <= k < fetched ==> |Flatten(pages[..k])| < 500
    ensures (forall p <- pages :: |p| <= 50) ==> |items| <= 549
  {
    items := pages[0];
    fetched := 1;
    assert pages[..1][..0] == [] && pages[..1][0] == pages[0];
    while fetched < |pages| && |items| < MAX_ITEMS
      invariant 1 <= fetched <= |pages| && items == Flatten(pages[..fetched])
      invariant forall k :: 1 <= k < fetched ==> |Flatten(pages[..k])| < MAX_ITEMS
      invariant (forall p <- pages :: |p| <= 50) ==> |items| <= 549
    {
      assert pages[..fetched + 1][..fetched] == pages[..fetched];
      assert pages[fetched] in pages;
      items := items + pages[fetched];
      fetched := fetched + 1;
    }
  }

  lemma {:induction false} FlattenGrows<T>(pages: seq<seq<T>>, k: nat)
    requires k <= |pages|
    ensures |Flatten(pages[..k])| <= |Flatten(pages)|
  {
    if k == |pages| {
      assert pages[..k] == pages;
    } else {
      FlattenGrows(pages[..|pages|-1], k);
      assert pages[..|pages|-1][..k] == pages[..k];
    }
  }

  /** Nothing is cut off when the pages before the last hold fewer than 500 items. */
  lemma ShortListsAreComplete<T>(pages: seq<seq<T>>, fetched: nat)
    requires 1 <= fetched <= |pages|
    requires fetched < |pages| ==> |Flatten(pages[..fetched])| >= 500
    requires |Flatten(pages[..|pages|-1])| < 500
    ensures Flatten(pages[..fetched]) == Flatten(pages)
  {
    if fetched < |pages| {
      assert pages[..|pages|-1][..fetched] == pages[..fetched];
      FlattenGrows(pages[..|pages|-1], fetched);
    } else {
      assert pages[..fetched] == pages;
    }
  }

  // ---------- The merged draft list and its cursor ----------

  /** The limit of a request: 20 when absent, zero or not a number, and never above 50. */
  function PageLimit(raw: Option<int>): int {
    var wanted := if raw.None? || raw.value == 0 then 20 else raw.value;
    if wanted < 50 then wanted else 50
  }

  function Bound(n: int, length: nat): nat {
    if n < 0 then (if length + n < 0 then 0 else length + n) else if n < length then n else length
  }

  /** slice: a negative bound counts from the end. */
  function Slice<T>(xs: seq<T>, from: int, to: int): seq<T> {
    var a, b := Bound(from, |xs|), Bound(to, |xs|);
    if a < b then xs[a..b] else []
  }

  datatype Page<T> = Page(templates: seq<T>, next: Option<int>)

  function NewestFirst<T>(updated: T -> int): T -> int {
    x => -updated(x)
  }

  /** Newest first; drafts before templates in testing when they are of the same age. */
  function Merged<T>(drafts: seq<T>, testing: seq<T>, updated: T -> int): seq<T> {
    Sort(drafts + testing, NewestFirst(updated))
  }

  function ListDrafts<T>(merged: seq<T>, offset: int, limit: int): Page<T> {
    Page(Slice(merged, offset, offset + limit),
         if offset + limit < |merged| then Some(offset + limit) else None)
  }

  /** The k-th cursor of a client that starts at the beginning and follows every cursor it is given. */
  function Cursor<T>(merged: seq<T>, limit: int, k: nat): Option<int> {
    if k == 0 then Some(0)
    else match Cursor(merged, limit, k - 1)
         case None => None
         case Some(offset) => ListDrafts(merged, offset, limit).next
  }

  /** Everything the client has seen when it has used its first k cursors. */
  function Seen<T>(merged: seq<T>, limit: int, k: nat): seq<T> {
    if k == 0 then []
    else Seen(merged, limit, k - 1) +
         match Cursor(merged, limit, k - 1)
         case None => []
         case Some(offset) => ListDrafts(merged, offset, limit).templates
  }

  /** What a page holds: as many templates as asked for, 20 when none are asked for, at most 50, from the offset on. */
  lemma PageHolds<T>(merged: seq<T>, offset: nat, raw: Option<int>)
    requires offset <= |merged| && (raw.None? || raw.value >= 0)
    ensures var templates := ListDrafts(merged, offset, PageLimit(raw)).templates;
            && templates == merged[offset..offset + |templates|]
            && (offset + |templates| < |merged| ==> |templates| == if raw.None? || raw == Some(0) then 20 else if raw.value > 50 then 50 else raw.value)
            && |templates| <= (if raw.None? || raw == Some(0) then 20 else if raw.value > 50 then 50 else raw.value)
            && (ListDrafts(merged, offset, PageLimit(raw)).next.Some? <==> offset + |templates| < |merged|)
  {
  }

  lemma PageContinues<T>(merged: seq<T>, offset: int, limit: int)
    requires limit >= 1 && 0 <= offset <= |merged|
    ensures var p := ListDrafts(merged, offset, limit);
            merged[..offset] + p.templates == match p.next
                                              case None => merged
                                              case Some(o) => if o <= |merged| then merged[..o] else []
    ensures ListDrafts(merged, offset, limit).next.Some? ==> offset < ListDrafts(merged, offset, limit).next.value < |merged|
  {
  }

  lemma {:induction false} WalkSoFar<T>(merged: seq<T>, limit: int, k: nat)
    requires limit >= 1
    ensures match Cursor(merged, limit, k)
            case None => Seen(merged, limit, k) == merged
            case Some(offset) => k <= offset <= |merged| && Seen(merged, limit, k) == merged[..offset]
  {
    hide ListDrafts;
    if k > 0 {
      WalkSoFar(merged, limit, k - 1);
      var before := Cursor(merged, limit, k - 1);
      if before.Some? { PageContinues(merged, before.value, limit); }
    }
  }

  lemma {:induction false} NegativeLimitKeepsGoing<T>(merged: seq<T>, limit: int, k: nat)
    requires limit < 0
    ensures Cursor(merged, limit, k).Some? && Cursor(merged, limit, k).value + k <= 0
  {
    if k > 0 { NegativeLimitKeepsGoing(merged, limit, k - 1); }
  }

  /** The client is given no further cursor. */
  predicate WalkDone<T>(merged: seq<T>, limit: int, k: nat) {
    Cursor(merged, limit, k).None?
  }

  /** Following the cursors terminates if and only if the requested limit is not negative. */
  lemma WalkEnds<T>(merged: seq<T>, raw: Option<int>)
    ensures (exists k: nat :: WalkDone(merged, PageLimit(raw), k)) <==> (raw.None? || raw.value >= 0)
  {
    var limit := PageLimit(raw);
    if limit >= 1 {
      var k: nat := |merged| + 1;
      WalkSoFar(merged, limit, k);
      assert WalkDone(merged, PageLimit(raw), k);
    } else {
      forall k: nat ensures !WalkDone(merged, limit, k) { NegativeLimitKeepsGoing(merged, limit, k); }
    }
  }

  /**
   A client that follows the cursors to the end has seen the drafts and the templates in testing
   exactly once each, newest first, and in their fetched order where they are of the same age.
   */
  lemma DraftWalkIsComplete<T>(drafts: seq<T>, testing: seq<T>, updated: T -> int, raw: Option<int>, k: nat)
    requires raw.None? || raw.value >= 0
    requires WalkDone(Merged(drafts, testing, updated), PageLimit(raw), k)
    ensures var seen := Seen(Merged(drafts, testing, updated), PageLimit(raw), k);
            && multiset(seen) == multiset(drafts) + multiset(testing)
            && (forall i, j :: 0 <= i < j < |seen| ==> updated(seen[i]) >= updated(seen[j]))
            && (forall t :: WithKey(seen, NewestFirst(updated), t) == WithKey(drafts + testing, NewestFirst(updated), t))
  {
    WalkSoFar(Merged(drafts, testing, updated), PageLimit(raw), k);
    SortIsStable(drafts + testing, NewestFirst(updated));
  }
}
