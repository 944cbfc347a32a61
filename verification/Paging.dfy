/** Paging over the owner's inbox: a cursor names the last item of a page. */
module Paging {
  import opened Contracts

  datatype Bucket = NeedsYou | Working | Finished

  datatype Item = Item(caseId: string, lastActivityAt: Time, bucket: Bucket)

  datatype Cursor = Cursor(caseId: string, lastActivityAt: Time, bucket: Option<Bucket>)

  datatype PageResult = PageResult(items: seq<Item>, nextCursor: Option<Cursor>)

  datatype AnalysisItem = AnalysisItem(item: Item, ready: bool)

  // The inbox before it is sorted.

  function Filtered(items: seq<Item>, bucket: Option<Bucket>): seq<Item> {
    if items == [] then []
    else (if bucket.None? || bucket.value == items[0].bucket then [items[0]] else []) + Filtered(items[1..], bucket)
  }

  /** Analysis jobs show until their draft is ready or their case runs. */
  function Pending(jobs: seq<AnalysisItem>, running: set<string>): seq<Item> {
    if jobs == [] then []
    else
      (if !jobs[0].ready && jobs[0].item.caseId !in running then [jobs[0].item] else []) + Pending(jobs[1..], running)
  }

  function CaseIds(items: seq<Item>): set<string> {
    set item | item in items :: item.caseId
  }

  function Inbox(runs: seq<Item>, jobs: seq<AnalysisItem>, bucket: Option<Bucket>): seq<Item> {
    Filtered(runs + Pending(jobs, CaseIds(runs)), bucket)
  }

  predicate DistinctIds(items: seq<Item>) {
    forall i, j | 0 <= i < j < |items| :: items[i].caseId != items[j].caseId
  }

  lemma {:induction false} FilteredIsPart(items: seq<Item>, bucket: Option<Bucket>)
    ensures forall item ::
      item in Filtered(items, bucket) <==> item in items && (bucket.None? || item.bucket == bucket.value)
    ensures DistinctIds(items) ==> DistinctIds(Filtered(items, bucket))
  {
    if items != [] {
      FilteredIsPart(items[1..], bucket);
      assert forall item :: item in items <==> item == items[0] || item in items[1..];
    }
  }

  lemma {:induction false} PendingIsPart(jobs: seq<AnalysisItem>, running: set<string>)
    ensures forall item <- Pending(jobs, running) ::
              item.caseId !in running && exists i | 0 <= i < |jobs| :: jobs[i].item == item && !jobs[i].ready
    ensures (forall i, j | 0 <= i < j < |jobs| :: jobs[i].item.caseId != jobs[j].item.caseId) ==>
              DistinctIds(Pending(jobs, running))
  {
    if jobs != [] {
      PendingIsPart(jobs[1..], running);
      forall item | item in Pending(jobs[1..], running)
        ensures exists i | 0 <= i < |jobs| :: jobs[i].item == item && !jobs[i].ready
      {
        var i :| 0 <= i < |jobs| - 1 && jobs[1..][i].item == item && !jobs[1..][i].ready;
        assert jobs[i + 1].item == item;
      }
    }
  }

  lemma {:induction false} PendingExact(jobs: seq<AnalysisItem>, running: set<string>, item: Item)
    ensures item in Pending(jobs, running) <==> AnalysisItem(item, false) in jobs && item.caseId !in running
  {
    if jobs != [] {
      PendingExact(jobs[1..], running, item);
      assert forall job :: job in jobs <==> job == jobs[0] || job in jobs[1..];
    }
  }

  /** The inbox shows every run, and every job that is not ready and has no run, of the bucket asked for. */
  lemma InboxExact(runs: seq<Item>, jobs: seq<AnalysisItem>, bucket: Option<Bucket>, item: Item)
    ensures item in Inbox(runs, jobs, bucket) <==>
      && (bucket.None? || item.bucket == bucket.value)
      && (item in runs || (AnalysisItem(item, false) in jobs && forall run <- runs :: run.caseId != item.caseId))
  {
    FilteredIsPart(runs + Pending(jobs, CaseIds(runs)), bucket);
    PendingExact(jobs, CaseIds(runs), item);
    assert item.caseId in CaseIds(runs) <==> exists run <- runs :: run.caseId == item.caseId;
  }

  /** A case shows once, as a run or as a job, whatever the filter. */
  lemma InboxHasDistinctIds(runs: seq<Item>, jobs: seq<AnalysisItem>, bucket: Option<Bucket>)
    requires DistinctIds(runs)
    requires forall i, j | 0 <= i < j < |jobs| :: jobs[i].item.caseId != jobs[j].item.caseId
    ensures DistinctIds(Inbox(runs, jobs, bucket))
  {
    var pending := Pending(jobs, CaseIds(runs));
    PendingIsPart(jobs, CaseIds(runs));
    forall i, k | 0 <= i < |runs| && 0 <= k < |pending|
      ensures runs[i].caseId != pending[k].caseId
    {
      assert pending[k] in pending && runs[i].caseId in CaseIds(runs);
    }
    FilteredIsPart(runs + pending, bucket);
  }

  // Pages of the ordered inbox.

  /** Anything but an integer counts as 10. */
  function Clamp(requested: Option<int>): nat {
    if requested.None? then 10
    else if requested.value < 1 then 1
    else if requested.value > 25 then 25
    else requested.value
  }

  /** One past the first item the cursor names, or 0. */
  function After(ordered: seq<Item>, cursor: Cursor): (start: nat)
    ensures start <= |ordered|
  {
    if ordered == [] then 0
    else if ordered[0].caseId == cursor.caseId && ordered[0].lastActivityAt == cursor.lastActivityAt then 1
    else
      var rest := After(ordered[1..], cursor);
      if rest == 0 then 0 else rest + 1
  }

  function Page(ordered: seq<Item>, bucket: Option<Bucket>, cursor: Option<Cursor>, requested: Option<int>)
    : Result<PageResult>
  {
    if cursor.Some? && (cursor.value.bucket != bucket || After(ordered, cursor.value) == 0) then Err("CURSOR_INVALID")
    else
      var start := if cursor.Some? then After(ordered, cursor.value) else 0;
      var end := if start + Clamp(requested) < |ordered| then start + Clamp(requested) else |ordered|;
      var items := ordered[start..end];
      var last := if items != [] && end < |ordered|
                  then Some(Cursor(items[|items| - 1].caseId, items[|items| - 1].lastActivityAt, bucket)) else None;
      Ok(PageResult(items, last))
  }

  /** A page holds as many items as were asked for, ten by default and 1 to 25 in any case, unless fewer are left. */
  lemma PageFull(ordered: seq<Item>, bucket: Option<Bucket>, cursor: Option<Cursor>, requested: Option<int>)
    requires Page(ordered, bucket, cursor, requested).Ok?
    ensures var page := Page(ordered, bucket, cursor, requested).value;
            var wanted := match requested case None => 10
                                          case Some(n) => if n < 1 then 1 else if n < 25 then n else 25;
            var left := |ordered| - StartOf(ordered, cursor);
            |page.items| == (if wanted < left then wanted else left) && (page.nextCursor.Some? <==> wanted < left)
  {
  }

  /** A cursor is refused exactly if it was given for another filter or names no item of the inbox. */
  lemma CursorRefusedIff(ordered: seq<Item>, bucket: Option<Bucket>, cursor: Cursor, requested: Option<int>)
    ensures Page(ordered, bucket, Some(cursor), requested).Err? <==>
      || cursor.bucket != bucket
      || forall item <- ordered :: item.caseId != cursor.caseId || item.lastActivityAt != cursor.lastActivityAt
  {
    FoundIff(ordered, cursor);
  }

  lemma {:induction false} FoundIff(ordered: seq<Item>, cursor: Cursor)
    ensures After(ordered, cursor) == 0 <==>
      forall item <- ordered :: item.caseId != cursor.caseId || item.lastActivityAt != cursor.lastActivityAt
  {
    if ordered != [] {
      FoundIff(ordered[1..], cursor);
      assert forall item :: item in ordered <==> item == ordered[0] || item in ordered[1..];
    }
  }

  /** No two items share both case and activity time. */
  predicate DistinctKeys(ordered: seq<Item>) {
    forall i, j | 0 <= i < j < |ordered| ::
      ordered[i].caseId != ordered[j].caseId || ordered[i].lastActivityAt != ordered[j].lastActivityAt
  }

  lemma {:induction false} CursorFindsItem(ordered: seq<Item>, i: nat, bucket: Option<Bucket>)
    requires DistinctKeys(ordered) && i < |ordered|
    ensures After(ordered, Cursor(ordered[i].caseId, ordered[i].lastActivityAt, bucket)) == i + 1
  {
    if i > 0 {
      CursorFindsItem(ordered[1..], i - 1, bucket);
    }
  }

  function StartOf(ordered: seq<Item>, cursor: Option<Cursor>): nat {
    if cursor.Some? then After(ordered, cursor.value) else 0
  }

  /** A next cursor starts where its page has ended. */
  lemma NextPageStarts(ordered: seq<Item>, bucket: Option<Bucket>, cursor: Option<Cursor>, requested: Option<int>)
    requires DistinctKeys(ordered) && Page(ordered, bucket, cursor, requested).Ok?
    ensures var page := Page(ordered, bucket, cursor, requested).value;
            var start := StartOf(ordered, cursor);
            && start + |page.items| <= |ordered| && page.items == ordered[start..start + |page.items|]
            && (page.nextCursor.Some? <==> start + |page.items| < |ordered|)
            && (page.nextCursor.Some? ==>
                  && page.items != [] && page.nextCursor.value.bucket == bucket
                  && After(ordered, page.nextCursor.value) == start + |page.items|)
  {
    var page := Page(ordered, bucket, cursor, requested).value;
    var end := StartOf(ordered, cursor) + |page.items|;
    if page.nextCursor.Some? {
      assert page.items[|page.items| - 1] == ordered[end - 1];
      CursorFindsItem(ordered, end - 1, bucket);
    }
  }

  /** The pages that follow one another, with the limits asked for one after the other. */
  function Follow(ordered: seq<Item>, bucket: Option<Bucket>, cursor: Option<Cursor>,
                  limits: nat -> Option<int>, n: nat): seq<seq<Item>>
    requires DistinctKeys(ordered)
    decreases |ordered| - StartOf(ordered, cursor)
  {
    match Page(ordered, bucket, cursor, limits(n))
    case Err(_) => []
    case Ok(page) =>
      NextPageStarts(ordered, bucket, cursor, limits(n));
      if page.nextCursor.None? then [page.items]
      else [page.items] + Follow(ordered, bucket, page.nextCursor, limits, n + 1)
  }

  function Flatten(pages: seq<seq<Item>>): seq<Item> {
    if pages == [] then [] else pages[0] + Flatten(pages[1..])
  }

  lemma FlattenCons(first: seq<Item>, rest: seq<seq<Item>>)
    ensures Flatten([first] + rest) == first + Flatten(rest)
  {
    assert ([first] + rest)[1..] == rest;
  }

  lemma FollowStep(ordered: seq<Item>, bucket: Option<Bucket>, cursor: Option<Cursor>,
                   limits: nat -> Option<int>, n: nat)
    requires DistinctKeys(ordered) && Page(ordered, bucket, cursor, limits(n)).Ok?
    ensures var page := Page(ordered, bucket, cursor, limits(n)).value;
            Follow(ordered, bucket, cursor, limits, n)
              == [page.items]
                 + if page.nextCursor.None? then [] else Follow(ordered, bucket, page.nextCursor, limits, n + 1)
  {
  }

  lemma SlicesJoin(ordered: seq<Item>, i: nat, j: nat)
    requires i <= j <= |ordered|
    ensures ordered[i..] == ordered[i..j] + ordered[j..]
  {
  }

  lemma {:induction false} FollowYieldsRest(ordered: seq<Item>, bucket: Option<Bucket>, cursor: Option<Cursor>,
                                            limits: nat -> Option<int>, n: nat)
    requires DistinctKeys(ordered) && Page(ordered, bucket, cursor, limits(n)).Ok?
    ensures Flatten(Follow(ordered, bucket, cursor, limits, n)) == ordered[StartOf(ordered, cursor)..]
    decreases |ordered| - StartOf(ordered, cursor)
  {
    var page := Page(ordered, bucket, cursor, limits(n)).value;
    var next := page.nextCursor;
    NextPageStarts(ordered, bucket, cursor, limits(n));
    FollowStep(ordered, bucket, cursor, limits, n);
    var start := StartOf(ordered, cursor);
    if next.None? {
      FlattenCons(page.items, []);
    } else {
      var rest := Follow(ordered, bucket, next, limits, n + 1);
      FlattenCons(page.items, rest);
      FollowYieldsRest(ordered, bucket, next, limits, n + 1);
      SlicesJoin(ordered, start, start + |page.items|);
    }
  }

  /**
   * Paging refines slicing: on an unchanged inbox, following the cursor until there is none ends, and
   * with any limits yields every item once and in order.
   */
  lemma PagesAreTheInbox(ordered: seq<Item>, bucket: Option<Bucket>, limits: nat -> Option<int>)
    requires DistinctKeys(ordered)
    ensures Flatten(Follow(ordered, bucket, None, limits, 0)) == ordered
  {
    FollowYieldsRest(ordered, bucket, None, limits, 0);
    assert ordered[0..] == ordered;
  }

  lemma CountsOnce(items: seq<Item>, item: Item)
    requires DistinctIds(items)
    ensures multiset(items)[item] <= 1
  {
    if i :| 0 <= i < |items| && items[i] == item {
      assert items == items[..i] + [item] + items[i + 1..];
      assert item !in items[..i] && item !in items[i + 1..];
    }
  }

  lemma CountsTwice(items: seq<Item>, i: nat, j: nat)
    requires i < j < |items| && items[i] == items[j]
    ensures multiset(items)[items[i]] >= 2
  {
    assert items == items[..j] + [items[j]] + items[j + 1..];
    assert items[..j][i] == items[i];
  }

  /** Sorting does not bring ids together. */
  lemma DistinctInAnyOrder(items: seq<Item>, ordered: seq<Item>)
    requires DistinctIds(items) && multiset(ordered) == multiset(items)
    ensures DistinctIds(ordered)
  {
    forall i, j | 0 <= i < j < |ordered|
      ensures ordered[i].caseId != ordered[j].caseId
    {
      assert ordered[i] in multiset(ordered) && ordered[j] in multiset(ordered);
      assert ordered[i] in items && ordered[j] in items;
      if ordered[i] == ordered[j] {
        CountsTwice(ordered, i, j);
        CountsOnce(items, ordered[i]);
      }
    }
  }

  /** The inbox in any order has distinct keys, so its pages, followed to the end, are that very list. */
  lemma InboxIsPaged(runs: seq<Item>, jobs: seq<AnalysisItem>, bucket: Option<Bucket>, ordered: seq<Item>,
                     limits: nat -> Option<int>)
    requires DistinctIds(runs)
    requires forall i, j | 0 <= i < j < |jobs| :: jobs[i].item.caseId != jobs[j].item.caseId
    requires multiset(ordered) == multiset(Inbox(runs, jobs, bucket))
    ensures DistinctKeys(ordered) && Flatten(Follow(ordered, bucket, None, limits, 0)) == ordered
  {
    InboxHasDistinctIds(runs, jobs, bucket);
    DistinctInAnyOrder(Inbox(runs, jobs, bucket), ordered);
    PagesAreTheInbox(ordered, bucket, limits);
  }

  /** The cursor of an item that shares its key with an earlier one leads behind the earlier one. */
  lemma {:induction false} SharedKeyRepeats(ordered: seq<Item>, i: nat, j: nat, bucket: Option<Bucket>)
    requires i < j < |ordered|
    requires ordered[i].caseId == ordered[j].caseId && ordered[i].lastActivityAt == ordered[j].lastActivityAt
    ensures After(ordered, Cursor(ordered[j].caseId, ordered[j].lastActivityAt, bucket)) <= i + 1
  {
    if i > 0 {
      SharedKeyRepeats(ordered[1..], i - 1, j - 1, bucket);
    }
  }

  /**
   * Every cursor that a page can end in leads to the item after it exactly when all items but the last,
   * behind which no page goes on, have keys of their own.
   */
  lemma CursorsResolveIff(ordered: seq<Item>, bucket: Option<Bucket>)
    requires ordered != []
    ensures DistinctKeys(ordered[..|ordered| - 1]) <==>
      forall j | 0 <= j < |ordered| - 1 ::
        After(ordered, Cursor(ordered[j].caseId, ordered[j].lastActivityAt, bucket)) == j + 1
  {
    var front := ordered[..|ordered| - 1];
    if DistinctKeys(front) {
      forall j | 0 <= j < |ordered| - 1
        ensures After(ordered, Cursor(ordered[j].caseId, ordered[j].lastActivityAt, bucket)) == j + 1
      {
        FirstIsFound(ordered, j, bucket);
      }
    } else {
      var i, j :| 0 <= i < j < |front|
        && !(front[i].caseId != front[j].caseId || front[i].lastActivityAt != front[j].lastActivityAt);
      SharedKeyRepeats(ordered, i, j, bucket);
    }
  }

  lemma {:induction false} FirstIsFound(ordered: seq<Item>, j: nat, bucket: Option<Bucket>)
    requires j < |ordered| && DistinctKeys(ordered[..j + 1])
    ensures After(ordered, Cursor(ordered[j].caseId, ordered[j].lastActivityAt, bucket)) == j + 1
  {
    if j > 0 {
      assert ordered[..j + 1][0] == ordered[0] && ordered[..j + 1][j] == ordered[j];
      assert ordered[1..][..j] == ordered[..j + 1][1..];
      FirstIsFound(ordered[1..], j - 1, bucket);
    }
  }
}
