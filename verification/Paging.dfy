/** Budgeted cursor paging (internal/store/read_events.go, internal/store/pagination.go).

  The rows a query matches are a fixed sequence; the encoded size of a row is part of the row.
  A cursor is the key it encodes.
 */
module Paging {
  import opened Model

  const PAGE_DATA_JSON_BUDGET: nat := 0x10_0000
  const PAGE_OVERHEAD: nat := 64
  const EVENT_PAGE_LIMIT: nat := 20
  const MAXIMUM_EVENT_PAGE_LIMIT: nat := 100
  const DEFAULT_PAGE_LIMIT: nat := 100
  const MAXIMUM_PAGE_LIMIT: nat := 500

  datatype Event = Event(id: nat, size: nat)

  datatype Key = Key(createdAt: nat, id: nat)

  datatype Row = Row(key: Key, size: nat)

  // ---- the budget ----

  function Sum(sizes: seq<nat>): nat {
    if sizes == [] then 0 else Sum(sizes[..|sizes| - 1]) + sizes[|sizes| - 1]
  }

  /** The encoded length of a page: its items with the commas between them, and the envelope. */
  function PageBytes(sizes: seq<nat>): nat {
    PAGE_OVERHEAD + Sum(sizes) + (if sizes == [] then 0 else |sizes| - 1)
  }

  predicate FitsAlone(size: nat) {
    PAGE_OVERHEAD + size <= PAGE_DATA_JSON_BUDGET
  }

  lemma {:induction false} EachIsPartOfSum(sizes: seq<nat>, i: nat)
    requires i < |sizes|
    ensures sizes[i] <= Sum(sizes)
    decreases |sizes|
  {
    if i < |sizes| - 1 {
      EachIsPartOfSum(sizes[..|sizes| - 1], i);
    }
  }

  /** The loop of budgetEventPage and of budgetPage: the longest prefix within limit and budget,
    and at least one item, unless that item alone is too large. */
  method Budget(sizes: seq<nat>, limit: nat) returns (taken: nat, ok: bool)
    requires limit >= 1
    ensures ok <==> sizes == [] || FitsAlone(sizes[0])
    ensures ok ==> taken <= |sizes| && taken <= limit && (sizes != [] ==> taken >= 1)
    ensures ok && taken > 0 ==> PageBytes(sizes[..taken]) <= PAGE_DATA_JSON_BUDGET
    ensures ok && taken < |sizes| && taken < limit ==> PageBytes(sizes[..taken + 1]) >= PAGE_DATA_JSON_BUDGET
  {
    var candidates := if |sizes| > limit then limit else |sizes|;
    var used := PAGE_OVERHEAD;
    taken := 0;
    while taken < candidates
      invariant 0 <= taken <= candidates
      invariant used == PAGE_OVERHEAD + Sum(sizes[..taken]) + taken
      invariant taken > 0 ==> FitsAlone(sizes[0]) && PageBytes(sizes[..taken]) <= PAGE_DATA_JSON_BUDGET
    {
      var size := sizes[taken];
      assert sizes[..taken + 1][..taken] == sizes[..taken];
      if taken > 0 && used + size + 1 > PAGE_DATA_JSON_BUDGET {
        assert PageBytes(sizes[..taken + 1]) == used + size;
        break;
      }
      if taken == 0 && used + size > PAGE_DATA_JSON_BUDGET {
        return 0, false;
      }
      taken := taken + 1;
      used := used + size + 1;
    }
    ok := true;
  }

  // ---- events, newest page first ----

  ghost predicate Ascending(events: seq<Event>) {
    && (forall i :: 0 <= i < |events| ==> events[i].id > 0)
    && (forall i, j :: 0 <= i < j < |events| ==> events[i].id < events[j].id)
  }

  function EventSizes(events: seq<Event>): (sizes: seq<nat>)
    ensures |sizes| == |events|
  {
    seq(|events|, i requires 0 <= i < |events| => events[i].size)
  }

  function Reversed<T>(s: seq<T>): (r: seq<T>)
    ensures |r| == |s| && forall i :: 0 <= i < |s| ==> r[i] == s[|s| - 1 - i]
  {
    seq(|s|, i requires 0 <= i < |s| => s[|s| - 1 - i])
  }

  /** How many of the rows have an ID below the cursor: all of them without one. */
  function Below(events: seq<Event>, cursor: Option<nat>): (n: nat)
    ensures n <= |events|
  {
    if events == [] then 0
    else if cursor.None? || events[|events| - 1].id < cursor.value then |events|
    else Below(events[..|events| - 1], cursor)
  }

  lemma {:induction false} BelowCursor(events: seq<Event>, k: nat)
    requires Ascending(events) && k < |events|
    ensures Below(events, Some(events[k].id)) == k
    decreases |events|
  {
    if k == |events| - 1 {
      if k > 0 {
        assert events[..k][k - 1].id < events[k].id;
      }
    } else {
      BelowCursor(events[..|events| - 1], k);
    }
  }

  /** reverseEvents */
  method ReverseEvents(events: array<Event>)
    modifies events
    ensures events[..] == Reversed(old(events[..]))
  {
    var left, right := 0, events.Length - 1;
    while left < right
      invariant 0 <= left <= events.Length && -1 <= right < events.Length && left + right == events.Length - 1
      invariant forall i :: 0 <= i < left || right < i < events.Length ==> events[i] == old(events[events.Length - 1 - i])
      invariant forall i :: left <= i <= right ==> events[i] == old(events[i])
    {
      events[left], events[right] := events[right], events[left];
      left, right := left + 1, right - 1;
    }
  }

  datatype EventPage =
    | EventPage(items: seq<Event>, next: Option<nat>)
    | BadLimit
    | EventTooLarge

  /** NormalizeEventPageLimit */
  function EventLimit(limit: int): (normalized: Option<nat>)
    ensures normalized.Some? <==> 0 <= limit <= MAXIMUM_EVENT_PAGE_LIMIT
    ensures normalized.Some? ==> 1 <= normalized.value <= MAXIMUM_EVENT_PAGE_LIMIT
    ensures normalized == (if limit == 0 then Some(20) else if 1 <= limit <= 100 then Some(limit) else None)
  {
    if limit < 0 || limit > MAXIMUM_EVENT_PAGE_LIMIT then None
    else if limit == 0 then Some(EVENT_PAGE_LIMIT)
    else Some(limit)
  }

  /** What a page is, for a reader who never sees the query: the rows just below the cursor, oldest
    first, as many as limit and budget allow, and a cursor exactly when rows remain. */
  ghost predicate IsEventPage(events: seq<Event>, cursor: Option<nat>, limit: nat, page: EventPage)
    requires page.EventPage?
  {
    var k := Below(events, cursor);
    var n := |page.items|;
    && n <= k && n <= limit && (k > 0 ==> n > 0)
    && page.items == events[k - n..k]
    && page.next == (if n < k then Some(events[k - n].id) else None)
    && (n > 0 ==> PageBytes(EventSizes(Reversed(page.items))) <= PAGE_DATA_JSON_BUDGET)
    && (n < k && n < limit ==> PageBytes(EventSizes(Reversed(events[k - n - 1..k]))) >= PAGE_DATA_JSON_BUDGET)
  }

  /** budgetEventPage, for items that come newest first. */
  method BudgetEventPage(items: seq<Event>, limit: nat) returns (page: EventPage, ghost taken: nat)
    requires limit >= 1
    ensures !page.BadLimit? && (page.EventTooLarge? <==> items != [] && !FitsAlone(items[0].size))
    ensures page.EventPage? ==>
              && taken <= |items| && taken <= limit && (items != [] ==> taken >= 1)
              && page.items == Reversed(items[..taken])
              && page.next == (if taken < |items| then Some(items[taken - 1].id) else None)
              && (taken > 0 ==> PageBytes(EventSizes(items)[..taken]) <= PAGE_DATA_JSON_BUDGET)
              && (taken < |items| && taken < limit ==> PageBytes(EventSizes(items)[..taken + 1]) >= PAGE_DATA_JSON_BUDGET)
  {
    hide PageBytes;
    var n, ok := Budget(EventSizes(items), limit);
    taken := n;
    if !ok {
      return EventTooLarge, taken;
    }
    var bounded := new Event[n](i requires 0 <= i < n => items[i]);
    assert bounded[..] == items[..n];
    var next := None;
    if |items| > n {
      next := Some(bounded[n - 1].id);
    }
    ReverseEvents(bounded);
    return EventPage(bounded[..], next), taken;
  }

  /** What the query hands to the budget: the limit + 1 rows below the cursor, newest first. */
  function NewestBelow(events: seq<Event>, k: nat, limit: nat): (items: seq<Event>)
    requires k <= |events|
    ensures |items| == if k > limit + 1 then limit + 1 else k
    ensures items != [] ==> items[0] == events[k - 1]
  {
    Reversed(events[if k > limit + 1 then k - (limit + 1) else 0..k])
  }

  lemma NewestAre(events: seq<Event>, k: nat, limit: nat, n: nat)
    requires k <= |events| && n <= |NewestBelow(events, k, limit)|
    ensures n <= k && Reversed(NewestBelow(events, k, limit)[..n]) == events[k - n..k]
    ensures EventSizes(NewestBelow(events, k, limit))[..n] == EventSizes(Reversed(events[k - n..k]))
    ensures n > 0 ==> NewestBelow(events, k, limit)[n - 1] == events[k - n]
  {
  }

  lemma BudgetedIsPage(events: seq<Event>, cursor: Option<nat>, limit: nat, page: EventPage, taken: nat)
    requires limit >= 1 && page.EventPage?
    requires var items := NewestBelow(events, Below(events, cursor), limit);
             && taken <= |items| && taken <= limit && (items != [] ==> taken >= 1)
             && page.items == Reversed(items[..taken])
             && page.next == (if taken < |items| then Some(items[taken - 1].id) else None)
             && (taken > 0 ==> PageBytes(EventSizes(items)[..taken]) <= PAGE_DATA_JSON_BUDGET)
             && (taken < |items| && taken < limit ==> PageBytes(EventSizes(items)[..taken + 1]) >= PAGE_DATA_JSON_BUDGET)
    ensures IsEventPage(events, cursor, limit, page)
  {
    hide PageBytes, EventSizes, Below, NewestBelow;
    var k := Below(events, cursor);
    NewestAre(events, k, limit, taken);
    if taken < |NewestBelow(events, k, limit)| {
      NewestAre(events, k, limit, taken + 1);
    }
    hide Reversed;
  }

  /** EventsPage */
  method EventsPage(events: seq<Event>, limit: int, cursor: Option<nat>) returns (page: EventPage)
    requires Ascending(events)
    ensures page.BadLimit? <==> EventLimit(limit).None?
    ensures page.EventTooLarge? <==>
              EventLimit(limit).Some? && Below(events, cursor) > 0 && !FitsAlone(events[Below(events, cursor) - 1].size)
    ensures page.EventPage? ==> EventLimit(limit).Some? && IsEventPage(events, cursor, EventLimit(limit).value, page)
  {
    hide PageBytes, EventSizes, Below, NewestBelow, Reversed, IsEventPage, FitsAlone, Ascending;
    var normalized := EventLimit(limit);
    if normalized.None? {
      return BadLimit;
    }
    var items := NewestBelow(events, Below(events, cursor), normalized.value);
    ghost var taken;
    page, taken := BudgetEventPage(items, normalized.value);
    if page.EventPage? {
      BudgetedIsPage(events, cursor, normalized.value, page, taken);
    }
  }

  lemma PagedEventsFit(events: seq<Event>, cursor: Option<nat>, limit: nat, page: EventPage)
    requires page.EventPage? && IsEventPage(events, cursor, limit, page)
    ensures forall e :: e in page.items ==> FitsAlone(e.size)
  {
    var sizes := EventSizes(Reversed(page.items));
    forall i | 0 <= i < |page.items|
      ensures FitsAlone(page.items[i].size)
    {
      var j := |page.items| - 1 - i;
      EachIsPartOfSum(sizes, j);
      assert sizes[j] == page.items[i].size;
    }
  }

  /** The next page continues exactly where this one began. */
  lemma PageContinues(events: seq<Event>, cursor: Option<nat>, limit: nat, page: EventPage)
    requires Ascending(events) && page.EventPage? && IsEventPage(events, cursor, limit, page)
    ensures var left := Below(events, cursor); var n := |page.items|;
            && n <= left && (left > 0 ==> n > 0)
            && page.items + events[left..] == events[left - n..]
            && (page.next.None? <==> n == left)
            && (page.next.Some? ==> Below(events, page.next) == left - n)
  {
    hide PageBytes, EventSizes, Below;
    var left := Below(events, cursor);
    if page.next.Some? {
      BelowCursor(events, left - |page.items|);
    }
    hide Ascending;
    assert events[left - |page.items|..left] + events[left..] == events[left - |page.items|..];
  }

  /** Following the cursors is one scan: every event once and in order, in non-empty pages, unless
    one event alone exceeds the budget. Each page leaves fewer rows. */
  method FollowEvents(events: seq<Event>, limit: nat) returns (all: seq<Event>, pages: nat, ok: bool)
    requires Ascending(events) && limit <= MAXIMUM_EVENT_PAGE_LIMIT
    ensures ok <==> forall e :: e in events ==> FitsAlone(e.size)
    ensures ok ==> all == events && pages <= |events| + 1
  {
    hide Below, PageBytes, EventSizes, IsEventPage, Ascending, FitsAlone;
    all, pages, ok := [], 0, true;
    var cursor := None;
    ghost var left := |events|;
    BelowAll(events);
    while true
      invariant ok && left <= |events| && Below(events, cursor) == left && (cursor.Some? ==> left > 0)
      invariant all == events[left..] && pages + left <= |events|
      invariant forall e :: e in all ==> FitsAlone(e.size)
      decreases left
    {
      var page := EventsPage(events, limit, cursor);
      pages := pages + 1;
      if page.EventTooLarge? {
        assert events[left - 1] in events;
        return all, pages, false;
      }
      PagedEventsFit(events, cursor, EventLimit(limit).value, page);
      PageContinues(events, cursor, EventLimit(limit).value, page);
      all := page.items + all;
      left := left - |page.items|;
      if page.next.None? {
        return;
      }
      cursor := page.next;
    }
  }

  lemma BelowAll(events: seq<Event>)
    ensures Below(events, None) == |events|
  {
  }

  // ---- history, oldest page first ----

  /** The condition addCursor appends: strictly after the cursor, by creation and then by ID. */
  predicate After(key: Key, cursor: Key) {
    key.createdAt > cursor.createdAt || (key.createdAt == cursor.createdAt && key.id > cursor.id)
  }

  ghost predicate InKeyOrder(rows: seq<Row>) {
    forall i, j :: 0 <= i < j < |rows| ==> After(rows[j].key, rows[i].key)
  }

  function RowSizes(rows: seq<Row>): (sizes: seq<nat>)
    ensures |sizes| == |rows|
  {
    seq(|rows|, i requires 0 <= i < |rows| => rows[i].size)
  }

  /** How many of the rows the cursor has passed. */
  function Passed(rows: seq<Row>, cursor: Option<Key>): (n: nat)
    ensures n <= |rows|
    decreases |rows|
  {
    if rows == [] || cursor.None? || After(rows[0].key, cursor.value) then 0 else 1 + Passed(rows[1..], cursor)
  }

  lemma {:induction false} PassedCursor(rows: seq<Row>, k: nat)
    requires InKeyOrder(rows) && k < |rows|
    ensures Passed(rows, Some(rows[k].key)) == k + 1
    decreases |rows|
  {
    if k == 0 {
      if |rows| > 1 {
        assert After(rows[1].key, rows[0].key) && rows[1..][0] == rows[1];
      }
    } else {
      assert After(rows[k].key, rows[0].key);
      assert rows[1..][k - 1] == rows[k];
      PassedCursor(rows[1..], k - 1);
    }
  }

  datatype HistoryPage =
    | HistoryPage(items: seq<Row>, next: Option<Key>)
    | BadPageLimit
    | RowTooLarge

  /** NormalizePageLimit */
  function PageLimit(limit: int): (normalized: Option<nat>)
    ensures normalized.Some? <==> 0 <= limit <= MAXIMUM_PAGE_LIMIT
    ensures normalized.Some? ==> 1 <= normalized.value <= MAXIMUM_PAGE_LIMIT
    ensures normalized == (if limit == 0 then Some(100) else if 1 <= limit <= 500 then Some(limit) else None)
  {
    if limit < 0 || limit > MAXIMUM_PAGE_LIMIT then None
    else if limit == 0 then Some(DEFAULT_PAGE_LIMIT)
    else Some(limit)
  }

  /** The rows just after the cursor, as many as limit and budget allow, and a cursor exactly when
    rows remain. */
  ghost predicate IsHistoryPage(rows: seq<Row>, cursor: Option<Key>, limit: nat, page: HistoryPage)
    requires page.HistoryPage?
  {
    var k := Passed(rows, cursor);
    var n := |page.items|;
    && k + n <= |rows| && n <= limit && (k < |rows| ==> n > 0)
    && page.items == rows[k..k + n]
    && page.next == (if k + n < |rows| then Some(rows[k + n - 1].key) else None)
    && (n > 0 ==> PageBytes(RowSizes(page.items)) <= PAGE_DATA_JSON_BUDGET)
    && (k + n < |rows| && n < limit ==> PageBytes(RowSizes(rows[k..k + n + 1])) >= PAGE_DATA_JSON_BUDGET)
  }

  lemma SizesOfSlice(rows: seq<Row>, lo: nat, hi: nat, n: nat)
    requires lo + n <= hi <= |rows|
    ensures rows[lo..hi][..n] == rows[lo..lo + n]
    ensures RowSizes(rows[lo..hi])[..n] == RowSizes(rows[lo..lo + n])
  {
    assert forall i :: 0 <= i < n ==> rows[lo..hi][i] == rows[lo..lo + n][i];
  }

  lemma FirstSize(rows: seq<Row>)
    ensures rows != [] ==> RowSizes(rows)[0] == rows[0].size
  {
  }

  /** budgetPage, for items in key order. */
  method BudgetPage(items: seq<Row>, limit: nat) returns (page: HistoryPage, ghost taken: nat)
    requires limit >= 1
    ensures !page.BadPageLimit? && (page.RowTooLarge? <==> items != [] && !FitsAlone(items[0].size))
    ensures page.HistoryPage? ==>
              && taken <= |items| && taken <= limit && (items != [] ==> taken >= 1)
              && page.items == items[..taken]
              && page.next == (if taken < |items| then Some(items[taken - 1].key) else None)
              && (taken > 0 ==> PageBytes(RowSizes(items)[..taken]) <= PAGE_DATA_JSON_BUDGET)
              && (taken < |items| && taken < limit ==> PageBytes(RowSizes(items)[..taken + 1]) >= PAGE_DATA_JSON_BUDGET)
  {
    FirstSize(items);
    hide PageBytes, RowSizes, FitsAlone;
    var n, ok := Budget(RowSizes(items), limit);
    taken := n;
    if !ok {
      return RowTooLarge, taken;
    }
    var next := None;
    if |items| > n {
      next := Some(items[n - 1].key);
    }
    return HistoryPage(items[..n], next), taken;
  }

  /** What the query hands to the budget: the limit + 1 rows after the cursor. */
  function OldestAfter(rows: seq<Row>, k: nat, limit: nat): (items: seq<Row>)
    requires k <= |rows|
    ensures |items| == if |rows| - k > limit + 1 then limit + 1 else |rows| - k
    ensures items != [] ==> items[0] == rows[k]
  {
    rows[k..if |rows| - k > limit + 1 then k + limit + 1 else |rows|]
  }

  lemma BudgetedIsHistory(rows: seq<Row>, cursor: Option<Key>, limit: nat, page: HistoryPage, taken: nat)
    requires limit >= 1 && page.HistoryPage?
    requires var items := OldestAfter(rows, Passed(rows, cursor), limit);
             && taken <= |items| && taken <= limit && (items != [] ==> taken >= 1)
             && page.items == items[..taken]
             && page.next == (if taken < |items| then Some(items[taken - 1].key) else None)
             && (taken > 0 ==> PageBytes(RowSizes(items)[..taken]) <= PAGE_DATA_JSON_BUDGET)
             && (taken < |items| && taken < limit ==> PageBytes(RowSizes(items)[..taken + 1]) >= PAGE_DATA_JSON_BUDGET)
    ensures IsHistoryPage(rows, cursor, limit, page)
  {
    hide PageBytes, RowSizes, Passed;
    var k := Passed(rows, cursor);
    var end := if |rows| - k > limit + 1 then k + limit + 1 else |rows|;
    SizesOfSlice(rows, k, end, taken);
    if taken < end - k {
      SizesOfSlice(rows, k, end, taken + 1);
    }
  }

  /** A page of the history. */
  method ReadHistoryPage(rows: seq<Row>, limit: int, cursor: Option<Key>) returns (page: HistoryPage)
    ensures page.BadPageLimit? <==> PageLimit(limit).None?
    ensures page.RowTooLarge? <==>
              PageLimit(limit).Some? && Passed(rows, cursor) < |rows| && !FitsAlone(rows[Passed(rows, cursor)].size)
    ensures page.HistoryPage? ==> PageLimit(limit).Some? && IsHistoryPage(rows, cursor, PageLimit(limit).value, page)
  {
    hide PageBytes, Passed, FitsAlone, RowSizes, OldestAfter, IsHistoryPage;
    var normalized := PageLimit(limit);
    if normalized.None? {
      return BadPageLimit;
    }
    var items := OldestAfter(rows, Passed(rows, cursor), normalized.value);
    ghost var taken;
    page, taken := BudgetPage(items, normalized.value);
    if page.HistoryPage? {
      BudgetedIsHistory(rows, cursor, normalized.value, page, taken);
    }
  }

  lemma PagedRowsFit(rows: seq<Row>, cursor: Option<Key>, limit: nat, page: HistoryPage)
    requires page.HistoryPage? && IsHistoryPage(rows, cursor, limit, page)
    ensures forall r :: r in page.items ==> FitsAlone(r.size)
  {
    var sizes := RowSizes(page.items);
    forall i | 0 <= i < |page.items|
      ensures FitsAlone(page.items[i].size)
    {
      EachIsPartOfSum(sizes, i);
    }
  }

  lemma HistoryContinues(rows: seq<Row>, cursor: Option<Key>, limit: nat, page: HistoryPage)
    requires InKeyOrder(rows) && page.HistoryPage? && IsHistoryPage(rows, cursor, limit, page)
    ensures var k := Passed(rows, cursor); var n := |page.items|;
            && k + n <= |rows| && (k < |rows| ==> n > 0)
            && rows[..k] + page.items == rows[..k + n]
            && (page.next.None? <==> k + n == |rows|)
            && (page.next.Some? ==> Passed(rows, page.next) == k + n)
  {
    hide PageBytes, RowSizes, Passed;
    var k := Passed(rows, cursor);
    if page.next.Some? {
      PassedCursor(rows, k + |page.items| - 1);
    }
    hide InKeyOrder;
    assert rows[..k] + rows[k..k + |page.items|] == rows[..k + |page.items|];
  }

  /** Following the cursors of a history is one scan, too. */
  method FollowHistory(rows: seq<Row>, limit: nat) returns (all: seq<Row>, pages: nat, ok: bool)
    requires InKeyOrder(rows) && limit <= MAXIMUM_PAGE_LIMIT
    ensures ok <==> forall r :: r in rows ==> FitsAlone(r.size)
    ensures ok ==> all == rows && pages <= |rows| + 1
  {
    hide Passed, PageBytes, RowSizes, IsHistoryPage, InKeyOrder, FitsAlone;
    all, pages, ok := [], 0, true;
    var cursor := None;
    ghost var done := 0;
    NonePassed(rows);
    while true
      invariant ok && done <= |rows| && Passed(rows, cursor) == done && (cursor.Some? ==> done < |rows|)
      invariant all == rows[..done] && pages <= done
      invariant forall r :: r in all ==> FitsAlone(r.size)
      decreases |rows| - done
    {
      var page := ReadHistoryPage(rows, limit, cursor);
      pages := pages + 1;
      if page.RowTooLarge? {
        assert rows[done] in rows;
        return all, pages, false;
      }
      PagedRowsFit(rows, cursor, PageLimit(limit).value, page);
      HistoryContinues(rows, cursor, PageLimit(limit).value, page);
      all := all + page.items;
      done := done + |page.items|;
      if page.next.None? {
        assert rows[..|rows|] == rows;
        return;
      }
      cursor := page.next;
    }
  }

  lemma NonePassed(rows: seq<Row>)
    ensures Passed(rows, None) == 0
  {
  }
}
