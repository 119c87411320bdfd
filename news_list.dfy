/**
 * The logic of the feed view: the load on mount, the refresh interval's gate, the
 * tracking of newly revealed date groups, the grouping of the shown items by calendar
 * day, the order of the groups, the group heading, and which of the error, loading
 * and feed views is shown.
 *
 * JavaScript's date parsing is not modelled: `new Date(d).toDateString()` is the
 * parameter `dateKey`, `new Date(d).getTime()` the parameter `timeOf`, and the
 * calendar fields of `new Date(d)` the parameter `calendarOf`.
 */
module NewsList {
  import opened Nullable
  import opened JsBuiltins
  import opened NewsSlice

  // ---------------------------------------------------------------- mount and interval

  /** On mount the view dispatches `fetchLatestNews`: its pending action, then how it settled. */
  function MountActions(outcome: Outcome<seq<TopStory>>, now: int): seq<Action> {
    [FetchLatestNewsPending, SettleFetchLatestNews(outcome, now)]
  }

  /**
   * The load on mount: on success the feed holds the mapped stories, each with a media
   * list, and shows the first page; on failure it stays empty with the error shown.
   */
  lemma MountLoad(outcome: Outcome<seq<TopStory>>, now: int)
    ensures var r := Run(InitialState, MountActions(outcome, now));
      && !r.loading && !r.autoLoading
      && (outcome.Fetched? ==>
            && r.allItems == MapStories(outcome.value)
            && r.items == r.allItems[..Min(PageSize, |r.allItems|)]
            && (forall i :: 0 <= i < |r.allItems| ==> r.allItems[i].multimedia.Some?)
            && !r.isInitialLoad && r.lastFetchTime == Some(now) && r.error == None)
      && (outcome.Failed? ==>
            && r.allItems == [] && r.items == [] && r.isInitialLoad
            && r.error == Some(ErrorText(outcome.message, FetchLatestNewsFailure)))
  {
    var acts := MountActions(outcome, now);
    var s1 := Reduce(InitialState, FetchLatestNewsPending);
    var s2 := Reduce(s1, acts[1]);
    assert acts[1..] == [acts[1]] && [acts[1]][1..] == [];
    assert Run(s2, []) == s2;
    assert Run(s1, [acts[1]]) == s2;
    assert Run(InitialState, acts) == Run(s1, acts[1..]);
  }

  /** What one tick of the refresh interval dispatches: `showMoreNews`, and only while stories are hidden. */
  function IntervalTick(s: NewsState): (a: Option<Action>)
    ensures a.Some? <==> s.displayedCount < |s.allItems|
    ensures a.Some? ==> a.value == ShowMoreNews
  {
    if s.displayedCount < |s.allItems| then Some(ShowMoreNews) else None
  }

  function DispatchIfAny(s: NewsState, a: Option<Action>): NewsState {
    match a
    case Some(action) => Reduce(s, action)
    case None => s
  }

  /**
   * The gate only saves a dispatch: a tick ends in the same state as an unconditional
   * `showMoreNews`, and every dispatch it lets through reveals a page.
   */
  lemma IntervalTickIsShowMore(s: NewsState)
    ensures DispatchIfAny(s, IntervalTick(s)) == Reduce(s, ShowMoreNews)
    ensures IntervalTick(s).Some? ==>
      DispatchIfAny(s, IntervalTick(s)).displayedCount == s.displayedCount + PageSize
    ensures IntervalTick(s).None? ==> DispatchIfAny(s, IntervalTick(s)) == s
  {
  }

  // ---------------------------------------------------------------- date groups

  /** The date keys of some items: `new Set(items.map(dateKey))`. */
  function DateKeys(items: seq<NewsItem>, dateKey: string -> string): set<string> {
    set i | 0 <= i < |items| :: dateKey(items[i].pubDate)
  }

  /** The keys highlighted after a change of the count from `prev`: those of `items.slice(prev)`. */
  function NewGroupKeys(items: seq<NewsItem>, prev: int, dateKey: string -> string): set<string> {
    DateKeys(SliceFrom(items, prev), dateKey)
  }

  /** The `newGroups` state and the `prevDisplayedCount` ref of the view. */
  class NewGroupTracker {
    var prevDisplayedCount: int
    var newGroups: set<string>

    constructor ()
      ensures prevDisplayedCount == 0 && newGroups == {}
    {
      prevDisplayedCount := 0;
      newGroups := {};
    }

    /**
     * The effect that runs when the count or the shown items change: a grown count,
     * after the first one, highlights the date keys of the items past the old count.
     * The ref always takes the new count.
     */
    method DisplayedCountChanged(displayedCount: int, items: seq<NewsItem>, dateKey: string -> string)
      modifies this
      ensures prevDisplayedCount == displayedCount
      ensures displayedCount > old(prevDisplayedCount) && old(prevDisplayedCount) > 0 ==>
        newGroups == NewGroupKeys(items, old(prevDisplayedCount), dateKey)
      ensures !(displayedCount > old(prevDisplayedCount) && old(prevDisplayedCount) > 0) ==>
        newGroups == old(newGroups)
    {
      if displayedCount > prevDisplayedCount && prevDisplayedCount > 0 {
        var newItems := SliceFrom(items, prevDisplayedCount);
        newGroups := DateKeys(newItems, dateKey);
      }
      prevDisplayedCount := displayedCount;
    }

    /** The timeout that ends the highlight. */
    method HighlightExpired()
      modifies this
      ensures newGroups == {} && prevDisplayedCount == old(prevDisplayedCount)
    {
      newGroups := {};
    }
  }

  /**
   * After a reveal from a windowed state, the highlighted keys are exactly the date keys
   * of the stories the reveal added.
   */
  lemma RevealHighlightsAddedStories(s: NewsState, dateKey: string -> string)
    requires Invariant(s) && Windowed(s)
    requires s.displayedCount < |s.allItems|
    ensures var r := Reduce(s, ShowMoreNews);
      && r.displayedCount > s.displayedCount > 0
      && NewGroupKeys(r.items, s.displayedCount, dateKey)
         == DateKeys(s.allItems[s.displayedCount..Min(s.displayedCount + PageSize, |s.allItems|)], dateKey)
  {
    var r := Reduce(s, ShowMoreNews);
    var hi := Min(s.displayedCount + PageSize, |s.allItems|);
    assert r.items == s.allItems[..hi];
    assert SliceFrom(r.items, s.displayedCount) == s.allItems[s.displayedCount..hi];
  }

  /** The items of `items` whose date key is `k`, in their order in `items`. */
  function ItemsOnDate(items: seq<NewsItem>, dateKey: string -> string, k: string): (r: seq<NewsItem>)
    ensures |r| <= |items|
    ensures forall j :: 0 <= j < |r| ==> dateKey(r[j].pubDate) == k
  {
    if items == [] then []
    else
      var last := items[|items| - 1];
      ItemsOnDate(items[..|items| - 1], dateKey, k) + (if dateKey(last.pubDate) == k then [last] else [])
  }

  /** A day's items are the items of that day, no more and no fewer. */
  lemma {:induction false} ItemsOnDateMembers(items: seq<NewsItem>, dateKey: string -> string, k: string, x: NewsItem)
    ensures x in ItemsOnDate(items, dateKey, k) <==> x in items && dateKey(x.pubDate) == k
  {
    if items != [] {
      var front := items[..|items| - 1];
      assert items == front + [items[|items| - 1]];
      ItemsOnDateMembers(front, dateKey, k, x);
    }
  }

  /** A date has no items exactly when it is not among the items' date keys. */
  lemma ItemsOnDateEmpty(items: seq<NewsItem>, dateKey: string -> string, k: string)
    ensures ItemsOnDate(items, dateKey, k) == [] <==> k !in DateKeys(items, dateKey)
  {
    var r := ItemsOnDate(items, dateKey, k);
    if r != [] {
      ItemsOnDateMembers(items, dateKey, k, r[0]);
      var j :| 0 <= j < |items| && items[j] == r[0];
      assert dateKey(items[j].pubDate) in DateKeys(items, dateKey);
    }
    if k in DateKeys(items, dateKey) {
      var j :| 0 <= j < |items| && dateKey(items[j].pubDate) == k;
      ItemsOnDateMembers(items, dateKey, k, items[j]);
    }
  }

  /** No key occurs twice. */
  predicate NoDuplicates(keys: seq<string>) {
    forall k | k in keys :: multiset(keys)[k] <= 1
  }

  /** The number of items the groups listed in `order` hold together. */
  function GroupSizeSum(order: seq<string>, groups: map<string, seq<NewsItem>>): nat
    requires forall k :: k in order ==> k in groups
  {
    if order == [] then 0
    else GroupSizeSum(order[..|order| - 1], groups) + |groups[order[|order| - 1]]|
  }

  lemma {:induction false} GroupSizeSumFrame(order: seq<string>, g: map<string, seq<NewsItem>>, h: map<string, seq<NewsItem>>)
    requires forall k :: k in order ==> k in g && k in h && |g[k]| == |h[k]|
    ensures GroupSizeSum(order, g) == GroupSizeSum(order, h)
  {
    if order != [] {
      GroupSizeSumFrame(order[..|order| - 1], g, h);
    }
  }

  /** Pushing one item onto one listed group adds one to the total. */
  lemma {:induction false} GroupSizeSumPush(order: seq<string>, g: map<string, seq<NewsItem>>, k: string, x: NewsItem)
    requires NoDuplicates(order) && k in order
    requires forall key :: key in order ==> key in g
    ensures GroupSizeSum(order, g[k := g[k] + [x]]) == GroupSizeSum(order, g) + 1
  {
    var h := g[k := g[k] + [x]];
    var front, last := order[..|order| - 1], order[|order| - 1];
    assert order == front + [last];
    assert multiset(order) == multiset(front) + multiset{last};
    assert NoDuplicates(front) by {
      forall key | key in front ensures multiset(front)[key] <= 1 {
        assert multiset(order)[key] <= 1;
      }
    }
    if last == k {
      assert multiset(order)[k] <= 1;
      assert k !in front;
      GroupSizeSumFrame(front, g, h);
    } else {
      assert k in front;
      GroupSizeSumPush(front, g, k, x);
    }
  }

  /** Listing one more group holding one item adds one to the total. */
  lemma GroupSizeSumNewKey(order: seq<string>, g: map<string, seq<NewsItem>>, k: string, x: NewsItem)
    requires k !in order
    requires forall key :: key in order ==> key in g
    ensures GroupSizeSum(order + [k], g[k := [x]]) == GroupSizeSum(order, g) + 1
  {
    var o := order + [k];
    assert o[..|o| - 1] == order;
    GroupSizeSumFrame(order, g[k := [x]], g);
  }

  /** Listing a key not yet listed keeps the listing free of duplicates. */
  lemma NoDuplicatesAppend(order: seq<string>, k: string)
    requires NoDuplicates(order) && k !in order
    ensures NoDuplicates(order + [k])
  {
    var o := order + [k];
    assert multiset(o) == multiset(order) + multiset{k};
    forall key | key in o ensures multiset(o)[key] <= 1 {
      if key != k {
        assert key in order;
      }
    }
  }

  /**
   * The accumulator of the `reduce` over `items`: the date keys in order of first
   * appearance, and the group of each key. Each round opens a group for an unseen key
   * or pushes the item onto the group of its key.
   */
  function GroupFold(items: seq<NewsItem>, dateKey: string -> string): (r: (seq<string>, map<string, seq<NewsItem>>))
    ensures |r.0| <= |items|
    ensures forall k :: k in r.0 <==> k in r.1
  {
    if items == [] then ([], map[])
    else
      var acc := GroupFold(items[..|items| - 1], dateKey);
      var news := items[|items| - 1];
      var date := dateKey(news.pubDate);
      if date in acc.1 then (acc.0, acc.1[date := acc.1[date] + [news]])
      else (acc.0 + [date], acc.1[date := [news]])
  }

  /** The group of a key is that key's items, never empty, and a key without items has no group. */
  lemma {:induction false} GroupFoldGroup(items: seq<NewsItem>, dateKey: string -> string, k: string)
    ensures var groups := GroupFold(items, dateKey).1;
      ItemsOnDate(items, dateKey, k) == (if k in groups then groups[k] else [])
    ensures var groups := GroupFold(items, dateKey).1;
      k in groups ==> groups[k] != []
  {
    if items != [] {
      GroupFoldGroup(items[..|items| - 1], dateKey, k);
    }
  }

  /** No key is listed twice. */
  lemma {:induction false} GroupFoldNoDuplicates(items: seq<NewsItem>, dateKey: string -> string)
    ensures NoDuplicates(GroupFold(items, dateKey).0)
  {
    if items != [] {
      var front := items[..|items| - 1];
      GroupFoldNoDuplicates(front, dateKey);
      var date := dateKey(items[|items| - 1].pubDate);
      if date !in GroupFold(front, dateKey).1 {
        NoDuplicatesAppend(GroupFold(front, dateKey).0, date);
      }
    }
  }

  /** The groups hold every item once: their sizes add up to the number of items. */
  lemma {:induction false} GroupFoldSize(items: seq<NewsItem>, dateKey: string -> string)
    ensures var acc := GroupFold(items, dateKey);
      (forall k :: k in acc.0 ==> k in acc.1) && GroupSizeSum(acc.0, acc.1) == |items|
  {
    if items != [] {
      var front := items[..|items| - 1];
      var acc := GroupFold(front, dateKey);
      var news := items[|items| - 1];
      var date := dateKey(news.pubDate);
      GroupFoldSize(front, dateKey);
      if date in acc.1 {
        GroupFoldNoDuplicates(front, dateKey);
        GroupSizeSumPush(acc.0, acc.1, date, news);
      } else {
        GroupSizeSumNewKey(acc.0, acc.1, date, news);
      }
    }
  }

  /**
   * The `reduce` that groups the shown items by date key. The keys come in order of
   * first appearance, each once; there is one group per date key of the items; every
   * item lands in the group of its own key, after the items of that key that precede
   * it; and the groups hold all the items together.
   */
  method GroupByDate(items: seq<NewsItem>, dateKey: string -> string)
    returns (order: seq<string>, groups: map<string, seq<NewsItem>>)
    ensures (order, groups) == GroupFold(items, dateKey)
    ensures NoDuplicates(order)
    ensures forall k :: k in order <==> k in groups
    ensures forall k :: k in groups <==> k in DateKeys(items, dateKey)
    ensures forall k | k in groups :: groups[k] == ItemsOnDate(items, dateKey, k)
    ensures GroupSizeSum(order, groups) == |items|
  {
    order, groups := [], map[];
    var i := 0;
    while i < |items|
      invariant 0 <= i <= |items|
      invariant (order, groups) == GroupFold(items[..i], dateKey)
    {
      var news := items[i];
      var date := dateKey(news.pubDate);
      assert items[..i + 1][..i] == items[..i];
      if date !in groups {
        ghost var before := groups;
        groups := groups[date := []];
        order := order + [date];
        groups := groups[date := groups[date] + [news]];
        assert groups == before[date := [news]] by {
          assert [] + [news] == [news];
        }
      } else {
        groups := groups[date := groups[date] + [news]];
      }
      i := i + 1;
    }
    assert items[..i] == items;
    GroupFoldNoDuplicates(items, dateKey);
    GroupFoldSize(items, dateKey);
    forall k ensures (k in groups <==> k in DateKeys(items, dateKey)) && (k in groups ==> groups[k] == ItemsOnDate(items, dateKey, k)) {
      GroupFoldGroup(items, dateKey, k);
      ItemsOnDateEmpty(items, dateKey, k);
    }
  }

  // ---------------------------------------------------------------- group order

  /** Later days first: what the comparator `getTime(b) - getTime(a)` asks of the sorted keys. */
  predicate NewestFirst(keys: seq<string>, timeOf: string -> int) {
    forall i, j :: 0 <= i < j < |keys| ==> timeOf(keys[i]) >= timeOf(keys[j])
  }

  /** Inserts `k` before the first key that is not later than it, so that ties keep their order. */
  function InsertByTime(k: string, sorted: seq<string>, timeOf: string -> int): (r: seq<string>)
    requires NewestFirst(sorted, timeOf)
    ensures NewestFirst(r, timeOf)
    ensures multiset(r) == multiset(sorted) + multiset{k}
    ensures |r| == |sorted| + 1 && (r[0] == k || (sorted != [] && r[0] == sorted[0]))
  {
    if sorted == [] || timeOf(sorted[0]) <= timeOf(k) then
      PrependNewest(k, sorted, timeOf);
      [k] + sorted
    else
      var rest := InsertByTime(k, sorted[1..], timeOf);
      assert sorted == [sorted[0]] + sorted[1..];
      PrependNewest(sorted[0], rest, timeOf);
      [sorted[0]] + rest
  }

  /** A key no earlier than the head of a newest-first list can go in front of it. */
  lemma PrependNewest(x: string, keys: seq<string>, timeOf: string -> int)
    requires NewestFirst(keys, timeOf)
    requires keys != [] ==> timeOf(keys[0]) <= timeOf(x)
    ensures NewestFirst([x] + keys, timeOf)
  {
    var r := [x] + keys;
    forall i, j | 0 <= i < j < |r| ensures timeOf(r[i]) >= timeOf(r[j]) {
      if i == 0 && j > 1 {
        assert timeOf(keys[0]) >= timeOf(keys[j - 1]);
      }
    }
  }

  /** The stable sort of the group keys, newest day first. */
  function SortNewestFirst(keys: seq<string>, timeOf: string -> int): (r: seq<string>)
    ensures NewestFirst(r, timeOf)
    ensures multiset(r) == multiset(keys)
  {
    if keys == [] then []
    else
      assert keys == [keys[0]] + keys[1..];
      InsertByTime(keys[0], SortNewestFirst(keys[1..], timeOf), timeOf)
  }

  /** Sorting neither adds nor drops a key, and lists none twice that was listed once. */
  lemma SortKeepsKeys(keys: seq<string>, timeOf: string -> int)
    ensures forall k :: k in SortNewestFirst(keys, timeOf) <==> k in keys
    ensures NoDuplicates(keys) ==> NoDuplicates(SortNewestFirst(keys, timeOf))
  {
    var sorted := SortNewestFirst(keys, timeOf);
    forall k ensures k in sorted <==> k in keys {
      assert k in sorted <==> k in multiset(sorted);
      assert k in keys <==> k in multiset(keys);
    }
  }

  /** The sorted keys of the grouped items are their date keys, each once, each with its day's group. */
  lemma SortedGroupKeys(items: seq<NewsItem>, dateKey: string -> string, timeOf: string -> int,
                        order: seq<string>, byDate: map<string, seq<NewsItem>>)
    requires NoDuplicates(order)
    requires forall k :: k in order <==> k in byDate
    requires forall k :: k in byDate <==> k in DateKeys(items, dateKey)
    requires forall k | k in byDate :: byDate[k] == ItemsOnDate(items, dateKey, k)
    ensures var keys := SortNewestFirst(order, timeOf);
      && NoDuplicates(keys)
      && (forall k :: k in keys <==> k in DateKeys(items, dateKey))
      && (forall j :: 0 <= j < |keys| ==> keys[j] in byDate && byDate[keys[j]] == ItemsOnDate(items, dateKey, keys[j]))
  {
    SortKeepsKeys(order, timeOf);
  }

  /**
   * `Object.entries(groupedNews).sort(...)`: the groups of the shown items, newest day
   * first, one per date key, each holding exactly that day's items in feed order.
   */
  method PresentGroups(items: seq<NewsItem>, dateKey: string -> string, timeOf: string -> int)
    returns (keys: seq<string>, groups: seq<seq<NewsItem>>)
    ensures |groups| == |keys|
    ensures NoDuplicates(keys)
    ensures forall k :: k in keys <==> k in DateKeys(items, dateKey)
    ensures NewestFirst(keys, timeOf)
    ensures forall j :: 0 <= j < |keys| ==> groups[j] == ItemsOnDate(items, dateKey, keys[j])
  {
    var order, byDate := GroupByDate(items, dateKey);
    keys := SortNewestFirst(order, timeOf);
    SortedGroupKeys(items, dateKey, timeOf, order, byDate);
    groups := GroupsInOrder(keys, byDate);
  }

  /** The groups listed in the order of their keys. */
  function GroupsInOrder(keys: seq<string>, byDate: map<string, seq<NewsItem>>): (r: seq<seq<NewsItem>>)
    requires forall j :: 0 <= j < |keys| ==> keys[j] in byDate
    ensures |r| == |keys|
    ensures forall j :: 0 <= j < |keys| ==> r[j] == byDate[keys[j]]
  {
    seq(|keys|, j requires 0 <= j < |keys| => byDate[keys[j]])
  }

  /** On its date's group, and only there: every shown item belongs to exactly one presented group. */
  lemma ExactlyOneGroup(items: seq<NewsItem>, dateKey: string -> string, keys: seq<string>, i: int)
    requires NoDuplicates(keys)
    requires forall k :: k in keys <==> k in DateKeys(items, dateKey)
    requires 0 <= i < |items|
    ensures exists j :: 0 <= j < |keys| && keys[j] == dateKey(items[i].pubDate)
    ensures forall j :: 0 <= j < |keys| ==> (items[i] in ItemsOnDate(items, dateKey, keys[j]) <==> keys[j] == dateKey(items[i].pubDate))
  {
    var k := dateKey(items[i].pubDate);
    assert k in keys;
    forall j | 0 <= j < |keys|
      ensures items[i] in ItemsOnDate(items, dateKey, keys[j]) <==> keys[j] == k
    {
      ItemsOnDateMembers(items, dateKey, keys[j], items[i]);
    }
  }

  // ---------------------------------------------------------------- group heading

  /** The fields of `new Date(d)` that the heading reads; `monthIndex` is `getMonth()`, counted from 0. */
  datatype CalendarDate = CalendarDate(day: int, monthIndex: int, year: int)

  predicate ValidCalendarDate(d: CalendarDate) {
    1 <= d.day <= 31 && 0 <= d.monthIndex <= 11
  }

  function TwoDigits(n: int): string {
    PadStart(IntToString(n), 2, '0')
  }

  /** `formatGroupDate` on the parsed date: `News for DD.MM.YYYY`. */
  function FormatCalendarDate(d: CalendarDate): (r: string)
    ensures StartsWith(r, "News for ")
  {
    var dd, mm, yy := TwoDigits(d.day), TwoDigits(d.monthIndex + 1), IntToString(d.year);
    StartsWithAppend("News for ", dd, "News for ");
    StartsWithAppend("News for " + dd, ".", "News for ");
    StartsWithAppend("News for " + dd + ".", mm, "News for ");
    StartsWithAppend("News for " + dd + "." + mm, ".", "News for ");
    StartsWithAppend("News for " + dd + "." + mm + ".", yy, "News for ");
    "News for " + dd + "." + mm + "." + yy
  }

  function FormatGroupDate(dateString: string, calendarOf: string -> CalendarDate): (r: string)
    ensures StartsWith(r, "News for ")
  {
    FormatCalendarDate(calendarOf(dateString))
  }

  /** Reads a heading back into its date: the inverse of `FormatCalendarDate` on valid dates. */
  function ParseGroupDate(s: string): Option<CalendarDate> {
    if |s| < 16 || s[..9] != "News for " || s[11] != '.' || s[14] != '.' then None
    else if !(IsDigit(s[9]) && IsDigit(s[10]) && IsDigit(s[12]) && IsDigit(s[13])) then None
    else
      match ParseInt(s[15..])
      case None => None
      case Some(year) =>
        Some(CalendarDate(10 * DigitValue(s[9]) + DigitValue(s[10]),
                          10 * DigitValue(s[12]) + DigitValue(s[13]) - 1, year))
  }

  function ParseInt(s: string): Option<int> {
    if s != [] && s[0] == '-' then
      var magnitude: int := DecimalValue(s[1..]);
      if |s| > 1 && AllDigits(s[1..]) then Some(-magnitude) else None
    else if s != [] && AllDigits(s) then Some(DecimalValue(s))
    else None
  }

  lemma ParseIntRoundTrip(n: int)
    ensures ParseInt(IntToString(n)) == Some(n)
  {
    var s := IntToString(n);
    if n < 0 {
      assert s[0] == '-' && s[1..] == NatToString(-n);
      assert |s| > 1 && AllDigits(s[1..]);
      DecimalRoundTrip(-n);
    } else {
      assert s == NatToString(n) && IsDigit(s[0]);
      DecimalRoundTrip(n);
    }
  }

  /** Day and month numbers below 100 come out as exactly two digits that read back as the number. */
  lemma TwoDigitsRoundTrip(n: int)
    requires 0 <= n < 100
    ensures var p := TwoDigits(n);
      |p| == 2 && IsDigit(p[0]) && IsDigit(p[1]) && 10 * DigitValue(p[0]) + DigitValue(p[1]) == n
  {
    if n < 10 {
      assert IntToString(n) == [Digit(n)];
      assert TwoDigits(n) == ['0', Digit(n)];
    } else {
      var hi, lo := n / 10, n % 10;
      assert n == 10 * hi + lo;
      assert NatToString(hi) == [Digit(hi)];
      assert IntToString(n) == [Digit(hi), Digit(lo)];
    }
  }

  /** Where the parts of a heading sit: prefix, day digits, dot, month digits, dot, year. */
  lemma HeadingLayout(dd: string, mm: string, yy: string)
    requires |dd| == 2 && |mm| == 2
    ensures var h := "News for " + dd + "." + mm + "." + yy;
      && |h| == 15 + |yy|
      && h[..9] == "News for " && h[11] == '.' && h[14] == '.'
      && h[9] == dd[0] && h[10] == dd[1] && h[12] == mm[0] && h[13] == mm[1]
      && h[15..] == yy
  {
    var a := "News for " + dd;
    var b := a + "." + mm;
    var c := b + ".";
    var h := c + yy;
    assert |a| == 11 && |b| == 14 && |c| == 15;
    assert a[..9] == "News for " && a[9] == dd[0] && a[10] == dd[1];
    assert b[..11] == a && b[11] == '.' && b[12] == mm[0] && b[13] == mm[1];
    assert c[..14] == b && c[14] == '.';
    assert h[..15] == c && h[15..] == yy;
    assert h[..9] == c[..9] == b[..9] == a[..9];
  }

  /** A heading laid out from two-digit day and month strings and a year string reads back as those numbers. */
  lemma ParseHeading(dd: string, mm: string, yy: string, day: int, month: int, year: int)
    requires |dd| == 2 && IsDigit(dd[0]) && IsDigit(dd[1]) && 10 * DigitValue(dd[0]) + DigitValue(dd[1]) == day
    requires |mm| == 2 && IsDigit(mm[0]) && IsDigit(mm[1]) && 10 * DigitValue(mm[0]) + DigitValue(mm[1]) == month
    requires |yy| >= 1 && ParseInt(yy) == Some(year)
    ensures ParseGroupDate("News for " + dd + "." + mm + "." + yy) == Some(CalendarDate(day, month - 1, year))
  {
    HeadingLayout(dd, mm, yy);
  }

  /**
   * The heading of a valid date is `News for `, two digits of day, a dot, two digits of
   * month counted from 1, a dot and the year, and it determines the date.
   */
  lemma GroupHeadingRoundTrip(d: CalendarDate)
    requires ValidCalendarDate(d)
    ensures var h := FormatCalendarDate(d);
      && |h| == 15 + |IntToString(d.year)|
      && h[..9] == "News for " && h[11] == '.' && h[14] == '.'
      && ParseGroupDate(h) == Some(d)
  {
    var dd, mm, yy := TwoDigits(d.day), TwoDigits(d.monthIndex + 1), IntToString(d.year);
    TwoDigitsRoundTrip(d.day);
    TwoDigitsRoundTrip(d.monthIndex + 1);
    ParseIntRoundTrip(d.year);
    HeadingLayout(dd, mm, yy);
    ParseHeading(dd, mm, yy, d.day, d.monthIndex + 1, d.year);
  }

  /** The heading of a group key reads back as the calendar date of that key. */
  lemma FormatGroupDateReadsBack(dateString: string, calendarOf: string -> CalendarDate)
    requires ValidCalendarDate(calendarOf(dateString))
    ensures ParseGroupDate(FormatGroupDate(dateString, calendarOf)) == Some(calendarOf(dateString))
  {
    GroupHeadingRoundTrip(calendarOf(dateString));
  }

  /** Two valid dates get the same heading only when they are the same date. */
  lemma HeadingsDistinguishDates(d: CalendarDate, e: CalendarDate)
    requires ValidCalendarDate(d) && ValidCalendarDate(e)
    ensures FormatCalendarDate(d) == FormatCalendarDate(e) <==> d == e
  {
    GroupHeadingRoundTrip(d);
    GroupHeadingRoundTrip(e);
  }

  // ---------------------------------------------------------------- which view

  datatype View = ErrorView(message: string) | LoadingView | FeedView

  /** The error view comes first, for any truthy error; the loading view only during the first load. */
  function SelectView(s: NewsState): (v: View)
    ensures v.ErrorView? <==> s.error.Some? && s.error.value != ""
    ensures v.LoadingView? ==> s.isInitialLoad && s.loading
  {
    if s.error.Some? && s.error.value != "" then ErrorView(s.error.value)
    else if s.isInitialLoad && s.loading then LoadingView
    else FeedView
  }

  /** In a reachable state the error view shows exactly when an error is stored, and the loading view only before the first load. */
  lemma ReachableView(s: NewsState)
    requires Invariant(s)
    ensures SelectView(s).ErrorView? <==> s.error.Some?
    ensures SelectView(s) == LoadingView <==> s.error.None? && s.isInitialLoad && s.loading
  {
  }

  /**
   * A failed latest fetch, first load or refresh alike, replaces the whole feed with the
   * error view, although the items it would show are still in the state.
   */
  lemma FailedRefreshShowsError(s: NewsState, message: Option<string>)
    ensures var r := Reduce(s, FetchLatestNewsRejected(message));
      && SelectView(r).ErrorView?
      && r.items == s.items && r.allItems == s.allItems && r.displayedCount == s.displayedCount
  {
  }

  /** A background refresh never brings up the loading view: it raises `autoLoading` only. */
  lemma RefreshKeepsFeed(s: NewsState)
    requires !s.isInitialLoad
    ensures SelectView(Reduce(s, FetchLatestNewsPending)) == FeedView
  {
  }
}
