/**
 * The news slice of the Redux store: the story records, the mapping of a Top Stories
 * record into a feed item, the feed state, and the reducer that moves it from event
 * to event.
 *
 * Redux Toolkit runs each case reducer on an Immer draft, so the slice writes its
 * handlers as in-place field updates. `NewsStore` keeps that form; each of its methods
 * is proved against the pure step it performs, and the lemmas at the end are about
 * `Reduce` and its iteration `Run` over a sequence of dispatched actions.
 */
module NewsSlice {
  import opened Nullable
  import opened JsBuiltins

  // ---------------------------------------------------------------- records

  /** One media descriptor of a story. A descriptor may lack its `subtype`. */
  datatype Media = Media(
    url: string,
    format: string,
    height: int,
    width: int,
    mediaType: string,
    subtype: Option<string>,
    caption: string,
    copyright: string)

  datatype Headline = Headline(main: string)

  datatype Byline = Byline(original: string)

  /**
   * A feed item. `multimedia` is optional because archive documents reach the feed
   * unconverted; items built from Top Stories records always carry a list.
   */
  datatype NewsItem = NewsItem(
    abstractText: string,
    webUrl: string,
    multimedia: Option<seq<Media>>,
    pubDate: string,
    source: string,
    headline: Option<Headline>,
    byline: Option<Byline>)

  /** A record of the Top Stories response, as the API sends it. */
  datatype TopStory = TopStory(
    abstractText: string,
    url: string,
    multimedia: Option<seq<Media>>,
    publishedDate: string,
    source: string,
    title: string,
    byline: string)

  // ---------------------------------------------------------------- story mapping

  /** Converts one Top Stories record into a feed item; absent media become the empty list. */
  function MapStory(story: TopStory): (item: NewsItem)
    ensures item.multimedia == Some(if story.multimedia.Some? then story.multimedia.value else [])
    ensures item.headline.Some? && item.byline.Some?
  {
    NewsItem(
      story.abstractText,
      story.url,
      Some(story.multimedia.GetOr([])),
      story.publishedDate,
      story.source,
      Some(Headline(story.title)),
      Some(Byline(story.byline)))
  }

  /** Reads a feed item back as the Top Stories record it would come from. */
  function StoryOf(item: NewsItem): TopStory
    requires item.headline.Some? && item.byline.Some?
  {
    TopStory(
      item.abstractText,
      item.webUrl,
      item.multimedia,
      item.pubDate,
      item.source,
      item.headline.value.main,
      item.byline.value.original)
  }

  /** `results.map(...)`: one item per record, in response order. */
  function MapStories(stories: seq<TopStory>): (items: seq<NewsItem>)
    ensures |items| == |stories|
    ensures forall i :: 0 <= i < |stories| ==> items[i] == MapStory(stories[i])
  {
    if stories == [] then [] else [MapStory(stories[0])] + MapStories(stories[1..])
  }

  /** The mapping loses nothing but the difference between absent and empty media. */
  lemma MapStoryRoundTrip(story: TopStory)
    ensures StoryOf(MapStory(story)) == story.(multimedia := Some(story.multimedia.GetOr([])))
  {
  }

  /** Every complete feed item is the image of its own record. */
  lemma StoryOfRoundTrip(item: NewsItem)
    requires item.headline.Some? && item.byline.Some? && item.multimedia.Some?
    ensures MapStory(StoryOf(item)) == item
  {
  }

  /** The fields the mapping renames: url, published date, title and byline. */
  lemma MapStoriesCarriesFields(stories: seq<TopStory>, i: int)
    requires 0 <= i < |stories|
    ensures var item := MapStories(stories)[i];
      && item.webUrl == stories[i].url
      && item.pubDate == stories[i].publishedDate
      && item.headline == Some(Headline(stories[i].title))
      && item.byline == Some(Byline(stories[i].byline))
      && item.abstractText == stories[i].abstractText
      && item.source == stories[i].source
      && item.multimedia.Some?
  {
  }

  // ---------------------------------------------------------------- state and actions

  /** Number of stories one reveal step adds. */
  const PageSize := 10

  const FetchNewsFailure := "Failed to fetch news"

  const FetchLatestNewsFailure := "Failed to fetch latest news"

  datatype NewsState = NewsState(
    items: seq<NewsItem>,
    allItems: seq<NewsItem>,
    displayedCount: int,
    loading: bool,
    autoLoading: bool,
    error: Option<string>,
    hasMore: bool,
    lastFetchTime: Option<int>,
    isInitialLoad: bool)

  const InitialState := NewsState([], [], PageSize, false, false, None, true, None, true)

  /**
   * The actions the slice handles: its two reducers and the pending, fulfilled and
   * rejected outcomes of the two thunks. A rejection carries the thrown error's
   * message, which may be missing.
   */
  datatype Action =
    | ClearError
    | ShowMoreNews
    | FetchNewsPending
    | FetchNewsFulfilled(payload: seq<NewsItem>)
    | FetchNewsRejected(message: Option<string>)
    | FetchLatestNewsPending
    | FetchLatestNewsFulfilled(stories: seq<NewsItem>, timestamp: int)
    | FetchLatestNewsRejected(message: Option<string>)

  /** What a thunk's network call came to: the decoded payload or the thrown error's message. */
  datatype Outcome<T> = Fetched(value: T) | Failed(message: Option<string>)

  /** How `fetchLatestNews` settles: mapped stories and the clock reading, or the error. */
  function SettleFetchLatestNews(outcome: Outcome<seq<TopStory>>, now: int): (a: Action)
    ensures a.FetchLatestNewsFulfilled? || a.FetchLatestNewsRejected?
    ensures outcome.Fetched? ==>
      (&& a.FetchLatestNewsFulfilled? && a.timestamp == now
       && |a.stories| == |outcome.value|
       && forall i :: 0 <= i < |a.stories| ==> a.stories[i] == MapStory(outcome.value[i]))
    ensures outcome.Failed? ==> a == FetchLatestNewsRejected(outcome.message)
  {
    match outcome
    case Fetched(results) => FetchLatestNewsFulfilled(MapStories(results), now)
    case Failed(message) => FetchLatestNewsRejected(message)
  }

  /** How `fetchNews` settles: the archive documents unchanged, or the error. */
  function SettleFetchNews(outcome: Outcome<seq<NewsItem>>): (a: Action)
    ensures a.FetchNewsFulfilled? || a.FetchNewsRejected?
    ensures outcome.Fetched? ==> a == FetchNewsFulfilled(outcome.value)
    ensures outcome.Failed? ==> a == FetchNewsRejected(outcome.message)
  {
    match outcome
    case Fetched(docs) => FetchNewsFulfilled(docs)
    case Failed(message) => FetchNewsRejected(message)
  }

  /** `message || fallback`: a missing or empty message gives way to the fixed text. */
  function ErrorText(message: Option<string>, fallback: string): (r: string)
    ensures r == fallback || (message.Some? && r == message.value)
    ensures r == "" ==> fallback == ""
    ensures message.Some? && message.value != "" ==> r == message.value
  {
    if message.Some? && message.value != "" then message.value else fallback
  }

  // ---------------------------------------------------------------- the case reducers

  /** `clearError`: the error goes, the feed stays. */
  function ClearErrorStep(s: NewsState): (r: NewsState)
    ensures r.error.None?
    ensures r.items == s.items && r.allItems == s.allItems && r.displayedCount == s.displayedCount
    ensures r.isInitialLoad == s.isInitialLoad && r.loading == s.loading && r.autoLoading == s.autoLoading
  {
    s.(error := None)
  }

  /** Reveals one more page of the fetched stories when some are still hidden. */
  function ShowMoreStep(s: NewsState): (r: NewsState)
    ensures r.allItems == s.allItems && r.error == s.error && r.isInitialLoad == s.isInitialLoad
    ensures r.displayedCount > s.displayedCount <==> s.displayedCount < |s.allItems|
    ensures r.displayedCount == s.displayedCount || r.displayedCount == s.displayedCount + PageSize
    ensures r.displayedCount != s.displayedCount ==> r.items <= r.allItems
  {
    if s.displayedCount < |s.allItems| then
      var count := s.displayedCount + PageSize;
      s.(displayedCount := count, items := SliceTo(s.allItems, count))
    else
      s
  }

  function FetchNewsPendingStep(s: NewsState): (r: NewsState)
    ensures r.loading && r.error.None?
    ensures r.items == s.items && r.allItems == s.allItems && r.displayedCount == s.displayedCount
  {
    s.(loading := true, error := None)
  }

  function FetchNewsFulfilledStep(s: NewsState, payload: seq<NewsItem>): (r: NewsState)
    ensures !r.loading && (r.hasMore <==> payload != [])
    ensures |r.items| == |s.items| + |payload| && s.items <= r.items && r.items[|s.items|..] == payload
    ensures r.allItems == s.allItems && r.displayedCount == s.displayedCount && r.error == s.error
  {
    s.(loading := false, items := s.items + payload, hasMore := |payload| > 0)
  }

  function FetchNewsRejectedStep(s: NewsState, message: Option<string>): (r: NewsState)
    ensures !r.loading && r.autoLoading == s.autoLoading
    ensures r.error.Some? && r.error.value != ""
    ensures r.items == s.items && r.allItems == s.allItems && r.displayedCount == s.displayedCount
  {
    s.(loading := false, error := Some(ErrorText(message, FetchNewsFailure)))
  }

  function FetchLatestNewsPendingStep(s: NewsState): (r: NewsState)
    ensures r.error.None?
    ensures s.isInitialLoad ==> r.loading && r.autoLoading == s.autoLoading
    ensures !s.isInitialLoad ==> r.autoLoading && r.loading == s.loading
    ensures r.items == s.items && r.allItems == s.allItems && r.displayedCount == s.displayedCount
  {
    if s.isInitialLoad then s.(loading := true, error := None)
    else s.(autoLoading := true, error := None)
  }

  /** The first load installs the stories; later loads ignore them and reveal one more page. */
  function FetchLatestNewsFulfilledStep(s: NewsState, stories: seq<NewsItem>, timestamp: int): (r: NewsState)
    ensures !r.loading && !r.autoLoading && !r.isInitialLoad && r.lastFetchTime == Some(timestamp)
    ensures r.allItems == (if s.isInitialLoad then stories else s.allItems)
    ensures r.error == s.error && r.hasMore == s.hasMore
  {
    var settled := s.(loading := false, autoLoading := false, lastFetchTime := Some(timestamp));
    if settled.isInitialLoad then
      settled.(allItems := stories, displayedCount := PageSize,
               items := SliceTo(stories, PageSize), isInitialLoad := false)
    else
      ShowMoreStep(settled)
  }

  function FetchLatestNewsRejectedStep(s: NewsState, message: Option<string>): (r: NewsState)
    ensures !r.loading && !r.autoLoading
    ensures r.error.Some? && r.error.value != ""
    ensures r.items == s.items && r.allItems == s.allItems && r.displayedCount == s.displayedCount
  {
    s.(loading := false, autoLoading := false,
       error := Some(ErrorText(message, FetchLatestNewsFailure)))
  }

  /**
   * The slice reducer: one action, one new state. Only the first successful load
   * replaces the stories, only a reveal step moves the count, only a successful load
   * records a fetch time, and no action brings back the initial phase.
   */
  function Reduce(s: NewsState, a: Action): (r: NewsState)
    ensures r.allItems != s.allItems ==> s.isInitialLoad && a.FetchLatestNewsFulfilled?
    ensures r.displayedCount != s.displayedCount ==> a.ShowMoreNews? || a.FetchLatestNewsFulfilled?
    ensures r.lastFetchTime != s.lastFetchTime ==> a.FetchLatestNewsFulfilled?
    ensures !s.isInitialLoad ==> !r.isInitialLoad
  {
    match a
    case ClearError => ClearErrorStep(s)
    case ShowMoreNews => ShowMoreStep(s)
    case FetchNewsPending => FetchNewsPendingStep(s)
    case FetchNewsFulfilled(payload) => FetchNewsFulfilledStep(s, payload)
    case FetchNewsRejected(message) => FetchNewsRejectedStep(s, message)
    case FetchLatestNewsPending => FetchLatestNewsPendingStep(s)
    case FetchLatestNewsFulfilled(stories, timestamp) => FetchLatestNewsFulfilledStep(s, stories, timestamp)
    case FetchLatestNewsRejected(message) => FetchLatestNewsRejectedStep(s, message)
  }

  /** The state after dispatching `actions` in order. */
  function Run(s: NewsState, actions: seq<Action>): NewsState
    decreases |actions|
  {
    if actions == [] then s else Run(Reduce(s, actions[0]), actions[1..])
  }

  // ---------------------------------------------------------------- the store object

  /** The slice's state as the mutable draft the case reducers update in place. */
  class NewsStore {
    var items: seq<NewsItem>
    var allItems: seq<NewsItem>
    var displayedCount: int
    var loading: bool
    var autoLoading: bool
    var error: Option<string>
    var hasMore: bool
    var lastFetchTime: Option<int>
    var isInitialLoad: bool

    function State(): NewsState
      reads this
    {
      NewsState(items, allItems, displayedCount, loading, autoLoading,
                error, hasMore, lastFetchTime, isInitialLoad)
    }

    constructor ()
      ensures State() == InitialState
    {
      items, allItems, displayedCount := [], [], PageSize;
      loading, autoLoading, error := false, false, None;
      hasMore, lastFetchTime, isInitialLoad := true, None, true;
    }

    method ClearError()
      modifies this
      ensures State() == old(State()).(error := None)
    {
      error := None;
    }

    method ShowMoreNews()
      modifies this
      ensures State() == ShowMoreStep(old(State()))
    {
      if displayedCount < |allItems| {
        displayedCount := displayedCount + PageSize;
        items := SliceTo(allItems, displayedCount);
      }
    }

    method FetchNewsPending()
      modifies this
      ensures State() == old(State()).(loading := true, error := None)
    {
      loading := true;
      error := None;
    }

    method FetchNewsFulfilled(payload: seq<NewsItem>)
      modifies this
      ensures State() == old(State()).(loading := false, items := old(items) + payload,
                                       hasMore := |payload| > 0)
    {
      loading := false;
      items := items + payload;
      hasMore := |payload| > 0;
    }

    method FetchNewsRejected(message: Option<string>)
      modifies this
      ensures State() == FetchNewsRejectedStep(old(State()), message)
    {
      loading := false;
      error := Some(ErrorText(message, FetchNewsFailure));
    }

    method FetchLatestNewsPending()
      modifies this
      ensures State() == FetchLatestNewsPendingStep(old(State()))
    {
      if isInitialLoad {
        loading := true;
      } else {
        autoLoading := true;
      }
      error := None;
    }

    method FetchLatestNewsFulfilled(stories: seq<NewsItem>, timestamp: int)
      modifies this
      ensures State() == FetchLatestNewsFulfilledStep(old(State()), stories, timestamp)
    {
      loading := false;
      autoLoading := false;
      lastFetchTime := Some(timestamp);
      if isInitialLoad {
        allItems := stories;
        displayedCount := PageSize;
        items := SliceTo(allItems, displayedCount);
        isInitialLoad := false;
      } else {
        if displayedCount < |allItems| {
          displayedCount := displayedCount + PageSize;
          items := SliceTo(allItems, displayedCount);
        }
      }
    }

    method FetchLatestNewsRejected(message: Option<string>)
      modifies this
      ensures State() == FetchLatestNewsRejectedStep(old(State()), message)
    {
      loading := false;
      autoLoading := false;
      error := Some(ErrorText(message, FetchLatestNewsFailure));
    }

    /** `dispatch(action)`: runs the matching case reducer, which keeps the state invariant. */
    method Dispatch(a: Action)
      modifies this
      ensures State() == Reduce(old(State()), a)
      ensures Invariant(old(State())) ==> Invariant(State())
    {
      match a {
      case ClearError => ClearError();
      case ShowMoreNews => ShowMoreNews();
      case FetchNewsPending => FetchNewsPending();
      case FetchNewsFulfilled(payload) => FetchNewsFulfilled(payload);
      case FetchNewsRejected(message) => FetchNewsRejected(message);
      case FetchLatestNewsPending => FetchLatestNewsPending();
      case FetchLatestNewsFulfilled(stories, timestamp) => FetchLatestNewsFulfilled(stories, timestamp);
      case FetchLatestNewsRejected(message) => FetchLatestNewsRejected(message);
      }
      if Invariant(old(State())) {
        ReducePreservesInvariant(old(State()), a);
      }
    }
  }

  // ---------------------------------------------------------------- what each handler does

  /** `clearError` empties the error and nothing else. */
  lemma ClearErrorOnlyClearsError(s: NewsState)
    ensures var r := Reduce(s, ClearError);
      r.error == None && r.(error := s.error) == s
  {
  }

  /**
   * `showMoreNews` with hidden stories left adds exactly one page to the count, with no
   * cap, and shows the matching prefix; with none left it changes nothing. It never
   * touches `allItems`.
   */
  lemma ShowMoreReveals(s: NewsState)
    requires s.displayedCount >= 0
    ensures var r := Reduce(s, ShowMoreNews);
      && r.allItems == s.allItems
      && (s.displayedCount < |s.allItems| ==>
            && r.displayedCount == s.displayedCount + PageSize
            && r.items == s.allItems[..Min(s.displayedCount + PageSize, |s.allItems|)]
            && r.(items := s.items, displayedCount := s.displayedCount) == s)
      && (s.displayedCount >= |s.allItems| ==> r == s)
  {
  }

  /** The pending case of `fetchLatestNews` raises the flag matching the load's kind. */
  lemma LatestPendingRaisesOneFlag(s: NewsState)
    ensures var r := Reduce(s, FetchLatestNewsPending);
      && r.error == None
      && (s.isInitialLoad ==> r.loading && r.autoLoading == s.autoLoading)
      && (!s.isInitialLoad ==> r.autoLoading && r.loading == s.loading)
      && r.(loading := s.loading, autoLoading := s.autoLoading, error := s.error) == s
  {
  }

  /**
   * The first successful load stores every story, sets the count to one page whatever
   * the number of stories, shows the first page and ends the initial phase.
   */
  lemma FirstLoadInstallsStories(s: NewsState, stories: seq<NewsItem>, timestamp: int)
    requires s.isInitialLoad
    ensures var r := Reduce(s, FetchLatestNewsFulfilled(stories, timestamp));
      && r.allItems == stories
      && r.displayedCount == PageSize
      && r.items == stories[..Min(PageSize, |stories|)]
      && !r.isInitialLoad && !r.loading && !r.autoLoading
      && r.lastFetchTime == Some(timestamp)
      && r.error == s.error && r.hasMore == s.hasMore
  {
  }

  /**
   * A later successful load ignores the fetched stories: it settles the flags, records
   * the time and takes the same reveal step as `showMoreNews`.
   */
  lemma RefreshIgnoresStories(s: NewsState, stories: seq<NewsItem>, timestamp: int)
    requires !s.isInitialLoad
    ensures var r := Reduce(s, FetchLatestNewsFulfilled(stories, timestamp));
      && r.allItems == s.allItems
      && r == ShowMoreStep(s).(loading := false, autoLoading := false, lastFetchTime := Some(timestamp))
  {
  }

  /** That step does not depend on the payload at all. */
  lemma RefreshPayloadIrrelevant(s: NewsState, a: seq<NewsItem>, b: seq<NewsItem>, timestamp: int)
    requires !s.isInitialLoad
    ensures Reduce(s, FetchLatestNewsFulfilled(a, timestamp)) == Reduce(s, FetchLatestNewsFulfilled(b, timestamp))
  {
    RefreshIgnoresStories(s, a, timestamp);
    RefreshIgnoresStories(s, b, timestamp);
  }

  /**
   * Either rejection clears the loading flags it owns and records a non-empty message;
   * the stories, the count and the phase are left alone.
   */
  lemma RejectionKeepsContent(s: NewsState, message: Option<string>)
    ensures var r := Reduce(s, FetchNewsRejected(message));
      && !r.loading && r.autoLoading == s.autoLoading
      && r.error == Some(if message.Some? && message.value != "" then message.value else "Failed to fetch news")
      && r.(loading := s.loading, error := s.error) == s
    ensures var r := Reduce(s, FetchLatestNewsRejected(message));
      && !r.loading && !r.autoLoading
      && r.error == Some(if message.Some? && message.value != "" then message.value else "Failed to fetch latest news")
      && r.(loading := s.loading, autoLoading := s.autoLoading, error := s.error) == s
  {
  }

  /** `fetchNews` appends the archive page to the shown items; `hasMore` says it was non-empty. */
  lemma ArchivePageAppends(s: NewsState, payload: seq<NewsItem>)
    ensures var r := Reduce(s, FetchNewsFulfilled(payload));
      && r.items == s.items + payload
      && (r.hasMore <==> payload != [])
      && !r.loading
      && r.allItems == s.allItems && r.displayedCount == s.displayedCount
  {
  }

  /**
   * A whole archive fetch: the pending step, then the settlement. It always ends with
   * loading over and the stories, the count and the phase as they were. On success the
   * documents are appended to the shown items, `hasMore` says whether there were any,
   * and no error stands; on failure the shown items are kept and the error is stored.
   */
  lemma ArchiveFetch(s: NewsState, outcome: Outcome<seq<NewsItem>>)
    ensures var r := Run(s, [FetchNewsPending, SettleFetchNews(outcome)]);
      && !r.loading
      && r.allItems == s.allItems && r.displayedCount == s.displayedCount
      && r.isInitialLoad == s.isInitialLoad
      && (outcome.Fetched? ==>
            r.items == s.items + outcome.value && (r.hasMore <==> outcome.value != []) && r.error == None)
      && (outcome.Failed? ==>
            r.items == s.items && r.error == Some(ErrorText(outcome.message, FetchNewsFailure)))
  {
    var acts := [FetchNewsPending, SettleFetchNews(outcome)];
    var s1 := Reduce(s, FetchNewsPending);
    var s2 := Reduce(s1, acts[1]);
    assert acts[1..] == [acts[1]] && [acts[1]][1..] == [];
    assert Run(s2, []) == s2;
    assert Run(s1, [acts[1]]) == s2;
    assert Run(s, acts) == Run(s1, acts[1..]);
  }

  // ---------------------------------------------------------------- invariants

  /**
   * What every reachable state satisfies. The count is a positive multiple of the page
   * size and may run past the stories, but by at most one page; before the first load
   * completes there are no stories, no refresh and no fetch time; a stored error is
   * never the empty string.
   */
  ghost predicate Invariant(s: NewsState) {
    && s.displayedCount >= PageSize
    && s.displayedCount % PageSize == 0
    && s.displayedCount <= |s.allItems| + PageSize
    && (s.isInitialLoad ==> s.allItems == [] && s.displayedCount == PageSize && !s.autoLoading)
    && (s.lastFetchTime.None? <==> s.isInitialLoad)
    && (s.error.Some? ==> s.error.value != "")
  }

  /** The shown items are the prefix of the stories that the count selects. */
  ghost predicate Windowed(s: NewsState) {
    s.items == SliceTo(s.allItems, s.displayedCount)
  }

  lemma InitialStateInvariant()
    ensures Invariant(InitialState) && Windowed(InitialState)
  {
  }

  lemma ReducePreservesInvariant(s: NewsState, a: Action)
    requires Invariant(s)
    ensures Invariant(Reduce(s, a))
  {
    match a
    case FetchLatestNewsFulfilled(stories, timestamp) =>
      if !s.isInitialLoad {
        RefreshIgnoresStories(s, stories, timestamp);
      }
    case _ =>
  }

  /** Every action except the archive page keeps the shown items a prefix window of the stories. */
  lemma ReducePreservesWindow(s: NewsState, a: Action)
    requires Windowed(s)
    requires !a.FetchNewsFulfilled?
    ensures Windowed(Reduce(s, a))
  {
  }

  /** The count never goes down: the first load "resets" it to the value it already has. */
  lemma ReduceCountMonotone(s: NewsState, a: Action)
    requires Invariant(s)
    ensures Reduce(s, a).displayedCount >= s.displayedCount
  {
  }

  lemma {:induction false} RunPreservesInvariant(s: NewsState, actions: seq<Action>)
    requires Invariant(s)
    ensures Invariant(Run(s, actions))
    decreases |actions|
  {
    if actions != [] {
      ReducePreservesInvariant(s, actions[0]);
      RunPreservesInvariant(Reduce(s, actions[0]), actions[1..]);
    }
  }

  /** Every state reachable from the initial one satisfies the invariant. */
  lemma ReachableInvariant(actions: seq<Action>)
    ensures Invariant(Run(InitialState, actions))
  {
    RunPreservesInvariant(InitialState, actions);
  }

  predicate NoArchivePage(actions: seq<Action>) {
    forall i :: 0 <= i < |actions| ==> !actions[i].FetchNewsFulfilled?
  }

  /** Without an archive page in between, the window survives any run of actions. */
  lemma {:induction false} RunPreservesWindow(s: NewsState, actions: seq<Action>)
    requires Windowed(s) && NoArchivePage(actions)
    ensures Windowed(Run(s, actions))
    decreases |actions|
  {
    if actions != [] {
      assert !actions[0].FetchNewsFulfilled?;
      ReducePreservesWindow(s, actions[0]);
      assert NoArchivePage(actions[1..]) by {
        forall i | 0 <= i < |actions[1..]| ensures !actions[1..][i].FetchNewsFulfilled? {
          assert actions[1..][i] == actions[i + 1];
        }
      }
      RunPreservesWindow(Reduce(s, actions[0]), actions[1..]);
    }
  }

  /** From a valid state the count only grows, and once loaded the feed never re-enters the initial phase. */
  lemma {:induction false} RunMonotone(s: NewsState, actions: seq<Action>)
    requires Invariant(s)
    ensures Run(s, actions).displayedCount >= s.displayedCount
    ensures !s.isInitialLoad ==> !Run(s, actions).isInitialLoad
    decreases |actions|
  {
    if actions != [] {
      ReduceCountMonotone(s, actions[0]);
      ReducePreservesInvariant(s, actions[0]);
      RunMonotone(Reduce(s, actions[0]), actions[1..]);
    }
  }

  /** After the first load, the stored stories are fixed for the rest of the session. */
  lemma {:induction false} RunKeepsStories(s: NewsState, actions: seq<Action>)
    requires !s.isInitialLoad
    ensures Run(s, actions).allItems == s.allItems
    decreases |actions|
  {
    if actions != [] {
      var a := actions[0];
      if a.FetchLatestNewsFulfilled? {
        RefreshIgnoresStories(s, a.stories, a.timestamp);
      }
      assert !Reduce(s, a).isInitialLoad && Reduce(s, a).allItems == s.allItems;
      RunKeepsStories(Reduce(s, a), actions[1..]);
    }
  }

  // ---------------------------------------------------------------- the count is uncapped

  /** A first load of fewer than a page of stories leaves the count above the number of stories. */
  lemma FirstLoadOvershoots(stories: seq<NewsItem>, timestamp: int)
    requires |stories| < PageSize
    ensures var r := Run(InitialState, [FetchLatestNewsPending, FetchLatestNewsFulfilled(stories, timestamp)]);
      r.displayedCount == PageSize > |r.allItems| && r.items == stories && Windowed(r)
  {
    var s1 := Reduce(InitialState, FetchLatestNewsPending);
    var s2 := Reduce(s1, FetchLatestNewsFulfilled(stories, timestamp));
    assert Run(s2, []) == s2;
    assert Run(InitialState, [FetchLatestNewsPending, FetchLatestNewsFulfilled(stories, timestamp)]) == s2 by {
      assert [FetchLatestNewsPending, FetchLatestNewsFulfilled(stories, timestamp)][1..] == [FetchLatestNewsFulfilled(stories, timestamp)];
      assert [FetchLatestNewsFulfilled(stories, timestamp)][1..] == [];
    }
  }

  /** A non-empty archive page breaks the window: the shown items then outgrow the window of the stories. */
  lemma ArchivePageBreaksWindow(s: NewsState, payload: seq<NewsItem>)
    requires Windowed(s) && payload != []
    ensures !Windowed(Reduce(s, FetchNewsFulfilled(payload)))
  {
  }

  /**
   * Twenty-three stories: the first load shows ten, the first reveal twenty, the second
   * all twenty-three with the count at thirty, and a third changes nothing.
   */
  lemma TwentyThreeStories(stories: seq<NewsItem>, timestamp: int)
    requires |stories| == 23
    ensures var s1 := Reduce(Reduce(InitialState, FetchLatestNewsPending), FetchLatestNewsFulfilled(stories, timestamp));
      var s2 := Reduce(s1, ShowMoreNews);
      var s3 := Reduce(s2, ShowMoreNews);
      && s1.items == stories[..10] && s1.displayedCount == 10
      && s2.items == stories[..20] && s2.displayedCount == 20
      && s3.items == stories && s3.displayedCount == 30
      && Reduce(s3, ShowMoreNews) == s3
  {
  }
}
