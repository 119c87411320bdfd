# News feed: a verified model of the feed store and its presentation

This project models the core of a single-page news reader that shows New York Times
stories in a feed grouped by day. It covers three parts.

- **The feed store** (`src/store/slices/newsSlice.ts`) is the Redux slice `news`. Its
  state holds these fields:
  - the shown `items` and all fetched stories `allItems`;
  - the reveal cursor `displayedCount`;
  - the flags `loading`, `autoLoading`, `hasMore` and `isInitialLoad`;
  - the `error` message and `lastFetchTime`.

  The slice has two reducers, `clearError` and `showMoreNews`. It also handles the
  pending, fulfilled and rejected outcomes of two thunks: `fetchNews` (a month of the
  archive) and `fetchLatestNews` (Top Stories, mapped into feed items).
- **The feed list** (`src/components/NewsList.tsx`) covers these pieces:
  - the load on mount;
  - the 30-second interval that reveals another page;
  - the set of day groups to highlight after a reveal;
  - the `reduce` that groups the shown items by day;
  - the newest-first order of the groups;
  - the `News for DD.MM.YYYY` heading;
  - the choice between the error, loading and feed views.
- **The story card** (`src/components/NewsItem.tsx`) contributes `getImageUrl`, the
  choice and resolution of a story's thumbnail.

Files and modules:

| file | module | contents |
|---|---|---|
| `nullable.dfy` | `Nullable` | `Option`, for JavaScript's `null`/`undefined` |
| `js_builtins.dfy` | `JsBuiltins` | `slice`, `startsWith`, `padStart` and integer `toString` with their ECMAScript meaning, and the decimal reading that undoes `toString` |
| `news_slice.dfy` | `NewsSlice` | the data model, the story mapping, the reducer (as the pure `Reduce` and as the class `NewsStore`), and the invariants over every run of actions |
| `news_list.dfy` | `NewsList` | the mount load, the interval gate, the class `NewGroupTracker`, the grouping method `GroupByDate` and the sort, the heading, and the view choice |
| `news_item.dfy` | `NewsItemImage` | `getImageUrl` |

The case reducers update the Immer draft in place, so the store is a class. Its fields
are those of `NewsState`, and each method changes them as its case does. Each method is
proved to leave the state that the pure step function gives. `NewsStore.Dispatch`
routes an action to its method and keeps `Invariant`. The properties of runs of
actions are lemmas about `Reduce` and `Run`.

The grouping `reduce` mutates an accumulator dictionary. It is modelled as a method
with a loop. That loop is proved against the fold `GroupFold`, and the fold's
properties are proved as lemmas.

The `prevDisplayedCount` ref and the `newGroups` state are the fields of
`NewGroupTracker`.

JavaScript `Date` is not modelled. Three function parameters stand in for it:
- `dateKey` stands for `new Date(d).toDateString()`;
- `timeOf` stands for `new Date(d).getTime()`;
- `calendarOf` stands for the day, month and year getters of `new Date(d)`.

The network calls are modelled by `Outcome`: either the decoded payload or the
message of the thrown error. The `Date.now()` reading is a parameter of the thunk's
settlement.

### Where the code does not do what one would expect

The model follows the code in each of these cases.

- **The cursor can exceed the stories.** One would expect
  `0 <= displayedCount <= allItems.length`, a first load that sets
  `displayedCount = min(10, N)`, and a reveal capped at the number of stories. The
  code does none of this:
  - the first load sets the count to 10 whatever the number of stories;
  - each reveal adds 10 without a cap.

  `FirstLoadOvershoots` exhibits a reachable state with the count above the number
  of stories. What does hold is in `Invariant`: the count is a positive multiple of
  10 and at most 10 past the stories. The shown items are still the prefix that
  `allItems.slice(0, displayedCount)` selects.
- **The archive page breaks the window.** One would expect
  `items == allItems.slice(0, displayedCount)` in every state. `fetchNews.fulfilled`
  appends a non-empty page to `items` alone (`ArchivePageBreaksWindow`). The window holds
  on every run without that action (`RunPreservesWindow`).
- **A failed refresh replaces the feed.** One would expect a failed
  background refresh to leave the feed visible. The view instead shows the error view
  for any truthy `error`, whatever has been shown before
  (`FailedRefreshShowsError`). The stories stay in the state, unchanged.
- **A refresh fetches but discards.** One would expect a later successful
  fetch to append or replace stories. The code ignores the fetched stories once the
  first load is done: it takes one more reveal step instead (`RefreshIgnoresStories`,
  `RunKeepsStories`).
- **The error is not cleared on success.** One would expect a successful
  load to clear the error. The fulfilled case leaves `error` alone; only the pending
  case clears it.

## Model

| member | source | states |
|---|---|---|
| NewsSlice.MapStory | src/store/slices/newsSlice.ts:103-111 | a story's media list is kept, and a missing one becomes the empty list; the item always has a headline and a byline |
| NewsSlice.MapStories | src/store/slices/newsSlice.ts:92-111 | one item per story, same length, position by position the mapping of that story |
| NewsSlice.MapStoryRoundTrip | src/store/slices/newsSlice.ts:103-111 | reading the item back gives the original story, except that missing media have become the empty list |
| NewsSlice.StoryOfRoundTrip | src/store/slices/newsSlice.ts:103-111 | every item with media, headline and byline is the mapping of the story read back from it |
| NewsSlice.MapStoriesCarriesFields | src/store/slices/newsSlice.ts:104-110 | `url` becomes `webUrl`, the published date becomes `pubDate`, and `title` and `byline` become `headline.main` and `byline.original`; abstract and source are kept |
| NewsSlice.SettleFetchLatestNews | src/store/slices/newsSlice.ts:85-113 | success fulfils with the mapped stories, one per result, and the clock reading; failure rejects with the thrown message |
| NewsSlice.ArchiveFetch | src/store/slices/newsSlice.ts:51-145 | a whole archive fetch, settled by the thunk as its documents or its thrown message, pending then settled, ends with loading over and leaves stories, count and phase alone; a fetched page is appended to `items` with `hasMore` exactly when it is non-empty and no error; a failure keeps `items` and stores the thrown message or the fixed fallback |
| NewsSlice.ErrorText | src/store/slices/newsSlice.ts:144 | a non-empty message wins; a missing or empty one gives the fallback |
| NewsSlice.NewsStore.constructor | src/store/slices/newsSlice.ts:38-48 | the store starts in the initial state: no stories, count 10, no error, `hasMore`, no fetch time, initial phase |
| NewsSlice.NewsStore.ClearError | src/store/slices/newsSlice.ts:121-123 | the new state is the old one with `error` null |
| NewsSlice.NewsStore.ShowMoreNews | src/store/slices/newsSlice.ts:124-129 | the new state is the reveal step applied to the old one |
| NewsSlice.NewsStore.FetchNewsPending | src/store/slices/newsSlice.ts:133-136 | the new state is the old one with `loading` set and `error` cleared |
| NewsSlice.NewsStore.FetchNewsFulfilled | src/store/slices/newsSlice.ts:137-141 | the new state is the old one with loading over, the page appended to `items`, and `hasMore` set exactly when the page is non-empty |
| NewsSlice.NewsStore.FetchNewsRejected | src/store/slices/newsSlice.ts:142-145 | the new state is the rejection step of the archive fetch applied to the old one |
| NewsSlice.NewsStore.FetchLatestNewsPending | src/store/slices/newsSlice.ts:146-153 | the new state is the pending step of the latest fetch applied to the old one |
| NewsSlice.NewsStore.FetchLatestNewsFulfilled | src/store/slices/newsSlice.ts:154-174 | the new state is the fulfilled step of the latest fetch applied to the old one |
| NewsSlice.NewsStore.FetchLatestNewsRejected | src/store/slices/newsSlice.ts:175-179 | the new state is the rejection step of the latest fetch applied to the old one |
| NewsSlice.ClearErrorStep | src/store/slices/newsSlice.ts:121-123 | the error becomes null; items, stories, count and the three flags are kept |
| NewsSlice.ShowMoreStep | src/store/slices/newsSlice.ts:124-129 | the count grows exactly when stories are hidden, and then by 10, with the shown items a prefix of the stories; stories, error and phase are kept |
| NewsSlice.FetchNewsPendingStep | src/store/slices/newsSlice.ts:133-136 | loading is raised and the error cleared; items, stories and count are kept |
| NewsSlice.FetchNewsFulfilledStep | src/store/slices/newsSlice.ts:137-141 | loading ends, the page is appended after the old items, and `hasMore` holds exactly for a non-empty page; stories, count and error are kept |
| NewsSlice.FetchNewsRejectedStep | src/store/slices/newsSlice.ts:142-145 | loading ends, `autoLoading` is kept and a non-empty error is stored; items, stories and count are kept |
| NewsSlice.FetchLatestNewsPendingStep | src/store/slices/newsSlice.ts:146-153 | the error is cleared; in the initial phase `loading` is raised and `autoLoading` kept, after it `autoLoading` is raised and `loading` kept; items, stories and count are kept |
| NewsSlice.FetchLatestNewsFulfilledStep | src/store/slices/newsSlice.ts:154-174 | both loading flags go down, the initial phase ends and the time is recorded; the stories become the payload in the initial phase and are kept after it; error and `hasMore` are kept |
| NewsSlice.FetchLatestNewsRejectedStep | src/store/slices/newsSlice.ts:175-179 | both loading flags go down and a non-empty error is stored; items, stories and count are kept |
| NewsSlice.Reduce | src/store/slices/newsSlice.ts:117-181 | only the first successful latest fetch changes the stories; only a reveal or a successful latest fetch changes the count; only a successful latest fetch changes the fetch time; the initial phase never comes back |
| NewsSlice.NewsStore.Dispatch | src/store/slices/newsSlice.ts:117-181 | dispatching an action leaves the state that the reducer gives, and keeps the invariant |
| NewsSlice.ClearErrorOnlyClearsError | src/store/slices/newsSlice.ts:121-123 | `clearError` nulls the error and changes no other field |
| NewsSlice.ShowMoreReveals | src/store/slices/newsSlice.ts:124-129 | with stories hidden, the count grows by exactly 10 with no cap and `items` becomes `allItems[..min(count, length)]`, with no other field changed; with none hidden, nothing changes; `allItems` is never touched |
| NewsSlice.LatestPendingRaisesOneFlag | src/store/slices/newsSlice.ts:146-153 | the initial load raises `loading` and a later one `autoLoading`; the other flag is untouched, the error is cleared, and nothing else changes |
| NewsSlice.FirstLoadInstallsStories | src/store/slices/newsSlice.ts:154-166 | the first load stores all the stories and sets the count to 10 even for fewer stories; it shows `stories[..min(10, N)]`, ends the initial phase, clears both loading flags, records the timestamp, and keeps the error and `hasMore` |
| NewsSlice.RefreshIgnoresStories | src/store/slices/newsSlice.ts:167-173 | a later load keeps `allItems` and takes the reveal step of `showMoreNews`; it also settles the flags and records the time |
| NewsSlice.RefreshPayloadIrrelevant | src/store/slices/newsSlice.ts:167-173 | after the first load, the outcome of a successful fetch does not depend on the fetched stories |
| NewsSlice.RejectionKeepsContent | src/store/slices/newsSlice.ts:142-179 | each rejection clears its loading flags and stores the message or the fixed default text; items, stories, count and phase are unchanged |
| NewsSlice.ArchivePageAppends | src/store/slices/newsSlice.ts:137-141 | the archive page is appended to `items`; `hasMore` holds exactly when the page is non-empty; loading ends; stories and count are kept |
| NewsSlice.InitialStateInvariant | src/store/slices/newsSlice.ts:38-48 | the initial state satisfies the invariant and the window |
| NewsSlice.ReducePreservesInvariant | src/store/slices/newsSlice.ts:120-180 | every action keeps the invariant: the count is at least 10, a multiple of 10 and at most 10 past the stories; the initial phase has no stories and matches the absent fetch time; a stored error is non-empty |
| NewsSlice.ReducePreservesWindow | src/store/slices/newsSlice.ts:121-179 | every action except the archive page keeps `items == allItems.slice(0, displayedCount)` |
| NewsSlice.ReduceCountMonotone | src/store/slices/newsSlice.ts:124-174 | from a valid state no action lowers the count |
| NewsSlice.RunPreservesInvariant | src/store/slices/newsSlice.ts:117-181 | any run of actions from a valid state ends in a valid state |
| NewsSlice.ReachableInvariant | src/store/slices/newsSlice.ts:38-181 | every state reachable from the initial one satisfies the invariant |
| NewsSlice.RunPreservesWindow | src/store/slices/newsSlice.ts:124-179 | a run without an archive page keeps the shown items the window the count selects |
| NewsSlice.RunMonotone | src/store/slices/newsSlice.ts:124-174 | along any run the count never decreases, and once the first load is done the initial phase never returns |
| NewsSlice.RunKeepsStories | src/store/slices/newsSlice.ts:161-173 | after the first load, no run of actions changes `allItems` |
| NewsSlice.FirstLoadOvershoots | src/store/slices/newsSlice.ts:161-165 | a first load of fewer than 10 stories reaches a state whose count exceeds the number of stories |
| NewsSlice.ArchivePageBreaksWindow | src/store/slices/newsSlice.ts:137-141 | from any windowed state, a non-empty archive page leaves shown items that are not the window of the stories |
| NewsSlice.TwentyThreeStories | src/store/slices/newsSlice.ts:124-173 | with 23 stories: 10 shown after the first load, 20 after one reveal, all 23 with the count at 30 after the second, and a third reveal changes nothing |
| JsBuiltins.SliceTo | src/store/slices/newsSlice.ts:127 | `slice(0, end)` is a prefix of length `min(end, length)`, or `max(0, length + end)` for a negative end |
| JsBuiltins.SliceFrom | src/components/NewsList.tsx:33 | `slice(start)` is a suffix of length `max(0, length - start)` for a non-negative start and `min(length, -start)` for a negative one |
| JsBuiltins.PadStart | src/components/NewsList.tsx:56-57 | the result has length `max(length, target)`, ends with the input, and is filled in front with the fill character |
| JsBuiltins.NatToString | src/components/NewsList.tsx:56-58 | `toString` gives at least one decimal digit, with no leading zero; one digit exactly below 10 and two from 10 to 99 |
| JsBuiltins.IntToString | src/components/NewsList.tsx:58-59 | `toString` of an integer is never empty and starts with `-` exactly for a negative number, followed by the digits of its magnitude |
| JsBuiltins.StartsWith | src/components/NewsItem.tsx:33 | `startsWith` holds exactly when the prefix is no longer than the string and agrees with it position by position |
| JsBuiltins.DecimalRoundTrip | src/components/NewsList.tsx:56-58 | reading back the digits `toString` writes gives the number |
| NewsList.MountLoad | src/components/NewsList.tsx:15-17 | the load on mount ends with both loading flags down; on success the feed holds the mapped stories, each with a media list, shows the first page and records the time; on failure it stays empty and in the initial phase, with the error stored |
| NewsList.IntervalTick | src/components/NewsList.tsx:21-25 | a tick dispatches `showMoreNews` exactly when the count is below the number of stories, and nothing otherwise |
| NewsList.IntervalTickIsShowMore | src/components/NewsList.tsx:21-25 | a tick ends in the state an unconditional `showMoreNews` would give; a dispatching tick adds 10 to the count, and a silent one changes nothing |
| NewsList.NewGroupTracker.constructor | src/components/NewsList.tsx:11-12 | the ref starts at 0 and the highlighted set empty |
| NewsList.NewGroupTracker.DisplayedCountChanged | src/components/NewsList.tsx:31-43 | when the count grew from a positive previous value, the highlight becomes the date keys of `items.slice(prev)`; otherwise the highlight is kept; the ref always takes the new count |
| NewsList.NewGroupTracker.HighlightExpired | src/components/NewsList.tsx:38-40 | the timeout empties the highlight and leaves the ref alone |
| NewsList.RevealHighlightsAddedStories | src/components/NewsList.tsx:31-36 | after a reveal from a windowed state, the highlighted keys are exactly the date keys of the stories that the reveal added |
| NewsList.ItemsOnDate | src/components/NewsList.tsx:45-52 | a day's items are no more than the items, and each has that day's key |
| NewsList.ItemsOnDateMembers | src/components/NewsList.tsx:45-52 | an item is among a day's items exactly when it is shown and has that day's key |
| NewsList.ItemsOnDateEmpty | src/components/NewsList.tsx:45-52 | a day has no items exactly when its key is not among the items' keys |
| NewsList.GroupFold | src/components/NewsList.tsx:45-52 | the `reduce` lists no more keys than items, and a key is listed exactly when it has a group |
| NewsList.GroupFoldGroup | src/components/NewsList.tsx:45-52 | after the `reduce`, a key's group is that key's items in feed order and never empty, and a key without items has no group |
| NewsList.GroupFoldNoDuplicates | src/components/NewsList.tsx:45-52 | no key is listed twice |
| NewsList.GroupFoldSize | src/components/NewsList.tsx:45-52 | the group sizes add up to the number of shown items |
| NewsList.GroupByDate | src/components/NewsList.tsx:45-52 | the loop computes the fold. Its keys are each listed once and are exactly the items' date keys. Each group holds exactly its day's items in feed order, and the sizes add up to the number of items |
| NewsList.InsertByTime | src/components/NewsList.tsx:88-89 | inserting a key into a newest-first list keeps it newest-first and adds exactly that key |
| NewsList.SortNewestFirst | src/components/NewsList.tsx:88-89 | the sorted keys are in non-increasing order of their time and are a permutation of the input |
| NewsList.SortKeepsKeys | src/components/NewsList.tsx:88-89 | sorting keeps exactly the same keys, and keys that were distinct stay distinct |
| NewsList.SortedGroupKeys | src/components/NewsList.tsx:88-89 | the sorted keys of a grouping are its date keys, each once, and each has a group holding exactly that day's items |
| NewsList.PresentGroups | src/components/NewsList.tsx:45-96 | there is one group per date key of the shown items, each key once, newest day first; each group holds exactly that day's items in feed order |
| NewsList.ExactlyOneGroup | src/components/NewsList.tsx:45-52 | every shown item sits in the group of its own date key and in no other |
| NewsList.ParseIntRoundTrip | src/components/NewsList.tsx:58-59 | the year written by `toString` reads back as the same integer, negative years included |
| NewsList.TwoDigitsRoundTrip | src/components/NewsList.tsx:56-57 | a number below 100 padded to two digits gives exactly two digits that read back as the number |
| NewsList.FormatCalendarDate | src/components/NewsList.tsx:55-59 | every heading starts with `News for ` |
| NewsList.FormatGroupDate | src/components/NewsList.tsx:54-60 | the heading of a date string starts with `News for ` |
| NewsList.FormatGroupDateReadsBack | src/components/NewsList.tsx:54-60 | the heading of a date string with a valid calendar date reads back as that date |
| NewsList.HeadingsDistinguishDates | src/components/NewsList.tsx:54-60 | two valid dates get the same heading exactly when they are the same date |
| NewsList.GroupHeadingRoundTrip | src/components/NewsList.tsx:54-60 | the heading of a valid date is `News for `, then two digits of day, a dot, two digits of month counted from 1, a dot and the year; reading it back gives the date |
| NewsList.SelectView | src/components/NewsList.tsx:62-83 | the error view is shown exactly for a truthy error; the loading view only in the initial phase while loading |
| NewsList.ReachableView | src/components/NewsList.tsx:62-83 | in a reachable state the error view shows exactly when an error is stored; the loading view shows exactly with no error, in the initial phase, while loading |
| NewsList.FailedRefreshShowsError | src/components/NewsList.tsx:62-71 | in any state, a failed latest fetch brings up the error view, while items, stories and count stay as they were |
| NewsList.RefreshKeepsFeed | src/components/NewsList.tsx:73-83 | the pending phase of a background refresh never brings up the loading view |
| NewsItemImage.FindBySubtype | src/components/NewsItem.tsx:28-29 | `find` by subtype gives the first index with that subtype, and nothing exactly when no entry has it |
| NewsItemImage.ChooseImage | src/components/NewsItem.tsx:27-31 | nothing is chosen exactly for absent or empty media; otherwise the chosen entry is one of the media. It is the first `thumbnail` if there is one, else the first `thumbLarge`, else the first entry |
| NewsItemImage.NormalizeUrl | src/components/NewsItem.tsx:33 | a URL starting with `http` is kept, anything else is prefixed with `https://www.nytimes.com/`, and the result always starts with `http` |
| NewsItemImage.GetImageUrl | src/components/NewsItem.tsx:26-37 | the result is null exactly for absent or empty media; otherwise it starts with `http` and is the chosen entry's URL, kept or prefixed with the site origin |
| NewsItemImage.NormalizeUrlIdempotent | src/components/NewsItem.tsx:33 | resolving an already resolved URL changes nothing |
| NewsItemImage.HttpPrefixedPathKept | src/components/NewsItem.tsx:33 | example of the plain prefix test: the relative path `httpx.jpg` is kept as it is, while `x.jpg` goes under the site origin |
| NewsItemImage.MappedStoryImage | src/components/NewsItem.tsx:26-37 | a story from the Top Stories mapping has an image exactly when the API sent a non-empty media list |

## Left out

- Network I/O and JSON decoding in the two thunks: the URL, the API key, `fetch`, the status check and `response.json()`. Their result is the `Outcome` given to the settlement functions.
- `Date.now()`: the clock reading is the parameter `now`.
- JavaScript `Date`: `toDateString`, `getTime` and the calendar getters become the parameters `dateKey`, `timeOf` and `calendarOf`. Invalid dates and `NaN` times are therefore not modelled.
- `formatDate` in `src/components/NewsItem.tsx:14-24`: the card's date line comes from the locale formatting of `toLocaleDateString`, which is not modelled.
- React: `useEffect`, `useRef`, `useState`, `setInterval` and `setTimeout`. An interval tick, the effect run and the highlight timeout are explicit calls. The clean-up of the interval and the timing itself are not modelled.
- Rendering: JSX, CSS classes, `window.open`, `window.location.reload` and the image `onError` fallback. `Menu.tsx`, `Header.tsx`, `Footer.tsx` and `App.tsx` are not part of this model.
- Store configuration: `src/store/index.ts` and `vite.config.ts` are not part of this model.
- Media fields other than `url` and `subtype` are carried but never read.
- NewsList.SortNewestFirst: stability on equal times is not proved. The sort is a stable insertion, but only order by time and permutation are stated. The keys are distinct, so stability matters only for distinct days whose times are equal.
- NewsSlice.ShowMoreReveals: requires a non-negative count to state the shown prefix with `min`. The source does not demand it, but every reachable state has a count of at least 10 (`Invariant`).
