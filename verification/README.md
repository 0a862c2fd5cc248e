# Image gallery search and download: a Dafny model

This project models the logic of the single page of an image gallery. The
`Home` component (`app/page.tsx`) keeps a search query, a category, a page
counter, the list of images loaded so far, a `hasMore` flag and a `loading`
flag. Changing the query or the category clears the list and starts again
from page 1. Scrolling to the end asks for the next page. Two effects fetch
pages from the image-search provider. Each image can be downloaded,
redrawn at the chosen width and height, as a JPEG or PNG file.

Modules:

- `SearchState` (search_state.dfy): the component's search state as a value
  (`State`); the transition each handler makes; the rule by which the two
  effects call `fetchImages` (`EffectRequests`, with the effects' remembered
  dependencies in `committed`); runs of events (`Run`, `Requests`); and
  lemmas about all runs.
- `HomeComponent` (home.dfy): class `Home`, whose fields are the component's
  state variables and whose methods are its handlers. The postconditions
  of the four handlers, of `FetchImagesSettled` and of `RunEffects` give
  the new fields and tie `Snapshot()` to the matching `SearchState.Step`.
  `FetchImages` only turns `loading` on, and its frame keeps every other
  field. `DownloadImage` changes nothing and returns the result of
  `ImageExport.DownloadImage` for the current width and height.
- `ImageExport` (export.dfy): the decisions inside `downloadImage`. These
  are the canvas size, the MIME type and the file name `image-<id>.<format>`,
  with a parser that recovers id and format from the name.
- `Decimal` (decimal.dfy): the decimal text of an integer, as a template
  literal prints it, and its inverse.
- `Opt` (option.dfy): an `Option` type.

The provider's answer to a request is an input: a `Response` that is either
the page's hits or a failure. The browser's part of a download is an input
too: a `Browser` value saying whether the fetch succeeded, what was decoded
and whether a 2D context exists. `fetchImages` is split at its `await`. The
synchronous part (`loading` on) runs when an effect calls it
(`Home.FetchImages`, inside `Home.RunEffects`). The continuation
(`Home.FetchImagesSettled`, event `Settle`) can happen at any later point of
a run.

The code makes none of the following guarantees, and the model follows it:

- a settled page is appended whatever the criteria are by then, so there is
  no stale-response guard (`NoStaleGuard`);
- `fetchMoreData` does not check `loading`, so a second page can be
  requested while one is in flight (`MoreDataFetches`);
- `loading` is a flag, not a count of requests in flight
  (`LoadingIsNotACount`);
- results are not deduplicated (`AppendOnly`);
- width and height are not required to be positive.

## Model

The transition functions `SearchState.SearchChanged`, `CategoryChanged`,
`MoreRequested`, `Settled` and `Committed`, and `ImageExport.FileName`,
carry no contract of their own: the lemma rows that name them specify them.

| member | source | states |
|---|---|---|
| `HomeComponent.Home.constructor` | app/page.tsx:14-24 | initial state: no images, query and category "nature", not loading, hasMore, page 1, format "jpg", 500 × 500, effects not yet run |
| `HomeComponent.Home.HandleSearchChange` | app/page.tsx:66-71 | query becomes the new value; images empty, page 1, hasMore on; category, loading and the effects' dependencies unchanged; only those four fields may change |
| `HomeComponent.Home.HandleCategoryChange` | app/page.tsx:73-78 | category becomes the new value; images empty, page 1, hasMore on; query, loading and dependencies unchanged |
| `HomeComponent.Home.FetchMoreData` | app/page.tsx:60-64 | page goes up by exactly one when hasMore, otherwise unchanged; only page may change; loading is not consulted |
| `HomeComponent.Home.FetchImages` | app/page.tsx:30-31 | starting a fetch turns loading on and changes nothing else |
| `HomeComponent.Home.FetchImagesSettled` | app/page.tsx:36-47 | after the request settles loading is off; on failure images and hasMore are unchanged; on success images are the old list followed by the hits and hasMore is off exactly when the page was empty or it was already off |
| `HomeComponent.Home.RunEffects` | app/page.tsx:50-58 | the requests issued are those of `EffectRequests` on the remembered and current dependencies, each with the current page, query and category; loading is on if any was issued; the dependencies are remembered |
| `HomeComponent.Home.DownloadImage` | app/page.tsx:80-105 | a download uses the component's current width and height, and changes no state |
| `SearchState.EffectRequests` | app/page.tsx:50-58 | every request carries the current page and criteria; one request per effect that fires: the criteria effect when the criteria changed (or on the first commit), the page effect when the page changed to a value above 1; so some request iff either, two iff both, none when nothing changed; specifies `Committed` together with `SearchChangeFetches`, `MoreDataFetches` and `FirstRenderFetches` |
| `SearchState.SearchChangeResets` | app/page.tsx:66-71 | specifies `SearchChanged`: after a query change, the new query, no images, page 1, hasMore, same category, loading and dependencies |
| `SearchState.CategoryChangeResets` | app/page.tsx:73-78 | specifies `CategoryChanged`: after a category change, the new category, no images, page 1, hasMore, same query, loading and dependencies |
| `SearchState.MoreDataAdvances` | app/page.tsx:60-64 | specifies `MoreRequested`: `fetchMoreData` moves exactly one page when hasMore, whatever loading is, and otherwise changes nothing |
| `SearchState.SettleEffect` | app/page.tsx:36-47 | specifies `Settled`: a settled request turns loading off and keeps page and criteria; a failure keeps images and hasMore; hits are appended, in order, and hasMore survives only a non-empty page |
| `SearchState.StepKeepsValid` | app/page.tsx:60-78 | every transition keeps the page at 1 or above |
| `SearchState.RunKeepsValid` | app/page.tsx:20 | every run from a state with page ≥ 1 ends with page ≥ 1 |
| `SearchState.AppendOnly` | app/page.tsx:42 | in a run with no reset, the final list is the old list followed by all hits that arrived, in arrival order and with no deduplication; criteria are unchanged; the page does not decrease and rises by at most the number of `fetchMoreData` calls |
| `SearchState.OldImagesPrefix` | app/page.tsx:42 | in a run with no reset the old list is a prefix of the new one and the length does not decrease |
| `SearchState.ExhaustionLatch` | app/page.tsx:38-40 | once hasMore is off, a run with no reset leaves it off and leaves the page where it was |
| `SearchState.ExhaustedIssuesNothing` | app/page.tsx:50-64 | once hasMore is off and the effects have seen the current state, no request is issued until a reset |
| `SearchState.ResetClears` | app/page.tsx:66-78 | after the last reset of a run, the list holds exactly the hits that arrived since, whatever came before, and the page restarted at 1 |
| `SearchState.FirstRenderFetches` | app/page.tsx:50-58 | the first commit fetches page 1 of "nature"/"nature" exactly once and turns loading on |
| `SearchState.SearchChangeFetches` | app/page.tsx:50-71 | a query change followed by a commit fetches page 1 of the new query in the current category; the same query fetches nothing |
| `SearchState.CategoryChangeFetches` | app/page.tsx:50-78 | a category change followed by a commit fetches page 1 of the current query in the new category; the same category fetches nothing |
| `SearchState.MoreDataFetches` | app/page.tsx:54-64 | `fetchMoreData` followed by a commit fetches the next page under the current criteria exactly when hasMore, even while loading |
| `SearchState.SettleFetchesNothing` | app/page.tsx:30-58 | a settled request changes no dependency, so the commit after it fetches nothing |
| `SearchState.NoStaleGuard` | app/page.tsx:42 | hits that settle after a query change are shown under the new query |
| `SearchState.LoadingIsNotACount` | app/page.tsx:30-64 | two `fetchMoreData` calls, each followed by a commit, issue requests for the next two pages, both in flight with loading on; when one of them settles loading is off although the other is outstanding |
| `Decimal.NatText` | app/page.tsx:97 | the text of a natural number is a non-empty digit string without a leading zero |
| `Decimal.IntText` | app/page.tsx:97 | the text of an integer is non-empty, has no '.', and starts with '-' iff the integer is negative |
| `Decimal.NatTextValue` | app/page.tsx:97 | the digits of a number's text denote that number |
| `Decimal.IntTextRoundTrip` | app/page.tsx:97 | parsing an integer's text gives the integer back |
| `Decimal.IntTextInjective` | app/page.tsx:97 | two integers have the same text iff they are equal |
| `ImageExport.MimeType` | app/page.tsx:94 | the encoding is "image/png" iff the format is "png", and "image/jpeg" otherwise |
| `ImageExport.FileNameRoundTrip` | app/page.tsx:97 | specifies `FileName`: the name `image-<id>.<format>` parses back to exactly that id and that format |
| `ImageExport.FileNameInjective` | app/page.tsx:97 | two downloads get the same file name iff their ids and formats agree |
| `ImageExport.DownloadImage` | app/page.tsx:80-105 | a file is saved iff fetch, decode and 2D context all succeed; its canvas is exactly width × height; the image is drawn over the whole canvas; its name is exactly `FileName(id, format)`, which parses back to the id and format; its encoding is `MimeType(format)`: image/png for "png" and image/jpeg for any other format |
| `ImageExport.IgnoresSourceSize` | app/page.tsx:90-92 | the saved file does not depend on the size of the source image, so its aspect ratio is not kept |

## Left out

- The HTTP request to the search provider and its URL with the API key: network I/O. Its result is the `Response` input; the request's page and criteria are recorded in `Request` but the URL is not built.
- `fetch`, `blob`, `createImageBitmap`, `getContext`, `drawImage`, `toDataURL` and the link created and clicked to save the file: browser APIs. Their outcome is the `Browser` input; pixels and encoded bytes are not modelled.
- `console.error` logging of a failed fetch or download: output only.
- React scheduling: when effects run relative to renders, batching of state updates, the `mounted` flag and its effect, and the timing of overlapping requests. A commit is the explicit event `Render`, and a request may settle at any point of a run. Which requests are outstanding is not tracked, so a run may settle more pages than were requested.
- `InfiniteScroll` and its scroll threshold: a third-party component with a floating-point threshold. It calls `fetchMoreData`, which is modelled as the event `MoreData`.
- JSX rendering, `hoveredImage`, styling, the category option list, and the inline setters of width, height and format: presentation. The three fields exist with their initial values.
- `ImageExport.DownloadImage`: width and height are integers. A browser's conversion of a NaN, fractional or negative number assigned to `canvas.width`, and `toDataURL` on a zero-sized canvas, are not modelled.
- `Decimal.IntText`: JavaScript's exponent notation for numbers of 10^21 and above is not modelled. Provider ids are integers well below that.
