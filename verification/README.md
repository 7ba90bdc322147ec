# yeseerr core, modelled in Dafny

yeseerr is a web front-end for a home media library. It browses the TMDB
catalog of movies and TV shows and shows which titles are already in the
local libraries (Radarr for movies, Sonarr for series). A click adds a title
to the matching library. This project models the logic behind that:

- `js.dfy` (`Js`): the JavaScript vocabulary the rest needs: absent values, `||` defaults and their truthiness, thrown errors, `Array.prototype.map`, and rendering a page number in a URL.
- `media_types.dfy` (`MediaTypes`): the normalised `Media` record every client produces.
- `catalog.dfy` (`Catalog`): the catalog item and page shapes, and a request reduced to its endpoint and query parameters.
- `movie.dfy` and `tvshow.dfy`: the two catalog clients. They cover converters, endpoint choice, API-key guard and response mapping.
- `radarr.dfy` and `sonarr.dfy`: the two library clients. They cover the configuration guard, converters, list, lookup and add results, the presence-id lists and the defaults of add requests.
- `paged_list.dfy` (`PagedList`): the infinite-scroll list controller that both browse pages share. It holds the accumulated list, page cursor, loading and exhaustion flags, error text and cached presence ids.
- `tvshow_page.dfy` and `movies_page.dfy`: the two browse pages built on the controller. Methods after each page class run it through whole scenarios.
- `media_card.dfy` (`MediaCard`): the add-to-library card. It holds the order of library calls, the `isAdding` flag, the snackbar and the release year.
- `radarr_card.dfy` (`RadarrCard`): the library movie card. It holds the poster URL, the file-size unit loop and the unknown-date label.

Network calls, environment variables and the browser are parameters:
- an HTTP response is a value `Http(ok, statusText, body)`;
- an unset environment variable is the empty string;
- an awaited library call arrives as a `Settled` value, resolved or rejected.

An asynchronous page load is split at its awaits. `Controller.Begin` covers the guard and the flags set before the first await. `Controller.Complete` covers everything after the catalog page and the presence ids have arrived.

Where the code and its intended design differ, the model follows the code:

- **A failed load does not stop loading.** The load guard checks only `loading` and `hasMore`, not `error`. While an error is set, the page renders only the error text: no list, no tabs, no search field (src/app/tvshow/page.tsx:118-126, src/app/movies/page.tsx:88-96). So the reset handlers cannot fire (they require no error). A retry then needs a scroll event on the error screen, which may not be scrollable. If one arrives, the load is accepted and clears the error (`TvShowPage.FailureDoesNotHalt`).
- **Requests are not tagged with their scope.** A page requested for one tab or query and delivered after a tab or search change is appended to the new, emptied list. It also moves the reset cursor on (`TvShowPage.StaleScopeIsAppended`).
- **Fetched presence ids are not cached.** A load that has to fetch the ids never stores them, so every page fetches them again while the cache is empty (`MoviesPage.PresenceRefetchedEachPage`).
- **A scope reset does not touch `error` or `loading`.**
- **The series add response is read through a field spelled `TmdbId`.** Sonarr's response carries `tmdbId`, so `Sonarr.AddTVShowToSonarr` copies a field the service does not send.
- **The movie converter tags every item as a movie.** This includes TV-shaped items. It defaults the release date to `''`. The TV converter does neither, so its release date can stay absent.
- **A failed presence fetch blocks the scope's first load.** The initial-load effect fetches the library's presence ids before it loads the first page (src/app/tvshow/page.tsx:87-102, src/app/movies/page.tsx:58-72). It runs on mount. On the TV page it runs again after every tab change and every search keystroke, because both handlers re-arm it (src/app/tvshow/page.tsx:68, :76) and the new scope gives `loadMoreTVShows` a new identity (:61). If the fetch throws, the `catch` only logs it, no catalog request is sent and no error is shown, so the new scope's list stays empty. A later scroll event, tab change or search keystroke starts another attempt. The intended design is that a failed presence fetch does not keep the page from rendering.
- **Only the movie-library client guards its list body.** A list body that is not an array gives `[]` there (`Array.isArray`), while the show-library client calls `map` on it unguarded and throws, both when listing and when looking up.
- **The movie-library converter uses the raw `tmdbId` as `id`.** It defaults `tmdbId` itself to 0. A movie without a poster image makes the converter throw, and with it the whole list call.

## Model

| member | source | states |
|---|---|---|
| Js.MessageOr | src/app/tvshow/page.tsx:57 | A caught `Error` yields its message, any other thrown value the fallback text. The browse pages and the add card both use it, each with its own fallback |
| Js.OrString | src/lib/movie.ts:18 | JavaScript `or` on two strings: `a` when it is non-empty, otherwise `b`; the result is truthy iff either operand is |
| Js.StringOr | src/lib/movie.ts:21 | A string default: the value when it is a non-empty string, otherwise the literal default |
| Js.MapSeq | src/lib/movie.ts:66 | `map` keeps the length and the order, and puts `f` of element `i` at position `i` |
| Js.NatToString | src/lib/movie.ts:41 | A page number renders as a non-empty string of decimal digits without a leading zero |
| Js.ParseNatToString | src/lib/movie.ts:41 | Reading the rendered page number back as a decimal gives the same number |
| Js.NatToStringInjective | src/lib/movie.ts:41 | Two different page numbers never render as the same `page` parameter |
| Catalog.Interpolate | src/lib/movie.ts:19 | A poster path is inserted as it is; a JSON null renders as `null` |
| Catalog.ConvertPage | src/lib/movie.ts:64-67 | The page, total pages and total results are copied, and each result is converted in place, in order |
| Movie.ConvertToMediaFormat | src/lib/movie.ts:15-28 | `id` and `tmdbId` are the item id. The title is `title` if non-empty, else `name`. The poster is the w500 prefix plus the raw path. The release date is `release_date`, else `first_air_date`, else `''`. `tvdbId` is 0, `inRadarr` is false and the tag is always movie |
| Movie.FetchMoviesRequest | src/lib/movie.ts:36-53 | The three named categories go to `movie/<name>` with language, key and page. Anything else goes to `discover/movie` with region US and the fixed provider list |
| Movie.SearchMoviesRequest | src/lib/movie.ts:76-85 | The search goes to `search/movie` with language, key, query and page |
| Movie.FetchMovies | src/lib/movie.ts:59-67 | A failed response throws the fixed browse error. Otherwise the page is returned with every result converted |
| Movie.SearchMovies | src/lib/movie.ts:87-94 | A failed response throws the fixed search error. Otherwise the page is returned with every result converted |
| TvShow.ConvertToMediaFormat | src/lib/tvshow.ts:16-29 | `id` and `tmdbId` are the item id and the title is `name`. The poster is the w220 prefix plus the raw path. The release date is `release_date`, else `first_air_date`, with no default. `imdbId` is `''`, `tvdbId` is unset, and the tag is TV show |
| TvShow.FetchTVShowsRequest | src/lib/tvshow.ts:32-42 | A missing API key fails before any request. Named categories go to `tv/<name>`. Anything else is sent to `discover/tv` as a network code, with region US. Key, `language=zh-CN` and page are always sent |
| TvShow.SearchTVShowsRequest | src/lib/tvshow.ts:60-68 | A missing API key fails. Otherwise the search goes to `search/tv` with the key, `language=zh-CN`, the query and the page |
| TvShow.FetchTVShows | src/lib/tvshow.ts:31-57 | Missing key, then failed response (with its status text), then the converted page |
| TvShow.SearchTVShows | src/lib/tvshow.ts:59-79 | Missing key, then failed response (with its status text), then the converted page |
| TvShow.OnTheAirIsDiscovered | src/lib/tvshow.ts:37-42 | The `on_the_air` tab is not a named category. It is sent to discovery as `with_networks=on_the_air` |
| TvShow.ConvertersCompared | src/lib/tvshow.ts:16-29 | The two catalog converters give the same id but different tags. They agree on the title of a TV-shaped item. Only the movie converter defaults an absent release date to `''` |
| Radarr.FindPoster | src/lib/radarr.ts:78 | `find` returns the first image whose cover type is `poster`, or nothing if there is none |
| Radarr.TmdbRating | src/lib/radarr.ts:84-88 | The `tmdb` rating value when it is present and non-zero, otherwise 0 |
| Radarr.ConvertToMovieFormat | src/lib/radarr.ts:73-94 | Fails exactly when there is no poster image. `id` is the raw `tmdbId`, while `tmdbId` and `tvdbId` default to 0. The poster is the base URL plus the poster url. The item is marked present and tagged as a movie |
| Radarr.ConvertAll | src/lib/radarr.ts:115 | Every movie is converted in order, and the map succeeds iff every element converts |
| Radarr.FetchRadarrMovies | src/lib/radarr.ts:96-121 | Incomplete configuration, then failed response, then a non-array body giving `[]`, then the converted list |
| Radarr.GetRadarrTmdbIds | src/lib/radarr.ts:144-152 | Fails exactly when the list call fails, with its message. Otherwise it gives the `tmdbId` of every converted movie, in order |
| Radarr.RadarrIdsArePresent | src/lib/radarr.ts:89 | Every id in the movie-library presence list is a number. A movie without a truthy `tmdbId` contributes 0 |
| Radarr.AddMovieToRadarr | src/lib/radarr.ts:155-183 | Incomplete configuration, then a failed POST with the body's `message` or else the status text, then the response body |
| Radarr.GetDefaultAddMovieParams | src/lib/radarr.ts:186-197 | The request carries the given id and title, quality profile 1, root `/media`, monitored, and search on add |
| Sonarr.RatingValue | src/lib/sonarr.ts:75 | The series rating when it is present and non-zero, otherwise 0 |
| Sonarr.ConvertToMediaFormat | src/lib/sonarr.ts:68-81 | Ids and title are copied, and the poster is one fixed URL whatever the input. The release date is `firstAired` or `''`. A falsy `tvdbId` becomes 0. The item is a TV show that is not marked present |
| Sonarr.WithTvdbDefault | src/lib/sonarr.ts:101-106 | Only a falsy `tvdbId` changes, and it becomes `''` |
| Sonarr.WithTvdbDefaultInvisible | src/lib/sonarr.ts:101-107 | Pre-defaulting `tvdbId` to `''` makes no difference after conversion |
| Sonarr.FetchSonarrSeries | src/lib/sonarr.ts:83-112 | Incomplete configuration, then failed response, then a body that is not an array throwing from `map`, then every series converted in order |
| Sonarr.GetSeriesByTmdbId | src/lib/sonarr.ts:114-141 | Incomplete configuration, then failed response, then a body that is not an array throwing from `map`. Otherwise null iff the lookup is empty, else every match converted in order |
| Sonarr.GetSonarrTmdbIds | src/lib/sonarr.ts:143-151 | Fails exactly when the list call fails. Otherwise it gives each listed series' `tmdbId`, in order |
| Sonarr.AddTVShowToSonarr | src/lib/sonarr.ts:153-182 | Incomplete configuration, then failed POST, then `id`, `title` and the field `TmdbId` of the body |
| Sonarr.GetDefaultAddTVShowParams | src/lib/sonarr.ts:184-196 | The request carries the given ids and title, quality profile 1, root `/media`, monitored, and a search for missing episodes |
| PagedList.FromCatalog | src/app/tvshow/page.tsx:39-41 | A catalog result reaches the page as its results, or as an `Error` carrying the client's message |
| PagedList.ChooseIds | src/app/tvshow/page.tsx:48 | The cached ids are used when the cache is non-empty, and the fetched ones otherwise |
| PagedList.Reconcile | src/app/tvshow/page.tsx:49-52 | The length is kept. An item is marked present iff its id is in the list, and nothing else about it changes |
| PagedList.ReconcileAppend | src/app/tvshow/page.tsx:49-54 | Reconciling page by page and appending equals reconciling the whole list |
| PagedList.MarkAdded | src/app/tvshow/page.tsx:79-85 | Exactly the items with the given id become present, and every other item is unchanged |
| PagedList.MarkAddedIdempotent | src/app/tvshow/page.tsx:80-84 | Marking the same id twice is marking it once |
| PagedList.NearBottom | src/app/tvshow/page.tsx:106-109 | A scroll triggers a load iff the viewport's bottom is within 100 of the document's bottom |
| PagedList.Controller.constructor | src/app/tvshow/page.tsx:23-28 | The list starts empty on page 1, not loading, not exhausted, with no error and an empty id cache |
| PagedList.Controller.SetPresenceCache | src/app/tvshow/page.tsx:93 | The given ids become the cache, and nothing else changes. Only the initial-load effect calls this setter. It runs on mount and, on the TV page, again after each tab or search change; it is not modelled |
| PagedList.Controller.Begin | src/app/tvshow/page.tsx:34-38 | A trigger is accepted iff the list is neither loading nor exhausted. If accepted, `loading` is set and `error` cleared. Otherwise nothing changes |
| PagedList.Controller.Complete | src/app/tvshow/page.tsx:43-60 | An empty page exhausts the list. A non-empty page is appended, reconciled and advances the cursor by one. A failure records its text and appends nothing. `loading` ends false every time. The ids are fetched only for a non-empty page with an empty cache |
| PagedList.Controller.Reset | src/app/tvshow/page.tsx:65-67 | A change of scope empties the list, rewinds to page 1 and re-enables loading |
| TvShowPage.RequestFor | src/app/tvshow/page.tsx:39-41 | A search query is sent to the TV search request builder with its text and page. A browsed tab is sent to the TV list request builder with the tab as its category and the page |
| TvShowPage.TvShowPage.constructor | src/app/tvshow/page.tsx:23-30 | The initial state with the `popular` tab and empty search text |
| TvShowPage.TvShowPage.LoadMoreTVShows | src/app/tvshow/page.tsx:33-41 | The load guard and its flags. An accepted load searches when there is search text, else browses the active tab, both for the current page, which is at least 1 |
| TvShowPage.TvShowPage.HandleTabChange | src/app/tvshow/page.tsx:63-69 | Callable only while no error is shown, because the tabs are not rendered otherwise. The tab is set and the list reset. Search text, `error` and `loading` are untouched |
| TvShowPage.TvShowPage.HandleSearchChange | src/app/tvshow/page.tsx:71-77 | Callable only while no error is shown, because the search field is not rendered otherwise. The search text is set and the list reset. Tab, `error` and `loading` are untouched |
| TvShowPage.TvShowPage.HandleAddSuccess | src/app/tvshow/page.tsx:79-85 | The listed shows with the added id are marked present |
| TvShowPage.StaleScopeIsAppended | src/app/tvshow/page.tsx:33-69 | A page requested before a tab change fills the new, emptied list, and the cursor moves to 2 |
| TvShowPage.AddSurvivesLaterPage | src/app/tvshow/page.tsx:48-85 | With the id cache already set, as it is once the initial-load effect has stored the ids, two scroll-triggered loads with an add in between: the added show stays present after the later page, and the ids are not refetched |
| TvShowPage.FailureDoesNotHalt | src/app/tvshow/page.tsx:34-60 | After a failed load the error is shown, yet the next trigger is accepted and clears it |
| TvShowPage.ExhaustionStopsTriggers | src/app/tvshow/page.tsx:34-69 | After an empty page no trigger asks for anything. After a tab change, page 1 of the new tab is asked for |
| TvShowPage.FirstPageFromClients | src/app/tvshow/page.tsx:33-60 | A scroll-triggered load of the popular tab's page 1 on an empty id cache sends that tab's page-1 request. The page then shows the converted catalog results marked by the show library's ids, or exactly the text of the failing call: missing key, failed catalog response or failed library list |
| TvShowPage.AddThroughCard | src/app/tvshow/page.tsx:218-226 | A card's add marks its show present iff the lookup found a match and the add resolved |
| MoviesPage.MoviesPage.constructor | src/app/movies/page.tsx:19-25 | The initial state of the movie list |
| MoviesPage.MoviesPage.LoadMoreMovies | src/app/movies/page.tsx:27-33 | The load guard and its flags. An accepted load asks for the current page, which is at least 1 |
| MoviesPage.OneRequestPerPage | src/app/movies/page.tsx:27-56 | A trigger while a page is in flight asks for nothing. The next one asks for the next page |
| MoviesPage.PresenceRefetchedEachPage | src/app/movies/page.tsx:40-50 | With an empty cache, both pages fetch the presence ids, and the list is the two reconciled pages in order |
| MediaCard.Settle | src/components/MediaCard.tsx:49-57 | An awaited client call resolves with its value or rejects with an `Error` carrying its message |
| MediaCard.AddSeriesFromResponses | src/components/MediaCard.tsx:51-74 | From the library's lookup and POST responses: the add succeeds iff the configuration is complete, the lookup body is a non-empty array and the POST is ok. The add carries the converted first match's `tvdbId`. Incomplete configuration stops after the lookup with the configuration error in the snackbar |
| MediaCard.AddDecision | src/components/MediaCard.tsx:47-58 | A movie issues one add with its id and title. A TV show is looked up first and is added with the first match's `tvdbId` only when the lookup found something. A null or empty lookup throws the fixed not-found error. Any other kind issues no call and succeeds |
| MediaCard.NoSeriesAddWithoutMatch | src/components/MediaCard.tsx:52-57 | A series add is always the second call. It follows a lookup for the same show that found a match, and carries that match's `tvdbId` |
| MediaCard.SnackbarFor | src/components/MediaCard.tsx:60-71 | The snackbar opens, with the fixed success text or with the thrown message (with a fallback) as an error |
| MediaCard.ReleaseYear | src/components/MediaCard.tsx:222 | With no date, the year is `''`. Otherwise it is the longest prefix of the date without `-`, ending just before the first `-` |
| MediaCard.BeforeDash | src/components/MediaCard.tsx:222 | `split("-")[0]` is a dash-free prefix followed by a dash or by the end of the string |
| MediaCard.MediaCard.constructor | src/components/MediaCard.tsx:31-40 | The card starts idle with a closed, empty success snackbar |
| MediaCard.MediaCard.StartAdd | src/components/MediaCard.tsx:42-44 | A click gets through iff the item is not present and no add is running; the add button exists and is enabled at lines 129-157 only then. A click that gets through sets `isAdding` |
| MediaCard.MediaCard.FinishAdd | src/components/MediaCard.tsx:45-75 | The calls are those of the decision. `onAddSuccess` is called iff it succeeded, the snackbar tells the outcome, and `isAdding` ends false |
| MediaCard.MediaCard.HandleCloseSnackbar | src/components/MediaCard.tsx:77-79 | Closing hides the snackbar and keeps its message and severity |
| RadarrCard.GetPosterUrl | src/components/RadarrCard.tsx:32-42 | Uses the first poster image. A missing poster or empty url gives the placeholder. An `http…` url is returned as it is, and any other url gets the library base URL in front |
| RadarrCard.FormatDate | src/components/RadarrCard.tsx:12-19 | The empty date gives the fixed unknown-date text, and any other date its locale rendering |
| RadarrCard.FormatFileSize | src/components/RadarrCard.tsx:21-30 | The unit index stays at most 4 and names the unit. Size times 1024^index equals the byte count. The size is below 1024 unless the unit is TB, and at least 1 unless the unit is B |

## Left out

- Network, `fetch`, `response.json()` and `process.env` reads are left out. Responses, environment values and awaited results are parameters.
- `fetchRootFolders` in both library clients is pure I/O with no decisions beyond the configuration guard. `getMovieByTmdbId` in the movie-library client returns the raw JSON with no logic.
- src/lib/tmdb.ts is not part of this model; it is a bare fetch wrapper.
- src/app/movies/page.tsx imports `fetchMovies` from src/lib/tmdb.ts, `getRadarrMovieTmdbIds` (which src/lib/radarr.ts does not export) and a `Movie` type from a module that is not part of this model. Its catalog page and presence ids therefore reach `Controller.Complete` as opaque parameters.
- URL encoding is left out: requests are modelled as an endpoint plus named parameters, with the query as it is given. This covers `URLSearchParams`, `encodeURIComponent` (and the double encoding of the movie search query), parameter order and the base URL string.
- React machinery is left out: state batching, `useCallback` dependency capture, effects, the `initialLoadRef` double-load guard, event listeners, and two loads running at once. Each modelled method runs to completion before the next starts.
- Floating point is left out: `vote_average` is an opaque, copied value, `NaN` is not modelled as falsy, and `toFixed` and the rendered strings are out of scope. `RadarrCard.FormatFileSize` computes on exact reals.
- RadarrCard.FormatDate: `toLocaleDateString` is a parameter, `rendered`; the locale's date format is not modelled.
- Radarr.ConvertToMovieFormat: an absent `ratings` object (which would throw) is not modelled; `ratings` is always a map.
- Radarr.ConvertToMovieFormat: the text of the `TypeError` thrown for a missing poster is engine-specific; the model fixes one text.
- Sonarr.FetchSonarrSeries and Sonarr.GetSeriesByTmdbId: a body that is not an array is taken to be a JSON object. A JSON `null` body would throw a different `TypeError` text, and a JSON string would be read by `length`; the model fixes one text for all such bodies.
- Response bodies are assumed to parse as JSON. A failed add whose error body is not JSON makes `response.json()` throw a `SyntaxError` before the status text is used (src/lib/radarr.ts:173); this is not modelled. Apart from list bodies that are not arrays, bodies are assumed to have the fields the code reads.
- The error screen of both browse pages is modelled only through the reset handlers' requirement that no error is shown. Whether a scroll event can reach `loadMore` on that screen depends on layout and is not modelled: `LoadMoreTVShows` and `LoadMoreMovies` accept a trigger whenever the guard allows it.
- MediaCard.MediaCard.StartAdd and MediaCard.MediaCard.FinishAdd split the click handler at its awaits. Their results arrive as parameters, and `isAdding` is observable between the two.
- The initial-load effect `initLoad` (src/app/tvshow/page.tsx:87-102, src/app/movies/page.tsx:58-72) is not modelled. It runs on mount. On the TV page it runs again after every tab change and search keystroke, because `handleTabChange` and `handleSearchChange` reset `initialLoadRef` (:68, :76) and the new scope changes `loadMoreTVShows` (:61); this re-arming is not modelled either. The effect has two consequences the model does not show. When its presence fetch throws, that scope's first load is skipped and nothing is shown. When the fetch succeeds, the `loadMore` it awaits is the closure from before `setSonarrTmdbIds`. On mount that closure still sees an empty cache, so page 1 fetches the ids a second time. The scenarios start from a constructed page and call `SetPresenceCache` or leave the cache empty.
- Console logging is left out.
