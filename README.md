# mavida — a Dafny model of the client-side core

mavida is a movie and TV-series browsing frontend over the TMDB catalogue.
This project models the parts of it that hold state or make decisions, and
proves the properties their code promises.

**Stores** are classes whose methods replace fields. Each method's
postcondition ties the new state to a pure function of the old state, and
the ordering, uniqueness and bound properties are lemmas about those
functions.
- `stores/userPreferencesStore.ts`: favourites and the bounded watch history.
- `stores/searchStore.ts`: the recent-searches list.
- `stores/mediaStore.ts`: the playback store.
- `stores/playerPreferencesStore.ts`: the player preferences.
- `contexts/ToastContext.tsx`: the toast list.

**Progress and episode succession.**
- `hooks/useWatchProgress.ts`: the 10-second save gate and the next-episode computation.
- `components/features/tv/TVPlayer.tsx`: the player reducer, the previous/next rules, key navigation, the once-only auto-next trigger and the stream address.
- `hooks/useContinueWatching.ts` and `hooks/useEnhancedContinueWatching.ts`: each keeps entries with progress below 90, sorts newest first and takes 20.

**Catalogue gateway** (`services/tmdb/client.ts`).
- The `RateLimiter` is a FIFO queue with 250 ms spacing, driven by explicit clock values and completion events.
- `buildUrl` merges the query parameters.
- Failures map to `TMDBError`.
- The genre list is loaded once and cached.
- Searches take default parameters.
- The client is created once.
- `lib/tmdb/transformer.ts` supplies the response transformers.

**Pure helpers.**
- `lib/queryKeys.ts`: the query-key factories and their prefix structure.
- `lib/queryClient.ts`: the retry backoff and the cache settings.
- `lib/tmdb/images.ts`: image addresses.
- `types/media.ts`: the media type guards and field fallbacks.
- `hooks/useMediaSearch.ts`: the combined movie/TV search.
- `components/ui/ErrorFallback.tsx`: the error classifier.
- Component rules:
  - EpisodeCard: runtime formatting.
  - EpisodeGrid and SeasonSelector: episode and season ordering.
  - MediaHero: the carousel interleave and rotation.
  - MediaCard: card links and labels.
  - SearchBar: recent-search filtering.
  - SearchFilters: filter reset and the year list.

Each source file has one Dafny module. Two modules are shared:
- `common.dfy` holds the JavaScript operations the code relies on: `trim`, ASCII `toLowerCase`, `includes`, decimal printing and `parseInt`, `filter`, `slice` and `join`.
- `sorting.dfy` models `Array.prototype.sort` as a stable insertion sort by an integer key. The sort has been stable since ECMAScript 2019.

These are parameters, not effects: the clock (`Date.now`), toast identifiers, whether the code runs on the server, the HTTP outcome of each `fetch`, and the pages a search returns. Durations and timestamps are integers (milliseconds). Progress, volume and ratings are mathematical reals.

Four behaviours of the code that a reader might expect to be otherwise:
- The watch history keeps 50 entries (`stores/userPreferencesStore.ts:90`).
- Progress is stored as given; it is not clamped to 0–100.
- A history entry is keyed by the movie id alone.
- Queries are retried 3 times for every failure, 4xx included (`lib/queryClient.ts:21`).

## Model

| member | source | states |
|---|---|---|
| QueryKeys.MovieKeyRoundTrip | lib/queryKeys.ts:10-52 | decoding any `movieKeys` key gives back the factory call, with its arguments, that built it |
| QueryKeys.MovieKeyInjective | lib/queryKeys.ts:10-52 | two movie requests share a key exactly when they are the same request |
| QueryKeys.MovieKeyPrefixes | lib/queryKeys.ts:12-35 | every movie key starts with 'movies'; `detail(id)` is `details()` plus the id; the keys under `lists()` are exactly the five list factories and `lists()`; the keys under `details()` are exactly `detail(id)` and `details()` |
| QueryKeys.MovieKeyDefaults | lib/queryKeys.ts:18-22 | `trending()` defaults to 'week' and page 1, `popular()` to page 1 |
| QueryKeys.TvListKeyRoundTrip | lib/queryKeys.ts:70-86 | the TV list keys decode back to their factory calls |
| QueryKeys.TvNestedKeyRoundTrip | lib/queryKeys.ts:89-100 | the TV detail, season and episode keys decode back to their factory calls |
| QueryKeys.TvOtherKeyRoundTrip | lib/queryKeys.ts:103-115 | the TV similar, recommendations, search and discover keys decode back |
| QueryKeys.TvKeyRoundTrip | lib/queryKeys.ts:65-116 | decoding any `tvKeys` key gives back the factory call that built it |
| QueryKeys.TvKeyInjective | lib/queryKeys.ts:65-116 | two TV requests share a key exactly when they are the same request |
| QueryKeys.TvKeyPrefixes | lib/queryKeys.ts:67-100 | every TV key starts with 'tv'; `season` extends `seasons`, `episode` extends `episodes`, `detail` extends `details`; the keys under `lists()` are exactly the list factories and `lists()` |
| QueryKeys.TvLiterals | services/tmdb/tv.queries.ts:43 | the hand-written trending key `['tv','trending',w,page]` is no `tvKeys` key and is not under `tvKeys.lists()`, while the literal `['tv','detail',id]` equals `tvKeys.detail(id)` |
| QueryKeys.AppKeyHead | lib/queryKeys.ts:136-141 | the first element of any key names its family: movies, tv, genres or user |
| QueryKeys.AppKeyInjective | lib/queryKeys.ts:57-141 | across the four families of `queryKeys`, two requests share a key exactly when they are the same request |
| QueryClientConfig.Pow2 | lib/queryClient.ts:22 | `2 ** n` is at least 1 |
| QueryClientConfig.Pow2Monotone | lib/queryClient.ts:22 | `2 ** a <= 2 ** b` when `a <= b` |
| QueryClientConfig.RetryDelay | lib/queryClient.ts:22 | the retry delay lies between 1 s and the 30 s ceiling |
| QueryClientConfig.RetryDelayShape | lib/queryClient.ts:22 | the first retry waits 1 s; the delay never decreases, doubles until the ceiling and is 30 s from attempt 5 on |
| QueryClientConfig.QueryDefaults | lib/queryClient.ts:12-38 | garbage collection is five times the stale time, 25 minutes; queries retry 3 times and mutations once after 1 s; no refetch on focus, refetch on reconnect and on mount |
| QueryClientConfig.QueryClient.constructor | lib/queryClient.ts:43-47 | a new client carries the default options |
| QueryClientConfig.QueryClientSlot.constructor | lib/queryClient.ts:52 | the slot starts empty |
| QueryClientConfig.QueryClientSlot.GetQueryClient | lib/queryClient.ts:58-70 | on the server, a fresh client each call with the slot untouched; in the browser, the kept client, created on the first call; every client has the defaults |
| Images.ImageUrl | lib/tmdb/images.ts:18-37 | no address for a missing or empty path; otherwise the address starts with the base URL and the size code, followed by a non-empty path |
| Images.ImageUrlRoundTrip | lib/tmdb/images.ts:18-37 | the path can be read back from the address, so one size never gives two paths the same address |
| Images.PosterUrl | lib/tmdb/images.ts:18-21 | null exactly for a missing or empty path; otherwise the path reads back from the address |
| Images.BackdropUrl | lib/tmdb/images.ts:26-29 | null exactly for a missing or empty path; otherwise the path reads back from the address |
| Images.ProfileUrl | lib/tmdb/images.ts:34-37 | null exactly for a missing or empty path; otherwise the path reads back from the address |
| Images.DefaultSizes | lib/tmdb/images.ts:18-37 | the defaults are poster w185, backdrop w1280 and profile w185 |
| Images.PosterSrcWidthsMatchCodes | lib/tmdb/images.ts:62-63 | each poster source-set width is the number in its size code `wNNN` |
| Images.BackdropSrcWidthsMatchCodes | lib/tmdb/images.ts:74-75 | each backdrop source-set width is the number in its size code |
| Images.PosterSrcSet | lib/tmdb/images.ts:59-60 | null exactly for a missing or empty path |
| Images.BackdropSrcSet | lib/tmdb/images.ts:71-72 | null exactly for a missing or empty path |
| Images.PosterSrcSetEntries | lib/tmdb/images.ts:59-66 | the poster set is the w154, w185, w342 and w500 addresses with widths 154, 185, 342 and 500, joined by ", " |
| Images.BackdropSrcSetEntries | lib/tmdb/images.ts:71-78 | the backdrop set is the w300, w780 and w1280 addresses with widths 300, 780 and 1280, joined by ", " |
| Images.ThumbnailQualities | lib/tmdb/images.ts:42-54 | distinct qualities name distinct files, and the default is `hqdefault.jpg` |
| Images.PlaceholderImage | lib/tmdb/images.ts:83-90 | the placeholder address is on via.placeholder.com |
| SearchStore.AddBlankUnchanged | stores/searchStore.ts:29-31 | an empty or all-whitespace query leaves the recent searches unchanged |
| SearchStore.AddRecentHead | stores/searchStore.ts:29-41 | otherwise the trimmed query heads a list of 1 to 10 entries; no other copy of it is left; the rest is the old list without it, in its old order, cut to 9 |
| SearchStore.AddRecentTrims | stores/searchStore.ts:30 | adding a query records the same list as adding its trimmed text |
| SearchStore.WithoutHead | stores/searchStore.ts:35 | filtering a query out of a list headed by it, with no other copy, leaves the tail |
| SearchStore.AddRecentIdempotent | stores/searchStore.ts:29-41 | adding the same query twice in a row gives the list of adding it once |
| SearchStore.AddRecentNoDuplicates | stores/searchStore.ts:29-41 | adding a query to a list without duplicates gives a list without duplicates |
| SearchStore.WithoutNoDuplicates | stores/searchStore.ts:44-48 | filtering keeps a list free of duplicates |
| SearchStore.RemoveRecentExact | stores/searchStore.ts:44-48 | after removal a string is listed exactly when it was listed before and is not the removed query (compared untrimmed); the query is gone |
| SearchStore.Store.constructor | stores/searchStore.ts:26-27 | no recent searches and an empty current query |
| SearchStore.Store.AddRecentSearch | stores/searchStore.ts:29-42 | the list becomes the one `WithRecentSearch` describes; the current query is unchanged; no duplicates and at most 10 entries are kept |
| SearchStore.Store.RemoveRecentSearch | stores/searchStore.ts:44-48 | the list loses every copy of the query; the current query is unchanged |
| SearchStore.Store.ClearRecentSearches | stores/searchStore.ts:50-52 | the list becomes empty; the current query is unchanged |
| SearchStore.Store.SetCurrentQuery | stores/searchStore.ts:54-56 | the current query becomes the argument; the list is unchanged |
| PlayerPreferencesStore.Store.constructor | stores/playerPreferencesStore.ts:20-21 | autoplay and autonext both start enabled |
| PlayerPreferencesStore.Store.SetAutoplay | stores/playerPreferencesStore.ts:24 | autoplay takes the given value and autonext is untouched |
| PlayerPreferencesStore.Store.SetAutonext | stores/playerPreferencesStore.ts:25 | autonext takes the given value and autoplay is untouched |
| PlayerPreferencesStore.SettersIndependent | stores/playerPreferencesStore.ts:24-25 | each setter leaves the other flag alone, and the last write wins |
| MediaStore.Clamp01 | stores/mediaStore.ts:90 | the clamped volume lies in [0, 1]; a volume already in range is kept, one below is 0 and one above is 1 |
| MediaStore.MutedByVolume | stores/mediaStore.ts:90-91 | the store mutes exactly when the requested volume is at most 0 |
| MediaStore.Store.constructor | stores/mediaStore.ts:40-48 | nothing loaded, not playing, time and duration 0, volume 1, not muted, no season or episode |
| MediaStore.Store.SetCurrentMedia | stores/mediaStore.ts:51-62 | the media and its type are set; time and duration reset to 0; playback stops; the season and episode are cleared for both types; volume and mute are kept |
| MediaStore.Store.SetEpisode | stores/mediaStore.ts:65-71 | the season and episode are set and the time resets to 0; everything else is kept |
| MediaStore.Store.SetPlaybackState | stores/mediaStore.ts:74-76 | only the playing flag changes |
| MediaStore.Store.UpdatePlaybackTime | stores/mediaStore.ts:79-81 | only the current time changes |
| MediaStore.Store.SetDuration | stores/mediaStore.ts:84-86 | only the duration changes |
| MediaStore.Store.SetVolume | stores/mediaStore.ts:89-92 | the volume becomes the clamped value and the store is muted exactly when that value is 0 |
| MediaStore.Store.SetMuted | stores/mediaStore.ts:95-97 | only the mute flag changes, so the volume is kept |
| MediaStore.Store.ClearMedia | stores/mediaStore.ts:100-110 | the media, type, season and episode are cleared; playback stops; time and duration are 0; volume and mute are kept |
| UserPreferencesStore.AddFavoriteCases | stores/userPreferencesStore.ts:50-58 | adding a movie whose id is already a favourite changes nothing; otherwise the movie goes in front; the id is a favourite afterwards |
| UserPreferencesStore.AddFavoriteDistinct | stores/userPreferencesStore.ts:50-58 | adding keeps the favourites' ids pairwise distinct |
| UserPreferencesStore.AddFavoriteIdempotent | stores/userPreferencesStore.ts:50-58 | adding the same movie twice gives the list of adding it once |
| UserPreferencesStore.RemoveFavoriteContents | stores/userPreferencesStore.ts:60-64 | afterwards no favourite has the id; a movie is kept exactly when it was listed and has another id; an absent id changes nothing |
| UserPreferencesStore.RemoveFavoriteDistinct | stores/userPreferencesStore.ts:60-64 | removal keeps the favourites' ids pairwise distinct |
| UserPreferencesStore.ToggleFlips | stores/userPreferencesStore.ts:70-77 | toggling flips `isFavorite` for the movie's id |
| UserPreferencesStore.FindEntry | stores/userPreferencesStore.ts:104-106 | an entry is found exactly when the history has one for the id; the found entry has that id and is in the history |
| UserPreferencesStore.HistoryWithUniform | stores/userPreferencesStore.ts:80-102 | both branches build the same list: the new entry, then the old entries of other movies in order, cut to 50 |
| UserPreferencesStore.HistoryWithHead | stores/userPreferencesStore.ts:80-102 | the new entry heads a history of 1 to 50 entries, unclamped, and is what `getWatchProgress` returns for its movie; the rest is the old history without that movie, in order |
| UserPreferencesStore.HistoryWithDistinct | stores/userPreferencesStore.ts:80-102 | updating keeps at most one entry per movie |
| UserPreferencesStore.WithoutEntryDistinct | stores/userPreferencesStore.ts:108-112 | removal keeps at most one entry per movie and leaves none for the removed id |
| UserPreferencesStore.HistoryWithFull | stores/userPreferencesStore.ts:94-99 | a new movie added to a full history of 50 pushes out exactly the last, oldest entry |
| UserPreferencesStore.RemoveEntryContents | stores/userPreferencesStore.ts:108-112 | no entry for the id remains, and every other entry stays |
| UserPreferencesStore.Store.constructor | stores/userPreferencesStore.ts:46-47 | no favourites and an empty history |
| UserPreferencesStore.Store.AddFavorite | stores/userPreferencesStore.ts:50-58 | favourites become `WithFavorite` of the old list; the history is unchanged; the invariant holds |
| UserPreferencesStore.Store.RemoveFavorite | stores/userPreferencesStore.ts:60-64 | favourites become `WithoutFavorite` of the old list; the history is unchanged |
| UserPreferencesStore.Store.IsFavorite | stores/userPreferencesStore.ts:66-68 | true exactly when some favourite has the id |
| UserPreferencesStore.Store.ToggleFavorite | stores/userPreferencesStore.ts:70-77 | `isFavorite` for the movie flips; the history is unchanged |
| UserPreferencesStore.Store.UpdateWatchProgress | stores/userPreferencesStore.ts:80-102 | the history becomes `HistoryWith` the new entry stamped with the given time; favourites are unchanged; at most 50 entries, one per movie |
| UserPreferencesStore.Store.GetWatchProgress | stores/userPreferencesStore.ts:104-106 | an entry comes back exactly when the history holds one for the id, and it is one of them |
| UserPreferencesStore.Store.RemoveFromHistory | stores/userPreferencesStore.ts:108-112 | the history loses the id's entries; favourites are unchanged |
| UserPreferencesStore.Store.ClearWatchHistory | stores/userPreferencesStore.ts:114-116 | the history becomes empty; favourites are unchanged |
| ToastContext.DismissContents | contexts/ToastContext.tsx:67-69 | a toast survives dismissal exactly when it was shown and has another id; dismissing an absent id changes nothing |
| ToastContext.DismissKeepsOrder | contexts/ToastContext.tsx:67-69 | dismissal works piecewise over a list, so the surviving toasts keep their order |
| ToastContext.Toasts.constructor | contexts/ToastContext.tsx:27 | no toasts on screen |
| ToastContext.Toasts.ShowToast | contexts/ToastContext.tsx:29-37 | the new toast is appended last, with a duration of 5000 ms when none is given |
| ToastContext.Toasts.ShowSuccess | contexts/ToastContext.tsx:39-44 | appends a success toast |
| ToastContext.Toasts.ShowError | contexts/ToastContext.tsx:46-51 | appends an error toast |
| ToastContext.Toasts.ShowInfo | contexts/ToastContext.tsx:53-58 | appends an info toast |
| ToastContext.Toasts.ShowWarning | contexts/ToastContext.tsx:60-65 | appends a warning toast |
| ToastContext.Toasts.Dismiss | contexts/ToastContext.tsx:67-69 | the toasts with the id are removed |
| ToastContext.Toasts.DismissAll | contexts/ToastContext.tsx:71-73 | no toasts remain |
| MediaTypes.GuardsSeparate | types/media.ts:75-84 | on every value the application builds, `isMovie` holds exactly for movies and `isTVShow` exactly for shows |
| MediaTypes.AccessorsOnRecords | types/media.ts:89-111 | title, release date and poster path read the typed record's own fields, and an empty poster path reads as null |
| MediaTypes.ReleaseDateFallback | types/media.ts:96-101 | for a movie: the camelCase date when it is a non-empty string, else the snake_case one; `""` exactly when neither is |
| MediaTypes.PathFallback | types/media.ts:106-121 | poster and backdrop give a non-empty path or null: for a movie the camelCase field first, then the snake_case one; otherwise only the snake_case one; null exactly when none is a non-empty string |
| Transformer.BeforeDash | lib/tmdb/transformer.ts:25 | `split('-')[0]` is the longest dash-free prefix: it holds no '-' and is followed by a '-' or the end |
| Transformer.ExtractYearBounds | lib/tmdb/transformer.ts:23-27 | a year is never negative; the empty date has none, and neither has a date that starts with something other than whitespace, '+' or a digit |
| Transformer.ExtractYearOfDate | lib/tmdb/transformer.ts:23-27 | a date `YYYY-…`, or just `YYYY`, gives back the year YYYY |
| Transformer.ParseIntOfDigits | lib/tmdb/transformer.ts:25 | `parseInt` of a non-empty run of digits is its value |
| Transformer.BeforeDashOfPrefix | lib/tmdb/transformer.ts:25 | the text before the dash of digits followed by a dash, or by nothing, is those digits |
| Transformer.GenreTableLookup | lib/tmdb/transformer.ts:34 | an id is in the genre map exactly when some genre has it, and it maps to the name of the last such genre |
| Transformer.GenreTableDistinct | lib/tmdb/transformer.ts:34 | with distinct ids, each genre's id maps to its own name |
| Transformer.GenreNames | lib/tmdb/transformer.ts:37-39 | never more names than ids |
| Transformer.GenreNamesFrom | lib/tmdb/transformer.ts:37-39 | every name is the map's name for one of the ids |
| Transformer.GenreNamesEmptyTable | lib/tmdb/transformer.ts:32-39 | with no genres given, a movie has no genre names |
| Transformer.GenreNamesOrder | lib/tmdb/transformer.ts:37-39 | the names are those of the known ids, one each, in the ids' order: unknown ids are dropped and nothing else is |
| Transformer.RoundToTenth | lib/tmdb/transformer.ts:51 | the rating is a multiple of 0.1 within 0.05 of the average, half-way cases going up |
| Transformer.TransformMovie | lib/tmdb/transformer.ts:32-57 | no more genres than ids; every genre name comes from a given genre whose id the movie lists; no genres when none are given |
| Transformer.TransformMovieCopies | lib/tmdb/transformer.ts:41-56 | the id, titles, overview, paths, date, votes, popularity, adult flag and language are copied; the year comes from the date, the genres from the map, and the rating is rounded to a tenth |
| Transformer.TransformCast | lib/tmdb/transformer.ts:110-118 | one credit per cast member, in order, each copying the member's fields |
| Transformer.TransformCrew | lib/tmdb/transformer.ts:123-131 | one credit per crew member, in order, each copying the member's fields |
| Transformer.TransformVideos | lib/tmdb/transformer.ts:136-146 | one video per input, in order, each copying its fields |
| Transformer.TransformMovieDetail | lib/tmdb/transformer.ts:62-105 | every field of the detail record: the scalar fields are copied, the year is extracted and the rating rounded to a tenth; the genres, spoken languages, companies and countries are the detail's names in order; a collection is there exactly when the detail belongs to one, with its id, name and images; cast, crew and videos are the transformed credit and video lists |
| Transformer.DetailAgreesWithList | lib/tmdb/transformer.ts:32-105 | when the genre ids are distinct, a detail's `Movie` fields are what `transformMovie` gives for the same record in list form, with the detail's genres as the map |
| ErrorFallback.ClassifierIsFirstMatch | components/ui/ErrorFallback.tsx:54-72 | no error is generic; otherwise the first of the network, server and not-found rules whose words occur in the lower-cased message wins, so the case of the letters does not matter |
| ErrorFallback.GatewayFailuresAreNetwork | services/tmdb/client.ts:165-177 | a fetch that threw, or a body that did not parse, gives an error reading "Failed to fetch from TMDB: …", which classifies as a network error |
| ErrorFallback.FallbackOverrides | components/ui/ErrorFallback.tsx:87-92 | an explicit type wins over classification and makes the error irrelevant; a non-empty title or message wins over the type's default; distinct types have distinct default titles |
| TmdbClient.SpacedByGap | services/tmdb/client.ts:47-54 | when each request instant is at least the minimum interval after the one before, two instants k requests apart are at least k intervals apart, and the n-th is at least n intervals after the start |
| TmdbClient.SpacedByAppend | services/tmdb/client.ts:47-54 | stamping a request at least one interval after the previous one keeps every pair of successive instants an interval apart |
| TmdbClient.Delay | services/tmdb/client.ts:47-52 | the sleep is never negative; it is zero exactly when a full minimum interval has passed since the last request, and otherwise it makes up exactly the rest of the interval |
| TmdbClient.RateLimiter.constructor | services/tmdb/client.ts:38-41 | the minimum interval is 1000 / requestsPerSecond (default rate 4), the queue is empty and nothing runs |
| TmdbClient.RateLimiter.ProcessQueue | services/tmdb/client.ts:70-79 | with an empty queue `processing` turns false; otherwise the head of the queue is removed and started and `processing` is true |
| TmdbClient.RateLimiter.Execute | services/tmdb/client.ts:43-68 | a submitted task joins the back of the queue and starts at once only when nothing runs; tasks start in submission order and at most one runs at a time |
| TmdbClient.RateLimiter.Dispatch | services/tmdb/client.ts:47-54 | with a monotone clock and a sleep at least as long as requested, the new request instant is at least the minimum interval after the previous one, and it is recorded as `lastRequestTime` |
| TmdbClient.RateLimiter.Complete | services/tmdb/client.ts:55-61 | a settled task resolves or rejects only its own caller, and the next queued task starts whatever the outcome; `processing` stays true exactly when the queue was not empty |
| TmdbClient.LookupWithout | services/tmdb/client.ts:123 | removing every pair under a key makes that key absent and leaves the others reading as before |
| TmdbClient.SetParamLookup | services/tmdb/client.ts:123 | after `set`, the key reads back the new value and every other key reads as before |
| TmdbClient.SetParamKeys | services/tmdb/client.ts:123 | `set` keeps keys distinct and adds no pair other than the one under its key |
| TmdbClient.FilterPreservesDistinct | services/tmdb/client.ts:123 | removing a key's pairs from a list with distinct keys leaves any two remaining pairs under different keys |
| TmdbClient.WithoutKeyDistinct | services/tmdb/client.ts:123 | removing a key's pairs keeps the keys distinct |
| TmdbClient.LastDefinedOnce | services/tmdb/client.ts:121-125 | a key given once yields that value as a string, or nothing when the value is null or undefined |
| TmdbClient.LastDefinedAbsent | services/tmdb/client.ts:121-125 | a key never given yields nothing |
| TmdbClient.ApplyParamsLookup | services/tmdb/client.ts:121-125 | after the `forEach`, each key reads its last non-null, non-undefined value, and otherwise what it read before |
| TmdbClient.ApplyParamsKeys | services/tmdb/client.ts:121-125 | the `forEach` never duplicates a key |
| TmdbClient.SearchParamsLookup | services/tmdb/client.ts:114-128 | `language` is always present, holding the last defined `language` parameter or else the client's language; every other key holds its last defined value and is absent when it never had one; no key occurs twice |
| TmdbClient.RequestErrors | services/tmdb/client.ts:148-177 | a request succeeds exactly on a 2xx response whose body parses; a non-2xx response becomes an API error with the payload's code and message, or the HTTP status and status text when the payload is unreadable; every other failure, a body that does not parse included, becomes a 'Network Error' with code 0 |
| TmdbClient.SearchMoviesDefaults | services/tmdb/client.ts:296-308 | the page is 1 when missing or 0; `include_adult` follows an explicit value, even false, and falls back to the client setting only when missing; the region and language are the client's; the years appear only when given |
| TmdbClient.Client.constructor | services/tmdb/client.ts:103-109 | language 'en-US', region 'US' and no adult content unless configured (an empty string also falls back); the limiter runs at 250 ms per request |
| TmdbClient.Client.BuildUrl | services/tmdb/client.ts:114-128 | the path is the API base followed by the endpoint, and the query is the client's language overwritten in turn by each defined parameter |
| TmdbClient.Client.Request | services/tmdb/client.ts:133-180 | logs the URL that `buildUrl` makes, and its result is the failure mapping applied to the transport's outcome |
| TmdbClient.Client.GetGenres | services/tmdb/client.ts:185-193 | while nothing is cached it makes one request and caches a success; once a list is cached, even an empty one, it returns the list and makes no request |
| TmdbClient.Client.SearchMovies | services/tmdb/client.ts:296-308 | requests '/search/movie' with the query, page, adult, region and year parameters, and returns what the request returns |
| TmdbClient.Registry.constructor | services/tmdb/client.ts:548 | no client exists yet |
| TmdbClient.Registry.CreateClient | services/tmdb/client.ts:550-555 | the first call creates the client from its config; later calls return that instance and ignore their config |
| TmdbClient.Registry.GetClient | services/tmdb/client.ts:557-562 | fails with the not-initialised message exactly when no client has been created, and otherwise returns the created one |
| WatchProgress.NextEpisodeCases | hooks/useWatchProgress.ts:131-157 | an unknown or zero episode count gives no next episode; while episodes are left the next one in the same season; at the end of a season the first episode of the next season exactly when a later season is known to exist; a season change always lands on episode 1 |
| WatchProgress.NextEpisodeAfter | hooks/useWatchProgress.ts:131-157 | a returned episode comes strictly after the current one and stays within the given episode and season counts |
| WatchProgress.ProgressPercent | hooks/useWatchProgress.ts:56 | the percentage is capped at 100, equals the exact ratio below the cap, is not negative for a non-negative position, and is not clamped below 0 |
| WatchProgress.ContinueWatchingEntry | hooks/useWatchProgress.ts:77-107 | a movie entry carries title, poster and runtime and no episode fields; a show entry carries the title as its name, its season, episode and episode title, and the next episode computed from the total episode count; both carry id, kind, progress and save time |
| WatchProgress.SpacedAppend | hooks/useWatchProgress.ts:60-63 | a save at least ten seconds after the previous one keeps the gated saves spaced |
| WatchProgress.SpacedGap | hooks/useWatchProgress.ts:60-63 | two gated saves k saves apart are at least 10·k seconds apart |
| WatchProgress.Tracker.constructor | hooks/useWatchProgress.ts:44-45 | the last save time starts at 0 and nothing has been saved |
| WatchProgress.Tracker.SaveProgress | hooks/useWatchProgress.ts:71-110 | sends one history update and one continue-watching entry for the given progress, with no gate and the last save time untouched |
| WatchProgress.Tracker.MarkComplete | hooks/useWatchProgress.ts:116-118 | saves progress 100 |
| WatchProgress.Tracker.UpdateProgress | hooks/useWatchProgress.ts:52-66 | a zero duration, or less than ten seconds since the last gated save, sends nothing and changes nothing; otherwise it saves the capped percentage and records the time, so gated saves stay ten seconds apart |
| TvPlayer.ReduceFields | components/features/tv/TVPlayer.tsx:29-40 | time and duration change only on SET_TIME, the auto-next flag is only ever set (by TRIGGER_AUTO_NEXT), loading changes only on SET_LOADING, and an unknown action leaves the state unchanged |
| TvPlayer.ReduceAllTriggered | components/features/tv/TVPlayer.tsx:29-40 | after any run of actions the auto-next flag is set exactly when it was set before or some action was TRIGGER_AUTO_NEXT; nothing clears it |
| TvPlayer.FindSeason | components/features/tv/TVPlayer.tsx:110 | finds the first season with the given number, and finds none exactly when no season has that number |
| TvPlayer.NextInfoCases | components/features/tv/TVPlayer.tsx:128-148 | the next episode of the same season while the season has one; the first of the next season exactly at the season's last episode when a later season exists; none when the season is not listed or the episode is past its end; `isNewSeason` exactly when the season changes |
| TvPlayer.NextInfoAgreesWithTracker | components/features/tv/TVPlayer.tsx:109-148 | for an episode within its season, the player's next episode is the one the progress tracker records from the same props |
| TvPlayer.NextInfoDisagreesPastSeasonEnd | components/features/tv/TVPlayer.tsx:123-148 | past the season's last episode the player offers no next episode, while the tracker points at the next season |
| TvPlayer.PreviousRule | components/features/tv/TVPlayer.tsx:150-159 | "previous" acts exactly when the episode is above 1, going to episode - 1 of the same season through the callback if given, else through the watch route |
| TvPlayer.KeyNavigationRule | components/features/tv/TVPlayer.tsx:226-238 | outside a text field left arrow acts exactly when there is a previous episode and right arrow exactly when there is a next one; other keys, and any key in a text field, do nothing |
| TvPlayer.HandleMessageFires | components/features/tv/TVPlayer.tsx:174-201 | a message navigates exactly when its test passes: a 'time' event within 10 s of the end and past the first minute, or an 'ended' event, with autonext on, the flag unset and a next episode; the navigation is the next-episode one and the flag is then set |
| TvPlayer.AutoNextAtMostOnce | components/features/tv/TVPlayer.tsx:184-199 | over any run of messages a player instance navigates automatically at most once, whatever the props and switch do between messages, and the flag stays set afterwards |
| TvPlayer.StreamUrlFlags | components/features/tv/TVPlayer.tsx:77 | the embed URL ends in `&autoplay=X&autonext=Y`, where X is 1 exactly when autoplay is on and Y is 1 exactly when autonext is on |
| ContinueWatching.SelectRecentProperties | hooks/useContinueWatching.ts:39-44 | the selection holds only entries under 90 percent, at most 20, in non-increasing time, nothing that was not in the history (as a multiset), and exactly min(unfinished, 20) of them |
| ContinueWatching.SelectRecentContents | hooks/useContinueWatching.ts:39-44 | the selection's length, its under-90 entries and its multiset inclusion in the history |
| ContinueWatching.SelectRecentOrder | hooks/useContinueWatching.ts:42 | the selection is most recent first |
| ContinueWatching.SelectRecentKeepsNewest | hooks/useContinueWatching.ts:39-44 | every unfinished entry left out is no more recent than every entry kept, and with at most 20 unfinished entries the selection is all of them |
| ContinueWatching.Assemble | hooks/useContinueWatching.ts:65-96 | the assembled list is never longer than the list of queries |
| ContinueWatching.KeptBounds | hooks/useContinueWatching.ts:65-96 | the kept positions are in range, strictly increasing, and each points at a query with data |
| ContinueWatching.KeptMembership | hooks/useContinueWatching.ts:67 | a position is kept exactly when its query returned data |
| ContinueWatching.AssembleKept | hooks/useContinueWatching.ts:65-96 | item j is built from the entry and the data at the j-th kept position |
| ContinueWatching.AssembleSpec | hooks/useContinueWatching.ts:65-96 | query i is paired with selected entry i; the result has one item per query with data, in index order, and the queries without data are exactly those dropped |
| ContinueWatching.AssembleAll | hooks/useContinueWatching.ts:65-96 | when every query has data nothing is dropped and item i is built from entry i |
| ContinueWatching.StrictlyIncreasingIsIdentity | hooks/useContinueWatching.ts:65-96 | n strictly increasing positions in [0, n) are 0 … n - 1, so no item is dropped when all queries have data |
| ContinueWatching.LowerBound | hooks/useContinueWatching.ts:65-96 | the i-th of strictly increasing non-negative positions is at least i |
| ContinueWatching.UpperBound | hooks/useContinueWatching.ts:65-96 | the i-th of n strictly increasing positions below n is at most i |
| ContinueWatching.NothingSelectedNotLoading | hooks/useContinueWatching.ts:60-61 | with nothing selected the row never reports loading |
| ContinueWatching.MovieRowProperties | hooks/useContinueWatching.ts:35-99 | the row's items are at most 20 unfinished movies, most recent first, each with the progress and timestamp of a history entry; loading requires a non-empty selection; there is an error exactly when some query failed |
| EnhancedContinueWatching.DetailKeyShared | hooks/useEnhancedContinueWatching.ts:64 | a movie entry's key is `movieKeys.detail(id)` and a show entry's literal key equals `tvKeys.detail(id)`; two entries share a key exactly when they have the same kind and id |
| EnhancedContinueWatching.MakeEnhancedItemOf | hooks/useEnhancedContinueWatching.ts:91-131 | an item has its entry's id, kind, progress and time; a movie item has no episode fields; a show item copies season, episode, episode title and next episode unchanged; the media is a movie exactly when a movie detail is passed in |
| EnhancedContinueWatching.EnhancedItemOfEntry | hooks/useEnhancedContinueWatching.ts:85-136 | item j of the row is under 90 percent and built from a stored entry, and holds media of its entry's kind when each query fetched its entry's kind |
| EnhancedContinueWatching.EnhancedItemsOfEntries | hooks/useEnhancedContinueWatching.ts:85-136 | every item of the row is under 90 percent and built from a stored entry, with media of its kind when each query fetched its entry's kind |
| EnhancedContinueWatching.EnhancedItemsOrdered | hooks/useEnhancedContinueWatching.ts:54-59 | the items keep the selection's most-recent-first order |
| EnhancedContinueWatching.EnhancedRowProperties | hooks/useEnhancedContinueWatching.ts:50-139 | at most 20 unfinished items, most recent first, each built from a stored entry, with media of its kind when the queries match; loading requires a non-empty selection; there is an error exactly when some query failed |
| EpisodeCard.ParseAfterDigits | components/features/tv/EpisodeCard.tsx:43-46 | a label that starts with a run of digits is read as that number followed by its unit |
| EpisodeCard.ParseMinutesOf | components/features/tv/EpisodeCard.tsx:44 | digits followed by "m" after h hours read back as 60·h plus their value |
| EpisodeCard.ParseUnitHoursMinutes | components/features/tv/EpisodeCard.tsx:44 | "h <digits>m" after h hours reads back as 60·h plus the minutes |
| EpisodeCard.ParseLabelDigits | components/features/tv/EpisodeCard.tsx:44 | "<digits>h <digits>m" reads back as 60 times the first number plus the second |
| EpisodeCard.ParseHoursMinutes | components/features/tv/EpisodeCard.tsx:44 | "<h>h <m>m" reads back as 60·h + m minutes |
| EpisodeCard.ParseSingleUnit | components/features/tv/EpisodeCard.tsx:44-46 | "<n>h" reads back as 60·n and "<n>m" as n |
| EpisodeCard.FormatRuntimeRoundTrip | components/features/tv/EpisodeCard.tsx:37-47 | every positive runtime gets a label, and the label reads back as the same number of minutes (hours·60 + mins = minutes) |
| EpisodeCard.FormatRuntimeCases | components/features/tv/EpisodeCard.tsx:37-47 | a missing or zero runtime has no label; any other runtime has one; distinct positive runtimes have distinct labels |
| EpisodeCard.ThumbnailUrl | components/features/tv/EpisodeCard.tsx:34 | there is a thumbnail exactly when the still path is set and not empty, and its address is the large poster size followed by that path |
| EpisodeCard.JsRound | components/features/tv/EpisodeCard.tsx:67 | `Math.round` gives the integer within one half of x, rounding halves up |
| EpisodeCard.ProgressBarOf | components/features/tv/EpisodeCard.tsx:61-71 | the bar is drawn exactly when progress is given and above 0; its width is the progress clamped to at most 100, and it announces the rounded progress |
| EpisodeGrid.CardEpisodes | components/features/tv/EpisodeGrid.tsx:116-128 | lists the episodes of the cards, one per card, in card order |
| EpisodeGrid.GridContents | components/features/tv/EpisodeGrid.tsx:92-131 | loading shows exactly 6 placeholders; no episodes show the empty state; otherwise the cards hold a permutation of the episodes, ascending by episode number with ties in their given order, each linking to `/tv/{id}/watch/{season}/{episode}`, carrying the progress under its number, with priority exactly for the first 3 |
| SeasonSelector.ValidSeasonsSpec | components/features/tv/SeasonSelector.tsx:29-31 | the offered seasons are a permutation of the seasons numbered above 0, in ascending order; a season is offered exactly when it is listed with a number above 0 |
| SeasonSelector.ValidSeasonsRegular | components/features/tv/SeasonSelector.tsx:30 | no season numbered 0 or below is offered, and every listed season above 0 is |
| SeasonSelector.ValidSeasonsStable | components/features/tv/SeasonSelector.tsx:31 | seasons that share a number keep their given order |
| SeasonSelector.LoneSeasonMislabelled | components/features/tv/SeasonSelector.tsx:103-115 | as written, a show whose listing is specials (season 0) and season 2 is shown as the single season "Season 1" with "8 Episodes" |
| SeasonSelector.SelectorSpec | components/features/tv/SeasonSelector.tsx:98-179 | no offered season renders nothing; a lone season shows its own number and its count with "Episode"/"Episodes"; more show one tab per offered season in order, titled by its number and active exactly when it is the selected season; the result differs from the code as written only in the lone season's title |
| SeasonSelector.AtMostOneActive | components/features/tv/SeasonSelector.tsx:151 | two tabs with different numbers are never both active |
| SeasonSelector.CountTextsReadBack | components/features/tv/SeasonSelector.tsx:174 | both count labels start with the episode count, which reads back from them |
| MediaHero.Featured | components/features/media/MediaHero.tsx:62-63 | at most the first 3 items of a list are featured, all 3 when the list has that many, and none when the data is missing |
| MediaHero.ProjectionsConcat | components/features/media/MediaHero.tsx:66-71 | the movies, and the shows, of two joined lists are those of the first list followed by those of the second |
| MediaHero.InterleavingPrefix | components/features/media/MediaHero.tsx:68-71 | later rounds of the loop only append to the list |
| MediaHero.InterleavingLength | components/features/media/MediaHero.tsx:68-71 | after n rounds the list holds min(n, movies) + min(n, shows) items |
| MediaHero.RoundProjections | components/features/media/MediaHero.tsx:69-70 | a round pushes the movie of that round, if any, and then the show, if any |
| MediaHero.TakeStep | components/features/media/MediaHero.tsx:68-71 | one more round extends the taken prefix of a list by its next element, when there is one |
| MediaHero.RoundMovies | components/features/media/MediaHero.tsx:69-70 | a round adds to the movies of the list exactly the movie of that round |
| MediaHero.RoundShows | components/features/media/MediaHero.tsx:69-70 | a round adds to the shows of the list exactly the show of that round |
| MediaHero.MoviesRound | components/features/media/MediaHero.tsx:68-71 | after round n the movies of the list are the first n movies |
| MediaHero.ShowsRound | components/features/media/MediaHero.tsx:68-71 | after round n the shows of the list are the first n shows |
| MediaHero.InterleavingMovies | components/features/media/MediaHero.tsx:68-71 | the movies of the list after n rounds are the first n movies, in order |
| MediaHero.InterleavingShows | components/features/media/MediaHero.tsx:68-71 | the shows of the list after n rounds are the first n shows, in order |
| MediaHero.InterleavingPositions | components/features/media/MediaHero.tsx:68-71 | while both lists last, movie j sits at position 2j and show j at position 2j + 1 |
| MediaHero.InterleavingSpec | components/features/media/MediaHero.tsx:66-71 | after n rounds: its length, movies and shows in their own order, and alternation while both lists last |
| MediaHero.Interleave | components/features/media/MediaHero.tsx:66-71 | the loop yields |movies| + |shows| items, the movies in order, the shows in order, with movie j at 2j and show j at 2j + 1 while both last |
| MediaHero.NextIndex | components/features/media/MediaHero.tsx:104-106 | the next index always lies in [0, n) |
| MediaHero.PreviousIndex | components/features/media/MediaHero.tsx:108-110 | the previous index always lies in [0, n) |
| MediaHero.NextInRange | components/features/media/MediaHero.tsx:104-106 | within range, next moves up by one and wraps from the last index to 0 |
| MediaHero.PreviousInRange | components/features/media/MediaHero.tsx:108-110 | within range, previous moves down by one and wraps from 0 to the last index |
| MediaHero.NextPreviousInverse | components/features/media/MediaHero.tsx:104-110 | on an index in range next and previous undo each other, and both wrap round the ends |
| MediaHero.TicksUp | components/features/media/MediaHero.tsx:113-119 | k rotation ticks from i reach i + k while that stays in range |
| MediaHero.TicksCompose | components/features/media/MediaHero.tsx:113-119 | a + b ticks are a ticks followed by b ticks |
| MediaHero.TicksWrap | components/features/media/MediaHero.tsx:113-119 | ticks count up to the last item, and n ticks on n items come back to the same item |
| MediaHero.SwipeSymmetry | components/features/media/MediaHero.tsx:81-102 | a swipe goes to the next item exactly when the opposite swipe goes to the previous one; a tap, a missing position, or a movement of at most 50 px does nothing; only the last position counts |
| MediaHero.SwipeBack | components/features/media/MediaHero.tsx:90-102 | a swipe one way and then back returns to the same item |
| MediaHero.HeroViews | components/features/media/MediaHero.tsx:73-172 | with both lists loaded, the first item is the first movie, or the first show when there is no movie; with neither list it shows the error view; a movie's watch link is `/movie/{id}/watch` and a show's is `/tv/{id}`, the same as its detail link |
| MediaCard.CardType | components/features/media/MediaCard.tsx:56 | the card's type is 'movie' exactly when the shared movie guard holds |
| MediaCard.Rating | components/features/media/MediaCard.tsx:59 | the rating is 0, or a movie's non-zero `rating`, or a non-zero `vote_average` |
| MediaCard.RatingOnRecords | components/features/media/MediaCard.tsx:59 | on the application's values, a movie shows its own rating and a show its vote average |
| MediaCard.CardHrefShape | components/features/media/MediaCard.tsx:65-69 | a movie links to `/movie/{id}`; a show links to `/tv/{id}`, extended to its player exactly when both season and episode are given (0 counts as given); a movie card and a show card never share a link |
| MediaCard.EpisodeBadge | components/features/media/MediaCard.tsx:147-152 | the S/E badge appears exactly on a show with both season and episode given |
| MediaCard.CardPosterUrl | components/features/media/MediaCard.tsx:52-53 | there is a poster exactly when the media has a poster path |
| MediaCard.PrefetchKeyDecodes | components/features/media/MediaCard.tsx:72-86 | hovering warms a key that decodes to the detail request for this id, under movies for a movie and under tv for a show |
| MediaCard.FavoriteClickFlips | components/features/media/MediaCard.tsx:89-100 | a click flips the card's item in the favourites and leaves every other favourite alone; the toast says "Removed" (info) exactly when the item was a favourite before the click, and "Added" (success) otherwise; a second click restores the set |
| MediaCard.SeasonCountText | components/features/media/MediaCard.tsx:106-108 | a show with n > 0 seasons shows "n Season", with an "s" from two on, and n reads back from the text; a zero count shows nothing |
| SearchBar.EmptyQueryKeepsAll | components/features/search/SearchBar.tsx:81-83 | with nothing typed every recent search matches |
| SearchBar.FilteredRecentSpec | components/features/search/SearchBar.tsx:81-83 | with recent searches off the list is empty; otherwise it holds, in stored order, exactly the recent searches that contain the typed text regardless of letter case, all of them when nothing is typed, and nothing that is not a recent search |
| SearchBar.ShowDropdownSpec | components/features/search/SearchBar.tsx:85-88 | the dropdown shows exactly when the box is open, recent searches are on and there is at least one recent search |
| SearchBar.Bar.constructor | components/features/search/SearchBar.tsx:30-31 | the box starts with the initial query and the dropdown closed |
| SearchBar.Bar.HandleSearch | components/features/search/SearchBar.tsx:52-64 | a query that trims to nothing changes nothing and goes nowhere; otherwise the trimmed text is recorded as a recent search, the dropdown closes, and the trimmed text goes to `onSearch` if given, else to `/search?q=…` |
| SearchBar.Bar.HandleSubmit | components/features/search/SearchBar.tsx:66-69 | submitting searches for the text in the box; blank text changes nothing, and the store's current query is never touched |
| SearchBar.Bar.HandleRecentSearchClick | components/features/search/SearchBar.tsx:71-74 | clicking a recent search puts it in the box and searches for it; a blank entry changes nothing else, and the store's current query is never touched |
| SearchBar.Bar.HandleRemoveRecentSearch | components/features/search/SearchBar.tsx:76-79 | removing a recent search drops exactly that text from the list, without searching and without touching the current query |
| SearchBar.Bar.SetQuery | components/features/search/SearchBar.tsx:97 | typing replaces the text and nothing else |
| SearchBar.Bar.SetOpen | components/features/search/SearchBar.tsx:41-50 | focus opens the dropdown and a click outside closes it, changing nothing else |
| SearchFilters.FindGenre | components/features/search/SearchFilters.tsx:212 | finds a name exactly when some entry has the id, and then it is the name of the first such entry |
| SearchFilters.YearOptionAt | components/features/search/SearchFilters.tsx:45-52 | option k after "All Years" is the year currentYear - k + 1 |
| SearchFilters.YearOptionsSpec | components/features/search/SearchFilters.tsx:45-52 | from 1900 on: "All Years", then one option per year from the current one down to 1900, so currentYear - 1898 options in all, the last being 1900; before 1900 only "All Years" |
| SearchFilters.YearOptionParses | components/features/search/SearchFilters.tsx:48-51 | a year option's value reads back as its year, so no two options share a value |
| SearchFilters.Truthy | components/features/search/SearchFilters.tsx:216 | `.filter(Boolean)` keeps a part only when it is a non-empty text |
| SearchFilters.LabelParts | components/features/search/SearchFilters.tsx:211-215 | the summary has at most three parts |
| SearchFilters.GenreNamesNonEmpty | components/features/search/SearchFilters.tsx:21-42 | every listed genre has a non-empty name |
| SearchFilters.LabelFull | components/features/search/SearchFilters.tsx:211-217 | with a named genre, a year and a rating the summary reads "<genre> • <year> • <n>+ rating" |
| SearchFilters.LabelEmpty | components/features/search/SearchFilters.tsx:211-217 | the summary is empty exactly when no part is shown |
| SearchFilters.IndicatorSpec | components/features/search/SearchFilters.tsx:95 | the indicator shows exactly when year ≠ '', genre ≠ '' or minRating > 0, and never after a reset; its text is empty only for an unlisted genre with no year or rating; the full text is "genre • year • N+ rating", and a year alone reads as the year |
| SearchFilters.Panel.constructor | components/features/search/SearchFilters.tsx:63-64 | the local filters start as the props and the panel is collapsed |
| SearchFilters.Panel.SyncFromProps | components/features/search/SearchFilters.tsx:66-69 | new props replace the local filters |
| SearchFilters.Panel.HandleYearChange | components/features/search/SearchFilters.tsx:71-75 | only the year changes, and the updated filters are reported |
| SearchFilters.Panel.HandleGenreChange | components/features/search/SearchFilters.tsx:77-81 | only the genre changes, and the updated filters are reported |
| SearchFilters.Panel.HandleRatingChange | components/features/search/SearchFilters.tsx:83-87 | only the minimum rating changes, and the updated filters are reported |
| SearchFilters.Panel.HandleReset | components/features/search/SearchFilters.tsx:89-93 | the filters become {year: '', genre: '', minRating: 0}, are reported, and no filter is active afterwards |
| SearchFilters.Panel.ToggleExpanded | components/features/search/SearchFilters.tsx:64 | the toggle flips the panel open or closed, changing nothing else |
| MediaSearch.RequestedPage | hooks/useMediaSearch.ts:36 | the page is the given one unless it is missing or 0, and then 1 |
| MediaSearch.CombineModes | hooks/useMediaSearch.ts:40-75 | in 'movie' mode no shows, with the movie response's totals and page; in 'tv' mode no movies, with the show response's totals and page; in 'all' mode both lists, the sum of the totals, the larger page count and the requested page; a response that is not fetched does not affect the result |
| MediaSearch.KeyOfInjective | hooks/useMediaSearch.ts:39 | two searches share a cache entry exactly when text, filter and page parameters agree |
| MediaSearch.GetMediaType | hooks/useMediaSearch.ts:99-101 | the type is 'tv' exactly when this hook's show guard holds |
| MediaSearch.SearchGuardsOnRecords | hooks/useMediaSearch.ts:85-108 | a show is typed 'tv' and titled by its name, a transformed movie 'movie' and titled by its title; this hook's movie guard rejects a transformed movie, which the shared guard accepts; the two show guards agree on shows |
| Sorting.Insert | components/features/tv/EpisodeGrid.tsx:112 | inserting adds exactly one element |
| Sorting.SortBy | components/features/tv/EpisodeGrid.tsx:112 | the sort keeps the length of its input |
| Sorting.InsertPerm | components/features/tv/EpisodeGrid.tsx:112 | inserting adds x to the multiset and nothing else |
| Sorting.InsertSorted | components/features/tv/EpisodeGrid.tsx:112 | inserting into an ascending list keeps it ascending |
| Sorting.SortByPerm | components/features/tv/EpisodeGrid.tsx:112 | the sort is a permutation of its input |
| Sorting.SortBySorted | components/features/tv/EpisodeGrid.tsx:112 | the sort is ascending by the key (the comparator `a.key - b.key`) |
| Sorting.InsertStable | components/features/tv/EpisodeGrid.tsx:112 | after inserting x, the elements of any one key are x (when it has that key) followed by those of the input, in their order |
| Sorting.SortByStable | components/features/tv/EpisodeGrid.tsx:112 | the sort is stable: elements with the same key keep their relative order |
| Sorting.SortBySortedInput | components/features/tv/EpisodeGrid.tsx:112 | sorting an already ascending list changes nothing |
| Common.Filter | hooks/useContinueWatching.ts:41 | `filter` is never longer than its input and keeps only input elements that pass the test |
| Common.FilterKeeps | components/features/search/SearchBar.tsx:82 | an element survives `filter` exactly when it is in the input and passes the test |
| Common.FilterConcat | hooks/useContinueWatching.ts:41 | filtering a joined list filters each part and keeps their order |
| Common.FilterAll | components/features/search/SearchBar.tsx:82 | a filter that rejects nothing returns its input |
| Common.FilterTwice | components/features/search/SearchBar.tsx:82 | filtering twice by the same test is filtering once |
| Common.FilterSubMultiset | hooks/useContinueWatching.ts:41 | a filter only drops elements |
| Common.Take | hooks/useContinueWatching.ts:43 | `slice(0, n)` is the prefix of length min(n, length) |
| Common.DigitChar | components/features/tv/EpisodeCard.tsx:44 | a digit's character is the decimal digit of that value |
| Common.NatToString | components/features/tv/EpisodeCard.tsx:44 | a natural number prints as at least one decimal digit with no leading zero |
| Common.IntToString | components/features/tv/EpisodeCard.tsx:44 | an integer prints as a non-empty text that starts with a minus sign exactly when it is negative |
| Common.ParseNatToString | components/features/tv/EpisodeCard.tsx:44 | reading back a printed natural number gives the number |
| Common.LeadingDigits | components/features/tv/EpisodeCard.tsx:44 | the leading run of digits is no longer than the text and made only of digits |
| Common.LeadingDigitsOfDigits | components/features/tv/EpisodeCard.tsx:44 | digits followed by a non-digit have exactly those digits as their leading run |
| Common.TrimStart | components/features/search/SearchBar.tsx:53 | the result is a suffix that does not start with whitespace, and all it drops is whitespace |
| Common.TrimEnd | components/features/search/SearchBar.tsx:53 | the result is a prefix that does not end with whitespace, and all it drops is whitespace |
| Common.Trim | components/features/search/SearchBar.tsx:53 | `trim` returns a slice of its input that removes only whitespace and leaves none at either end |
| Common.TrimEmpty | components/features/search/SearchBar.tsx:54 | a text trims to nothing exactly when it is all whitespace |
| Common.TrimStartOfTrimmed | components/features/search/SearchBar.tsx:53 | a text with no whitespace at its ends is unchanged by either trim |
| Common.TrimIdempotent | components/features/search/SearchBar.tsx:53 | trimming twice is trimming once |
| Common.ToLower | components/features/search/SearchBar.tsx:82 | `toLowerCase` keeps the length and maps each character to its ASCII lower case |
| Common.ToLowerConcat | components/features/search/SearchBar.tsx:82 | lower-casing distributes over concatenation |
| Common.ToLowerIdempotent | components/features/search/SearchBar.tsx:82 | lower-casing twice is lower-casing once |
| Common.ContainsAt | components/features/search/SearchBar.tsx:82 | `includes` holds exactly when the text occurs at some position |
| Common.ContainsEmpty | components/features/search/SearchBar.tsx:82 | every text includes the empty text |
| Common.JoinThree | components/features/search/SearchFilters.tsx:217 | joining three parts puts the separator between each pair |

## Left out

- Rendering, DOM events, scrolling and measurement (among them SeasonSelector's scroll arrows, arrow scrolling and active-tab centring, `components/features/tv/SeasonSelector.tsx:34-96`), promises and `async` scheduling, the search debounce, `setTimeout`, and `localStorage` persistence and hydration: these are I/O and scheduling, not logic.
- `fetch` itself: its outcome is an input to the model.
- Date parsing (`new Date(...)`, `getFullYear`): the ISO `lastWatched` strings are integer milliseconds. `lib/tmdb/transformer.ts` reads a release year from the text before the first dash, and this is modelled; the other places that call `getFullYear` are not. Among them are `getMediaYear` (`hooks/useMediaSearch.ts:113-116`) and MediaHero's year label (`components/features/media/MediaHero.tsx:156`).
- MediaCard.GetAdditionalInfo keeps a movie's raw release date, whereas the card shows `new Date(releaseDate).getFullYear()` (`components/features/media/MediaCard.tsx:105`). That year depends on date parsing and the local time zone, which are not modelled.
- `encodeURIComponent` and URL percent-encoding: `SearchBar.SearchPath` and `TmdbClient.Client.BuildUrl` join the text as given.
- Unicode case mapping: `Common.ToLower` folds ASCII letters only.
- IEEE floating point: progress, volume and ratings are reals, and `Math.round` is round-half-up on reals.
- The TanStack Query wrappers (`useMovies`, the TV query hooks, the service facade): they add no logic beyond the keys and cache settings, which are modelled.
- The gateway endpoints that only forward a parameter object to `request` (trending, popular, details, credits, videos, discover, multi-search, the batch getters): only `request`, `buildUrl`, `getGenres` and `searchMovies` are modelled individually.
- TmdbClient.Client.Request takes the fetch outcome as a parameter and does not pass through the rate limiter. The limiter is modelled on its own, as a queue driven by Execute, Dispatch(now, later) and Complete events.
- MediaCard calls `isFavoriteItem` and `toggleFavoriteItem`, which the store code does not define. That model therefore keeps favourites as a set of (id, media type) pairs.
- For the same reason, the continue-watching store members and the search store's media type are inputs of their models.
- The watch-progress hook calls `updateWatchHistoryItem` and `updateContinueWatching`, which the store does not define. The hook's saves are therefore modelled as a log of save requests.
- MediaHero's trending shows carry no genre names, so a show banner has no genre in the model.
- ErrorFallback's buttons, its development details, `InlineErrorFallback` and `EmptyStateFallback`: presentation only.
- MediaCard's progress bar (`components/features/media/MediaCard.tsx:157-167`) is the same expression as EpisodeCard's. It is modelled once, by `EpisodeCard.ProgressBarOf`.
- MediaSearch.KeyOf keeps only the page parameter of the query key's `params` object.
- MediaHero.NextIndex and MediaHero.PreviousIndex require a non-empty carousel. The handlers exist only once slides exist.
- TvPlayer.AutoNextAtMostOnce reads the current state, whereas the message listener reads `hasTriggeredAutoNext` from its render closure. The lemma therefore assumes the listener is registered again between messages.
- SearchFilters.ActiveLabel, SearchFilters.Indicator and TvPlayer.KeyNavigation have no contract of their own. `SearchFilters.IndicatorSpec` and `TvPlayer.KeyNavigationRule` state them.

## Findings

| source | as written | input that shows it | evidently intended | confidence | as-written member | corrected member |
|---|---|---|---|---|---|---|
| components/features/tv/SeasonSelector.tsx:103-107 | when only one numbered season remains, its label is always "Season 1" | the specials (#0) and season 2 only: the label reads "Season 1" | the remaining season is labelled with its own number, "Season 2" | not executed | SeasonSelector.LoneSeasonMislabelled | SeasonSelector.SelectorSpec |
