# Personal-website Worker: API clients and router, modelled in Dafny

The site's Cloudflare Worker answers two JSON routes and serves static files
for everything else:

- `/spotify/recent` asks the music provider for the most recently played
  track;
- `/strava/recent` asks the fitness provider for a recent activity;
- any other path goes to the static assets, with a custom not-found page.

Each API client cleans its three configured credentials. It then trades the
refresh token for an access token, fetches the provider's data and reduces it
to a small record. The router keeps successful API responses in the shared
response cache.

The model is deterministic. Every network reply is an input value. Each
client is a function that returns its result, or the error it throws,
together with the list of requests it sent. So "fails before any request"
is the statement `sent == []`.

Modules, one per file:

- `wrappers.dfy`: `Option` and `Result`.
- `js_text.dfy`: `String.prototype.trim`, the global replacement
  `replace(/^"|"$/g, "")` and the decimal rendering of a status code.
- `base64.dfy`: base64 as in section 4 of RFC 4648, `btoa`, and a strict
  decoder.
- `basic_auth.dfy`: the Basic scheme of section 2 of RFC 7617, both the
  client header and the server's reading of it.
- `fetch.dfy`: requests, replies, the `URLSearchParams` builder (a class
  whose `Append` changes its list in place) and `Lookup`, which works like
  `URLSearchParams.get`.
- `credentials.dfy`: the credential cleaning and check, which both clients
  share.
- `strava.dfy`: the fitness client.
- `spotify.dfy`: the music client.
- `router.dfy`: the handler's decision function `Decide`, the
  `ResponseCache` class and the `HandleFetch` method that updates the cache.

## Model

| member | source | states |
|---|---|---|
| `JsText.TrimStart` | src/strava.ts:19 | the result is a suffix of the input, everything cut off is white space, and the result does not start with white space |
| `JsText.TrimEnd` | src/strava.ts:19 | the result is a prefix of the input, everything cut off is white space, and the result does not end with white space |
| `JsText.Trim` | src/strava.ts:19-21 | `trim()` keeps an infix with only white space outside it, and that infix neither starts nor ends with white space |
| `JsText.TrimCharacterized` | src/spotify.ts:16-18 | exactly one string meets that description, so `IsTrimOf` and `Trim` agree in both directions |
| `JsText.TrimIdempotent` | src/strava.ts:19 | trimming twice gives the same result as trimming once |
| `JsText.StripQuotes` | src/strava.ts:19-21 | removes at most one character from each end; a lone `"` becomes the empty string |
| `JsText.StripQuotesIsGlobalReplace` | src/spotify.ts:16-18 | the result is the input with every character removed that the global regex matches: a `"` in the first or the last position |
| `JsText.StripQuotesEmpty` | src/strava.ts:23 | stripping gives the empty string exactly for `""`, `"` and two quotes |
| `JsText.DecimalString` | src/strava.ts:41 | `${status}` gives non-empty decimal digits with no leading zero |
| `JsText.DecimalRoundTrip` | src/spotify.ts:42 | reading those digits back gives the status number |
| `Base64.DigitValue` | src/spotify.ts:28 | every alphabet character is read back as the digit it encodes |
| `Base64.Encode` | src/spotify.ts:28 | the output length is 4 * ceil(n/3) characters |
| `Base64.RoundTrip` | src/spotify.ts:28 | strict decoding undoes encoding for every byte string |
| `Base64.Btoa` | src/spotify.ts:28 | `btoa` succeeds exactly on Latin-1 strings, with output length 4 * ceil(n/3) |
| `Base64.ShortTestVectors` | src/spotify.ts:28 | `btoa` gives the padded test vectors of section 10 of RFC 4648: `""`, `"f"` and `"fo"` |
| `Base64.TestVectors` | src/spotify.ts:28 | `btoa` gives the test vectors of section 10 of RFC 4648 from `"foo"` to `"foobar"` |
| `Base64.BtoaRoundTrip` | src/spotify.ts:28 | `atob(btoa(s)) == s` for every Latin-1 string |
| `BasicAuth.UserPass` | src/spotify.ts:28 | the user-pass string is the id, a colon, then the secret |
| `BasicAuth.Header` | src/spotify.ts:28-34 | the header exists exactly when both parts are Latin-1; it starts with `Basic `, and the rest decodes to `id:secret` for every id, a colon in it included |
| `BasicAuth.SplitAtColon` | src/spotify.ts:28 | splits at the first colon: the first part has no colon and the input is the two parts joined by `:` |
| `BasicAuth.SplitUserPass` | src/spotify.ts:28 | for an id with no colon, splitting `id:secret` gives back the id and the secret |
| `BasicAuth.HeaderRoundTrip` | src/spotify.ts:28-34 | a server reading the `Basic` header gets back the id and secret it was built from |
| `Fetch.Lookup` | src/strava.ts:27-31 | the value of the first pair with the given name, or None exactly when no pair has that name |
| `Fetch.LookupAt` | src/strava.ts:27-31 | the first pair with that name is the one `Lookup` returns |
| `Fetch.Names` | src/strava.ts:27-31 | the pair names, in order |
| `Fetch.SearchParams.constructor` | src/strava.ts:27 | a new builder is empty |
| `Fetch.SearchParams.Append` | src/strava.ts:28-31 | `append` adds the pair at the end and keeps every earlier pair |
| `Credentials.CleanValue` | src/strava.ts:19-21 | an unset value stays unset; a set value becomes its trimmed form with the regex matches removed |
| `Credentials.Normalize` | src/strava.ts:23-25 | gives the cleaned triple exactly when all three cleaned values are set and non-empty, and None otherwise |
| `Credentials.RejectedValues` | src/spotify.ts:20-22 | a set value is rejected exactly when its trimmed form is empty, `"` or `""` |
| `Strava.Message` | src/strava.ts:41 | the token-failure message is `Failed to refresh Strava token: `, then the status text, then ` (<status digits>)`, and those digits read back as the status |
| `Strava.TokenParams` | src/strava.ts:27-31 | the body is `client_id`, `client_secret`, `grant_type`, `refresh_token`, in that order; the values are the cleaned credentials and `refresh_token` |
| `Strava.BuildTokenParams` | src/strava.ts:27-31 | the four `append` calls on a fresh builder produce exactly that list |
| `Strava.AccessToken` | src/strava.ts:18-46 | missing credentials: fails with MissingCredentials and sends nothing; otherwise sends one token request and returns the token or TokenRefreshFailed(status text, status) |
| `Strava.FindFirst` | src/strava.ts:70 | `find` returns the lowest index that satisfies the predicate, or None when no entry does |
| `Strava.SelectIndex` | src/strava.ts:65-80 | an index exists exactly for a non-empty list, and it is in range |
| `Strava.FindFirstIs` | src/strava.ts:74 | `find` returns i if and only if i is the lowest index that satisfies the predicate |
| `Strava.SelectIndexChosen` | src/strava.ts:70-80 | the pick is i exactly when i is the first run with a route; or, if there is no such run, the first entry with a route; or, if no entry has a route, entry 0 |
| `Strava.RunBeatsEarlierRoute` | src/strava.ts:70-75 | a run with a route at index 2 wins over a non-run with a route at index 0 |
| `Strava.ToRecord` | src/strava.ts:82-91 | the polyline comes from `map`, and is absent when `map` is absent |
| `Strava.Latest` | src/strava.ts:64-91 | null exactly for a non-array or an empty list; otherwise the record of the chosen entry, with every field copied |
| `Strava.RecentActivity` | src/strava.ts:48-92 | missing credentials: fails and sends nothing; a failed token reply: only the token request is sent; otherwise the activities request follows, and a failed reply gives ActivitiesFetchFailed |
| `Spotify.Message` | src/spotify.ts:42 | the token-failure message is `Failed to refresh token: `, then the status text, then ` (<status digits>)`, and those digits read back as the status |
| `Spotify.TokenParams` | src/spotify.ts:24-26 | the body is only `grant_type=refresh_token` then `refresh_token`; it has no `client_id` and no `client_secret` |
| `Spotify.BuildTokenParams` | src/spotify.ts:24-26 | the two `append` calls on a fresh builder produce exactly that list |
| `Spotify.AccessToken` | src/spotify.ts:15-47 | missing credentials, or a non-Latin-1 id or secret, fail before any request; otherwise one request with a Basic header, which returns the token or TokenRefreshFailed |
| `Spotify.TokenRequestAuthenticates` | src/spotify.ts:28-34 | the Authorization header of the token request decodes to the cleaned id and secret, and neither appears in the body |
| `Spotify.ArtistRecords` | src/spotify.ts:74-77 | same length and order as `track.artists`; each entry is {name, external_urls.spotify} |
| `Spotify.ToRecord` | src/spotify.ts:69-81 | fails exactly when the album has no image; otherwise name and url come from the track, the image is the first album image, played_at comes from the item, and the artists are `ArtistRecords` of the track's artists |
| `Spotify.Latest` | src/spotify.ts:64-81 | null for missing or empty `items`; otherwise the record of `items[0]` |
| `Spotify.LatestIgnoresLaterItems` | src/spotify.ts:69 | items after the first never change the result |
| `Spotify.RecentTrack` | src/spotify.ts:49-82 | missing credentials: fails and sends nothing; token errors are passed on with the same requests sent; otherwise the played-history request follows, and a failed reply gives RecentFetchFailed |
| `Router.ApiOf` | src/index.ts:16-47 | only the exact paths `/spotify/recent` and `/strava/recent` name an API route |
| `Router.ApiResponse` | src/index.ts:20-43 | the response is cacheable exactly for a found record; no data gives 404 with the route's error body; an error thrown gives 500 with `{"error": message}` |
| `Router.StaticResponse` | src/index.ts:78-102 | with ASSETS: an asset 404 becomes 404 with the body and headers of `/404.html`, and any other asset response passes through unchanged; without ASSETS: always 404, the origin's page if that fetch was ok, otherwise "Not Found" |
| `Router.Decide` | src/index.ts:11-103 | a client is called only on an API path with a cache miss; a cache hit is returned as it is; only a found record is stored, and what is stored is a 200 with `Cache-Control: public, s-maxage=3600`; other paths go to the static handling |
| `Router.StoredResponseIsReplayed` | src/index.ts:17-36 | after a store, the same path is answered from the cache with no client call, whatever the clients would now return |
| `Router.SpotifyOutcome` | src/index.ts:21-22 | missing Spotify credentials make the route's outcome the error "Missing Spotify credentials in environment" |
| `Router.StravaOutcome` | src/index.ts:52-53 | missing Strava credentials make the route's outcome the error "Missing Strava credentials in environment" |
| `Router.EmptyHistoryIsNotFound` | src/index.ts:22-27 | an empty played history gives 404 with `{"error":"No recent tracks found"}`, and it is not stored |
| `Router.MissingStravaCredentialsIsServerError` | src/index.ts:69-74 | a missing Strava credential gives 500 with its message, sends no request, and stores nothing |
| `Router.ResponseCache.constructor` | src/index.ts:13 | a new cache is empty and valid |
| `Router.ResponseCache.Match` | src/index.ts:17 | a hit exactly when the URL has an entry; the hit is the stored response, and in a valid cache it is cacheable |
| `Router.ResponseCache.Put` | src/index.ts:36 | the entry for the URL is replaced and every other entry is kept; storing a cacheable response keeps the cache valid |
| `Router.StaticCalls` | src/index.ts:78-94 | with ASSETS: the request itself through the binding, then `/404.html` through the binding exactly when the asset answers 404; without ASSETS: one network GET of the origin's `/404.html` |
| `Router.StaticNotFoundFetchesPage` | src/index.ts:78-102 | every static 404 comes after a fetch of `/404.html`; every other static response is the asset, fetched once |
| `Router.HandleFetch` | src/index.ts:11-103 | the response is what `Decide` says; the calls made are the client's requests on a miss, none on a cache hit (whose response is cacheable), and the static fetches on other paths; the cache changes only by storing that response under the request URL on success; the cache invariant (only cacheable responses) is kept |

## Left out

- Network, JSON parsing and logging are not modelled. The replies of every
  `fetch` are inputs. A `fetch` that rejects, a body that is not JSON, and
  the `console.error` debug lines are not modelled.
- URL parsing is not modelled. The request's full URL (the cache key), its
  origin and its pathname are separate inputs, and `/404.html` is resolved
  by appending it to the origin. The replies for that page are inputs.
- `Router.HandleFetch`: a request handed to the ASSETS binding is recorded
  by its URL only; the incoming request's headers and method, which
  `env.ASSETS.fetch(request)` forwards, are not modelled.
- Only what the Workers cache stores and returns is modelled. Its expiry
  after `s-maxage`, its GET-only rule and a `put` that throws are left out.
- The request method is not modelled: every request is treated as a GET.
- `URLSearchParams` serialisation (form encoding of the body) is not
  modelled. A body is the ordered list of pairs. `params.toString()` (Spotify)
  and passing the object itself (Strava) produce the same encoding.
- The `Content-Type` that `fetch` adds for a `URLSearchParams` body is left
  out. So is the `statusText` of the constructed responses.
- JSON shapes are typed. Fields are assumed to have the types the providers
  document. So these are left out: a `null` activity entry or artist, a
  missing `track` or `external_urls`, a non-string `type`, a non-array
  `items`.
- Activity numbers (distance, times, id) are `real`/`int` values that are
  copied and never computed with. No floating-point behaviour is modelled.
- `Strava.ToRecord`: a `summary_polyline` that is null and one that is
  absent are both `None`. In the JSON body one would be `null` and the other
  omitted; the model does not tell them apart.
- `Spotify.Message`: the texts for InvalidCharacter and NoAlbumImage are
  the runtime's (`btoa`'s DOMException and V8's TypeError). They are
  written as those runtimes word them, not taken from the repository.
- The JSON serialisation of records (`JSON.stringify`) is not modelled. A
  body records which record or error message it holds.
- The chat client (`src/chat.ts`) and the track widget (`src/main.ts`) are
  browser rendering. The build configuration (`vite.config.ts`) has no
  logic. None of them is part of this model.
