# Spotify client core: token cache, lookups and batch validation

A model of the logic in `spotify_client.py`, a small client for the Spotify Web API.

- **Token cache** (module `TokenCache`). The client keeps one bearer token in two module
  globals: the token and the time it stops being served. `get_access_token` returns the
  cached token while it is non-empty and the clock is before that time. Otherwise it checks
  that a client id and secret are configured. Then it performs an OAuth 2.0 Client
  Credentials exchange (section 4.4 of RFC 6749) and stores the new token with expiry
  `now + expires_in - 30`, where `expires_in` defaults to 3600.
  `Acquire` is one call as a pure step on the state `CacheState(token, expiresAt)`. The class
  `AccessTokenCache` holds the two globals as fields. Its method `GetAccessToken` performs
  the step in place. A ghost counter `exchanges` records how many requests were sent to the token
  endpoint.
- **Lookups** (module `Catalog`). `get_track_info` and `get_artist_info` turn a 404 into the
  empty record (`NotFound`). They turn any other 4xx/5xx, a token failure or a transport
  failure into an exception (`Failed`). Otherwise they project the decoded JSON onto a fixed
  record shape. Upstream JSON is a datatype whose keys are `Option`, or `Field`
  (`Missing | Null | Value`) where the code calls `.get(key, default)`: in Python that
  default applies only to a missing key, never to an explicit `null`.
- **Batch validation** (module `BatchValidation`). `validate_tracks_batch` and
  `validate_artists_batch` look up every id in order. They swallow every exception per item.
  They keep `id -> {id, name}` only for a found record whose id and name are non-empty.
  `ValidAfter` specifies the map after the first `k` ids, given a lookup oracle indexed by
  position. `ValidateBatch` is the loop over such an oracle. `ValidateTracksBatch` and
  `ValidateArtistsBatch` run the loop on the live cache. Their results are `ValidAfter` for
  `LiveLookup`, the oracle that threads the cache through the successive token requests.

The clock, the configuration, the token endpoint's replies and the catalog's replies are
parameters (per item, for the batch). The code swallows a configuration error inside each
item's `try`, so a batch run without configuration returns the empty map rather than
raising. The model follows the code here (`UnconfiguredBatchIsEmpty`). It does not follow
the reading in which a failure to obtain credentials should abort the whole batch.

## Model

| member | source | states |
|---|---|---|
| `TokenCache.BasicAuthString` | spotify_client.py:25-30 | succeeds exactly when both client id and secret are present and non-empty; otherwise the configuration error |
| `TokenCache.SplitAtColon` | spotify_client.py:30 | the server side's reading of the credential built here (section 2 of RFC 7617), not client code: splitting at the first colon gives a colon-free user part that, joined back with `:`, rebuilds the string |
| `TokenCache.SplitJoin` | spotify_client.py:30 | about the server side's split, not client code: joining a colon-free user and any password with `:` and splitting again returns both |
| `TokenCache.BasicAuthRoundTrip` | spotify_client.py:25-31 | when the client id has no colon, the `id:secret` credential carries both parts unchanged: the server recovers id and secret from it |
| `TokenCache.Lifetime` | spotify_client.py:56-57 | a missing `expires_in` means 3600; a present number is used as given; a null one gives no usable lifetime |
| `TokenCache.Hit` | spotify_client.py:39 | the cache-hit test: a present, non-empty token whose expiry is still ahead of the clock |
| `TokenCache.ReplyLifetime` | spotify_client.py:49-56 | a lifetime exists only for a 200 with an object payload whose `expires_in` is not null, and is 3600 when `expires_in` is missing |
| `TokenCache.Acquire` | spotify_client.py:34-59 | hit returns the cached token, changes nothing and sends nothing; miss without configuration raises before any request; exchanges happen exactly on configured misses; non-200 raises with status and body; an unreachable endpoint, a non-object payload and a null `expires_in` each raise their own error; every failure except a null lifetime leaves both globals unchanged; a 200 with a null `expires_in` fails and overwrites the token with the payload's `access_token`, keeping the expiry; success stores the payload token and `now + expires_in - 30` and returns the token or `""` |
| `TokenCache.AcquireIdempotent` | spotify_client.py:38-59 | after a call that returned a non-empty token (that outlives the 30 s margin if it was fresh), a second call at the same instant returns the same token, sends nothing and changes nothing |
| `TokenCache.RenewalWindow` | spotify_client.py:38-57 | after a successful exchange at `t0` with lifetime `L`, a later configured call exchanges again if and only if its clock is at least `t0 + L - 30` |
| `TokenCache.EmptyTokenNeverHits` | spotify_client.py:39-59 | a 200 without `access_token` returns `""`, and no later call is a cache hit, whatever expiry was stored |
| `TokenCache.AccessTokenCache.constructor` | spotify_client.py:17-18 | the cache starts with no token and expiry 0, and no exchange has been made |
| `TokenCache.AccessTokenCache.GetAccessToken` | spotify_client.py:34-59 | returns what `Acquire` returns, leaves the fields in `Acquire`'s next state, and counts one exchange exactly when `Acquire` sends one |
| `Catalog.RaisesForStatus` | spotify_client.py:72 | the statuses on which `raise_for_status` raises: 400 to 599 (also line 99) |
| `Catalog.ArtistRefs` | spotify_client.py:84-90 | the artists list has the upstream list's length and order, each entry with that artist's id and name |
| `Catalog.ProjectTrack` | spotify_client.py:73-91 | fails exactly on a null album or artists list; copies id, name, duration, explicit flag and preview URL; a missing album gives id and name `None`; a missing artists list gives `[]`; otherwise artists keep length, order, ids and names |
| `Catalog.ProjectArtist` | spotify_client.py:100-107 | fails exactly on a null `followers`; copies id, name and popularity; genres default to `[]` when missing, are `None` when null; followers is `followers.total`, or `None` when missing |
| `Catalog.Genres` | spotify_client.py:104 | `genres` defaults to `[]` only when missing; a null stays null; a list is kept as given |
| `Catalog.ArtistRefsRoundTrip` | spotify_client.py:84-90 | every artists list of the record is the projection of the list of JSON objects that carry it |
| `Catalog.ProjectTrackRoundTrip` | spotify_client.py:74-91 | every track record is the projection of a JSON track that carries its fields: the projection loses nothing it keeps |
| `Catalog.ProjectArtistRoundTrip` | spotify_client.py:101-107 | every artist record is the projection of a JSON artist that carries its fields |
| `Catalog.Received` | spotify_client.py:67-73 | a token failure or transport failure is a failure; not-found holds exactly for a 404; another 4xx/5xx is an HTTP failure with that status; a non-raising status whose body is not an object is a malformed body; found holds exactly when the status does not raise, the body is an object and it projects, and then the record is that projection |
| `Catalog.GetTrackInfo` | spotify_client.py:67-91 | 404 and only 404 gives the empty record; token, transport and status errors propagate as failures; the record is found exactly when the status does not raise and the body is an object that projects, and it is then the projection of the body, with as many artists as the body lists |
| `Catalog.GetArtistInfo` | spotify_client.py:94-107 | 404 and only 404 gives the empty record; token, transport and status errors are failures; the record is found exactly when the status does not raise and the body is an object that projects, and it is then the projection of the body, with genres `[]` when the body has none |
| `Catalog.Lookup` | spotify_client.py:62-69 | asks the cache for a token first (the cache advances as `Acquire` says), then yields the outcome `Received` gives for that token and reply |
| `Catalog.FetchTrack` | spotify_client.py:67-91 | `get_track_info` on the live cache: cache advanced by `Acquire`, outcome `GetTrackInfo` of the token result and the reply |
| `Catalog.FetchArtist` | spotify_client.py:94-107 | `get_artist_info` on the live cache: cache advanced by `Acquire`, outcome `GetArtistInfo` of the token result and the reply |
| `BatchValidation.Accepted` | spotify_client.py:119-123 | an outcome yields an entry exactly when it is a found record with non-empty id and name, and the entry is that id and name |
| `BatchValidation.ValidAfter` | spotify_client.py:115-127 | every key is one of the ids processed so far, and every value has a non-empty id and name |
| `BatchValidation.Membership` | spotify_client.py:115-127 | an id is in the result if and only if some occurrence of it was accepted |
| `BatchValidation.Provenance` | spotify_client.py:115-127 | the value for an id is the `{id, name}` of its last accepted occurrence; later failed or empty lookups of that id do not touch it |
| `BatchValidation.NeverRemoved` | spotify_client.py:115-127 | processing more ids never removes a key already present |
| `BatchValidation.NoneAccepted` | spotify_client.py:116-126 | when every lookup raised, was a 404 or lacked an id or a name, the batch returns the empty map instead of raising |
| `BatchValidation.ValidateBatch` | spotify_client.py:115-127 | the loop over the ids computes exactly `ValidAfter` of the whole list, so its keys are among the input ids |
| `BatchValidation.ValidateBatchLive` | spotify_client.py:115-127 | the loop on the live cache computes `ValidAfter` for the live lookup and leaves the cache in the state, and the exchange count at the total, that the successive token requests produce |
| `BatchValidation.CacheAfter` | spotify_client.py:116-118 | the cache after the `get_access_token` calls that `_auth_headers` (line 63) makes for the first `k` items, each a step of `Acquire` |
| `BatchValidation.ExchangesAfter` | spotify_client.py:116-118 | the number of token requests sent for the first `k` items, at most one per item |
| `BatchValidation.LiveLookup` | spotify_client.py:116-118 | the outcome of the `i`-th item's lookup: the token from the cache as the earlier items left it, then the catalog's reply |
| `BatchValidation.ValidateTracksBatch` | spotify_client.py:110-127 | `validate_tracks_batch`: `ValidAfter` over `get_track_info` outcomes on the live cache, with the cache and the exchange count those lookups leave |
| `BatchValidation.ValidateArtistsBatch` | spotify_client.py:130-147 | `validate_artists_batch`: `ValidAfter` over `get_artist_info` outcomes on the live cache, with the cache and the exchange count those lookups leave |
| `BatchValidation.UnconfiguredCacheStays` | spotify_client.py:39-43 | with no configuration and no cached token that any of the batch's clock readings would serve (none, or expired), the token requests of a batch never change the cache and none is sent |
| `BatchValidation.UnconfiguredBatchIsEmpty` | spotify_client.py:116-126 | with no configuration and no cached token that the batch's clock readings would serve, every item fails with the configuration error and the batch returns the empty map |
| `BatchValidation.KnownTrackAndBogusId` | spotify_client.py:110-127 | validating a track the catalog returns and an id it answers with 404 keeps exactly the first, mapped to its id and name |

## Left out

- HTTP transport: the POST and GET calls, URLs, headers, the 10-second timeout and JSON decoding. Replies are parameters. A body that does not decode to a JSON object is `None`.
- The base64 encoding of `id:secret` and the `Bearer` header string. The model stops at the `id:secret` string and passes the token itself to the lookup.
- Loading the configuration from the environment (`load_dotenv`, `os.getenv`). The id and secret are an `AppCredentials` parameter.
- `time.time()` and float timestamps. The clock is an integer parameter, sampled once per call before the exchange.
- Concurrent use of the global cache. The code has no concurrency logic and the model is single-threaded.
- The text of the exceptions that lookups raise. Only the status of an HTTP error is kept.
- The order of the result: Python returns a dictionary ordered by first insertion, the model a `map`, which has no order.
- JSON values of undocumented types, for example a numeric `id`, a non-object album or artist entry, or a float or string `expires_in`. Keys are modelled as present, missing or null with the documented type.
- TokenCache.AcquireIdempotent: assumes a declared lifetime above 30 seconds when the first call exchanged. With 30 seconds or less, the fresh token is returned once and never served from the cache.
