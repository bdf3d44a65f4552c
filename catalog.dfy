/** Single-resource lookups (`get_track_info`, `get_artist_info`): the catalog's JSON as
    datatypes, the fixed record shapes the client projects it onto, and the outcome of one
    lookup, which tells "not found" apart from "the request broke". */
module Catalog {
  import opened Wrappers
  import opened TokenCache

  // ---- the catalog's JSON, as far as the client reads it ----

  datatype AlbumJson = AlbumJson(id: Option<string>, name: Option<string>)

  datatype ArtistRefJson = ArtistRefJson(id: Option<string>, name: Option<string>)

  datatype TrackJson = TrackJson(
    id: Option<string>,
    name: Option<string>,
    durationMs: Option<int>,
    explicit: Option<bool>,
    previewUrl: Option<string>,
    album: Field<AlbumJson>,
    artists: Field<seq<ArtistRefJson>>)

  datatype FollowersJson = FollowersJson(total: Option<int>)

  datatype ArtistJson = ArtistJson(
    id: Option<string>,
    name: Option<string>,
    genres: Field<seq<string>>,
    popularity: Option<int>,
    followers: Field<FollowersJson>)

  // ---- the records the client returns ----

  /** An `{"id": ..., "name": ...}` pair, as the record holds its album and its artists. */
  datatype Ref = Ref(id: Option<string>, name: Option<string>)

  datatype TrackRecord = TrackRecord(
    id: Option<string>,
    name: Option<string>,
    durationMs: Option<int>,
    explicit: Option<bool>,
    previewUrl: Option<string>,
    album: Ref,
    artists: seq<Ref>)

  datatype ArtistRecord = ArtistRecord(
    id: Option<string>,
    name: Option<string>,
    genres: Option<seq<string>>,
    popularity: Option<int>,
    followers: Option<int>)

  /** Why a lookup raised. */
  datatype FetchError =
    | AuthFailed(cause: AuthError)  // `_auth_headers` could not obtain a token
    | RequestFailed                 // the GET itself failed (connection, timeout)
    | HttpError(status: int)        // `raise_for_status` on a 4xx or 5xx other than 404
    | MalformedBody                 // the body is not a JSON object, or `.get` hit a null

  /** The outcome of one lookup: the empty dictionary `{}` of a 404 is `NotFound`. */
  datatype Fetch<+R> = Found(record: R) | NotFound | Failed(error: FetchError)

  /** What the GET to the catalog produced: a status with the body decoded as a JSON
      object (`None` when it is not one), or no response at all. */
  datatype HttpReply<+J> = Response(status: int, body: Option<J>) | NoResponse

  /** The statuses on which `raise_for_status` raises. */
  predicate RaisesForStatus(status: int) {
    400 <= status < 600
  }

  // ---- projections ----

  /** The list comprehension over `data.get("artists", [])`. */
  function ArtistRefs(artists: seq<ArtistRefJson>): (r: seq<Ref>)
    ensures |r| == |artists|
    ensures forall i :: 0 <= i < |artists| ==> r[i].id == artists[i].id && r[i].name == artists[i].name
  {
    if artists == [] then [] else [Ref(artists[0].id, artists[0].name)] + ArtistRefs(artists[1..])
  }

  /** The dictionary `get_track_info` builds from a decoded track. A null `album` or
      `artists` makes `.get`/iteration raise, so it is a malformed body. */
  function ProjectTrack(data: TrackJson): (r: Result<TrackRecord, FetchError>)
    ensures r.Ok? <==> !data.album.Null? && !data.artists.Null?
    ensures r.Err? ==> r.error == MalformedBody
    ensures r.Ok? ==> r.value.id == data.id && r.value.name == data.name &&
                      r.value.durationMs == data.durationMs && r.value.explicit == data.explicit &&
                      r.value.previewUrl == data.previewUrl
    ensures r.Ok? && data.album.Missing? ==> r.value.album == Ref(None, None)
    ensures r.Ok? && data.album.Value? ==> r.value.album == Ref(data.album.v.id, data.album.v.name)
    ensures r.Ok? && data.artists.Missing? ==> r.value.artists == []
    ensures r.Ok? && data.artists.Value? ==>
              |r.value.artists| == |data.artists.v| &&
              forall i :: 0 <= i < |data.artists.v| ==>
                r.value.artists[i].id == data.artists.v[i].id && r.value.artists[i].name == data.artists.v[i].name
  {
    if data.album.Null? || data.artists.Null? then Err(MalformedBody)
    else
      var album := if data.album.Value? then Ref(data.album.v.id, data.album.v.name) else Ref(None, None);
      var artists := if data.artists.Value? then ArtistRefs(data.artists.v) else [];
      Ok(TrackRecord(data.id, data.name, data.durationMs, data.explicit, data.previewUrl, album, artists))
  }

  /** The dictionary `get_artist_info` builds from a decoded artist. A null `followers`
      makes `.get("total")` raise; a null `genres` is passed through as `None`. */
  function ProjectArtist(data: ArtistJson): (r: Result<ArtistRecord, FetchError>)
    ensures r.Ok? <==> !data.followers.Null?
    ensures r.Err? ==> r.error == MalformedBody
    ensures r.Ok? ==> r.value.id == data.id && r.value.name == data.name && r.value.popularity == data.popularity
    ensures r.Ok? && data.genres.Missing? ==> r.value.genres == Some([])
    ensures r.Ok? && data.genres.Null? ==> r.value.genres == None
    ensures r.Ok? && data.genres.Value? ==> r.value.genres == Some(data.genres.v)
    ensures r.Ok? && data.followers.Missing? ==> r.value.followers == None
    ensures r.Ok? && data.followers.Value? ==> r.value.followers == data.followers.v.total
  {
    match data.followers
    case Null => Err(MalformedBody)
    case Missing => Ok(ArtistRecord(data.id, data.name, Genres(data.genres), data.popularity, None))
    case Value(f) => Ok(ArtistRecord(data.id, data.name, Genres(data.genres), data.popularity, f.total))
  }

  /** `data.get("genres", [])`. */
  function Genres(f: Field<seq<string>>): (r: Option<seq<string>>)
    ensures f.Missing? ==> r == Some([])
    ensures r.None? <==> f.Null?
    ensures f.Value? ==> r == Some(f.v)
  {
    match f
    case Missing => Some([])
    case Null => None
    case Value(g) => Some(g)
  }

  // ---- the projections lose nothing they keep: each record is recovered from a JSON that carries it ----

  function ArtistRefsJson(refs: seq<Ref>): (r: seq<ArtistRefJson>)
    ensures |r| == |refs|
  {
    if refs == [] then [] else [ArtistRefJson(refs[0].id, refs[0].name)] + ArtistRefsJson(refs[1..])
  }

  function TrackJsonOf(t: TrackRecord): TrackJson {
    TrackJson(t.id, t.name, t.durationMs, t.explicit, t.previewUrl,
              Value(AlbumJson(t.album.id, t.album.name)), Value(ArtistRefsJson(t.artists)))
  }

  function ArtistJsonOf(a: ArtistRecord): ArtistJson {
    ArtistJson(a.id, a.name,
               if a.genres.Some? then Value(a.genres.value) else Null,
               a.popularity,
               if a.followers.Some? then Value(FollowersJson(a.followers)) else Missing)
  }

  lemma {:induction false} ArtistRefsRoundTrip(refs: seq<Ref>)
    ensures ArtistRefs(ArtistRefsJson(refs)) == refs
  {
    if refs != [] {
      ArtistRefsRoundTrip(refs[1..]);
      assert ArtistRefsJson(refs)[1..] == ArtistRefsJson(refs[1..]);
    }
  }

  /** Every track record is the projection of some track JSON: the shape is exactly the
      fields the client keeps. */
  lemma ProjectTrackRoundTrip(t: TrackRecord)
    ensures ProjectTrack(TrackJsonOf(t)) == Ok(t)
  {
    ArtistRefsRoundTrip(t.artists);
  }

  lemma ProjectArtistRoundTrip(a: ArtistRecord)
    ensures ProjectArtist(ArtistJsonOf(a)) == Ok(a)
  {
  }

  // ---- one lookup ----

  /** What a lookup returns or raises once `_auth_headers` has produced `token` and the GET
      has produced `reply`: a 404 is checked before `raise_for_status`, and the body is
      projected only after it. */
  function Received<J, R>(token: Result<string, AuthError>, reply: HttpReply<J>,
                          project: J -> Result<R, FetchError>): (r: Fetch<R>)
    ensures token.Err? ==> r == Failed(AuthFailed(token.error))
    ensures token.Ok? && reply.NoResponse? ==> r == Failed(RequestFailed)
    ensures r.NotFound? <==> token.Ok? && reply.Response? && reply.status == 404
    ensures token.Ok? && reply.Response? && reply.status != 404 && RaisesForStatus(reply.status) ==>
              r == Failed(HttpError(reply.status))
    ensures token.Ok? && reply.Response? && !RaisesForStatus(reply.status) && reply.status != 404 &&
              reply.body.None? ==>
              r == Failed(MalformedBody)
    ensures r.Found? <==>
              token.Ok? && reply.Response? && !RaisesForStatus(reply.status) &&
              reply.body.Some? && project(reply.body.value).Ok?
    ensures r.Found? ==> project(reply.body.value) == Ok(r.record)
  {
    match token
    case Err(e) => Failed(AuthFailed(e))
    case Ok(_) =>
      match reply
      case NoResponse => Failed(RequestFailed)
      case Response(status, body) =>
        if status == 404 then NotFound
        else if RaisesForStatus(status) then Failed(HttpError(status))
        else if body.None? then Failed(MalformedBody)
        else match project(body.value)
          case Ok(record) => Found(record)
          case Err(e) => Failed(e)
  }

  /** `get_track_info` after its two external calls. */
  function GetTrackInfo(token: Result<string, AuthError>, reply: HttpReply<TrackJson>): (r: Fetch<TrackRecord>)
    ensures r.NotFound? <==> token.Ok? && reply.Response? && reply.status == 404
    ensures token.Err? ==> r == Failed(AuthFailed(token.error))
    ensures token.Ok? && reply.NoResponse? ==> r == Failed(RequestFailed)
    ensures token.Ok? && reply.Response? && reply.status != 404 && RaisesForStatus(reply.status) ==>
              r == Failed(HttpError(reply.status))
    ensures r.Found? <==>
              token.Ok? && reply.Response? && !RaisesForStatus(reply.status) &&
              reply.body.Some? && ProjectTrack(reply.body.value).Ok?
    ensures r.Found? ==> reply.Response? && reply.body.Some? && ProjectTrack(reply.body.value) == Ok(r.record)
    ensures r.Found? ==> |r.record.artists| == if reply.body.value.artists.Value? then |reply.body.value.artists.v| else 0
  {
    Received(token, reply, ProjectTrack)
  }

  /** `get_artist_info` after its two external calls. */
  function GetArtistInfo(token: Result<string, AuthError>, reply: HttpReply<ArtistJson>): (r: Fetch<ArtistRecord>)
    ensures r.NotFound? <==> token.Ok? && reply.Response? && reply.status == 404
    ensures token.Err? ==> r == Failed(AuthFailed(token.error))
    ensures token.Ok? && reply.NoResponse? ==> r == Failed(RequestFailed)
    ensures token.Ok? && reply.Response? && reply.status != 404 && RaisesForStatus(reply.status) ==>
              r == Failed(HttpError(reply.status))
    ensures r.Found? <==>
              token.Ok? && reply.Response? && !RaisesForStatus(reply.status) &&
              reply.body.Some? && ProjectArtist(reply.body.value).Ok?
    ensures r.Found? ==> reply.Response? && reply.body.Some? && ProjectArtist(reply.body.value) == Ok(r.record)
    ensures r.Found? && reply.body.value.genres.Missing? ==> r.record.genres == Some([])
  {
    Received(token, reply, ProjectArtist)
  }

  /** One lookup against the live cache: `_auth_headers` runs `get_access_token` first, so
      the cache moves on even when the GET then fails. */
  method Lookup<J, R>(cache: AccessTokenCache, now: int, creds: AppCredentials, exchange: ExchangeReply,
                      reply: HttpReply<J>, project: J -> Result<R, FetchError>) returns (r: Fetch<R>)
    modifies cache
    ensures var st := Acquire(old(cache.State()), now, creds, exchange);
            cache.State() == st.next && r == Received(st.result, reply, project) &&
            cache.exchanges == old(cache.exchanges) + (if st.exchanged then 1 else 0)
  {
    var token := cache.GetAccessToken(now, creds, exchange);
    r := Received(token, reply, project);
  }

  /** `get_track_info` on the live cache. */
  method FetchTrack(cache: AccessTokenCache, now: int, creds: AppCredentials, exchange: ExchangeReply,
                    reply: HttpReply<TrackJson>) returns (r: Fetch<TrackRecord>)
    modifies cache
    ensures var st := Acquire(old(cache.State()), now, creds, exchange);
            cache.State() == st.next && r == GetTrackInfo(st.result, reply) &&
            cache.exchanges == old(cache.exchanges) + (if st.exchanged then 1 else 0)
  {
    r := Lookup(cache, now, creds, exchange, reply, ProjectTrack);
  }

  /** `get_artist_info` on the live cache. */
  method FetchArtist(cache: AccessTokenCache, now: int, creds: AppCredentials, exchange: ExchangeReply,
                     reply: HttpReply<ArtistJson>) returns (r: Fetch<ArtistRecord>)
    modifies cache
    ensures var st := Acquire(old(cache.State()), now, creds, exchange);
            cache.State() == st.next && r == GetArtistInfo(st.result, reply) &&
            cache.exchanges == old(cache.exchanges) + (if st.exchanged then 1 else 0)
  {
    r := Lookup(cache, now, creds, exchange, reply, ProjectArtist);
  }
}
