/** Best-effort batch validation (`validate_tracks_batch`, `validate_artists_batch`): every
    id is looked up in input order, every exception of a lookup is swallowed, and an id is
    kept, mapped to `{id, name}`, only when its lookup found a record with a non-empty id
    and name.

    `ValidAfter` is the specification: the map after the first `k` ids, for a lookup given
    as an oracle indexed by position (two occurrences of one id are two calls and may
    see different outcomes). `ValidateBatch` is the loop on that oracle; the two
    `Validate*Batch` methods run the loop on the live token cache, and `LiveLookup` says
    which oracle that is. */
module BatchValidation {
  import opened Wrappers
  import opened TokenCache
  import opened Catalog

  /** The `{"id": ..., "name": ...}` kept for a valid id. */
  datatype Summary = Summary(id: string, name: string)

  /** The test `info and info.get("id") and info.get("name")` on one lookup's outcome, and
      the entry it yields. An exception and the empty record of a 404 yield none. */
  function Accepted<R>(outcome: Fetch<R>, fields: R -> (Option<string>, Option<string>)): (r: Option<Summary>)
    ensures r.Some? <==> outcome.Found? && Truthy(fields(outcome.record).0) && Truthy(fields(outcome.record).1)
    ensures r.Some? ==> r.value == Summary(fields(outcome.record).0.value, fields(outcome.record).1.value)
  {
    match outcome
    case Found(record) =>
      var (id, name) := fields(record);
      if Truthy(id) && Truthy(name) then Some(Summary(id.value, name.value)) else None
    case _ => None
  }

  function TrackFields(t: TrackRecord): (Option<string>, Option<string>) {
    (t.id, t.name)
  }

  function ArtistFields(a: ArtistRecord): (Option<string>, Option<string>) {
    (a.id, a.name)
  }

  /** The entry, if any, that the lookup of the id at position `i` contributes. */
  function EntryAt<R>(ids: seq<string>, i: nat, lookup: (nat, string) -> Fetch<R>,
                      fields: R -> (Option<string>, Option<string>)): Option<Summary>
    requires i < |ids|
  {
    Accepted(lookup(i, ids[i]), fields)
  }

  /** The map once the first `k` ids have been processed. */
  function ValidAfter<R>(ids: seq<string>, k: nat, lookup: (nat, string) -> Fetch<R>,
                         fields: R -> (Option<string>, Option<string>)): (m: map<string, Summary>)
    requires k <= |ids|
    ensures forall id :: id in m ==> id in ids[..k]
    ensures forall id :: id in m ==> m[id].id != "" && m[id].name != ""
    decreases k
  {
    if k == 0 then map[]
    else
      var m := ValidAfter(ids, k - 1, lookup, fields);
      assert ids[..k - 1] == ids[..k][..k - 1];
      match EntryAt(ids, k - 1, lookup, fields)
      case Some(s) => m[ids[k - 1] := s]
      case None => m
  }

  /** An id is in the result exactly when some occurrence of it was accepted. */
  lemma {:induction false} Membership<R>(ids: seq<string>, k: nat, lookup: (nat, string) -> Fetch<R>,
                                         fields: R -> (Option<string>, Option<string>), id: string)
    requires k <= |ids|
    ensures id in ValidAfter(ids, k, lookup, fields) <==>
            exists i :: 0 <= i < k && ids[i] == id && EntryAt(ids, i, lookup, fields).Some?
  {
    if k > 0 {
      Membership(ids, k - 1, lookup, fields, id);
      if ids[k - 1] == id && EntryAt(ids, k - 1, lookup, fields).Some? {
        assert 0 <= k - 1 < k && ids[k - 1] == id && EntryAt(ids, k - 1, lookup, fields).Some?;
      }
    }
  }

  /** Among the first `k` ids, position `i` is the last accepted occurrence of `id`, and it
      yielded `s`. */
  ghost predicate LastAccepted<R>(ids: seq<string>, k: nat, lookup: (nat, string) -> Fetch<R>,
                                  fields: R -> (Option<string>, Option<string>), id: string, i: nat, s: Summary)
    requires k <= |ids|
  {
    && i < k && ids[i] == id && EntryAt(ids, i, lookup, fields) == Some(s)
    && forall j :: i < j < k && ids[j] == id ==> EntryAt(ids, j, lookup, fields).None?
  }

  /** A later occurrence that is not accepted, or is of another id, keeps `i` the last
      accepted occurrence. */
  lemma LastAcceptedExtends<R>(ids: seq<string>, k: nat, lookup: (nat, string) -> Fetch<R>,
                               fields: R -> (Option<string>, Option<string>), id: string, i: nat, s: Summary)
    requires 0 < k <= |ids|
    requires LastAccepted(ids, k - 1, lookup, fields, id, i, s)
    requires ids[k - 1] != id || EntryAt(ids, k - 1, lookup, fields).None?
    ensures LastAccepted(ids, k, lookup, fields, id, i, s)
  {
  }

  /** The value kept for an id is the `{id, name}` of its last accepted occurrence: a later
      failed or empty lookup of the same id leaves it as it was. */
  lemma {:induction false} Provenance<R>(ids: seq<string>, k: nat, lookup: (nat, string) -> Fetch<R>,
                                         fields: R -> (Option<string>, Option<string>), id: string)
    returns (i: nat)
    requires k <= |ids|
    requires id in ValidAfter(ids, k, lookup, fields)
    ensures LastAccepted(ids, k, lookup, fields, id, i, ValidAfter(ids, k, lookup, fields)[id])
  {
    var m := ValidAfter(ids, k, lookup, fields);
    var m' := ValidAfter(ids, k - 1, lookup, fields);
    var e := EntryAt(ids, k - 1, lookup, fields);
    assert m == if e.Some? then m'[ids[k - 1] := e.value] else m';
    if ids[k - 1] == id && e.Some? {
      i := k - 1;
    } else {
      assert id in m' && m[id] == m'[id];
      i := Provenance(ids, k - 1, lookup, fields, id);
      LastAcceptedExtends(ids, k, lookup, fields, id, i, m[id]);
    }
  }

  /** Processing more ids never drops an id already kept. */
  lemma {:induction false} NeverRemoved<R>(ids: seq<string>, k1: nat, k2: nat, lookup: (nat, string) -> Fetch<R>,
                                           fields: R -> (Option<string>, Option<string>))
    requires k1 <= k2 <= |ids|
    ensures ValidAfter(ids, k1, lookup, fields).Keys <= ValidAfter(ids, k2, lookup, fields).Keys
  {
    if k1 < k2 {
      NeverRemoved(ids, k1, k2 - 1, lookup, fields);
    }
  }

  /** When no lookup is accepted (every one raised, was a 404 or lacked an id or a name),
      the batch still returns normally, with the empty map. */
  lemma {:induction false} NoneAccepted<R>(ids: seq<string>, k: nat, lookup: (nat, string) -> Fetch<R>,
                                           fields: R -> (Option<string>, Option<string>))
    requires k <= |ids|
    requires forall i :: 0 <= i < k ==> EntryAt(ids, i, lookup, fields).None?
    ensures ValidAfter(ids, k, lookup, fields) == map[]
  {
    if k > 0 {
      NoneAccepted(ids, k - 1, lookup, fields);
    }
  }

  /** The loop of `validate_*_batch`, with each lookup given by the oracle. */
  method ValidateBatch<R>(ids: seq<string>, lookup: (nat, string) -> Fetch<R>,
                          fields: R -> (Option<string>, Option<string>)) returns (valid: map<string, Summary>)
    ensures valid == ValidAfter(ids, |ids|, lookup, fields)
    ensures forall id :: id in valid ==> id in ids
  {
    valid := map[];
    var i := 0;
    while i < |ids|
      invariant 0 <= i <= |ids|
      invariant valid == ValidAfter(ids, i, lookup, fields)
    {
      match lookup(i, ids[i]) {
        case Found(record) =>
          var (id, name) := fields(record);
          if Truthy(id) && Truthy(name) {
            valid := valid[ids[i] := Summary(id.value, name.value)];
          }
        case NotFound =>
        case Failed(_) =>
      }
      i := i + 1;
    }
    assert ids[..|ids|] == ids;
  }

  // ---- the batch on the live token cache ----

  /** The cache after the token requests of the first `k` ids, where the `i`-th request
      reads the clock `clock(i)` and, if it exchanges, gets the reply `exchange(i)`. */
  function CacheAfter(s0: CacheState, k: nat, clock: nat -> int, creds: AppCredentials,
                      exchange: nat -> ExchangeReply): CacheState
    decreases k
  {
    if k == 0 then s0
    else Acquire(CacheAfter(s0, k - 1, clock, creds, exchange), clock(k - 1), creds, exchange(k - 1)).next
  }

  /** The number of token requests sent for the first `k` ids. */
  function ExchangesAfter(s0: CacheState, k: nat, clock: nat -> int, creds: AppCredentials,
                          exchange: nat -> ExchangeReply): (n: nat)
    ensures n <= k
    decreases k
  {
    if k == 0 then 0
    else
      var st := Acquire(CacheAfter(s0, k - 1, clock, creds, exchange), clock(k - 1), creds, exchange(k - 1));
      ExchangesAfter(s0, k - 1, clock, creds, exchange) + (if st.exchanged then 1 else 0)
  }

  /** The oracle that the live batch consults: the lookup at position `i` first asks the
      cache for a token, then receives the catalog's reply `replies(i, id)`. */
  function LiveLookup<J, R>(s0: CacheState, clock: nat -> int, creds: AppCredentials, exchange: nat -> ExchangeReply,
                            replies: (nat, string) -> HttpReply<J>,
                            project: J -> Result<R, FetchError>): (nat, string) -> Fetch<R>
  {
    (i: nat, id: string) =>
      Received(Acquire(CacheAfter(s0, i, clock, creds, exchange), clock(i), creds, exchange(i)).result,
               replies(i, id), project)
  }

  /** The batch loop on the live cache; its result is `ValidAfter` for `LiveLookup`. */
  method ValidateBatchLive<J, R>(cache: AccessTokenCache, ids: seq<string>, clock: nat -> int,
                                 creds: AppCredentials, exchange: nat -> ExchangeReply,
                                 replies: (nat, string) -> HttpReply<J>, project: J -> Result<R, FetchError>,
                                 fields: R -> (Option<string>, Option<string>))
    returns (valid: map<string, Summary>)
    modifies cache
    ensures valid == ValidAfter(ids, |ids|, LiveLookup(old(cache.State()), clock, creds, exchange, replies, project), fields)
    ensures cache.State() == CacheAfter(old(cache.State()), |ids|, clock, creds, exchange)
    ensures cache.exchanges == old(cache.exchanges) + ExchangesAfter(old(cache.State()), |ids|, clock, creds, exchange)
  {
    ghost var s0 := cache.State();
    ghost var lookup := LiveLookup(s0, clock, creds, exchange, replies, project);
    valid := map[];
    var i := 0;
    while i < |ids|
      invariant 0 <= i <= |ids|
      invariant cache.State() == CacheAfter(s0, i, clock, creds, exchange)
      invariant cache.exchanges == old(cache.exchanges) + ExchangesAfter(s0, i, clock, creds, exchange)
      invariant valid == ValidAfter(ids, i, lookup, fields)
    {
      var outcome := Lookup(cache, clock(i), creds, exchange(i), replies(i, ids[i]), project);
      assert outcome == lookup(i, ids[i]);
      match outcome {
        case Found(record) =>
          var (id, name) := fields(record);
          if Truthy(id) && Truthy(name) {
            valid := valid[ids[i] := Summary(id.value, name.value)];
          }
        case NotFound =>
        case Failed(_) =>
      }
      i := i + 1;
    }
    assert ids[..|ids|] == ids;
  }

  /** `validate_tracks_batch`. */
  method ValidateTracksBatch(cache: AccessTokenCache, ids: seq<string>, clock: nat -> int,
                             creds: AppCredentials, exchange: nat -> ExchangeReply,
                             replies: (nat, string) -> HttpReply<TrackJson>)
    returns (valid: map<string, Summary>)
    modifies cache
    ensures valid == ValidAfter(ids, |ids|, LiveLookup(old(cache.State()), clock, creds, exchange, replies, ProjectTrack), TrackFields)
    ensures cache.State() == CacheAfter(old(cache.State()), |ids|, clock, creds, exchange)
    ensures cache.exchanges == old(cache.exchanges) + ExchangesAfter(old(cache.State()), |ids|, clock, creds, exchange)
  {
    valid := ValidateBatchLive(cache, ids, clock, creds, exchange, replies, ProjectTrack, TrackFields);
  }

  /** `validate_artists_batch`. */
  method ValidateArtistsBatch(cache: AccessTokenCache, ids: seq<string>, clock: nat -> int,
                              creds: AppCredentials, exchange: nat -> ExchangeReply,
                              replies: (nat, string) -> HttpReply<ArtistJson>)
    returns (valid: map<string, Summary>)
    modifies cache
    ensures valid == ValidAfter(ids, |ids|, LiveLookup(old(cache.State()), clock, creds, exchange, replies, ProjectArtist), ArtistFields)
    ensures cache.State() == CacheAfter(old(cache.State()), |ids|, clock, creds, exchange)
    ensures cache.exchanges == old(cache.exchanges) + ExchangesAfter(old(cache.State()), |ids|, clock, creds, exchange)
  {
    valid := ValidateBatchLive(cache, ids, clock, creds, exchange, replies, ProjectArtist, ArtistFields);
  }

  /** Without configuration, and with no cached token that any of the batch's clock
      readings would serve, the token requests never change the cache and none is sent. */
  lemma {:induction false} UnconfiguredCacheStays(s0: CacheState, k: nat, clock: nat -> int,
                                                  creds: AppCredentials, exchange: nat -> ExchangeReply)
    requires !Configured(creds)
    requires forall i :: 0 <= i < k ==> !Hit(s0, clock(i))
    ensures CacheAfter(s0, k, clock, creds, exchange) == s0
    ensures ExchangesAfter(s0, k, clock, creds, exchange) == 0
  {
    if k > 0 {
      UnconfiguredCacheStays(s0, k - 1, clock, creds, exchange);
    }
  }

  /** The configuration error is raised inside each item's `try` and swallowed there: the
      batch returns the empty map instead of raising. */
  lemma UnconfiguredBatchIsEmpty<J, R>(s0: CacheState, ids: seq<string>, clock: nat -> int,
                                       creds: AppCredentials, exchange: nat -> ExchangeReply,
                                       replies: (nat, string) -> HttpReply<J>, project: J -> Result<R, FetchError>,
                                       fields: R -> (Option<string>, Option<string>))
    requires !Configured(creds)
    requires forall i :: 0 <= i < |ids| ==> !Hit(s0, clock(i))
    ensures forall i :: 0 <= i < |ids| ==>
              LiveLookup(s0, clock, creds, exchange, replies, project)(i, ids[i]) == Failed(AuthFailed(NotConfigured))
    ensures ValidAfter(ids, |ids|, LiveLookup(s0, clock, creds, exchange, replies, project), fields) == map[]
  {
    var lookup := LiveLookup(s0, clock, creds, exchange, replies, project);
    forall i | 0 <= i < |ids|
      ensures lookup(i, ids[i]) == Failed(AuthFailed(NotConfigured))
    {
      UnconfiguredCacheStays(s0, i, clock, creds, exchange);
      var st := Acquire(s0, clock(i), creds, exchange(i));
      assert st.result == Err(NotConfigured);
      assert lookup(i, ids[i]) == Received(st.result, replies(i, ids[i]), project);
    }
    NoneAccepted(ids, |ids|, lookup, fields);
  }

  const NeverGonnaGiveYouUp: string := "4uLU6hMCjMI75M1A2tKUQC"

  /** A found track is kept with its id and name and an id the catalog answers with 404 is
      left out, while the cached token serves both lookups. */
  lemma KnownTrackAndBogusId(clock: nat -> int, creds: AppCredentials, exchange: nat -> ExchangeReply)
    requires clock(0) < 1000 && clock(1) < 1000
    ensures var s0 := CacheState(Some("token"), 1000);
            var track := TrackJson(Some(NeverGonnaGiveYouUp), Some("Never Gonna Give You Up"), Some(213573),
                                   Some(false), None, Missing, Missing);
            var replies := (i: nat, id: string) => if id == NeverGonnaGiveYouUp then Response(200, Some(track))
                                                   else Response(404, None);
            ValidAfter([NeverGonnaGiveYouUp, "bogus-id"], 2,
                       LiveLookup(s0, clock, creds, exchange, replies, ProjectTrack), TrackFields)
            == map[NeverGonnaGiveYouUp := Summary(NeverGonnaGiveYouUp, "Never Gonna Give You Up")]
  {
    var s0 := CacheState(Some("token"), 1000);
    var ids := [NeverGonnaGiveYouUp, "bogus-id"];
    var track := TrackJson(Some(NeverGonnaGiveYouUp), Some("Never Gonna Give You Up"), Some(213573),
                           Some(false), None, Missing, Missing);
    var replies := (i: nat, id: string) => if id == NeverGonnaGiveYouUp then Response(200, Some(track))
                                           else Response(404, None);
    var lookup := LiveLookup(s0, clock, creds, exchange, replies, ProjectTrack);
    assert CacheAfter(s0, 1, clock, creds, exchange) == s0;
    assert lookup(0, ids[0]) == Received(Ok("token"), Response(200, Some(track)), ProjectTrack);
    assert ids[1] != NeverGonnaGiveYouUp by { assert ids[1][0] != NeverGonnaGiveYouUp[0]; }
    assert Acquire(CacheAfter(s0, 1, clock, creds, exchange), clock(1), creds, exchange(1)).result == Ok("token");
    assert lookup(1, ids[1]) == Received(Ok("token"), Response(404, None), ProjectTrack);
    assert EntryAt(ids, 0, lookup, TrackFields) == Some(Summary(NeverGonnaGiveYouUp, "Never Gonna Give You Up"));
    assert EntryAt(ids, 1, lookup, TrackFields) == None;
    assert ValidAfter(ids, 1, lookup, TrackFields) == map[NeverGonnaGiveYouUp := Summary(NeverGonnaGiveYouUp, "Never Gonna Give You Up")];
  }
}
