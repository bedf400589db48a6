/** The remote call gateway (`callApi`) and the API object built on it: the
    cache key, the hit/miss decision, the deduplicated fetch and its outcome,
    and the table of cache prefixes each mutation clears. A call is split at
    its one suspension point, the network round trip: `Start` runs up to the
    fetch, `Finish` runs when the response arrives. JSON serialisation of the
    payload happens before the model: calls take the serialised payload. */
module Gateway {
  import opened Types
  import opened ResponseCache
  import DriveUrl

  /** `${action}:${JSON.stringify(payload)}` */
  function CacheKey(action: string, payload: string): string {
    action + ":" + payload
  }

  /** Keys of distinct calls do not collide: action names contain no colon,
      so the first colon of a key separates the action from the payload. */
  lemma {:induction false} CacheKeyInjective(a1: string, p1: string, a2: string, p2: string)
    requires ':' !in a1 && ':' !in a2
    requires CacheKey(a1, p1) == CacheKey(a2, p2)
    ensures a1 == a2 && p1 == p2
  {
    var k := CacheKey(a1, p1);
    assert k[|a1|] == ':' && k[|a2|] == ':';
    assert forall i | 0 <= i < |a1| :: k[i] == a1[i];
    assert forall i | 0 <= i < |a2| :: k[i] == a2[i];
    assert |a1| == |a2|;
    assert a1 == k[..|a1|] && a2 == k[..|a2|];
    assert p1 == k[|a1| + 1..] && p2 == k[|a2| + 1..];
  }

  // ---------------------------------------------------------------------------
  // One call, as a value
  // ---------------------------------------------------------------------------

  /** What the transport delivers: an HTTP failure, or the backend's envelope
      `{ success, data, message }`. */
  datatype Response = HttpFailure(status: int) | Envelope(success: bool, data: Json, message: string)

  /** The one error kind of the gateway, carrying the HTTP status or the
      backend's message. */
  datatype ApiError = HttpError(status: int) | Rejected(message: string)

  /** How a call proceeds up to the network: answered from the cache, attached
      to a pending identical request, or a new fetch under `key`. */
  datatype Step = Hit(data: Json) | Joined(ticket: nat) | Fetching(key: string, ticket: nat)

  /** The client's cache state: the response cache and the in-flight table. */
  datatype Client = Client(cache: map<string, CacheItem>, flights: Flights)

  /** `callApi(action, payload, ttlSeconds)` up to the fetch. */
  function Start(s: Client, action: string, payload: string, ttlSeconds: int, now: int): (r: (Step, Client))
    ensures var key := CacheKey(action, payload);
      && (ttlSeconds <= 0 ==> r.1.cache == s.cache && !r.0.Hit?)
      && (ttlSeconds > 0 ==> r.1.cache == AfterRead(s.cache, key, now))
      && (r.0.Hit? <==>
           ttlSeconds > 0 && key in s.cache && !Expired(s.cache[key], now) && Truthy(s.cache[key].data))
      && (r.0.Hit? ==> r.0.data == s.cache[key].data && r.1.flights == s.flights)
      && (r.0.Joined? <==> !r.0.Hit? && key in s.flights.pending)
      && (r.0.Joined? ==> r.0.ticket == s.flights.pending[key] && r.1.flights == s.flights)
      && (r.0.Fetching? ==> r.0.key == key && r.1.flights.started == s.flights.started + 1 &&
                            key in r.1.flights.pending)
    ensures !r.0.Hit? ==> r.1.flights == Enter(s.flights, CacheKey(action, payload)).1
    ensures r.0.Fetching? ==> r.0.ticket == s.flights.started && CacheKey(action, payload) !in s.flights.pending
  {
    var key := CacheKey(action, payload);
    var cache' := if ttlSeconds > 0 then AfterRead(s.cache, key, now) else s.cache;
    var cached := if ttlSeconds > 0 then Read(s.cache, key, now) else None;
    if cached.Some? && Truthy(cached.value) then
      (Hit(cached.value), Client(cache', s.flights))
    else
      var e := Enter(s.flights, key);
      match e.0
      case Existing(t) => (Joined(t), Client(cache', e.1))
      case Started(t) => (Fetching(key, t), Client(cache', e.1))
  }

  /** The fetch for `key` completes with `resp`: a successful envelope is
      returned and, when the call has a ttl, cached; any failure is returned as
      an error and caches nothing. Either way the key leaves the in-flight
      table. */
  function Finish(s: Client, key: string, ttlSeconds: int, resp: Response, now: int)
    : (r: (Result<Json, ApiError>, Client))
    ensures r.0.Ok? <==> resp.Envelope? && resp.success
    ensures r.0.Ok? ==> r.0.value == resp.data
    ensures resp.HttpFailure? ==> r.0 == Err(HttpError(resp.status))
    ensures resp.Envelope? && !resp.success ==> r.0 == Err(Rejected(resp.message))
    ensures r.1.cache == if r.0.Ok? && ttlSeconds > 0 then Store(s.cache, key, resp.data, ttlSeconds, now)
                         else s.cache
    ensures r.1.flights == Leave(s.flights, key)
  {
    var out: Result<Json, ApiError> :=
      match resp
      case HttpFailure(status) => Err(HttpError(status))
      case Envelope(success, data, message) => if success then Ok(data) else Err(Rejected(message));
    var cache' := if out.Ok? && ttlSeconds > 0 then Store(s.cache, key, resp.data, ttlSeconds, now) else s.cache;
    (out, Client(cache', Leave(s.flights, key)))
  }

  /** A call without a ttl neither reads nor writes the response cache. */
  lemma NoTtlNoCache(s: Client, action: string, payload: string, resp: Response, now: int, later: int)
    ensures var st := Start(s, action, payload, 0, now);
      st.1.cache == s.cache &&
      (st.0.Fetching? ==> Finish(st.1, st.0.key, 0, resp, later).1.cache == s.cache)
  {
  }

  /** A cached value is served again until its ttl elapses, without a fetch:
      a successful call with a ttl followed by the same call within the ttl is
      a hit on the same data, provided that data is truthy. */
  lemma {:induction false} SecondCallHits(s: Client, action: string, payload: string, ttlSeconds: int,
                                          data: Json, now: int, later: int)
    requires ttlSeconds > 0 && now <= later <= now + ttlSeconds * 1000
    requires Truthy(data)
    ensures var st := Start(s, action, payload, ttlSeconds, now);
      st.0.Fetching? ==>
        var f := Finish(st.1, st.0.key, ttlSeconds, Envelope(true, data, ""), now);
        Start(f.1, action, payload, ttlSeconds, later).0 == Hit(data)
  {
  }

  /** A falsy cached value (null, false, 0, "") never short-circuits: the call
      goes to the in-flight table as on a miss. */
  lemma FalsyCachedIsMiss(s: Client, action: string, payload: string, ttlSeconds: int, now: int)
    requires ttlSeconds > 0
    requires var key := CacheKey(action, payload); key in s.cache && !Truthy(s.cache[key].data)
    ensures !Start(s, action, payload, ttlSeconds, now).0.Hit?
  {
  }

  // ---------------------------------------------------------------------------
  // The gateway over the shared cache object
  // ---------------------------------------------------------------------------

  function State(c: RequestCache): Client
    reads c
  {
    Client(c.cache, Flights(c.inflight, c.started))
  }

  method CallStart(c: RequestCache, action: string, payload: string, ttlSeconds: int, now: int)
    returns (step: Step)
    requires c.Valid()
    modifies c
    ensures c.Valid()
    ensures (step, State(c)) == Start(old(State(c)), action, payload, ttlSeconds, now)
  {
    var key := CacheKey(action, payload);
    if ttlSeconds > 0 {
      var cached := c.Get(key, now);
      if cached.Some? && Truthy(cached.value) {
        return Hit(cached.value);
      }
    }
    var b := c.BeginFetch(key);
    match b
    case Existing(t) => step := Joined(t);
    case Started(t) => step := Fetching(key, t);
  }

  method CallFinish(c: RequestCache, key: string, ttlSeconds: int, resp: Response, now: int)
    returns (out: Result<Json, ApiError>)
    requires c.Valid()
    modifies c
    ensures c.Valid()
    ensures (out, State(c)) == Finish(old(State(c)), key, ttlSeconds, resp, now)
  {
    match resp {
      case HttpFailure(status) =>
        out := Err(HttpError(status));
      case Envelope(success, data, message) =>
        if !success {
          out := Err(Rejected(message));
        } else {
          if ttlSeconds > 0 {
            c.Set(key, data, ttlSeconds, now);
          }
          out := Ok(data);
        }
    }
    c.Settle(key);
  }

  // ---------------------------------------------------------------------------
  // Mutations and the prefixes they invalidate
  // ---------------------------------------------------------------------------

  datatype Mutation =
    | RegisterVoter
    | CreateAdmin | ToggleAdminStatus | DeleteAdmin
    | CreateElection | DeleteElection
    | UpdateElectionStatus(electionId: string) | UpdateElectionDate(electionId: string)
    | ResetVotes
    | AddPosition(electionId: string) | DeletePosition
    | AddCandidate(electionId: string) | UpdateCandidate(electionId: string) | DeleteCandidate
    | AddToWhitelist | AddBatchToWhitelist | RemoveFromWhitelist
    | CastVote

  /** The serialised payload `{"electionId":"<id>"}` of a bundle read, for ids
      that JSON.stringify leaves unescaped. */
  function ElectionIdPayload(id: string): string {
    "{\"electionId\":\"" + id + "\"}"
  }

  /** Cache key of `getElectionBundle(id)`. */
  function BundleKey(id: string): string {
    CacheKey("getElectionBundle", ElectionIdPayload(id))
  }

  /** None of the characters JSON.stringify escapes in a string occurs: the
      quote, the backslash and the control characters U+0000 to U+001F. */
  predicate Plain(id: string) {
    '"' !in id && '\\' !in id && forall i :: 0 <= i < |id| ==> id[i] >= ' '
  }

  /** The backend action each mutation calls. Action names have no colon,
      so the cache keys of different actions never collide. */
  function ActionOf(m: Mutation): (r: string)
    ensures r != [] && ':' !in r
  {
    match m
    case RegisterVoter => "registerVoter"
    case CreateAdmin => "createAdmin"
    case ToggleAdminStatus => "toggleStatus"
    case DeleteAdmin => "deleteAdmin"
    case CreateElection => "createElection"
    case DeleteElection => "deleteElection"
    case UpdateElectionStatus(_) => "updateElectionStatus"
    case UpdateElectionDate(_) => "updateElectionDate"
    case ResetVotes => "resetVotes"
    case AddPosition(_) => "addPosition"
    case DeletePosition => "deletePosition"
    case AddCandidate(_) => "addCandidate"
    case UpdateCandidate(_) => "updateCandidate"
    case DeleteCandidate => "deleteCandidate"
    case AddToWhitelist => "addToWhitelist"
    case AddBatchToWhitelist => "addToWhitelist"
    case RemoveFromWhitelist => "removeFromWhitelist"
    case CastVote => "vote"
  }

  /** The cache prefixes each mutation clears, in the order it clears them.
      No prefix is empty, so no mutation empties the whole cache. */
  function Clears(m: Mutation): (r: seq<string>)
    ensures |r| >= 1
    ensures forall i :: 0 <= i < |r| ==> r[i] != []
  {
    match m
    case RegisterVoter => ["getWhitelist"]
    case CreateAdmin => ["getAdmins"]
    case ToggleAdminStatus => ["getAdmins"]
    case DeleteAdmin => ["getAdmins"]
    case CreateElection => ["getElections"]
    case DeleteElection => ["getElections"]
    case UpdateElectionStatus(id) => ["getElections", BundleKey(id)]
    case UpdateElectionDate(id) => ["getElections", BundleKey(id)]
    case ResetVotes => ["getResults", "getStats", "getVoterElectionBundle", "getWhitelist"]
    case AddPosition(id) => [BundleKey(id), "getPositions"]
    case DeletePosition => ["getElectionBundle", "getPositions"]
    case AddCandidate(id) => [BundleKey(id), "getCandidates"]
    case UpdateCandidate(id) => [BundleKey(id), "getCandidates"]
    case DeleteCandidate => ["getElectionBundle", "getCandidates"]
    case AddToWhitelist => ["getWhitelist"]
    case AddBatchToWhitelist => ["getWhitelist"]
    case RemoveFromWhitelist => ["getWhitelist"]
    case CastVote => ["getStats", "getResults", "getVoterElectionBundle"]
  }

  /** Only a vote clears after its call, and only when the call succeeded;
      every other mutation clears before calling. */
  predicate ClearsAfterSuccess(m: Mutation) {
    m.CastVote?
  }

  /** How a mutation ends in the sequential model: its own fetch completed,
      or it attached to an identical pending mutation. */
  datatype MutationOutcome = Done(result: Result<Json, ApiError>) | Attached(ticket: nat)

  /** A mutation, start to end, with the response `resp` (mutations are
      called without a ttl, so never answered from the cache). A call
      identical to a pending one attaches to it and ends here, at the moment
      of attaching: what the attached caller does once the shared call
      resolves (a vote's invalidations) belongs to that later moment. A call
      of its own enters and leaves the in-flight table, so only the ticket
      counter remains changed. For `AddBatchToWhitelist` only the cache
      effect models the source: the batch is taken as one `addToWhitelist`
      call whose failure ends in `Done(Err(..))`, whereas the source sends one
      call per e-mail, catches each failure and always resolves. */
  function Mutate(s: Client, m: Mutation, payload: string, now: int, resp: Response)
    : (r: (MutationOutcome, Client))
    ensures var key := CacheKey(ActionOf(m), payload);
      && (r.0.Attached? <==> key in s.flights.pending)
      && (r.0.Attached? ==> r.0.ticket == s.flights.pending[key] && r.1.flights == s.flights)
      && (r.0.Done? ==> r.1.flights == Flights(s.flights.pending, s.flights.started + 1))
      && (r.0.Done? ==> (r.0.result.Ok? <==> resp.Envelope? && resp.success))
  {
    var pre := if ClearsAfterSuccess(m) then s.cache else InvalidatedAll(s.cache, Clears(m));
    var st := Start(Client(pre, s.flights), ActionOf(m), payload, 0, now);
    match st.0
    case Joined(t) => (Attached(t), st.1)
    case Hit(_) => assert false; (Done(Err(HttpError(0))), st.1)
    case Fetching(key, _) =>
      var f := Finish(st.1, key, 0, resp, now);
      var post := if ClearsAfterSuccess(m) && f.0.Ok? then InvalidatedAll(f.1.cache, Clears(m)) else f.1.cache;
      (Done(f.0), Client(post, f.1.flights))
  }

  /** What a mutation does to the response cache: a mutation other than a
      vote drops exactly the keys under its prefixes, whatever its outcome; a
      vote drops them only once its own call succeeded. A vote that attached to
      a pending identical one leaves the cache as it is at that moment. */
  lemma {:induction false} MutateCache(s: Client, m: Mutation, payload: string, now: int, resp: Response)
    ensures var r := Mutate(s, m, payload, now, resp);
      && (!ClearsAfterSuccess(m) ==> r.1.cache == InvalidatedAll(s.cache, Clears(m)))
      && (ClearsAfterSuccess(m) && r.0.Done? && r.0.result.Ok? ==>
            r.1.cache == InvalidatedAll(s.cache, Clears(m)))
      && (ClearsAfterSuccess(m) && !(r.0.Done? && r.0.result.Ok?) ==> r.1.cache == s.cache)
      && (r.0.Done? ==> (r.0.result.Ok? <==> resp.Envelope? && resp.success))
  {
  }

  /** No key under a cleared prefix can be read after the mutation. */
  lemma {:induction false} ClearedKeysMiss(s: Client, m: Mutation, payload: string, now: int,
                                           resp: Response, i: nat, key: string, later: int)
    requires i < |Clears(m)| && StartsWith(key, Clears(m)[i])
    requires !ClearsAfterSuccess(m) || (Mutate(s, m, payload, now, resp).0.Done? &&
                                       Mutate(s, m, payload, now, resp).0.result.Ok?)
    ensures Read(Mutate(s, m, payload, now, resp).1.cache, key, later) == None
  {
    MutateCache(s, m, payload, now, resp);
    InvalidatedAllSpec(s.cache, Clears(m));
  }

  /** Creating an election makes every cached election list unreadable, so
      the next `getElections` goes to the network. */
  lemma {:induction false} CreateElectionRefreshesLists(s: Client, payload: string, now: int, resp: Response,
                                                        listPayload: string, later: int)
    ensures Read(Mutate(s, CreateElection, payload, now, resp).1.cache,
                 CacheKey("getElections", listPayload), later) == None
  {
    StartsWithAppend("getElections", ":" + listPayload);
    assert CacheKey("getElections", listPayload) == "getElections" + (":" + listPayload);
    ClearedKeysMiss(s, CreateElection, payload, now, resp, 0, CacheKey("getElections", listPayload), later);
  }

  lemma {:induction false} BundlePrefixExact(id: string, other: string)
    requires Plain(other)
    ensures StartsWith(BundleKey(other), BundleKey(id)) <==> other == id
  {
    var head := "getElectionBundle:{\"electionId\":\"";
    BundleKeyShape(id);
    BundleKeyShape(other);
    if StartsWith(BundleKey(other), BundleKey(id)) {
      QuotedPrefix(head, id, other);
    }
    if other == id {
      StartsWithAppend(BundleKey(id), []);
      assert BundleKey(id) + [] == BundleKey(id);
    }
  }

  lemma BundleKeyShape(id: string)
    ensures BundleKey(id) == "getElectionBundle:{\"electionId\":\"" + id + "\"}"
  {
  }

  /** A quoted field is a prefix of another only when the values are equal,
      provided the longer value has no quote. */
  lemma QuotedPrefix(head: string, id: string, other: string)
    requires '"' !in other
    requires StartsWith(head + other + "\"}", head + id + "\"}")
    ensures id == other
  {
    var k := head + other + "\"}";
    var p := head + id + "\"}";
    assert |id| <= |other| by {
      assert |p| <= |k|;
    }
    assert forall j | 0 <= j < |id| :: other[j] == k[|head| + j] == p[|head| + j] == id[j];
    assert k[|head| + |id|] == p[|head| + |id|] == '"';
    assert forall j | |head| <= j < |head| + |other| :: k[j] == other[j - |head|] != '"';
  }

  /** Changing one election's status drops the election lists and that
      election's bundle, and keeps the bundles of other elections. */
  lemma {:induction false} StatusChangeClearsOwnBundleOnly(s: Client, id: string, payload: string, now: int,
                                                           resp: Response, other: string, later: int)
    requires Plain(other)
    ensures var after := Mutate(s, UpdateElectionStatus(id), payload, now, resp).1.cache;
      Read(after, BundleKey(other), later) ==
        if other == id then None else Read(s.cache, BundleKey(other), later)
  {
    var m := UpdateElectionStatus(id);
    MutateCache(s, m, payload, now, resp);
    InvalidatedAllSpec(s.cache, Clears(m));
    BundlePrefixExact(id, other);
    var k := BundleKey(other);
    assert !StartsWith(k, "getElections") by {
      assert k[11] == 'B';
      assert "getElections"[11] == 's';
      assert |k| >= 12;
      assert k[..12][11] == k[11];
    }
  }

  /** A failed vote leaves the cached results and statistics in place; a
      successful one drops them. */
  lemma {:induction false} VoteClearsOnlyOnSuccess(s: Client, payload: string, now: int, resp: Response,
                                                   key: string, later: int)
    requires StartsWith(key, "getResults")
    ensures var r := Mutate(s, CastVote, payload, now, resp);
      Read(r.1.cache, key, later) ==
        if r.0.Done? && r.0.result.Ok? then None else Read(s.cache, key, later)
  {
    MutateCache(s, CastVote, payload, now, resp);
    InvalidatedAllSpec(s.cache, Clears(CastVote));
    assert Clears(CastVote)[1] == "getResults";
  }

  method ApplyInvalidations(c: RequestCache, prefixes: seq<string>)
    requires c.Valid()
    modifies c
    ensures c.Valid()
    ensures c.cache == InvalidatedAll(old(c.cache), prefixes)
    ensures c.inflight == old(c.inflight) && c.started == old(c.started)
  {
    var i := 0;
    while i < |prefixes|
      invariant 0 <= i <= |prefixes|
      invariant c.Valid()
      invariant InvalidatedAll(c.cache, prefixes[i..]) == InvalidatedAll(old(c.cache), prefixes)
      invariant c.inflight == old(c.inflight) && c.started == old(c.started)
    {
      assert prefixes[i..][1..] == prefixes[i + 1..];
      c.Invalidate(prefixes[i]);
      i := i + 1;
    }
  }

  /** The mutation methods of the API object. */
  method RunMutation(c: RequestCache, m: Mutation, payload: string, now: int, resp: Response)
    returns (out: MutationOutcome)
    requires c.Valid()
    modifies c
    ensures c.Valid()
    ensures (out, State(c)) == Mutate(old(State(c)), m, payload, now, resp)
  {
    if !ClearsAfterSuccess(m) {
      ApplyInvalidations(c, Clears(m));
    }
    var step := CallStart(c, ActionOf(m), payload, 0, now);
    match step
    case Joined(t) => out := Attached(t);
    case Hit(_) => assert false; out := Done(Err(HttpError(0)));
    case Fetching(key, _) =>
      var result := CallFinish(c, key, 0, resp, now);
      if ClearsAfterSuccess(m) && result.Ok? {
        ApplyInvalidations(c, Clears(m));
      }
      out := Done(result);
  }

  // ---------------------------------------------------------------------------
  // Readers
  // ---------------------------------------------------------------------------

  /** A reply that the readers check with `Array.isArray`. */
  datatype ListReply<T> = IsArray(items: seq<T>) | NotArray

  /** `Array.isArray(res) ? res.map(processCandidate) : []`. */
  function CandidateList(res: ListReply<Candidate>): (r: seq<Candidate>)
    ensures res.NotArray? ==> r == []
    ensures res.IsArray? ==> (|r| == |res.items| &&
      forall i :: 0 <= i < |r| ==> r[i] == DriveUrl.ProcessCandidate(res.items[i]))
  {
    match res
    case NotArray => []
    case IsArray(items) => seq(|items|, i requires 0 <= i < |items| => DriveUrl.ProcessCandidate(items[i]))
  }

  /** `Array.isArray(res) ? res : []` (the election list). */
  function ListOrEmpty<T>(res: ListReply<T>): (r: seq<T>)
    ensures res.NotArray? ==> r == []
    ensures res.IsArray? ==> r == res.items
  {
    match res
    case NotArray => []
    case IsArray(items) => items
  }

  /** The bundle readers rewrite the candidate list of the cached reply in
      place; doing it again on a later cache hit yields the same list. */
  lemma {:induction false} CandidateListStable(items: seq<Candidate>)
    ensures CandidateList(IsArray(CandidateList(IsArray(items)))) == CandidateList(IsArray(items))
  {
    var once := CandidateList(IsArray(items));
    var twice := CandidateList(IsArray(once));
    forall i | 0 <= i < |items| ensures twice[i] == once[i] {
      DriveUrl.ProcessCandidateIdempotent(items[i]);
    }
  }

  /** `uploadFile`: a profile image URL is normalised, a campaign file URL is
      returned as the backend gave it. */
  function UploadedUrl(category: Category, res: string): (r: string)
    ensures category == Campaign ==> r == res
    ensures category == Profile ==> r == DriveUrl.FixDriveUrl(Some(res))
  {
    if category == Profile then DriveUrl.FixDriveUrl(Some(res)) else res
  }
}
