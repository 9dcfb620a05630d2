/** Authorisation, capability management and the refresh-token cache of
    `OAuthManager` in `src/easy_oauth/manager.py`.

    The capability database maps an email to the set of capabilities stored
    for it. The decisions (`has_capability`, `ensure_user_manager`, the route
    guard, the `Authorization` header split, the listing check) are functions
    of the configured capability set and the database. The database, its
    saved copy and the token cache are fields of `OAuthManager`, updated in
    place by its methods. The clock and the token endpoint are parameters. */
module Manager {
  import opened Results
  import opened Text
  import opened Cap
  import opened Structs

  /** Why a request is turned away: with the detail text of the HTTP error,
      or a redirect to the login route. */
  datatype Denial = Unauthenticated(detail: string) | Forbidden(detail: string) | RedirectToLogin

  function StatusCode(d: Denial): int {
    match d
    case Unauthenticated(_) => 401
    case Forbidden(_) => 403
    case RedirectToLogin => 307
  }

  /** The capability database: email to stored capabilities. */
  type Store = map<string, set<nat>>

  /** `db.get(email, set())`. */
  function Stored(store: Store, email: Option<string>): set<nat> {
    if email.Some? && email.value in store then store[email.value] else {}
  }

  /** Every stored capability is a registered one (the database is read
      through the registry). */
  ghost predicate StoreRegistered(g: seq<Node>, store: Store) {
    forall e, b :: e in store && b in store[e] ==> b < |g|
  }

  /** `email` holds `cap`: some capability stored for it contains `cap`. */
  ghost predicate Holds(g: seq<Node>, rank: seq<nat>, store: Store, email: Option<string>, cap: nat)
    requires Ranked(g, rank) && StoreRegistered(g, store)
  {
    exists b :: b in Stored(store, email) && Contains(g, rank, b, cap)
  }

  /** `has_capability(email, cap)`: test `cap` against an anonymous
      capability that implies everything stored for `email`. */
  function HasCapability(g: seq<Node>, ghost rank: seq<nat>, store: Store, email: Option<string>, cap: nat): (r: bool)
    requires Ranked(g, rank) && StoreRegistered(g, store) && cap < |g|
    ensures r <==> exists b :: b in Stored(store, email) && Contains(g, rank, b, cap)
  {
    var held := Stored(store, email);
    UnionContains(g, rank, held, cap);
    Contains(g + [Node(None, held)], rank + [Above(rank)], |g|, cap)
  }

  /** `str(cap)` for an optional capability; Python prints a missing one as
      "None". */
  function CapName(g: seq<Node>, ghost rank: seq<nat>, cap: Option<nat>): string
    requires Ranked(g, rank) && (cap.Some? ==> cap.value < |g|)
  {
    if cap.None? then "None" else Str(g, rank, cap.value)
  }

  /** The caller may manage capabilities: a `user_management` capability is
      configured and the caller holds it. */
  ghost predicate IsManager(g: seq<Node>, rank: seq<nat>, store: Store, manager: Option<nat>, email: Option<string>)
    requires Ranked(g, rank) && StoreRegistered(g, store)
  {
    manager.Some? && Holds(g, rank, store, email, manager.value)
  }

  /** `ensure_user_manager(email)`: 403 unless the `user_management`
      capability exists and `email` holds it. */
  function EnsureUserManager(g: seq<Node>, ghost rank: seq<nat>, store: Store, manager: Option<nat>, email: Option<string>)
    : (r: Result<(), Denial>)
    requires Ranked(g, rank) && StoreRegistered(g, store) && (manager.Some? ==> manager.value < |g|)
    ensures r.Ok? <==> IsManager(g, rank, store, manager, email)
    ensures manager.None? ==> r.Err?
    ensures r.Err? ==> r.error == Forbidden(CapName(g, rank, manager) + " capability is required")
  {
    if manager.None? || !HasCapability(g, rank, store, email, manager.value) then
      Err(Forbidden(CapName(g, rank, manager) + " capability is required"))
    else
      Ok(())
  }

  /** The dependency built by `get_email_capability(cap, redirect)`: without
      an email, a redirect to the login route when `redirect` is set (what
      `ensure_email` raises) and 401 otherwise; the email when no capability
      is asked for or it is held; 403 otherwise. */
  function CapabilityGuard(g: seq<Node>, ghost rank: seq<nat>, store: Store, email: Option<string>, cap: Option<nat>, redirect: bool)
    : (r: Result<string, Denial>)
    requires Ranked(g, rank) && StoreRegistered(g, store) && (cap.Some? ==> cap.value < |g|)
    ensures email.None? ==> r == Err(if redirect then RedirectToLogin else Unauthenticated("Authentication required"))
    ensures email.Some? ==> (r.Ok? <==> cap.None? || Holds(g, rank, store, email, cap.value))
    ensures r.Ok? ==> email == Some(r.value)
    ensures email.Some? && r.Err? ==> r.error == Forbidden(CapName(g, rank, cap) + " capability required")
  {
    if email.None? then Err(if redirect then RedirectToLogin else Unauthenticated("Authentication required"))
    else if cap.None? || HasCapability(g, rank, store, email, cap.value) then Ok(email.value)
    else Err(Forbidden(CapName(g, rank, cap) + " capability required"))
  }

  const BearerPrefix := "Bearer "

  /** The header is "Bearer " followed by a token that does not itself
      contain "Bearer ". */
  ghost predicate WellFormedBearer(header: string) {
    BearerPrefix <= header && !Occurs(header[|BearerPrefix|..], BearerPrefix)
  }

  /** Splitting on "Bearer " gives `["", token]` exactly for a well-formed
      bearer header. */
  lemma BearerSplit(header: string)
    ensures var parts := Split(header, BearerPrefix);
            |parts| == 2 && parts[0] == "" <==> WellFormedBearer(header)
    ensures var parts := Split(header, BearerPrefix);
            |parts| == 2 && parts[0] == "" ==> header == BearerPrefix + parts[1]
  {
    var P := BearerPrefix;
    FindLeftmost(header, P);
    match Find(header, P)
    case None =>
      assert !OccursAt(header, P, 0);
    case Some(i) =>
      var rest := header[i + |P|..];
      assert Split(header, P) == [header[..i]] + Split(rest, P);
      FindLeftmost(rest, P);
      SplitWithoutSeparator(rest, P);
      if P <= header {
        assert OccursAt(header, P, 0);
      }
      if i == 0 {
        assert header[..|P|] == P;
        assert header == P + rest;
      }
      match Find(rest, P)
      case Some(i2) =>
        assert |Split(rest, P)| == 1 + |Split(rest[i2 + |P|..], P)|;
      case None =>
        assert Split(rest, P) == [rest];
  }

  /** The token of a bearer header, as `get_user`'s `match` on
      `auth.split("Bearer ")` finds it. */
  function BearerToken(header: string): (token: Option<string>)
    ensures token.Some? <==> WellFormedBearer(header)
    ensures token.Some? ==> header == BearerPrefix + token.value
  {
    var parts := Split(header, BearerPrefix);
    BearerSplit(header);
    if |parts| == 2 && parts[0] == "" then Some(parts[1]) else None
  }

  /** What `get_user` does with the `Authorization` header. */
  datatype Credential = SessionUser | BearerCredential(token: string) | MalformedAuthorization

  /** A missing or empty header falls back to the session user; a
      well-formed bearer header yields its token; any other header is a 401
      ("Malformed authorization"). */
  function ReadCredential(authorization: Option<string>): (c: Credential)
    ensures c == SessionUser <==> authorization.None? || authorization == Some("")
    ensures c.BearerCredential? <==> authorization.Some? && WellFormedBearer(authorization.value)
    ensures c.BearerCredential? ==> authorization == Some(BearerPrefix + c.token)
  {
    if authorization.None? || authorization.value == "" then SessionUser
    else match BearerToken(authorization.value)
      case Some(token) => BearerCredential(token)
      case None => MalformedAuthorization
  }

  /** The JSON body of a management response. */
  datatype Listing = Listing(email: Option<string>, capabilities: set<nat>)

  /** `_manage_cap_response(email)`: the capabilities stored for the email,
      as stored; implied capabilities are not added. */
  function CapResponse(store: Store, email: Option<string>): (r: Listing)
    ensures r.email == email
    ensures email.Some? && email.value in store ==> r.capabilities == store[email.value]
    ensures email.None? || email.value !in store ==> r.capabilities == {}
  {
    Listing(email, Stored(store, email))
  }

  /** `route_manage_capabilities_list`: the email listed is the query's, or
      the caller's own when the query names none; listing any other email
      than the caller's needs the `user_management` capability. */
  function ListCapabilities(
    g: seq<Node>, ghost rank: seq<nat>, store: Store, manager: Option<nat>,
    caller: Option<string>, requested: Option<string>): (r: Result<Listing, Denial>)
    requires Ranked(g, rank) && StoreRegistered(g, store) && (manager.Some? ==> manager.value < |g|)
    ensures var target := if requested.Some? then requested else caller;
            && (target == caller ==> r.Ok?)
            && (target != caller ==> (r.Ok? <==> IsManager(g, rank, store, manager, caller)))
            && (r.Ok? ==> r.value == Listing(target, Stored(store, target)))
            && (r.Err? ==> StatusCode(r.error) == 403)
  {
    var target := if requested.Some? then requested else caller;
    if target != caller then
      match EnsureUserManager(g, rank, store, manager, caller)
      case Err(d) => Err(d)
      case Ok(_) => Ok(CapResponse(store, target))
    else
      Ok(CapResponse(store, target))
  }

  /** The three management requests. */
  datatype Mutation =
    | AddCapability(email: string, capability: nat)
    | RemoveCapability(email: string, capability: nat)
    | SetCapabilities(email: string, capabilities: set<nat>)

  /** The capabilities a request names are registered ones. */
  ghost predicate MutationRegistered(g: seq<Node>, m: Mutation) {
    match m
    case AddCapability(_, c) => c < |g|
    case RemoveCapability(_, c) => c < |g|
    case SetCapabilities(_, caps) => forall b :: b in caps ==> b < |g|
  }

  /** The database after a request's `apply`. */
  function Applied(store: Store, m: Mutation): (r: Store)
    ensures r.Keys == store.Keys + {m.email}
    ensures forall e :: e in store && e != m.email ==> r[e] == store[e]
    ensures m.AddCapability? ==> r[m.email] == Stored(store, Some(m.email)) + {m.capability}
    ensures m.RemoveCapability? ==> r[m.email] == Stored(store, Some(m.email)) - {m.capability}
    ensures m.SetCapabilities? ==> r[m.email] == m.capabilities
  {
    match m
    case AddCapability(e, c) => store[e := Stored(store, Some(e)) + {c}]
    case RemoveCapability(e, c) => store[e := Stored(store, Some(e)) - {c}]
    case SetCapabilities(e, caps) => store[e := caps]
  }

  /** A request for registered capabilities keeps the database registered. */
  lemma AppliedRegistered(g: seq<Node>, store: Store, m: Mutation)
    requires StoreRegistered(g, store) && MutationRegistered(g, m)
    ensures StoreRegistered(g, Applied(store, m))
  {
  }

  /** Adding `c` for `e` takes nothing away from anyone, and `e` then holds
      exactly what it held before plus what `c` contains. */
  lemma AddOnlyGrants(g: seq<Node>, rank: seq<nat>, store: Store, e: string, c: nat, who: Option<string>, x: nat)
    requires Ranked(g, rank) && StoreRegistered(g, store) && c < |g|
    ensures StoreRegistered(g, Applied(store, AddCapability(e, c)))
    ensures Holds(g, rank, store, who, x) ==> Holds(g, rank, Applied(store, AddCapability(e, c)), who, x)
    ensures Holds(g, rank, Applied(store, AddCapability(e, c)), Some(e), x)
            <==> Holds(g, rank, store, Some(e), x) || Contains(g, rank, c, x)
  {
    var after := Applied(store, AddCapability(e, c));
    assert Stored(after, Some(e)) == Stored(store, Some(e)) + {c};
    if Holds(g, rank, store, who, x) {
      var b :| b in Stored(store, who) && Contains(g, rank, b, x);
      assert b in Stored(after, who);
    }
    if Contains(g, rank, c, x) {
      assert c in Stored(after, Some(e));
    }
  }

  /** Removing `c` from `e` grants nothing to anyone and leaves `c` out of
      what is stored for `e` (though `e` may still hold `c` through another
      stored capability). */
  lemma RemoveOnlyRevokes(g: seq<Node>, rank: seq<nat>, store: Store, e: string, c: nat, who: Option<string>, x: nat)
    requires Ranked(g, rank) && StoreRegistered(g, store) && c < |g|
    ensures StoreRegistered(g, Applied(store, RemoveCapability(e, c)))
    ensures c !in Stored(Applied(store, RemoveCapability(e, c)), Some(e))
    ensures Holds(g, rank, Applied(store, RemoveCapability(e, c)), who, x) ==> Holds(g, rank, store, who, x)
  {
    var after := Applied(store, RemoveCapability(e, c));
    if Holds(g, rank, after, who, x) {
      var b :| b in Stored(after, who) && Contains(g, rank, b, x);
      assert b in Stored(store, who);
    }
  }

  /** After a set, `e` holds exactly what the new capabilities contain. */
  lemma SetReplaces(g: seq<Node>, rank: seq<nat>, store: Store, e: string, caps: set<nat>, x: nat)
    requires Ranked(g, rank) && StoreRegistered(g, store)
    requires forall b :: b in caps ==> b < |g|
    ensures StoreRegistered(g, Applied(store, SetCapabilities(e, caps)))
    ensures Holds(g, rank, Applied(store, SetCapabilities(e, caps)), Some(e), x)
            <==> exists b :: b in caps && Contains(g, rank, b, x)
  {
    assert Stored(Applied(store, SetCapabilities(e, caps)), Some(e)) == caps;
  }

  /** A request about one email changes what no other caller holds. */
  lemma OthersUnaffected(g: seq<Node>, rank: seq<nat>, store: Store, m: Mutation, who: Option<string>, x: nat)
    requires Ranked(g, rank) && StoreRegistered(g, store) && MutationRegistered(g, m)
    requires who != Some(m.email)
    ensures StoreRegistered(g, Applied(store, m))
    ensures Holds(g, rank, Applied(store, m), who, x) == Holds(g, rank, store, who, x)
  {
    assert Stored(Applied(store, m), who) == Stored(store, who);
  }

  /** A token-cache entry: the user, the access token and the expiry time. */
  datatype CacheEntry = CacheEntry(user: UserInfo, accessToken: Option<string>, expiry: int)

  /** A successful answer of the token endpoint to the refresh-token grant
      (section 6 of RFC 6749): the user decoded from its ID token, its access
      token and its `expires_in`, when present. */
  datatype Grant = Grant(user: UserInfo, accessToken: Option<string>, expiresIn: Option<int>)

  const DefaultExpiresIn := 3600

  /** `data.get("expires_in", 3600)`. */
  function Lifetime(grant: Grant): int {
    grant.expiresIn.GetOr(DefaultExpiresIn)
  }

  /** The user `user_from_refresh_token` serves from the cache at time `now`
      without a refresh; None when the entry is missing or `expiry < now`. */
  function CachedUser(cache: map<string, CacheEntry>, rtoken: string, now: int): (r: Option<UserInfo>)
    ensures r.Some? <==> rtoken in cache && now <= cache[rtoken].expiry
    ensures r.Some? ==> r.value == cache[rtoken].user
  {
    if rtoken in cache && !(cache[rtoken].expiry < now) then Some(cache[rtoken].user) else None
  }

  /** The cache after a successful refresh at time `now`. */
  function Refreshed(cache: map<string, CacheEntry>, rtoken: string, grant: Grant, now: int): map<string, CacheEntry> {
    cache[rtoken := CacheEntry(grant.user, grant.accessToken, now + Lifetime(grant))]
  }

  /** A refreshed token is served from the cache up to and including its
      expiry, and needs a new refresh after it. */
  lemma RefreshServesUntilExpiry(cache: map<string, CacheEntry>, rtoken: string, grant: Grant, t: int, now: int)
    ensures CachedUser(Refreshed(cache, rtoken, grant, t), rtoken, now)
            == if now <= t + Lifetime(grant) then Some(grant.user) else None
  {
  }

  /** A refresh touches only its own token's entry. */
  lemma RefreshLeavesOtherTokens(cache: map<string, CacheEntry>, rtoken: string, grant: Grant, t: int, other: string, now: int)
    requires other != rtoken
    ensures CachedUser(Refreshed(cache, rtoken, grant, t), other, now) == CachedUser(cache, other, now)
  {
  }

  class OAuthManager {
    /** The configured capability set, its acyclicity witness and the
        `user_management` capability looked up in `__post_init__`. */
    const capset: CapabilitySet
    ghost const rank: seq<nat>
    const userManagement: Option<nat>

    /** `capability_db.value`, and the copy last written by `db.save()`. */
    var store: Store
    var saved: Store

    /** `token_cache`: refresh token to cached entry. */
    var tokenCache: map<string, CacheEntry>

    /** The refresh tokens sent to the token endpoint, in order. */
    ghost var exchanges: seq<string>

    ghost predicate Valid()
      reads this`store
    {
      && WellFormed(capset)
      && Ranked(capset.nodes, rank)
      && StoreRegistered(capset.nodes, store)
      && userManagement == Lookup(capset, "user_management")
      && (userManagement.Some? ==> userManagement.value < |capset.nodes|)
    }

    constructor (capset: CapabilitySet, ghost rank: seq<nat>, db: Store)
      requires WellFormed(capset) && Ranked(capset.nodes, rank) && StoreRegistered(capset.nodes, db)
      ensures Valid()
      ensures this.capset == capset && this.rank == rank
      ensures userManagement == Lookup(capset, "user_management")
      ensures store == db && saved == db && tokenCache == map[] && exchanges == []
    {
      this.capset := capset;
      this.rank := rank;
      userManagement := Lookup(capset, "user_management");
      store := db;
      saved := db;
      tokenCache := map[];
      exchanges := [];
    }

    /** `req.apply(db.value)`: update the database in place. */
    method Apply(m: Mutation)
      requires Valid() && MutationRegistered(capset.nodes, m)
      modifies this`store
      ensures Valid()
      ensures store == Applied(old(store), m)
    {
      match m
      case AddCapability(e, c) =>
        var current := if e in store then store[e] else {};
        store := store[e := current + {c}];
      case RemoveCapability(e, c) =>
        var current := if e in store then store[e] else {};
        store := store[e := current - {c}];
      case SetCapabilities(e, caps) =>
        store := store[e := caps];
    }

    /** `db.save()`: persist the database as it now is. */
    method Save()
      modifies this`saved
      ensures saved == store
    {
      saved := store;
    }

    /** `_manage_generic`: check that the caller manages capabilities, then
        apply the request, then save, then report what is stored for the
        request's email. A refused caller changes nothing. */
    method ManageGeneric(caller: Option<string>, m: Mutation) returns (r: Result<Listing, Denial>)
      requires Valid() && MutationRegistered(capset.nodes, m)
      modifies this`store, this`saved
      ensures Valid()
      ensures r.Ok? <==> IsManager(capset.nodes, rank, old(store), userManagement, caller)
      ensures r.Ok? ==> store == Applied(old(store), m) && saved == store
      ensures r.Ok? ==> r.value == Listing(Some(m.email), store[m.email])
      ensures r.Err? ==> StatusCode(r.error) == 403 && store == old(store) && saved == old(saved)
    {
      var check := EnsureUserManager(capset.nodes, rank, store, userManagement, caller);
      if check.Err? {
        r := Err(check.error);
        return;
      }
      Apply(m);
      Save();
      r := Ok(CapResponse(store, Some(m.email)));
    }

    /** `refresh_token(rtoken)`: ask the token endpoint; on success cache the
        user and access token until `now + expires_in` and return the user;
        on failure return nothing and leave the cache as it was. */
    method RefreshToken(rtoken: string, now: int, exchange: string -> Option<Grant>) returns (user: Option<UserInfo>)
      modifies this`tokenCache, this`exchanges
      ensures exchanges == old(exchanges) + [rtoken]
      ensures exchange(rtoken).Some? ==>
                user == Some(exchange(rtoken).value.user) &&
                tokenCache == Refreshed(old(tokenCache), rtoken, exchange(rtoken).value, now)
      ensures exchange(rtoken).None? ==> user.None? && tokenCache == old(tokenCache)
    {
      exchanges := exchanges + [rtoken];
      match exchange(rtoken)
      case None =>
        user := None;
      case Some(grant) =>
        tokenCache := tokenCache[rtoken := CacheEntry(grant.user, grant.accessToken, now + Lifetime(grant))];
        user := Some(grant.user);
    }

    /** `user_from_refresh_token(rtoken)`: serve the cached user while
        `now <= expiry`, with no call to the token endpoint; otherwise
        refresh. */
    method UserFromRefreshToken(rtoken: string, now: int, exchange: string -> Option<Grant>) returns (user: Option<UserInfo>)
      modifies this`tokenCache, this`exchanges
      ensures CachedUser(old(tokenCache), rtoken, now).Some? ==>
                user == CachedUser(old(tokenCache), rtoken, now) &&
                tokenCache == old(tokenCache) && exchanges == old(exchanges)
      ensures CachedUser(old(tokenCache), rtoken, now).None? ==> exchanges == old(exchanges) + [rtoken]
      ensures CachedUser(old(tokenCache), rtoken, now).None? && exchange(rtoken).Some? ==>
                user == Some(exchange(rtoken).value.user) &&
                tokenCache == Refreshed(old(tokenCache), rtoken, exchange(rtoken).value, now)
      ensures CachedUser(old(tokenCache), rtoken, now).None? && exchange(rtoken).None? ==>
                user.None? && tokenCache == old(tokenCache)
    {
      if rtoken in tokenCache {
        var entry := tokenCache[rtoken];
        if entry.expiry < now {
          user := RefreshToken(rtoken, now, exchange);
        } else {
          user := Some(entry.user);
        }
      } else {
        user := RefreshToken(rtoken, now, exchange);
      }
    }
  }
}
