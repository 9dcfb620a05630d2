# easy-oauth capabilities and manager, in Dafny

easy-oauth adds OpenID Connect login to a FastAPI application. It also adds a
small authorisation layer on top. Named **capabilities** imply one another.
A capability file maps each email to the capabilities stored for it. Routes
can demand a capability, and users who hold `user_management` may list and
edit other users' capabilities over HTTP.

This project models that core:

- `cap.dfy` covers `src/easy_oauth/cap.py`.
  - Capabilities live in an arena (`seq<Node>`), so a capability's identity is its index.
  - `Contains` is `Capability.__contains__`. A ghost rank witnesses that the implication graph is acyclic, and that is the recursion's termination measure.
  - `Str` is `__str__`.
  - `Build` is the `CapabilitySet` constructor: a registering loop, a wiring loop, then the optional automatic `admin`.
  - `Lookup` is `capset[name]`.
- `manager.dfy` covers the core of `OAuthManager` in `src/easy_oauth/manager.py`.
  - The decisions are functions of the capability set and the capability database:
    - `has_capability`;
    - `ensure_user_manager`;
    - the route guard of `get_email_capability`;
    - the `Authorization` header split of `get_user`;
    - the listing route;
    - `_manage_cap_response`;
    - the `apply` of the three mutation requests.
  - The database, its saved copy and the refresh-token cache are fields of class `OAuthManager`. Its methods update them in place:
    - `Apply`;
    - `Save`;
    - `ManageGeneric`, which is `_manage_generic`;
    - `RefreshToken`;
    - `UserFromRefreshToken`.
- `structs.dfy` covers the ID-token payload extraction of `UserInfo.serieux_from_string` in `src/easy_oauth/structs.py`.
- `text.dfy` models Python's `str.split` and `str.join`, which the core relies on. `results.dfy` holds Option and Result.
- `scenario.dfy` builds the capability set and database of the test application. It derives the outcomes that `tests/test_manager.py` expects.

The clock, the token endpoint, base64 decoding and JSON parsing are
parameters.

Behaviours of the code the model keeps as they are:

- `__contains__` keeps no visited set (`src/easy_oauth/cap.py:14`), so the model requires the graph to be acyclic;
- a failed refresh raises before the cache write, so a stale entry stays in place (`src/easy_oauth/manager.py:131-136`);
- a cache entry is served while `now <= expiry` (`src/easy_oauth/manager.py:115`);
- the listing route returns the stored capabilities, not their closure (`src/easy_oauth/manager.py:192`);
- a capability may imply one configured after it, and only names that are not configured at all fail (`src/easy_oauth/cap.py:25-28`);
- an unauthenticated management request is answered with 403, because `ensure_user_manager(None)` runs (`src/easy_oauth/manager.py:197-198`).

## Model

| member | source | states |
|---|---|---|
| Cap.Contains | src/easy_oauth/cap.py:13-14 | `cap in self`: `c` is `a` or is contained by something `a` implies; a true answer names a node of the arena |
| Cap.ContainsIsReachability | src/easy_oauth/cap.py:13-14 | containment holds exactly when `c` is reachable from `a` along `implies` edges, independently of the acyclicity witness |
| Cap.ContainsGivesPath | src/easy_oauth/cap.py:13-14 | a containment yields a path of `implies` edges from `a` to `c` |
| Cap.PathGivesContains | src/easy_oauth/cap.py:13-14 | every path of `implies` edges yields containment of its end by its start |
| Cap.ContainsSelf | src/easy_oauth/cap.py:14 | every capability contains itself (the `cap is self` test) |
| Cap.ContainsTransitive | src/easy_oauth/cap.py:13-14 | containment is transitive |
| Cap.NamesDoNotMatter | src/easy_oauth/cap.py:8-14 | two arenas with the same edges agree on every containment whatever the names (identity, not name, decides) |
| Cap.AppendKeepsContains | src/easy_oauth/cap.py:13-14 | adding a node leaves every containment among existing nodes unchanged |
| Cap.UnionContains | src/easy_oauth/manager.py:55 | a fresh unnamed capability implying `held` contains `c` exactly when some member of `held` contains `c` |
| Cap.Str | src/easy_oauth/cap.py:16-17 | `str(cap)`: a non-empty name, else the "&"-join of the implied capabilities' strings, else "none"; never empty |
| Cap.StrAll | src/easy_oauth/cap.py:17 | one non-empty string per implied capability |
| Cap.Ascending | src/easy_oauth/cap.py:17 | the implied capabilities in a fixed order: exactly the members of the set within bounds, strictly increasing, so each once |
| Cap.RegisterAll | src/easy_oauth/cap.py:25-26 | every configured name is registered at its dictionary position as a bare capability with that name |
| Cap.WireOne | src/easy_oauth/cap.py:28 | one entry's `implies` becomes the capabilities its names denote; fails, naming it, exactly when one of its names is not configured |
| Cap.WireAll | src/easy_oauth/cap.py:27-28 | every entry wired as configured; fails exactly when some implied name is not configured, with such a name |
| Cap.Build | src/easy_oauth/cap.py:22-32 | the constructed set is well formed and wired as configured; a KeyError exactly for an unknown implied name; the registry holds the configured names at their positions plus `admin` with auto-admin, whose node implies every configured capability |
| Cap.Lookup | src/easy_oauth/cap.py:35-36 | `capset[name]` finds a node carrying that name exactly when the name is registered |
| Cap.AdminContainsAll | src/easy_oauth/cap.py:29-32 | the automatic admin contains every capability of the set |
| Cap.AdminKeepsRanked | src/easy_oauth/cap.py:29-32 | adding the automatic admin keeps the graph acyclic |
| Cap.AppendRanked | src/easy_oauth/cap.py:29-32 | appending a node whose edges lead into an acyclic graph keeps it acyclic |
| Cap.Below | src/easy_oauth/cap.py:31 | the set of all registered nodes: exactly the indices below the arena size |
| Text.FindLeftmost | src/easy_oauth/manager.py:67 | the separator search finds the leftmost occurrence, and nothing exactly when there is none |
| Text.Split | src/easy_oauth/manager.py:67 | `str.split(sep)` yields at least one piece |
| Text.JoinSplit | src/easy_oauth/structs.py:54 | joining the pieces of a split with the separator gives back the text |
| Text.SplitPiecesAreFree | src/easy_oauth/structs.py:54 | no piece of a split contains the separator |
| Text.SplitWithoutSeparator | src/easy_oauth/structs.py:54 | a text splits into itself alone exactly when it lacks the separator |
| Text.SplitFirst | src/easy_oauth/structs.py:54 | a first piece free of a one-character separator is split off exactly |
| Text.Join | src/easy_oauth/cap.py:17 | `sep.join(parts)` is at least as long as its first part |
| Structs.Padding | src/easy_oauth/structs.py:56 | fewer than four `=`, the fewest that bring the segment to a multiple of four characters |
| Structs.PayloadOf | src/easy_oauth/structs.py:52-60 | a segment-count error exactly when the token does not split into three; success exactly when the padded middle segment decodes to a JSON object, which is the result |
| Structs.SplitThree | src/easy_oauth/structs.py:54-55 | three dot-free segments joined by dots split back into exactly those three |
| Structs.HeaderAndSignatureIgnored | src/easy_oauth/structs.py:54-60 | tokens with the same payload segment give the same result, whatever their header and signature |
| Structs.DotlessTokenRefused | src/easy_oauth/structs.py:54-55 | a token without a dot is refused with a segment count of one |
| Manager.HasCapability | src/easy_oauth/manager.py:53-55 | `has_capability` is true exactly when some capability stored for the email contains `cap`; an unknown email holds nothing |
| Manager.EnsureUserManager | src/easy_oauth/manager.py:57-63 | passes exactly when `user_management` is configured and held by the email; otherwise 403 with "... capability is required" |
| Manager.CapabilityGuard | src/easy_oauth/manager.py:95-111 | no email: 401 "Authentication required" (or the login redirect); with an email: passes, yielding it, exactly when no capability is asked or it is held; otherwise 403 "... capability required" |
| Manager.BearerSplit | src/easy_oauth/manager.py:67-68 | `auth.split("Bearer ")` is `["", token]` exactly when the header is "Bearer " followed by a token without "Bearer ", and the header is then "Bearer " + token |
| Manager.BearerToken | src/easy_oauth/manager.py:66-68 | a token exactly for a well-formed bearer header, and prefixing it with "Bearer " gives back the header |
| Manager.ReadCredential | src/easy_oauth/manager.py:66-78 | an absent or empty header falls back to the session; a well-formed bearer header yields its token; any other header is malformed (401) |
| Manager.CapResponse | src/easy_oauth/manager.py:186-194 | the response carries the email and exactly the capabilities stored for it, or none |
| Manager.ListCapabilities | src/easy_oauth/manager.py:241-253 | the listed email defaults to the caller; one's own listing always succeeds; another's succeeds exactly for a user manager; the listing is what is stored; refusals are 403 |
| Manager.Applied | src/easy_oauth/manager.py:214-237 | add inserts, remove discards, set replaces, for the request's email only, and the email becomes a key in every case (`setdefault`) |
| Manager.AppliedRegistered | src/easy_oauth/manager.py:203 | a request naming registered capabilities keeps the database registered |
| Manager.AddOnlyGrants | src/easy_oauth/manager.py:214-215 | adding takes nothing from anyone; the email then holds exactly what it held plus what the added capability contains |
| Manager.RemoveOnlyRevokes | src/easy_oauth/manager.py:225-226 | removing grants nothing to anyone and leaves the capability out of the email's stored set |
| Manager.SetReplaces | src/easy_oauth/manager.py:236-237 | after a set, the email holds exactly what the new capabilities contain |
| Manager.OthersUnaffected | src/easy_oauth/manager.py:203 | a request about one email changes what no other caller holds |
| Manager.CachedUser | src/easy_oauth/manager.py:113-120 | the cache serves an entry's user exactly when the entry exists and has not expired (`now <= expiry`) |
| Manager.RefreshServesUntilExpiry | src/easy_oauth/manager.py:113-136 | after a refresh at `t` the user is served up to `t + expires_in` (3600 when absent) and not after |
| Manager.RefreshLeavesOtherTokens | src/easy_oauth/manager.py:136 | a refresh changes no other refresh token's cache entry |
| Manager.OAuthManager.constructor | src/easy_oauth/manager.py:39-44 | `user_management` is looked up by name in the registry, None when absent; the database is loaded and the cache empty |
| Manager.OAuthManager.Apply | src/easy_oauth/manager.py:203 | the database becomes the request applied to it, and stays registered |
| Manager.OAuthManager.Save | src/easy_oauth/manager.py:204 | the saved copy becomes the database |
| Manager.OAuthManager.ManageGeneric | src/easy_oauth/manager.py:196-206 | succeeds exactly for a user manager, then applies, saves and reports the email's stored capabilities; a refusal is a 403 that changes neither database nor saved copy |
| Manager.OAuthManager.RefreshToken | src/easy_oauth/manager.py:122-137 | the token endpoint is asked once; on success the user is returned and cached until `now + expires_in`; on failure nothing is returned and the cache is unchanged |
| Manager.OAuthManager.UserFromRefreshToken | src/easy_oauth/manager.py:113-120 | a live cache entry is served without asking the endpoint; a missing or expired one is refreshed |
| Scenario.BuildTestSet | tests/app.py:21-25 | building the five domain capabilities plus the assumed `user_management`, with auto-admin, gives the test arena, with `user_management` and `admin` found by name |
| Scenario.TestGraphWellFormed | tests/app.py:21-25 | the test graph is acyclic, the test database registered, and the assumed automatic admin implies every other capability |
| Scenario.MurderRoute | tests/test_manager.py:83-95 | the boss, Paul and the admin may murder; Hubert and Wiggum get 403 |
| Scenario.NoEmailIsUnauthenticated | tests/test_manager.py:98-100 | without a login the guard answers 401 |
| Scenario.GodRoute | tests/test_manager.py:103-114 | only the admin passes the admin guard |
| Scenario.PathsAvoidManagement | tests/app.py:21-25 | in the test graph no path from an ordinary capability reaches `user_management` or `admin` |
| Scenario.OnlyRootManages | tests/test_manager.py:137-142 | in the test database only the admin is a user manager |
| Scenario.ListRoute | tests/test_manager.py:117-134 | everyone lists their own stored capabilities (the boss sees mafia alone); the boss may not list Hubert, the admin may and sees villager |
| Scenario.CannotManageTest | tests/test_manager.py:137-149 | a non-admin's add, remove or set is a 403 that changes nothing |
| Scenario.AdminManagesTest | tests/test_manager.py:142-149 | the admin's add, remove and set of baker for Hubert each succeed and report what is then stored; the saved database ends with baker alone |
| Scenario.AddCapabilityTest | tests/test_manager.py:152-165 | Wiggum may not murder until mafia is added; the saved database then holds police and mafia for him |
| Scenario.RemovedMafiaRefused | tests/test_manager.py:168-177 | with mafia removed the boss holds nothing stored and fails the murder guard |
| Scenario.RemoveCapabilityTest | tests/test_manager.py:168-180 | the boss may murder; the admin's removal of mafia succeeds and reports nothing stored; the boss is then refused with 403 and the saved database holds nothing for him |
| Scenario.SetCapabilitiesTest | tests/test_manager.py:183-197 | the boss may murder; the admin's set to baker succeeds and reports baker; the boss then may bake but is refused murder with 403, and the saved database holds baker alone |
| Scenario.TestTargets | tests/app.py:21-25 | each test entry's implied names denote the test arena's edges |
| Scenario.TestWiring | tests/app.py:21-25 | the wiring of the test configuration with auto-admin is the test arena |

## Left out

- HTTP plumbing is not modelled: sessions, cookies, redirects after login, the login, authorisation-callback, token and logout routes, middleware and `install`.
- Signing is not modelled. `itsdangerous` signing and verifying of refresh tokens (`secrets_serializer`) is foreign code. A bearer token is taken as the already-verified refresh token.
- Network and clock: the token endpoint is the `exchange` parameter, and the clock is the `now` parameter. The two `datetime.now()` readings of one request are taken as one.
- Manager.OAuthManager.RefreshToken: a failed exchange is an exception in the source (`raise_for_status`), which propagates out of the request; the model returns None for it instead. Because of that exception, the "Invalid user" branch of `get_user` is unreachable in the source.
- Concurrency: the asynchronous handlers are modelled as running one at a time.
- Deserialisation: `serieux` turning requests, query strings and the payload JSON into objects is not modelled. That includes the `UserInfo` built from the payload, and capability names given as strings to `get_email_capability`.
- Manager.OAuthManager.ManageGeneric: it requires every capability a request names to be registered. A request naming an unknown capability fails in deserialisation, which is not modelled.
- Persistence: the capability file's format is not modelled. `db.save()` is a copy of the database into `saved`.
- Structs.PayloadOf: base64url decoding and `json.loads` (with its UTF-8 decoding) are parameters, not implementations.
- Cap.Str: the source joins the implied capabilities in set iteration order. The model joins them in increasing node order.
- Cap.Build: the behaviour of `serieux`'s `Registry.register` on a name registered twice (a configured `admin` plus auto-admin) is not visible. It is taken to overwrite like a dictionary.
- Cap.Contains: capabilities created outside a capability set, such as those made by `register_capability` in the test application, are not modelled. Every capability is a node of one arena, and the anonymous union of `has_capability` is appended to it.
- Cap.Contains: the model rules out every cyclic configuration. The source fails (with RecursionError) only for a search that enters a cycle before it finds the capability; a search that never reaches a cycle returns normally, which the model does not capture.
- Scenario: the test application's configuration file is not part of this model. The five domain capabilities follow `tests/app.py:21-25`; `user_management` and the automatic `admin` come from an assumed configuration. The arena's admin implies all six other capabilities, whereas the `admin` of `tests/app.py:26` implies villager, mafia, baker and mayor only (not police, and there is no `user_management` there).
