/** The capability set and database of the test application
    (`tests/app.py`, `tests/test_manager.py`), with the outcomes the tests
    expect derived from the model.

    Arena: villager 0, mafia 1, police 2, mayor 3, baker 4 as in
    `tests/app.py`; user_management 5 and admin 6 come from an assumed
    configuration with auto-admin, so this admin implies all six others
    (the `admin` registered in `tests/app.py` implies villager, mafia,
    baker and mayor only). */
module Scenario {
  import opened Results
  import opened Cap
  import opened Manager

  const Villager: nat := 0
  const Mafia: nat := 1
  const Police: nat := 2
  const Mayor: nat := 3
  const Baker: nat := 4
  const UserManagement: nat := 5
  const Admin: nat := 6

  const G: seq<Node> := [
    Node(Some("villager"), {}),
    Node(Some("mafia"), {Villager}),
    Node(Some("police"), {Villager}),
    Node(Some("mayor"), {Villager, Police}),
    Node(Some("baker"), {Villager}),
    Node(Some("user_management"), {}),
    Node(Some("admin"), {Villager, Mafia, Police, Mayor, Baker, UserManagement})
  ]

  const R: seq<nat> := [0, 1, 1, 2, 1, 0, 3]

  const Boss := "boss@corleone.com"
  const Paul := "paul.baguette@corleone.com"
  const Hubert := "hubert.bonjour@courrier-chaud.fr"
  const Wiggum := "wiggum@springfield.us"
  const Root := "admin@admin.admin"

  const DB: Store := map[
    Boss := {Mafia},
    Paul := {Mafia, Baker},
    Hubert := {Villager},
    Wiggum := {Police},
    Root := {Admin}
  ]

  lemma TestGraphWellFormed()
    ensures Ranked(G, R) && StoreRegistered(G, DB)
    ensures G[Admin].implies == Below(Admin)
  {
    assert G[Admin].implies == Below(Admin) by {
      forall i: nat ensures i in G[Admin].implies <==> i < Admin {
      }
    }
  }

  /** `/murder` needs mafia: the boss, Paul and the admin get through,
      Hubert and Wiggum are refused with 403. */
  lemma MurderRoute()
    ensures Ranked(G, R) && StoreRegistered(G, DB)
    ensures CapabilityGuard(G, R, DB, Some(Boss), Some(Mafia), false) == Ok(Boss)
    ensures CapabilityGuard(G, R, DB, Some(Paul), Some(Mafia), false) == Ok(Paul)
    ensures CapabilityGuard(G, R, DB, Some(Root), Some(Mafia), false) == Ok(Root)
    ensures CapabilityGuard(G, R, DB, Some(Hubert), Some(Mafia), false).Err?
    ensures CapabilityGuard(G, R, DB, Some(Wiggum), Some(Mafia), false).Err?
    ensures StatusCode(CapabilityGuard(G, R, DB, Some(Wiggum), Some(Mafia), false).error) == 403
  {
    TestGraphWellFormed();
    assert Contains(G, R, Mafia, Mafia);
    assert Contains(G, R, Admin, Mafia) by {
      assert Mafia in G[Admin].implies && Contains(G, R, Mafia, Mafia);
    }
    assert Boss in DB && Mafia in DB[Boss];
    assert Paul in DB && Mafia in DB[Paul];
    assert Root in DB && Admin in DB[Root];
    assert DB[Hubert] == {Villager} && DB[Wiggum] == {Police};
    assert !Contains(G, R, Villager, Mafia);
    assert !Contains(G, R, Police, Mafia);
  }

  /** Without an email the guard answers 401 whatever the capability, or
      redirects to the login route when asked to. */
  lemma NoEmailIsUnauthenticated(cap: Option<nat>)
    requires cap.Some? ==> cap.value < |G|
    ensures Ranked(G, R) && StoreRegistered(G, DB)
    ensures StatusCode(CapabilityGuard(G, R, DB, None, cap, false).error) == 401
    ensures StatusCode(CapabilityGuard(G, R, DB, None, cap, true).error) == 307
  {
    TestGraphWellFormed();
  }

  /** `/god` needs admin, which only the admin holds. */
  lemma GodRoute(u: string)
    requires u in DB
    ensures Ranked(G, R) && StoreRegistered(G, DB)
    ensures CapabilityGuard(G, R, DB, Some(u), Some(Admin), false).Ok? <==> u == Root
  {
    TestGraphWellFormed();
    forall b: nat | b < Admin ensures !Contains(G, R, b, Admin) {
      if Contains(G, R, b, Admin) {
        var p := ContainsGivesPath(G, R, b, Admin);
        if b < UserManagement {
          PathsAvoidManagement(p);
        }
      }
    }
    assert Root in DB && Admin in DB[Root];
    assert Contains(G, R, Admin, Admin);
  }

  /** Only admin leads to user_management and nothing leads to admin, so a
      path from any other capability stays among the first five. */
  lemma {:induction false} PathsAvoidManagement(p: seq<nat>)
    requires IsPath(G, p) && p[0] < UserManagement
    ensures p[|p| - 1] < UserManagement
  {
    if |p| > 1 {
      assert p[1] in G[p[0]].implies;
      PathsAvoidManagement(p[1..]);
    }
  }

  /** Only the admin manages capabilities. */
  lemma OnlyRootManages(u: string)
    requires u in DB
    ensures Ranked(G, R) && StoreRegistered(G, DB)
    ensures IsManager(G, R, DB, Some(UserManagement), Some(u)) <==> u == Root
  {
    TestGraphWellFormed();
    forall b: nat | b < UserManagement ensures !Contains(G, R, b, UserManagement) {
      if Contains(G, R, b, UserManagement) {
        var p := ContainsGivesPath(G, R, b, UserManagement);
        PathsAvoidManagement(p);
      }
    }
    assert Root in DB && Admin in DB[Root];
    AdminContainsAll(G, R, UserManagement);
  }

  /** `/manage_capabilities/list`: everyone lists their own stored
      capabilities (the boss sees mafia alone although mafia implies
      villager); the boss may not list Hubert's, the admin may. */
  lemma ListRoute(u: string)
    requires u in DB
    ensures Ranked(G, R) && StoreRegistered(G, DB)
    ensures ListCapabilities(G, R, DB, Some(UserManagement), Some(u), Some(u)) == Ok(Listing(Some(u), DB[u]))
    ensures ListCapabilities(G, R, DB, Some(UserManagement), Some(Boss), None) == Ok(Listing(Some(Boss), {Mafia}))
    ensures Holds(G, R, DB, Some(Boss), Villager)
    ensures ListCapabilities(G, R, DB, Some(UserManagement), Some(Boss), Some(Hubert)).Err?
    ensures ListCapabilities(G, R, DB, Some(UserManagement), Some(Root), Some(Hubert)) == Ok(Listing(Some(Hubert), {Villager}))
  {
    TestGraphWellFormed();
    OnlyRootManages(Boss);
    OnlyRootManages(Root);
    assert Mafia in Stored(DB, Some(Boss)) && Contains(G, R, Mafia, Villager) by {
      assert Villager in G[Mafia].implies && Contains(G, R, Villager, Villager);
    }
  }

  /** The assumed capability configuration of the test application, in
      dictionary order; `admin` is added automatically. */
  const TestConfig: Config := [
    ("villager", []),
    ("mafia", ["villager"]),
    ("police", ["villager"]),
    ("mayor", ["villager", "police"]),
    ("baker", ["villager"]),
    ("user_management", [])
  ]

  lemma TestConfigValid()
    ensures DistinctKeys(TestConfig)
    ensures Referenced(TestConfig) <= Keys(TestConfig)
  {
    forall n | n in Referenced(TestConfig) ensures n in Keys(TestConfig) {
      assert TestConfig[0].0 == "villager" && TestConfig[2].0 == "police";
    }
  }

  /** Each configured entry's implied names denote the edges of the arena. */
  lemma TestTargets(k: nat)
    requires k < |TestConfig|
    ensures Targets(TestConfig, TestConfig[k].1) == G[k].implies
  {
    TestConfigValid();
    assert Position(TestConfig, "villager") == Villager by { PositionOf(TestConfig, 0); }
    assert Position(TestConfig, "police") == Police by { PositionOf(TestConfig, 2); }
    var names := TestConfig[k].1;
    assert forall m :: 0 <= m < |names| ==> names[m] in {"villager", "police"};
    forall x | x in Targets(TestConfig, names) ensures x in G[k].implies {
      var m :| 0 <= m < |names| && names[m] in Keys(TestConfig) && x == Position(TestConfig, names[m]);
    }
    forall x | x in G[k].implies ensures x in Targets(TestConfig, names) {
      var m := if x == Villager then 0 else 1;
      assert names[m] in Keys(TestConfig) && x == Position(TestConfig, names[m]);
    }
  }

  /** A wiring of the test configuration with auto-admin is the arena. */
  lemma TestWiring(nodes: seq<Node>)
    requires Wired(TestConfig, nodes)
    requires |nodes| == |TestConfig| + 1
    requires nodes[|TestConfig|] == Node(Some("admin"), Below(|TestConfig|))
    ensures nodes == G
  {
    TestGraphWellFormed();
    forall k | 0 <= k < |TestConfig| ensures nodes[k] == G[k] {
      TestTargets(k);
    }
  }

  /** Building the test configuration with auto-admin gives the arena above,
      with `user_management` and `admin` found by name. */
  method BuildTestSet() returns (cs: CapabilitySet)
    ensures WellFormed(cs) && cs.nodes == G
    ensures Lookup(cs, "user_management") == Some(UserManagement)
    ensures Lookup(cs, "admin") == Some(Admin)
  {
    TestConfigValid();
    var built := Build(TestConfig, true);
    cs := built.value;
    TestWiring(cs.nodes);
    assert "user_management" == TestConfig[5].0;
  }

  /** `test_cannot_manage_users`: a caller other than the admin is refused
      with 403 and neither the database nor its saved copy changes. */
  method CannotManageTest(u: string, m: Mutation) returns (r: Result<Listing, Denial>, store: Store, saved: Store)
    requires u in DB && u != Root
    requires MutationRegistered(G, m)
    ensures r.Err? && StatusCode(r.error) == 403
    ensures store == DB && saved == DB
  {
    var cs := BuildTestSet();
    TestGraphWellFormed();
    var oauth := new OAuthManager(cs, R, DB);
    OnlyRootManages(u);
    r := oauth.ManageGeneric(Some(u), m);
    store, saved := oauth.store, oauth.saved;
  }

  /** `test_add_capability`: Wiggum may not murder; once the admin adds mafia
      for him he may, and the saved database holds police and mafia for him. */
  method AddCapabilityTest() returns (before: Result<string, Denial>, response: Result<Listing, Denial>,
                                      after: Result<string, Denial>, saved: Store)
    ensures before.Err? && StatusCode(before.error) == 403
    ensures response == Ok(Listing(Some(Wiggum), {Police, Mafia}))
    ensures after == Ok(Wiggum)
    ensures Wiggum in saved && saved[Wiggum] == {Police, Mafia}
  {
    var cs := BuildTestSet();
    TestGraphWellFormed();
    var oauth := new OAuthManager(cs, R, DB);
    MurderRoute();
    before := CapabilityGuard(G, R, oauth.store, Some(Wiggum), Some(Mafia), false);
    OnlyRootManages(Root);
    response := oauth.ManageGeneric(Some(Root), AddCapability(Wiggum, Mafia));
    assert oauth.store[Wiggum] == {Police, Mafia};
    assert Contains(G, R, Mafia, Mafia);
    after := CapabilityGuard(G, R, oauth.store, Some(Wiggum), Some(Mafia), false);
    saved := oauth.saved;
  }

  /** Without mafia stored, the boss no longer passes the murder guard. */
  lemma RemovedMafiaRefused()
    ensures Ranked(G, R) && StoreRegistered(G, Applied(DB, RemoveCapability(Boss, Mafia)))
    ensures Stored(Applied(DB, RemoveCapability(Boss, Mafia)), Some(Boss)) == {}
    ensures CapabilityGuard(G, R, Applied(DB, RemoveCapability(Boss, Mafia)), Some(Boss), Some(Mafia), false).Err?
  {
    TestGraphWellFormed();
    AppliedRegistered(G, DB, RemoveCapability(Boss, Mafia));
  }

  /** `test_remove_capability`: the boss may murder until the admin's
      removal of mafia from him, which succeeds; the saved database then
      holds nothing for him. */
  method RemoveCapabilityTest() returns (before: Result<string, Denial>, response: Result<Listing, Denial>,
                                         after: Result<string, Denial>, saved: Store)
    ensures before == Ok(Boss)
    ensures response == Ok(Listing(Some(Boss), {}))
    ensures after.Err? && StatusCode(after.error) == 403
    ensures Boss in saved && saved[Boss] == {}
  {
    var cs := BuildTestSet();
    TestGraphWellFormed();
    var oauth := new OAuthManager(cs, R, DB);
    MurderRoute();
    before := CapabilityGuard(G, R, oauth.store, Some(Boss), Some(Mafia), false);
    OnlyRootManages(Root);
    response := oauth.ManageGeneric(Some(Root), RemoveCapability(Boss, Mafia));
    RemovedMafiaRefused();
    after := CapabilityGuard(G, R, oauth.store, Some(Boss), Some(Mafia), false);
    saved := oauth.saved;
  }

  /** `test_set_capability`: the boss may murder; the admin's set of his
      capabilities to baker alone succeeds; the boss then may no longer
      murder but may bake. */
  method SetCapabilitiesTest() returns (before: Result<string, Denial>, response: Result<Listing, Denial>,
                                        murder: Result<string, Denial>, bake: Result<string, Denial>, saved: Store)
    ensures before == Ok(Boss)
    ensures response == Ok(Listing(Some(Boss), {Baker}))
    ensures murder.Err? && StatusCode(murder.error) == 403
    ensures bake == Ok(Boss)
    ensures Boss in saved && saved[Boss] == {Baker}
  {
    var cs := BuildTestSet();
    TestGraphWellFormed();
    var oauth := new OAuthManager(cs, R, DB);
    MurderRoute();
    before := CapabilityGuard(G, R, oauth.store, Some(Boss), Some(Mafia), false);
    OnlyRootManages(Root);
    response := oauth.ManageGeneric(Some(Root), SetCapabilities(Boss, {Baker}));
    assert oauth.store[Boss] == {Baker};
    assert !Contains(G, R, Baker, Mafia) by {
      assert !Contains(G, R, Villager, Mafia);
    }
    assert Contains(G, R, Baker, Baker);
    murder := CapabilityGuard(G, R, oauth.store, Some(Boss), Some(Mafia), false);
    bake := CapabilityGuard(G, R, oauth.store, Some(Boss), Some(Baker), false);
    saved := oauth.saved;
  }

  /** The admin row of `test_cannot_manage_users`: the admin's add, remove
      and set of baker for Hubert each succeed, in that order, and each
      response reports what is then stored for Hubert. */
  method AdminManagesTest() returns (add: Result<Listing, Denial>, remove: Result<Listing, Denial>,
                                     replace: Result<Listing, Denial>, saved: Store)
    ensures add == Ok(Listing(Some(Hubert), {Villager, Baker}))
    ensures remove == Ok(Listing(Some(Hubert), {Villager}))
    ensures replace == Ok(Listing(Some(Hubert), {Baker}))
    ensures Hubert in saved && saved[Hubert] == {Baker}
  {
    var cs := BuildTestSet();
    TestGraphWellFormed();
    var oauth := new OAuthManager(cs, R, DB);
    OnlyRootManages(Root);
    add := oauth.ManageGeneric(Some(Root), AddCapability(Hubert, Baker));
    assert oauth.store[Root] == {Admin};
    assert oauth.store[Hubert] == {Villager, Baker};
    remove := oauth.ManageGeneric(Some(Root), RemoveCapability(Hubert, Baker));
    assert oauth.store[Root] == {Admin};
    assert oauth.store[Hubert] == {Villager};
    replace := oauth.ManageGeneric(Some(Root), SetCapabilities(Hubert, {Baker}));
    saved := oauth.saved;
  }
}
