/** Capabilities and the capability set of `src/easy_oauth/cap.py`.

    A `Capability` is compared by object identity, so the model keeps every
    capability in an arena (a sequence of nodes) and names a capability by its
    index: identity is index equality, and `implies` is a set of indices.
    Containment (`cap in self`) walks the `implies` edges without a visited
    set, so it only terminates on an acyclic graph; acyclicity is witnessed by
    a ghost `rank` under which every edge goes strictly down. */
module Cap {
  import opened Results
  import opened Text

  /** One capability: an optional name and the capabilities it implies. */
  datatype Node = Node(name: Option<string>, implies: set<nat>)

  /** `rank` witnesses that the implication graph `g` is acyclic: every edge
      leads to a registered node of strictly smaller rank. */
  ghost predicate Ranked(g: seq<Node>, rank: seq<nat>) {
    && |rank| == |g|
    && forall i, j {:trigger j in g[i].implies} :: 0 <= i < |g| && j in g[i].implies ==> j < |g| && rank[j] < rank[i]
  }

  /** `c in g[a]`: `c` is `a` itself, or some capability that `a` implies
      contains `c`. */
  function Contains(g: seq<Node>, ghost rank: seq<nat>, a: nat, c: nat): (r: bool)
    requires Ranked(g, rank) && a < |g|
    ensures r ==> c < |g|
    decreases rank[a]
  {
    c == a || exists b | b in g[a].implies :: Contains(g, rank, b, c)
  }

  /** A walk along `implies` edges. */
  ghost predicate IsPath(g: seq<Node>, p: seq<nat>) {
    && |p| > 0
    && (forall k :: 0 <= k < |p| ==> p[k] < |g|)
    && forall k :: 0 < k < |p| ==> p[k] in g[p[k - 1]].implies
  }

  /** The reference meaning of containment: `c` is reachable from `a`. */
  ghost predicate Reaches(g: seq<Node>, a: nat, c: nat) {
    exists p :: IsPath(g, p) && p[0] == a && p[|p| - 1] == c
  }

  lemma {:induction false} ContainsGivesPath(g: seq<Node>, rank: seq<nat>, a: nat, c: nat) returns (p: seq<nat>)
    requires Ranked(g, rank) && a < |g|
    requires Contains(g, rank, a, c)
    ensures IsPath(g, p) && p[0] == a && p[|p| - 1] == c
    decreases rank[a]
  {
    if c == a {
      p := [a];
    } else {
      var b :| b in g[a].implies && Contains(g, rank, b, c);
      var q := ContainsGivesPath(g, rank, b, c);
      p := [a] + q;
      forall k | 0 < k < |p| ensures p[k] in g[p[k - 1]].implies {
        if k > 1 {
          assert p[k] == q[k - 1] && p[k - 1] == q[k - 2];
        }
      }
    }
  }

  lemma {:induction false} PathGivesContains(g: seq<Node>, rank: seq<nat>, p: seq<nat>)
    requires Ranked(g, rank)
    requires IsPath(g, p)
    ensures Contains(g, rank, p[0], p[|p| - 1])
    decreases |p|
  {
    if |p| > 1 {
      var q := p[1..];
      assert forall k :: 0 < k < |q| ==> q[k] == p[k + 1] && q[k - 1] == p[k];
      assert IsPath(g, q);
      PathGivesContains(g, rank, q);
      assert p[1] in g[p[0]].implies;
    }
  }

  /** Containment is exactly reachability along `implies` edges: names play
      no part, and the answer does not depend on the acyclicity witness. */
  lemma ContainsIsReachability(g: seq<Node>, rank: seq<nat>, a: nat, c: nat)
    requires Ranked(g, rank) && a < |g|
    ensures Contains(g, rank, a, c) <==> Reaches(g, a, c)
  {
    if Contains(g, rank, a, c) {
      var p := ContainsGivesPath(g, rank, a, c);
    }
    if Reaches(g, a, c) {
      var p :| IsPath(g, p) && p[0] == a && p[|p| - 1] == c;
      PathGivesContains(g, rank, p);
    }
  }

  /** Every capability contains itself (the `cap is self` test). */
  lemma ContainsSelf(g: seq<Node>, rank: seq<nat>, a: nat)
    requires Ranked(g, rank) && a < |g|
    ensures Contains(g, rank, a, a)
  {
  }

  /** If `a` contains `b` and `b` contains `c`, then `a` contains `c`. */
  lemma {:induction false} ContainsTransitive(g: seq<Node>, rank: seq<nat>, a: nat, b: nat, c: nat)
    requires Ranked(g, rank) && a < |g| && b < |g|
    requires Contains(g, rank, a, b) && Contains(g, rank, b, c)
    ensures Contains(g, rank, a, c)
    decreases rank[a]
  {
    if b != a {
      var d :| d in g[a].implies && Contains(g, rank, d, b);
      ContainsTransitive(g, rank, d, b, c);
    }
  }

  /** Identity, not name: two arenas that differ only in the names of their
      nodes agree on every containment. */
  lemma {:induction false} NamesDoNotMatter(g: seq<Node>, h: seq<Node>, rank: seq<nat>, a: nat, c: nat)
    requires Ranked(g, rank) && a < |g|
    requires |h| == |g| && forall i :: 0 <= i < |g| ==> h[i].implies == g[i].implies
    ensures Ranked(h, rank)
    ensures Contains(h, rank, a, c) == Contains(g, rank, a, c)
    decreases rank[a]
  {
    assert Ranked(h, rank);
    forall b | b in g[a].implies
      ensures Contains(h, rank, b, c) == Contains(g, rank, b, c)
    {
      NamesDoNotMatter(g, h, rank, b, c);
    }
  }

  /** A rank strictly above every rank in `rank`. */
  function Above(rank: seq<nat>): (top: nat)
    ensures forall k :: 0 <= k < |rank| ==> rank[k] < top
  {
    if |rank| == 0 then 0
    else
      var t := Above(rank[1..]);
      assert forall k :: 1 <= k < |rank| ==> rank[k] == rank[1..][k - 1];
      if rank[0] < t then t else rank[0] + 1
  }

  /** Appending a node whose edges lead into a ranked arena keeps it ranked. */
  lemma AppendRanked(g: seq<Node>, rank: seq<nat>, n: Node)
    requires Ranked(g, rank)
    requires forall b :: b in n.implies ==> b < |g|
    ensures Ranked(g + [n], rank + [Above(rank)])
  {
  }

  /** Appending a node changes no containment among the nodes already there. */
  lemma {:induction false} AppendKeepsContains(g: seq<Node>, rank: seq<nat>, n: Node, a: nat, c: nat)
    requires Ranked(g, rank)
    requires forall b :: b in n.implies ==> b < |g|
    requires a < |g|
    ensures Ranked(g + [n], rank + [Above(rank)])
    ensures Contains(g + [n], rank + [Above(rank)], a, c) == Contains(g, rank, a, c)
    decreases rank[a]
  {
    AppendRanked(g, rank, n);
    var g', rank' := g + [n], rank + [Above(rank)];
    assert g'[a] == g[a];
    forall b | b in g[a].implies
      ensures Contains(g', rank', b, c) == Contains(g, rank, b, c)
    {
      AppendKeepsContains(g, rank, n, b, c);
    }
  }

  /** The anonymous union `Capability(implies=held)`: a fresh node, not
      registered anywhere, contains a registered capability `c` exactly when
      some member of `held` contains `c`. */
  lemma UnionContains(g: seq<Node>, rank: seq<nat>, held: set<nat>, c: nat)
    requires Ranked(g, rank)
    requires forall b :: b in held ==> b < |g|
    requires c < |g|
    ensures Ranked(g + [Node(None, held)], rank + [Above(rank)])
    ensures Contains(g + [Node(None, held)], rank + [Above(rank)], |g|, c)
            <==> exists b :: b in held && Contains(g, rank, b, c)
  {
    var n := Node(None, held);
    AppendRanked(g, rank, n);
    forall b | b in held
      ensures Contains(g + [n], rank + [Above(rank)], b, c) == Contains(g, rank, b, c)
    {
      AppendKeepsContains(g, rank, n, b, c);
    }
  }

  /** A capability's name counts only when it is present and non-empty
      (Python's truthiness of `self.name`). */
  predicate Named(n: Node) {
    n.name.Some? && n.name.value != ""
  }

  /** The members of `s` in `[lo, hi)`, in increasing order. */
  function Ascending(s: set<nat>, lo: nat, hi: nat): (ids: seq<nat>)
    ensures forall k :: 0 <= k < |ids| ==> ids[k] in s && lo <= ids[k] < hi
    ensures forall x :: x in s && lo <= x < hi ==> x in ids
    ensures forall i, j :: 0 <= i < j < |ids| ==> ids[i] < ids[j]
    decreases hi - lo
  {
    if hi <= lo then []
    else if lo in s then [lo] + Ascending(s, lo + 1, hi)
    else Ascending(s, lo + 1, hi)
  }

  /** `str(capability)`: its name when it has a non-empty one, otherwise the
      "&"-join of the strings of the capabilities it implies, otherwise
      "none". The source joins in set iteration order; the model fixes
      increasing index order. */
  function Str(g: seq<Node>, ghost rank: seq<nat>, a: nat): (r: string)
    requires Ranked(g, rank) && a < |g|
    ensures |r| > 0
    ensures Named(g[a]) ==> r == g[a].name.value
    ensures !Named(g[a]) && g[a].implies == {} ==> r == "none"
    ensures !Named(g[a]) && g[a].implies != {} ==>
              r == Join(StrAll(g, rank, a, Ascending(g[a].implies, 0, |g|)), "&")
    decreases rank[a], 1, 0
  {
    if Named(g[a]) then g[a].name.value
    else
      var parts := StrAll(g, rank, a, Ascending(g[a].implies, 0, |g|));
      var joined := Join(parts, "&");
      if joined == "" then "none" else joined
  }

  /** The strings of the capabilities `ids`, all of them implied by `parent`. */
  function StrAll(g: seq<Node>, ghost rank: seq<nat>, parent: nat, ids: seq<nat>): (parts: seq<string>)
    requires Ranked(g, rank) && parent < |g|
    requires forall k :: 0 <= k < |ids| ==> ids[k] in g[parent].implies
    ensures |parts| == |ids|
    ensures forall k :: 0 <= k < |parts| ==> |parts[k]| > 0
    decreases rank[parent], 0, |ids|
  {
    if |ids| == 0 then []
    else [Str(g, rank, ids[0])] + StrAll(g, rank, parent, ids[1..])
  }

  /** The configuration: capability names, in dictionary order, each with
      the names it implies. */
  type Config = seq<(string, seq<string>)>

  ghost function Keys(config: Config): set<string> {
    set k | 0 <= k < |config| :: config[k].0
  }

  /** A dictionary has each key once. */
  ghost predicate DistinctKeys(config: Config) {
    forall i, j :: 0 <= i < j < |config| ==> config[i].0 != config[j].0
  }

  ghost function Referenced(config: Config): set<string> {
    set k, m | 0 <= k < |config| && 0 <= m < |config[k].1| :: config[k].1[m]
  }

  /** The dictionary position of a configured name. */
  ghost function Position(config: Config, name: string): (k: nat)
    requires name in Keys(config)
    ensures k < |config| && config[k].0 == name
  {
    var k :| 0 <= k < |config| && config[k].0 == name;
    k
  }

  /** The capabilities a list of configured names denotes. */
  ghost function Targets(config: Config, names: seq<string>): set<nat> {
    set m | 0 <= m < |names| && names[m] in Keys(config) :: Position(config, names[m])
  }

  /** The indices below `n`: every node of an arena of size `n`. */
  function Below(n: nat): (s: set<nat>)
    ensures forall i: nat :: i in s <==> i < n
  {
    if n == 0 then {} else Below(n - 1) + {n - 1}
  }

  /** A built capability set: the arena and the registry from names to nodes. */
  datatype CapabilitySet = CapabilitySet(nodes: seq<Node>, registry: map<string, nat>)

  /** Every registered name leads to a node of that name, and every edge
      leads to a node of the arena. */
  ghost predicate WellFormed(cs: CapabilitySet) {
    && (forall n :: n in cs.registry ==> cs.registry[n] < |cs.nodes| && cs.nodes[cs.registry[n]].name == Some(n))
    && forall i, j :: 0 <= i < |cs.nodes| && j in cs.nodes[i].implies ==> j < |cs.nodes|
  }

  /** The first `|config|` nodes are the configured capabilities, each
      implying exactly the capabilities listed for it. */
  ghost predicate Wired(config: Config, nodes: seq<Node>) {
    && |config| <= |nodes|
    && forall k :: 0 <= k < |config| ==>
         nodes[k] == Node(Some(config[k].0), Targets(config, config[k].1))
  }

  lemma PositionOf(config: Config, k: nat)
    requires DistinctKeys(config) && k < |config|
    ensures config[k].0 in Keys(config) && Position(config, config[k].0) == k
  {
    assert config[k].0 in Keys(config);
  }

  /** The registry maps every configured name to its dictionary position. */
  ghost predicate Registers(config: Config, registry: map<string, nat>) {
    && registry.Keys == Keys(config)
    && forall j :: 0 <= j < |config| ==> registry[config[j].0] == j
  }

  /** The registry of a dictionary resolves names to their positions. */
  lemma RegistryIsPosition(config: Config, registry: map<string, nat>, n: string)
    requires DistinctKeys(config) && Registers(config, registry)
    requires n in registry
    ensures registry[n] == Position(config, n)
  {
    var j :| 0 <= j < |config| && config[j].0 == n;
    PositionOf(config, j);
  }

  /** The first loop of `CapabilitySet.__init__`: register every name as a
      bare capability. */
  method RegisterAll(config: Config) returns (nodes: seq<Node>, registry: map<string, nat>)
    requires DistinctKeys(config)
    ensures Registers(config, registry)
    ensures |nodes| == |config|
    ensures forall j :: 0 <= j < |config| ==> nodes[j] == Node(Some(config[j].0), {})
  {
    nodes, registry := [], map[];
    for k := 0 to |config|
      invariant |nodes| == k
      invariant forall j :: 0 <= j < k ==> nodes[j] == Node(Some(config[j].0), {})
      invariant registry.Keys == set j | 0 <= j < k :: config[j].0
      invariant forall j :: 0 <= j < k ==> registry[config[j].0] == j
    {
      registry := registry[config[k].0 := |nodes|];
      nodes := nodes + [Node(Some(config[k].0), {})];
    }
  }

  /** One step of the second loop: `self[name].implies.update(self[n] for n
      in implies)` for the entry at position `k`, failing with the first
      implied name that is not registered. */
  method WireOne(config: Config, registry: map<string, nat>, nodes: seq<Node>, k: nat)
    returns (r: Result<seq<Node>, string>)
    requires DistinctKeys(config) && Registers(config, registry)
    requires |nodes| == |config| && k < |config|
    requires nodes[k] == Node(Some(config[k].0), {})
    ensures r.Err? <==> exists m :: 0 <= m < |config[k].1| && config[k].1[m] !in Keys(config)
    ensures r.Err? ==> r.error in config[k].1 && r.error !in Keys(config)
    ensures r.Ok? ==> r.value == nodes[k := Node(Some(config[k].0), Targets(config, config[k].1))]
  {
    var implies := config[k].1;
    var idx := registry[config[k].0];
    var updated := nodes;
    assert Targets(config, implies[..0]) == {};
    assert updated == nodes[k := Node(Some(config[k].0), {})];
    for m := 0 to |implies|
      invariant |updated| == |config|
      invariant updated == nodes[k := Node(Some(config[k].0), Targets(config, implies[..m]))]
      invariant forall q :: 0 <= q < m ==> implies[q] in Keys(config)
    {
      var n := implies[m];
      if n !in registry {
        r := Err(n);
        return;
      }
      RegistryIsPosition(config, registry, n);
      updated := updated[idx := updated[idx].(implies := updated[idx].implies + {registry[n]})];
      assert Targets(config, implies[..m + 1]) == Targets(config, implies[..m]) + {Position(config, n)};
    }
    assert implies[..|implies|] == implies;
    r := Ok(updated);
  }

  /** The second loop of `CapabilitySet.__init__`: wire every entry's edges
      in dictionary order, stopping at the first unknown name. */
  method WireAll(config: Config, registry: map<string, nat>, nodes: seq<Node>)
    returns (r: Result<seq<Node>, string>)
    requires DistinctKeys(config) && Registers(config, registry)
    requires |nodes| == |config|
    requires forall j :: 0 <= j < |config| ==> nodes[j] == Node(Some(config[j].0), {})
    ensures r.Err? <==> !(Referenced(config) <= Keys(config))
    ensures r.Err? ==> r.error in Referenced(config) && r.error !in Keys(config)
    ensures r.Ok? ==> |r.value| == |config| && Wired(config, r.value)
  {
    var wired := nodes;
    for k := 0 to |config|
      invariant |wired| == |config|
      invariant forall j :: 0 <= j < k ==> wired[j] == Node(Some(config[j].0), Targets(config, config[j].1))
      invariant forall j :: k <= j < |config| ==> wired[j] == Node(Some(config[j].0), {})
      invariant forall j, m :: 0 <= j < k && 0 <= m < |config[j].1| ==> config[j].1[m] in Keys(config)
    {
      var step := WireOne(config, registry, wired, k);
      if step.Err? {
        var m :| 0 <= m < |config[k].1| && config[k].1[m] == step.error;
        assert step.error in Referenced(config);
        r := Err(step.error);
        return;
      }
      wired := step.value;
    }
    r := Ok(wired);
  }

  /** `CapabilitySet(capabilities, auto_admin)`: register every name as a
      bare node, then wire each node's `implies` in place, failing on the
      first name that is not configured (a KeyError), then optionally
      register `admin` implying every node registered so far. */
  method Build(config: Config, autoAdmin: bool) returns (r: Result<CapabilitySet, string>)
    requires DistinctKeys(config)
    ensures r.Err? <==> !(Referenced(config) <= Keys(config))
    ensures r.Err? ==> r.error in Referenced(config) && r.error !in Keys(config)
    ensures r.Ok? ==> WellFormed(r.value) && Wired(config, r.value.nodes)
    ensures r.Ok? ==> r.value.registry.Keys == Keys(config) + (if autoAdmin then {"admin"} else {})
    ensures r.Ok? ==> forall k :: 0 <= k < |config| && !(autoAdmin && config[k].0 == "admin") ==>
                        r.value.registry[config[k].0] == k
    ensures r.Ok? && autoAdmin ==>
              && |r.value.nodes| == |config| + 1
              && r.value.nodes[|config|] == Node(Some("admin"), Below(|config|))
              && r.value.registry["admin"] == |config|
    ensures r.Ok? && !autoAdmin ==> |r.value.nodes| == |config|
  {
    var bare, registry := RegisterAll(config);
    var wiring := WireAll(config, registry, bare);
    if wiring.Err? {
      r := Err(wiring.error);
      return;
    }
    var nodes := wiring.value;
    assert forall i, j :: 0 <= i < |nodes| && j in nodes[i].implies ==> j < |nodes|;
    if autoAdmin {
      var everything := registry.Values;
      forall i: nat ensures i in everything <==> i < |config| {
        if i < |config| {
          assert registry[config[i].0] == i;
        }
      }
      assert everything == Below(|config|);
      registry := registry["admin" := |nodes|];
      nodes := nodes + [Node(Some("admin"), everything)];
    }
    r := Ok(CapabilitySet(nodes, registry));
  }

  /** `capset[name]`: the registered capability of that name, or None for a
      KeyError. */
  function Lookup(cs: CapabilitySet, name: string): (r: Option<nat>)
    requires WellFormed(cs)
    ensures r.Some? <==> name in cs.registry
    ensures r.Some? ==> r.value < |cs.nodes| && cs.nodes[r.value].name == Some(name)
  {
    if name in cs.registry then Some(cs.registry[name]) else None
  }

  /** With auto-admin, `admin` is the last node and implies every node before
      it; it then contains every capability of the set. */
  lemma AdminContainsAll(g: seq<Node>, rank: seq<nat>, c: nat)
    requires Ranked(g, rank) && |g| > 0
    requires g[|g| - 1].implies == Below(|g| - 1)
    requires c < |g|
    ensures Contains(g, rank, |g| - 1, c)
  {
    if c < |g| - 1 {
      assert c in g[|g| - 1].implies;
      assert Contains(g, rank, c, c);
    }
  }

  /** Adding `admin` on top of an acyclic configured graph keeps it acyclic. */
  lemma AdminKeepsRanked(g: seq<Node>, rank: seq<nat>)
    requires |g| > 0 && Ranked(g[..|g| - 1], rank)
    requires g[|g| - 1].implies == Below(|g| - 1)
    ensures Ranked(g, rank + [Above(rank)])
  {
    assert g == g[..|g| - 1] + [g[|g| - 1]];
    AppendRanked(g[..|g| - 1], rank, g[|g| - 1]);
  }
}
