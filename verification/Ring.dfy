/** The consistent hash ring of pkg/ring/ring.go: the mutable object and, beside it, the functions on
    ring states that specify it.  Nothing is assumed of the hash function: it is a parameter. */
module Ring {
  import opened Sequences
  import opened Labels

  /** A position on the ring: the first four bytes of a digest, read as an unsigned number. */
  type Pos = x: int | 0 <= x < 0x1_0000_0000

  datatype Config = Config(hash: string -> Pos, vNodes: int)

  datatype RingState = RingState(keys: seq<Pos>, owners: map<Pos, string>, members: set<string>)

  const EMPTY := RingState([], map[], {})

  function Position(cfg: Config, node: string, i: nat): Pos {
    cfg.hash(Label(node, i))
  }

  /** The positions of virtual nodes 0, 1, ..., k-1 of a node. */
  function Positions(cfg: Config, node: string, k: int): seq<Pos> {
    if k <= 0 then [] else Positions(cfg, node, k - 1) + [Position(cfg, node, k - 1)]
  }

  /** Looking up a position that has no owner yields the empty string, as in Go. */
  function Owner(owners: map<Pos, string>, p: Pos): string {
    if p in owners then owners[p] else ""
  }

  /** The owner map once `node` has taken its first k positions, also those of other nodes. */
  function Claim(owners: map<Pos, string>, cfg: Config, node: string, k: int): map<Pos, string> {
    if k <= 0 then owners else Claim(owners, cfg, node, k - 1)[Position(cfg, node, k - 1) := node]
  }

  function Insert(s: seq<Pos>, x: Pos): (r: seq<Pos>)
    requires Ascending(s)
    ensures Ascending(r) && multiset(r) == multiset(s) + multiset{x}
  {
    if s == [] || s[|s| - 1] <= x then s + [x]
    else
      var init, last := s[..|s| - 1], s[|s| - 1];
      var r := Insert(init, x);
      InsertedBelow(s, x, r);
      r + [last]
  }

  lemma InsertedBelow(s: seq<Pos>, x: Pos, r: seq<Pos>)
    requires Ascending(s) && s != [] && x < s[|s| - 1]
    requires Ascending(r) && multiset(r) == multiset(s[..|s| - 1]) + multiset{x}
    ensures var t := r + [s[|s| - 1]];
      Ascending(t) && multiset(t) == multiset(s) + multiset{x}
  {
    BagOfInit(s);
    var last := s[|s| - 1];
    forall y | y in r ensures y <= last {
      assert y in multiset(r);
      assert y == x || y in s[..|s| - 1];
    }
    AscendingAppend(r, last);
  }

  /** The ascending rearrangement, which for numbers is the only one (lemma AscendingUnique). */
  function Sort(s: seq<Pos>): (r: seq<Pos>)
    ensures Ascending(r) && multiset(r) == multiset(s)
  {
    if s == [] then []
    else
      assert s == s[..|s| - 1] + [s[|s| - 1]];
      Insert(Sort(s[..|s| - 1]), s[|s| - 1])
  }

  function Add(cfg: Config, st: RingState, node: string): RingState {
    if node in st.members then st
    else RingState(Sort(st.keys + Positions(cfg, node, cfg.vNodes)),
                   Claim(st.owners, cfg, node, cfg.vNodes),
                   st.members + {node})
  }

  lemma NoVirtualNodes(cfg: Config, owners: map<Pos, string>, node: string)
    ensures cfg.vNodes <= 0 ==> Positions(cfg, node, cfg.vNodes) == Positions(cfg, node, 0)
    ensures cfg.vNodes <= 0 ==> Claim(owners, cfg, node, cfg.vNodes) == Claim(owners, cfg, node, 0)
  {
  }

  /** One pass over the keys: a key owned by `node` loses its owner and is dropped; the owner map used
      for the next key is the one left by the keys before it. */
  function Scan(keys: seq<Pos>, owners: map<Pos, string>, node: string): (seq<Pos>, map<Pos, string>) {
    if keys == [] then ([], owners)
    else
      var (kept, left) := Scan(keys[..|keys| - 1], owners, node);
      var p := keys[|keys| - 1];
      if Owner(left, p) == node then (kept, left - {p}) else (kept + [p], left)
  }

  function Remove(st: RingState, node: string): RingState {
    if node !in st.members then st
    else
      var (kept, left) := Scan(st.keys, st.owners, node);
      RingState(kept, left, st.members - {node})
  }

  function AtLeast(keys: seq<Pos>, h: Pos): seq<Pos> {
    if keys == [] then []
    else
      var r := AtLeast(keys[..|keys| - 1], h);
      if keys[|keys| - 1] >= h then r + [keys[|keys| - 1]] else r
  }

  function Below(keys: seq<Pos>, h: Pos): seq<Pos> {
    if keys == [] then []
    else
      var r := Below(keys[..|keys| - 1], h);
      if keys[|keys| - 1] < h then r + [keys[|keys| - 1]] else r
  }

  /** The keys in the order met when walking clockwise from h. */
  function Clockwise(keys: seq<Pos>, h: Pos): seq<Pos> {
    AtLeast(keys, h) + Below(keys, h)
  }

  function OwnersOf(keys: seq<Pos>, owners: map<Pos, string>): seq<string> {
    if keys == [] then []
    else OwnersOf(keys[..|keys| - 1], owners) + [Owner(owners, keys[|keys| - 1])]
  }

  /** The owners met when walking clockwise from h, each once, in the order of first meeting. */
  function Walk(st: RingState, h: Pos): seq<string> {
    Dedup(OwnersOf(Clockwise(st.keys, h), st.owners))
  }

  /** Which nodes a chunk whose hash sits at h is placed on. */
  function Place(st: RingState, h: Pos, count: int): seq<string> {
    if st.members == {} then [] else TakeCount(Walk(st, h), count)
  }

  /** Where a search of ascending keys for h ends. */
  ghost predicate Splits(keys: seq<Pos>, h: Pos, idx: int) {
    && 0 <= idx <= |keys|
    && (forall j :: 0 <= j < idx ==> keys[j] < h)
    && (forall j :: idx <= j < |keys| ==> keys[j] >= h)
  }

  lemma {:induction false} ClockwiseIsRotation(keys: seq<Pos>, h: Pos, idx: nat)
    requires Splits(keys, h, idx)
    ensures Clockwise(keys, h) == keys[idx..] + keys[..idx]
  {
    if keys != [] {
      var init := keys[..|keys| - 1];
      if idx == |keys| {
        ClockwiseIsRotation(init, h, idx - 1);
        AllBelow(init, h);
        assert AtLeast(keys, h) == [];
      } else {
        ClockwiseIsRotation(init, h, idx);
        SplitParts(init, h, idx);
      }
      SplitParts(keys, h, idx);
    }
  }

  lemma {:induction false} AllBelow(keys: seq<Pos>, h: Pos)
    requires forall j :: 0 <= j < |keys| ==> keys[j] < h
    ensures AtLeast(keys, h) == [] && Below(keys, h) == keys
  {
    if keys != [] {
      AllBelow(keys[..|keys| - 1], h);
      assert keys == keys[..|keys| - 1] + [keys[|keys| - 1]];
    }
  }

  lemma {:induction false} SplitParts(keys: seq<Pos>, h: Pos, idx: nat)
    requires Splits(keys, h, idx)
    ensures AtLeast(keys, h) == keys[idx..] && Below(keys, h) == keys[..idx]
  {
    if idx == |keys| {
      AllBelow(keys, h);
    } else {
      var init := keys[..|keys| - 1];
      SplitParts(init, h, idx);
      assert init[idx..] + [keys[|keys| - 1]] == keys[idx..];
      assert init[..idx] == keys[..idx];
    }
  }

  lemma {:induction false} DedupPrefix(s: seq<string>, k: nat)
    requires k <= |s|
    ensures Dedup(s[..k]) <= Dedup(s)
  {
    if k < |s| {
      DedupPrefix(s[..|s| - 1], k);
      assert s[..|s| - 1][..k] == s[..k];
    } else {
      assert s[..k] == s;
    }
  }

  lemma {:induction false} OwnersOfAt(keys: seq<Pos>, owners: map<Pos, string>)
    ensures |OwnersOf(keys, owners)| == |keys|
    ensures forall i :: 0 <= i < |keys| ==> OwnersOf(keys, owners)[i] == Owner(owners, keys[i])
  {
    if keys != [] {
      OwnersOfAt(keys[..|keys| - 1], owners);
    }
  }

  lemma OwnersOfPrefix(keys: seq<Pos>, owners: map<Pos, string>, k: nat)
    requires k <= |keys|
    ensures |OwnersOf(keys, owners)| == |keys|
    ensures OwnersOf(keys[..k], owners) == OwnersOf(keys, owners)[..k]
  {
    OwnersOfAt(keys, owners);
    OwnersOfAt(keys[..k], owners);
  }

  /** Stopping the walk once `count` owners have been met loses nothing that TakeCount keeps. */
  lemma StopEarly(keys: seq<Pos>, owners: map<Pos, string>, k: nat, count: int)
    requires k <= |keys| && 0 < |Dedup(OwnersOf(keys[..k], owners))| == count
    ensures TakeCount(Dedup(OwnersOf(keys, owners)), count) == Dedup(OwnersOf(keys[..k], owners))
  {
    OwnersOfPrefix(keys, owners, k);
    DedupPrefix(OwnersOf(keys, owners), k);
  }

  /** An index less than twice the length, brought back into range. */
  function Wrap(x: nat, n: nat): int {
    if x < n then x else x - n
  }

  lemma WrapIsModulo(x: nat, n: nat)
    requires x < 2 * n
    ensures x % n == Wrap(x, n)
  {
  }

  /** The key at step i of the walk that starts where the search ended. */
  function Visited(keys: seq<Pos>, idx: nat, i: nat): Pos
    requires idx <= |keys| && i < |keys|
  {
    keys[Wrap((if idx == |keys| then 0 else idx) + i, |keys|)]
  }

  lemma VisitedAt(keys: seq<Pos>, found: nat, idx: nat, i: nat)
    requires found <= |keys| && i < |keys| && idx == if found == |keys| then 0 else found
    ensures 0 <= (idx + i) % |keys| < |keys| && keys[(idx + i) % |keys|] == Visited(keys, found, i)
  {
    WrapIsModulo(idx + i, |keys|);
  }

  /** Wrapping around the end visits the keys clockwise. */
  lemma ClockwiseAt(keys: seq<Pos>, h: Pos, idx: nat, i: nat)
    requires Splits(keys, h, idx) && i < |keys|
    ensures |Clockwise(keys, h)| == |keys|
    ensures Clockwise(keys, h)[i] == Visited(keys, idx, i)
  {
    ClockwiseIsRotation(keys, h, idx);
  }

  /** What one step of the walk adds. */
  lemma DedupStep(keys: seq<Pos>, owners: map<Pos, string>, i: nat)
    requires i < |keys|
    ensures var before := Dedup(OwnersOf(keys[..i], owners));
      var owner := Owner(owners, keys[i]);
      Dedup(OwnersOf(keys[..i + 1], owners)) == if owner in before then before else before + [owner]
  {
    assert keys[..i + 1][..i] == keys[..i];
    var s := OwnersOf(keys[..i], owners);
    assert (s + [Owner(owners, keys[i])])[..|s|] == s;
  }

  function MeetOwner(met: seq<string>, owner: string): seq<string> {
    if owner in met then met else met + [owner]
  }

  /** The owners met in the first k steps clockwise from h. */
  ghost function Met(st: RingState, h: Pos, k: nat): seq<string>
    requires k <= |Clockwise(st.keys, h)|
  {
    Dedup(OwnersOf(Clockwise(st.keys, h)[..k], st.owners))
  }

  lemma MetEnds(st: RingState, h: Pos)
    ensures Met(st, h, 0) == [] && Met(st, h, |Clockwise(st.keys, h)|) == Walk(st, h)
  {
    var path := Clockwise(st.keys, h);
    assert path[..|path|] == path;
  }

  lemma MetStep(st: RingState, h: Pos, idx: nat, i: nat)
    requires Splits(st.keys, h, idx) && i < |st.keys| == |Clockwise(st.keys, h)|
    ensures Met(st, h, i + 1) == MeetOwner(Met(st, h, i), Owner(st.owners, Visited(st.keys, idx, i)))
  {
    DedupStep(Clockwise(st.keys, h), st.owners, i);
    ClockwiseAt(st.keys, h, idx, i);
  }

  /** The owners met after 0, 1, 2, ... steps of the indexed walk that starts where the search ended. */
  lemma WalkSteps(st: RingState, h: Pos, idx: nat, count: int) returns (steps: seq<seq<string>>)
    requires Splits(st.keys, h, idx)
    ensures |steps| == |st.keys| + 1 && steps[0] == [] && steps[|st.keys|] == Walk(st, h)
    ensures forall i :: 0 <= i < |st.keys| ==>
      steps[i + 1] == MeetOwner(steps[i], Owner(st.owners, Visited(st.keys, idx, i)))
    ensures forall k :: 0 <= k <= |st.keys| && 0 < |steps[k]| == count ==>
      TakeCount(Walk(st, h), count) == steps[k]
  {
    ClockwiseIsRotation(st.keys, h, idx);
    MetEnds(st, h);
    steps := seq(|st.keys| + 1, k requires 0 <= k <= |st.keys| => Met(st, h, k));
    forall i | 0 <= i < |st.keys|
      ensures steps[i + 1] == MeetOwner(steps[i], Owner(st.owners, Visited(st.keys, idx, i)))
    {
      MetStep(st, h, idx, i);
    }
    forall k | 0 <= k <= |st.keys| && 0 < |steps[k]| == count
      ensures TakeCount(Walk(st, h), count) == steps[k]
    {
      MetEnough(st, h, k, count);
    }
  }

  lemma MetEnough(st: RingState, h: Pos, k: nat, count: int)
    requires k <= |Clockwise(st.keys, h)| && 0 < |Met(st, h, k)| == count
    ensures TakeCount(Walk(st, h), count) == Met(st, h, k)
  {
    StopEarly(Clockwise(st.keys, h), st.owners, k, count);
  }

  class HashRing {
    const cfg: Config
    var keys: seq<Pos>
    var ring: map<Pos, string>
    /** The keys of the source's map of booleans, which only ever holds true. */
    var nodesMap: set<string>

    predicate Valid()
      reads this
    {
      Ascending(keys)
    }

    function State(): RingState
      reads this
    {
      RingState(keys, ring, nodesMap)
    }

    constructor (cfg: Config)
      ensures this.cfg == cfg && Valid() && State() == EMPTY
    {
      this.cfg := cfg;
      keys, ring, nodesMap := [], map[], {};
    }

    method AddNode(node: string)
      requires Valid()
      modifies this
      ensures Valid() && State() == Add(cfg, old(State()), node)
    {
      if node in nodesMap {
        return;
      }
      ghost var was := State();
      nodesMap := nodesMap + {node};
      var i := 0;
      while i < cfg.vNodes
        invariant 0 <= i && (i <= cfg.vNodes || i == 0)
        invariant keys == was.keys + Positions(cfg, node, i)
        invariant ring == Claim(was.owners, cfg, node, i)
        invariant nodesMap == was.members + {node}
      {
        var hash := cfg.hash(Label(node, i));
        keys := keys + [hash];
        ring := ring[hash := node];
        i := i + 1;
      }
      NoVirtualNodes(cfg, was.owners, node);
      ghost var unsorted := was.keys + Positions(cfg, node, cfg.vNodes);
      assert keys == unsorted;
      keys := Sort(keys);
      assert keys == Sort(unsorted);
    }

    method RemoveNode(node: string)
      requires Valid()
      modifies this
      ensures Valid() && State() == Remove(old(State()), node)
    {
      if node !in nodesMap {
        return;
      }
      nodesMap := nodesMap - {node};
      var newKeys: seq<Pos> := [];
      for i := 0 to |keys|
        invariant Ascending(keys) && keys == old(keys) && nodesMap == old(nodesMap) - {node}
        invariant (newKeys, ring) == Scan(keys[..i], old(ring), node)
        invariant Ascending(newKeys)
        invariant forall p :: p in newKeys ==> p in keys[..i]
      {
        var hash := keys[i];
        assert keys[..i + 1][..i] == keys[..i];
        assert forall p :: p in newKeys ==> p <= hash;
        AscendingAppend(newKeys, hash);
        if Owner(ring, hash) == node {
          ring := ring - {hash};
        } else {
          newKeys := newKeys + [hash];
        }
      }
      assert keys[..|keys|] == keys;
      keys := newKeys;
    }

    method IsEmpty() returns (empty: bool)
      ensures empty <==> State().members == {}
    {
      empty := |nodesMap| == 0;
    }

    /** The binary search of Go's sort package for the first key that is at least h. */
    method Search(h: Pos) returns (lo: nat)
      requires Valid()
      ensures Splits(keys, h, lo)
    {
      lo := 0;
      var hi := |keys|;
      while lo < hi
        invariant 0 <= lo <= hi <= |keys|
        invariant forall j :: 0 <= j < lo ==> keys[j] < h
        invariant forall j :: hi <= j < |keys| ==> keys[j] >= h
      {
        var mid := (lo + hi) / 2;
        if keys[mid] >= h {
          hi := mid;
        } else {
          lo := mid + 1;
        }
      }
    }

    method GetNodes(chunkHash: string, count: int) returns (selected: seq<string>)
      requires Valid()
      ensures selected == Place(State(), cfg.hash(chunkHash), count)
    {
      if |nodesMap| == 0 {
        return [];
      }
      var hash := cfg.hash(chunkHash);
      var idx := Search(hash);
      ghost var found := idx;
      ghost var steps := WalkSteps(State(), hash, found, count);
      if idx == |keys| {
        idx := 0;
      }
      selected := [];
      var seen: set<string> := {};
      var i := 0;
      while i < |keys|
        invariant 0 <= i <= |keys|
        invariant selected == steps[i]
        invariant forall x :: x in seen <==> x in selected
        invariant count <= 0 || |selected| < count
      {
        var nodeIndex := (idx + i) % |keys|;
        VisitedAt(keys, found, idx, i);
        var nodeAddress := Owner(ring, keys[nodeIndex]);
        if nodeAddress !in seen {
          seen := seen + {nodeAddress};
          selected := selected + [nodeAddress];
        }
        i := i + 1;
        assert selected == steps[i] && nodeAddress in selected;
        if |selected| == count {
          return;
        }
      }
    }
  }
}
