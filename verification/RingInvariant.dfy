/** The representation invariant of the ring, what each operation does to it, and the exact conditions
    under which removal undoes addition. */
module RingInvariant {
  import opened Sequences
  import opened Labels
  import opened Ring

  /** One of the node's virtual nodes sits at p. */
  ghost predicate Holds(cfg: Config, node: string, p: Pos) {
    exists i: nat :: i < cfg.vNodes && Position(cfg, node, i) == p
  }

  /** The virtual nodes of the members that sit at p. */
  ghost function Hits(cfg: Config, members: set<string>, p: Pos): set<(string, nat)> {
    set n, i: nat | n in members && i < cfg.vNodes && Position(cfg, n, i) == p :: (n, i)
  }

  /** Holds of every ring built by AddNode, hash collisions or not: the keys are sorted, a position
      occurs once for every virtual node that hashes to it, every key has an owner, and the owner is a
      member that really has a virtual node there. */
  ghost predicate Inv(cfg: Config, st: RingState) {
    && Ascending(st.keys)
    && (forall p: Pos :: multiset(st.keys)[p] == |Hits(cfg, st.members, p)|)
    && (forall p: Pos :: p in st.owners <==> p in st.keys)
    && (forall p: Pos :: p in st.owners ==> st.owners[p] in st.members && Holds(cfg, st.owners[p], p))
  }

  /** No position of `node` is also a position of another member. */
  ghost predicate CrossFree(cfg: Config, members: set<string>, node: string) {
    forall m, p: Pos :: m in members && m != node && Holds(cfg, m, p) ==> !Holds(cfg, node, p)
  }

  /** The node's own virtual nodes sit at different positions. */
  ghost predicate SelfFree(cfg: Config, node: string) {
    forall i: nat, j: nat :: i < j < cfg.vNodes ==> Position(cfg, node, i) != Position(cfg, node, j)
  }

  /** What RemoveNode needs in order to remove the node and nothing else.  The node named by the empty
      string is special: a position without an owner looks as if that node owned it. */
  ghost predicate Exclusive(cfg: Config, members: set<string>, node: string) {
    CrossFree(cfg, members, node) && (node == "" || SelfFree(cfg, node))
  }

  /** No two different labels of virtual nodes of these nodes collide under the hash. */
  ghost predicate CollisionFree(cfg: Config, nodes: set<string>) {
    forall m, n, i: nat, j: nat ::
      m in nodes && n in nodes && i < cfg.vNodes && j < cfg.vNodes && Label(m, i) != Label(n, j) ==>
      Position(cfg, m, i) != Position(cfg, n, j)
  }

  lemma CollisionFreeIsExclusive(cfg: Config, nodes: set<string>, members: set<string>, node: string)
    requires CollisionFree(cfg, nodes) && members <= nodes && node in nodes
    ensures CrossFree(cfg, members, node) && SelfFree(cfg, node)
  {
    forall m, p: Pos | m in members && m != node && Holds(cfg, m, p)
      ensures !Holds(cfg, node, p)
    {
      var i: nat :| i < cfg.vNodes && Position(cfg, m, i) == p;
      forall j: nat | j < cfg.vNodes ensures Position(cfg, node, j) != p {
        LabelInjective(m, i, node, j);
      }
    }
    forall i: nat, j: nat | i < j < cfg.vNodes
      ensures Position(cfg, node, i) != Position(cfg, node, j)
    {
      LabelInjective(node, i, node, j);
    }
  }

  // ---- counting virtual nodes ----

  ghost function Copies(cfg: Config, node: string, k: int, p: Pos): set<nat> {
    set i: nat | i < k && Position(cfg, node, i) == p
  }

  lemma {:induction false} PositionsAt(cfg: Config, node: string, k: int)
    ensures var ps := Positions(cfg, node, k);
      && |ps| == (if k < 0 then 0 else k)
      && forall i: nat :: i < |ps| ==> ps[i] == Position(cfg, node, i)
    decreases if k < 0 then 0 else k
  {
    if k > 0 {
      PositionsAt(cfg, node, k - 1);
    }
  }

  lemma CopiesCounted(cfg: Config, node: string, k: int, p: Pos)
    ensures multiset(Positions(cfg, node, k))[p] == |Copies(cfg, node, k, p)|
  {
    var ps: seq<Pos> := Positions(cfg, node, k);
    PositionsAt(cfg, node, k);
    CountIndices(ps, p);
    assert Copies(cfg, node, k, p) == Indices(ps, p);
  }

  ghost function Tagged(node: string, c: set<nat>): set<(string, nat)> {
    set i | i in c :: (node, i)
  }

  lemma {:induction false} TaggedSize(node: string, c: set<nat>)
    ensures |Tagged(node, c)| == |c|
  {
    if c == {} {
      assert Tagged(node, c) == {};
    } else {
      var i :| i in c;
      TaggedSize(node, c - {i});
      assert Tagged(node, c) == Tagged(node, c - {i}) + {(node, i)};
    }
  }

  lemma HitsSplit(cfg: Config, members: set<string>, node: string, p: Pos)
    requires node !in members
    ensures var own := Tagged(node, Copies(cfg, node, cfg.vNodes, p));
      Hits(cfg, members + {node}, p) == Hits(cfg, members, p) + own && Hits(cfg, members, p) !! own
  {
  }

  lemma HitsGrow(cfg: Config, members: set<string>, node: string, p: Pos)
    requires node !in members
    ensures |Hits(cfg, members + {node}, p)|
         == |Hits(cfg, members, p)| + multiset(Positions(cfg, node, cfg.vNodes))[p]
  {
    HitsSplit(cfg, members, node, p);
    TaggedSize(node, Copies(cfg, node, cfg.vNodes, p));
    CopiesCounted(cfg, node, cfg.vNodes, p);
  }

  lemma NoCopies(cfg: Config, node: string, p: Pos)
    ensures multiset(Positions(cfg, node, cfg.vNodes))[p] == 0 <==> !Holds(cfg, node, p)
  {
    CopiesCounted(cfg, node, cfg.vNodes, p);
    var c := Copies(cfg, node, cfg.vNodes, p);
    if Holds(cfg, node, p) {
      var i: nat :| i < cfg.vNodes && Position(cfg, node, i) == p;
      assert i in c;
    } else {
      assert c == {};
    }
  }

  /** A position is a key exactly when some member has a virtual node there. */
  lemma KeyIsHeld(cfg: Config, st: RingState, p: Pos)
    requires Inv(cfg, st)
    ensures p in st.keys <==> exists m :: m in st.members && Holds(cfg, m, p)
  {
    var hits := Hits(cfg, st.members, p);
    assert p in st.keys <==> multiset(st.keys)[p] > 0;
    if hits != {} {
      var hit :| hit in hits;
      assert hit.0 in st.members && Holds(cfg, hit.0, p);
    }
    if m :| m in st.members && Holds(cfg, m, p) {
      var i: nat :| i < cfg.vNodes && Position(cfg, m, i) == p;
      assert (m, i) in hits;
    }
  }

  // ---- what the owner map and the key list become ----

  lemma {:induction false} Claimed(owners: map<Pos, string>, cfg: Config, node: string, k: int)
    ensures var r := Claim(owners, cfg, node, k);
      && (forall p :: p in r <==> p in owners || p in Positions(cfg, node, k))
      && (forall p :: p in r ==> r[p] == if p in Positions(cfg, node, k) then node else owners[p])
    decreases if k < 0 then 0 else k
  {
    if k > 0 {
      Claimed(owners, cfg, node, k - 1);
    }
  }

  /** The keys that `node` does not own. */
  ghost function Kept(keys: seq<Pos>, owners: map<Pos, string>, node: string): seq<Pos> {
    if keys == [] then []
    else
      var r := Kept(keys[..|keys| - 1], owners, node);
      if Owner(owners, keys[|keys| - 1]) == node then r else r + [keys[|keys| - 1]]
  }

  lemma {:induction false} KeptFacts(keys: seq<Pos>, owners: map<Pos, string>, node: string, p: Pos)
    ensures multiset(Kept(keys, owners, node))[p] == if Owner(owners, p) == node then 0 else multiset(keys)[p]
  {
    if keys != [] {
      KeptFacts(keys[..|keys| - 1], owners, node, p);
      CountLast(keys, p);
      CountAppend(Kept(keys[..|keys| - 1], owners, node), keys[|keys| - 1], p);
    }
  }

  lemma {:induction false} KeptAscending(keys: seq<Pos>, owners: map<Pos, string>, node: string)
    requires Ascending(keys)
    ensures Ascending(Kept(keys, owners, node))
    ensures forall q :: q in Kept(keys, owners, node) ==> q in keys
  {
    if keys != [] {
      KeptAscending(keys[..|keys| - 1], owners, node);
      AscendingAppend(Kept(keys[..|keys| - 1], owners, node), keys[|keys| - 1]);
    }
  }

  /** RemoveNode's pass, owner map: every scanned position of the node loses its owner. */
  lemma {:induction false} ScannedOwners(keys: seq<Pos>, owners: map<Pos, string>, node: string)
    ensures var left := Scan(keys, owners, node).1;
      && (forall p :: p in left <==> p in owners && !(p in keys && owners[p] == node))
      && (forall p :: p in left ==> left[p] == owners[p])
  {
    if keys != [] {
      var init, p := keys[..|keys| - 1], keys[|keys| - 1];
      ScannedOwners(init, owners, node);
      assert keys == init + [p];
    }
  }

  /** RemoveNode's pass, keys: only the first copy of a position of the node is dropped, because the
      later copies no longer look owned. */
  lemma {:induction false} ScannedKeys(keys: seq<Pos>, owners: map<Pos, string>, node: string, p: Pos)
    requires node != ""
    ensures multiset(Scan(keys, owners, node).0)[p] ==
      multiset(keys)[p] - if p in keys && Owner(owners, p) == node then 1 else 0
  {
    if keys != [] {
      var init, last := keys[..|keys| - 1], keys[|keys| - 1];
      ScannedKeys(init, owners, node, p);
      ScannedOwners(init, owners, node);
      CountLast(keys, p);
      CountAppend(Scan(init, owners, node).0, last, p);
      assert keys == init + [last];
    }
  }

  /** For the empty name, all copies go. */
  lemma {:induction false} ScannedEmptyName(keys: seq<Pos>, owners: map<Pos, string>)
    ensures Scan(keys, owners, "").0 == Kept(keys, owners, "")
  {
    if keys != [] {
      ScannedEmptyName(keys[..|keys| - 1], owners);
      ScannedOwners(keys[..|keys| - 1], owners, "");
    }
  }

  lemma {:induction false} ScannedAscending(keys: seq<Pos>, owners: map<Pos, string>, node: string)
    requires Ascending(keys)
    ensures Ascending(Scan(keys, owners, node).0)
    ensures forall q :: q in Scan(keys, owners, node).0 ==> q in keys
  {
    if keys != [] {
      ScannedAscending(keys[..|keys| - 1], owners, node);
      AscendingAppend(Scan(keys[..|keys| - 1], owners, node).0, keys[|keys| - 1]);
    }
  }

  // ---- the invariant is kept ----

  lemma EmptyInv(cfg: Config)
    ensures Inv(cfg, EMPTY)
  {
  }

  lemma AddedKeys(cfg: Config, st: RingState, node: string)
    requires node !in st.members
    ensures var keys := Add(cfg, st, node).keys;
      && |keys| == |st.keys| + |Positions(cfg, node, cfg.vNodes)|
      && forall p: Pos :: multiset(keys)[p] == multiset(st.keys)[p] + multiset(Positions(cfg, node, cfg.vNodes))[p]
  {
  }

  lemma AddedOwners(cfg: Config, st: RingState, node: string)
    requires node !in st.members
    ensures var owners := Add(cfg, st, node).owners;
      && (forall p: Pos :: p in owners <==> p in st.owners || Holds(cfg, node, p))
      && (forall p: Pos :: p in owners ==>
            owners[p] == if Holds(cfg, node, p) then node else st.owners[p])
  {
    Claimed(st.owners, cfg, node, cfg.vNodes);
    forall p: Pos ensures p in Positions(cfg, node, cfg.vNodes) <==> Holds(cfg, node, p) {
      NoCopies(cfg, node, p);
    }
  }

  lemma AddedAt(cfg: Config, st: RingState, node: string, p: Pos)
    requires Inv(cfg, st) && node !in st.members
    ensures var st' := Add(cfg, st, node);
      && multiset(st'.keys)[p] == |Hits(cfg, st'.members, p)|
      && (p in st'.keys <==> p in st.keys || Holds(cfg, node, p))
  {
    AddedKeys(cfg, st, node);
    HitsGrow(cfg, st.members, node, p);
    NoCopies(cfg, node, p);
    assert p in st.keys <==> multiset(st.keys)[p] > 0;
    assert p in Add(cfg, st, node).keys <==> multiset(Add(cfg, st, node).keys)[p] > 0;
  }

  lemma AddKeepsInv(cfg: Config, st: RingState, node: string)
    requires Inv(cfg, st)
    ensures Inv(cfg, Add(cfg, st, node))
  {
    if node !in st.members {
      AddedOwners(cfg, st, node);
      forall p: Pos
        ensures multiset(Add(cfg, st, node).keys)[p] == |Hits(cfg, Add(cfg, st, node).members, p)|
        ensures p in Add(cfg, st, node).keys <==> p in st.keys || Holds(cfg, node, p)
      {
        AddedAt(cfg, st, node, p);
      }
    }
  }

  /** Under Exclusive, RemoveNode drops exactly the keys that the node owns. */
  lemma RemovedKeys(cfg: Config, st: RingState, node: string)
    requires Inv(cfg, st) && node in st.members && Exclusive(cfg, st.members, node)
    ensures Remove(st, node).keys == Kept(st.keys, st.owners, node)
  {
    if node == "" {
      ScannedEmptyName(st.keys, st.owners);
    } else {
      var kept: seq<Pos> := Scan(st.keys, st.owners, node).0;
      forall p: Pos
        ensures multiset(kept)[p] == multiset(Kept(st.keys, st.owners, node))[p]
      {
        ScannedKeys(st.keys, st.owners, node, p);
        KeptFacts(st.keys, st.owners, node, p);
        OwnedOnce(cfg, st, node, p);
      }
      ScannedAscending(st.keys, st.owners, node);
      KeptAscending(st.keys, st.owners, node);
      AscendingUnique(kept, Kept(st.keys, st.owners, node));
    }
  }

  /** A position of an exclusive node is a key once, one of another node never becomes its own. */
  lemma OwnedOnce(cfg: Config, st: RingState, node: string, p: Pos)
    requires Inv(cfg, st) && node in st.members && CrossFree(cfg, st.members, node)
    ensures p in st.keys && Owner(st.owners, p) == node <==> Holds(cfg, node, p)
    ensures Holds(cfg, node, p) && SelfFree(cfg, node) ==> multiset(st.keys)[p] == 1
  {
    KeyIsHeld(cfg, st, p);
    if Holds(cfg, node, p) && SelfFree(cfg, node) {
      var i: nat :| i < cfg.vNodes && Position(cfg, node, i) == p;
      forall hit | hit in Hits(cfg, st.members, p) ensures hit == (node, i) {
        assert Holds(cfg, hit.0, p);
      }
      assert (node, i) in Hits(cfg, st.members, p);
      assert Hits(cfg, st.members, p) == {(node, i)};
    }
  }

  lemma RemovedOwners(cfg: Config, st: RingState, node: string)
    requires Inv(cfg, st) && node in st.members
    ensures var owners := Remove(st, node).owners;
      && (forall p :: p in owners <==> p in st.owners && st.owners[p] != node)
      && (forall p :: p in owners ==> owners[p] == st.owners[p])
  {
    ScannedOwners(st.keys, st.owners, node);
  }

  lemma RemoveKeepsInv(cfg: Config, st: RingState, node: string)
    requires Inv(cfg, st) && (node in st.members ==> Exclusive(cfg, st.members, node))
    ensures Inv(cfg, Remove(st, node))
  {
    if node in st.members {
      RemovedKeys(cfg, st, node);
      RemovedOwners(cfg, st, node);
      ShrunkInv(cfg, st, Remove(st, node), node);
    }
  }

  lemma ShrunkInv(cfg: Config, st: RingState, after: RingState, node: string)
    requires Inv(cfg, st) && node in st.members && CrossFree(cfg, st.members, node)
    requires after.members == st.members - {node} && after.keys == Kept(st.keys, st.owners, node)
    requires forall p :: p in after.owners <==> p in st.owners && st.owners[p] != node
    requires forall p :: p in after.owners ==> after.owners[p] == st.owners[p]
    ensures Inv(cfg, after)
  {
    KeptAscending(st.keys, st.owners, node);
    forall p: Pos
      ensures multiset(after.keys)[p] == |Hits(cfg, after.members, p)|
      ensures p in after.keys <==> p in st.keys && st.owners[p] != node
    {
      KeptAt(cfg, st, node, p);
    }
  }

  lemma KeptAt(cfg: Config, st: RingState, node: string, p: Pos)
    requires Inv(cfg, st) && node in st.members && CrossFree(cfg, st.members, node)
    ensures var kept: seq<Pos> := Kept(st.keys, st.owners, node);
      && multiset(kept)[p] == |Hits(cfg, st.members - {node}, p)|
      && (p in kept <==> p in st.keys && st.owners[p] != node)
  {
    RemovedCount(cfg, st, node, p);
    KeptFacts(st.keys, st.owners, node, p);
    assert p in Kept(st.keys, st.owners, node) <==> multiset(Kept(st.keys, st.owners, node))[p] > 0;
    assert p in st.keys <==> multiset(st.keys)[p] > 0;
  }

  lemma RemovedCount(cfg: Config, st: RingState, node: string, p: Pos)
    requires Inv(cfg, st) && node in st.members && CrossFree(cfg, st.members, node)
    ensures multiset(Kept(st.keys, st.owners, node))[p] == |Hits(cfg, st.members - {node}, p)|
    ensures multiset(st.keys)[p]
         == multiset(Kept(st.keys, st.owners, node))[p] + multiset(Positions(cfg, node, cfg.vNodes))[p]
  {
    var rest := st.members - {node};
    assert rest + {node} == st.members;
    HitsGrow(cfg, rest, node, p);
    NoCopies(cfg, node, p);
    KeptFacts(st.keys, st.owners, node, p);
    OwnedOnce(cfg, st, node, p);
    if Holds(cfg, node, p) {
      forall hit | hit in Hits(cfg, rest, p) ensures false {
        assert Holds(cfg, hit.0, p);
      }
      assert Hits(cfg, rest, p) == {};
    } else {
      assert p in st.keys <==> multiset(st.keys)[p] > 0;
      assert p in st.owners ==> st.owners[p] != node;
    }
  }

  /** Two rings for the same members differ in nothing but who owns a position that members share. */
  lemma SameKeys(cfg: Config, a: RingState, b: RingState)
    requires Inv(cfg, a) && Inv(cfg, b) && a.members == b.members
    ensures a.keys == b.keys && a.owners.Keys == b.owners.Keys
  {
    assert multiset(a.keys) == multiset(b.keys);
    AscendingUnique(a.keys, b.keys);
  }

  lemma SameRing(cfg: Config, a: RingState, b: RingState)
    requires Inv(cfg, a) && Inv(cfg, b) && a.members == b.members
    requires forall n :: n in a.members ==> CrossFree(cfg, a.members, n)
    ensures a == b
  {
    SameKeys(cfg, a, b);
    forall p | p in a.owners ensures a.owners[p] == b.owners[p] {
      assert Holds(cfg, a.owners[p], p) && Holds(cfg, b.owners[p], p);
    }
  }
}
