/** The ring under changes of membership: when removal undoes addition, what every run of joins and leaves
    keeps, and why the state is a function of the members alone, so that a ring rebuilt from a listing is
    the ring that joins and leaves would have led to. */
module RingTheory {
  import opened Sequences
  import opened Ring
  import opened RingInvariant

  // ---- add, then remove ----

  /** RemoveNode undoes AddNode exactly when the new node's positions are nobody else's and, unless its
      name is empty, all different. */
  lemma AddThenRemove(cfg: Config, st: RingState, node: string)
    requires Inv(cfg, st) && node !in st.members
    ensures Remove(Add(cfg, st, node), node) == st <==> Exclusive(cfg, st.members + {node}, node)
  {
    if !CrossFree(cfg, st.members + {node}, node) {
      CrossCollisionLosesOwner(cfg, st, node);
    } else if node != "" && !SelfFree(cfg, node) {
      SelfCollisionLeavesKey(cfg, st, node);
    } else {
      ExclusiveRestores(cfg, st, node);
    }
  }

  lemma CrossCollisionLosesOwner(cfg: Config, st: RingState, node: string)
    requires Inv(cfg, st) && node !in st.members && !CrossFree(cfg, st.members + {node}, node)
    ensures Remove(Add(cfg, st, node), node).owners != st.owners
  {
    var p := SharedPosition(cfg, st, node);
    AddKeepsInv(cfg, st, node);
    AddedOwners(cfg, st, node);
    RemovedOwners(cfg, Add(cfg, st, node), node);
    assert p !in Remove(Add(cfg, st, node), node).owners;
  }

  lemma SharedPosition(cfg: Config, st: RingState, node: string) returns (p: Pos)
    requires Inv(cfg, st) && !CrossFree(cfg, st.members + {node}, node)
    ensures p in st.owners && Holds(cfg, node, p)
  {
    var m;
    m, p :| m in st.members + {node} && m != node && Holds(cfg, m, p) && Holds(cfg, node, p);
    KeyIsHeld(cfg, st, p);
  }

  lemma ExclusiveRestores(cfg: Config, st: RingState, node: string)
    requires Inv(cfg, st) && node !in st.members && Exclusive(cfg, st.members + {node}, node)
    ensures Remove(Add(cfg, st, node), node) == st
  {
    AddKeepsInv(cfg, st, node);
    AddedOwners(cfg, st, node);
    RemovedOwners(cfg, Add(cfg, st, node), node);
    RemoveKeepsInv(cfg, Add(cfg, st, node), node);
    Restored(cfg, st, Add(cfg, st, node), Remove(Add(cfg, st, node), node), node);
  }

  lemma Restored(cfg: Config, st: RingState, added: RingState, back: RingState, node: string)
    requires Inv(cfg, st) && Inv(cfg, back) && node !in st.members && CrossFree(cfg, st.members + {node}, node)
    requires added.members == st.members + {node} && back.members == added.members - {node}
    requires forall p: Pos :: p in added.owners <==> p in st.owners || Holds(cfg, node, p)
    requires forall p: Pos :: p in added.owners ==>
      added.owners[p] == if Holds(cfg, node, p) then node else st.owners[p]
    requires forall p :: p in back.owners <==> p in added.owners && added.owners[p] != node
    requires forall p :: p in back.owners ==> back.owners[p] == added.owners[p]
    ensures back == st
  {
    assert back.members == st.members;
    SameKeys(cfg, back, st);
    assert back.owners == st.owners;
  }

  lemma SelfCollisionDoubles(cfg: Config, node: string) returns (p: Pos)
    requires !SelfFree(cfg, node)
    ensures Holds(cfg, node, p) && multiset(Positions(cfg, node, cfg.vNodes))[p] >= 2
  {
    var i: nat, j: nat :| i < j < cfg.vNodes && Position(cfg, node, i) == Position(cfg, node, j);
    p := Position(cfg, node, i);
    CopiesCounted(cfg, node, cfg.vNodes, p);
    SubsetSize({i, j}, Copies(cfg, node, cfg.vNodes, p));
  }

  lemma SelfCollisionLeavesKey(cfg: Config, st: RingState, node: string)
    requires Inv(cfg, st) && node !in st.members && node != ""
    requires CrossFree(cfg, st.members + {node}, node) && !SelfFree(cfg, node)
    ensures Remove(Add(cfg, st, node), node).keys != st.keys
  {
    var p := SelfCollisionDoubles(cfg, node);
    KeyIsHeld(cfg, st, p);
    assert p !in st.keys;
    var added := Add(cfg, st, node);
    AddedKeys(cfg, st, node);
    ScannedKeys(added.keys, added.owners, node, p);
    assert p in multiset(Scan(added.keys, added.owners, node).0);
  }

  // ---- whole runs of membership changes ----

  datatype Change = Join(node: string) | Leave(node: string)

  function Apply(cfg: Config, st: RingState, c: Change): RingState {
    match c
    case Join(n) => Add(cfg, st, n)
    case Leave(n) => Remove(st, n)
  }

  function Run(cfg: Config, st: RingState, changes: seq<Change>): RingState {
    if changes == [] then st
    else Apply(cfg, Run(cfg, st, changes[..|changes| - 1]), changes[|changes| - 1])
  }

  ghost function Mentioned(changes: seq<Change>): set<string> {
    set c | c in changes :: c.node
  }

  lemma MentionedAppend(changes: seq<Change>, c: Change)
    ensures Mentioned(changes + [c]) == Mentioned(changes) + {c.node}
  {
  }

  function MembersAfter(members: set<string>, changes: seq<Change>): set<string> {
    if changes == [] then members
    else
      MemberStep(MembersAfter(members, changes[..|changes| - 1]), changes[|changes| - 1])
  }

  function VirtualNodes(cfg: Config): nat {
    if cfg.vNodes < 0 then 0 else cfg.vNodes
  }

  ghost predicate FullSize(cfg: Config, st: RingState) {
    |st.keys| == VirtualNodes(cfg) * |st.members|
  }

  lemma AddedSize(cfg: Config, st: RingState, node: string)
    requires node !in st.members
    ensures |Add(cfg, st, node).keys| == |st.keys| + VirtualNodes(cfg)
    ensures |Add(cfg, st, node).members| == |st.members| + 1
  {
    AddedKeys(cfg, st, node);
    PositionsAt(cfg, node, cfg.vNodes);
  }

  lemma AddKeepsSize(cfg: Config, st: RingState, node: string)
    requires FullSize(cfg, st)
    ensures FullSize(cfg, Add(cfg, st, node))
  {
    if node !in st.members {
      AddedSize(cfg, st, node);
      OneMore(VirtualNodes(cfg), |st.members|);
    }
  }

  lemma OneMore(v: nat, n: nat)
    ensures v * (n + 1) == v * n + v
  {
  }

  lemma RemovedSize(cfg: Config, st: RingState, node: string)
    requires Inv(cfg, st) && node in st.members && Exclusive(cfg, st.members, node)
    ensures |st.keys| == |Remove(st, node).keys| + |Positions(cfg, node, cfg.vNodes)|
  {
    var kept: seq<Pos> := Kept(st.keys, st.owners, node);
    var gone: seq<Pos> := Positions(cfg, node, cfg.vNodes);
    RemovedKeys(cfg, st, node);
    forall p: Pos ensures multiset(st.keys)[p] == (multiset(kept) + multiset(gone))[p] {
      RemovedCount(cfg, st, node, p);
    }
    assert multiset(st.keys) == multiset(kept) + multiset(gone);
    assert |multiset(st.keys)| == |multiset(kept)| + |multiset(gone)|;
  }

  lemma RemoveKeepsSize(cfg: Config, st: RingState, node: string)
    requires Inv(cfg, st) && FullSize(cfg, st)
    requires node in st.members ==> Exclusive(cfg, st.members, node)
    ensures FullSize(cfg, Remove(st, node))
  {
    if node in st.members {
      RemovedSize(cfg, st, node);
      PositionsAt(cfg, node, cfg.vNodes);
      OneMore(VirtualNodes(cfg), |st.members - {node}|);
      assert |st.members| == |st.members - {node}| + 1;
    }
  }

  function MemberStep(members: set<string>, c: Change): set<string> {
    match c
    case Join(n) => members + {n}
    case Leave(n) => members - {n}
  }

  lemma ChangeInvariant(cfg: Config, st: RingState, c: Change, nodes: set<string>)
    requires CollisionFree(cfg, nodes) && st.members <= nodes && c.node in nodes
    requires Inv(cfg, st) && FullSize(cfg, st)
    ensures var after := Apply(cfg, st, c);
      Inv(cfg, after) && FullSize(cfg, after) && after.members == MemberStep(st.members, c) <= nodes
  {
    CollisionFreeIsExclusive(cfg, nodes, st.members, c.node);
    if c.Join? {
      AddInvariant(cfg, st, c.node);
    } else {
      RemoveInvariant(cfg, st, c.node);
    }
  }

  lemma AddInvariant(cfg: Config, st: RingState, node: string)
    requires Inv(cfg, st) && FullSize(cfg, st)
    ensures var after := Add(cfg, st, node);
      Inv(cfg, after) && FullSize(cfg, after) && after.members == st.members + {node}
  {
    AddKeepsInv(cfg, st, node);
    AddKeepsSize(cfg, st, node);
  }

  lemma RemoveInvariant(cfg: Config, st: RingState, node: string)
    requires Inv(cfg, st) && FullSize(cfg, st) && Exclusive(cfg, st.members, node)
    ensures var after := Remove(st, node);
      Inv(cfg, after) && FullSize(cfg, after) && after.members == st.members - {node}
  {
    RemoveKeepsInv(cfg, st, node);
    RemoveKeepsSize(cfg, st, node);
  }

  lemma {:induction false} RunFrom(cfg: Config, st: RingState, changes: seq<Change>)
    requires Inv(cfg, st) && FullSize(cfg, st) && CollisionFree(cfg, st.members + Mentioned(changes))
    ensures var after := Run(cfg, st, changes);
      && Inv(cfg, after) && FullSize(cfg, after)
      && after.members == MembersAfter(st.members, changes) <= st.members + Mentioned(changes)
  {
    if changes != [] {
      var init, c := changes[..|changes| - 1], changes[|changes| - 1];
      var nodes := st.members + Mentioned(changes);
      assert Mentioned(init) + {c.node} == Mentioned(changes) by {
        MentionedAppend(init, c);
        assert changes == init + [c];
      }
      FewerCollideLess(cfg, nodes, st.members + Mentioned(init));
      RunFrom(cfg, st, init);
      ChangeInvariant(cfg, Run(cfg, st, init), c, nodes);
    }
  }

  lemma FewerCollideLess(cfg: Config, nodes: set<string>, fewer: set<string>)
    requires CollisionFree(cfg, nodes) && fewer <= nodes
    ensures CollisionFree(cfg, fewer)
  {
  }

  /** After any run of joins and leaves without hash collisions, the ring is in order: each member owns
      all of its positions, and there is nothing else on the ring. */
  lemma RunInvariant(cfg: Config, changes: seq<Change>)
    requires CollisionFree(cfg, Mentioned(changes))
    ensures var st := Run(cfg, EMPTY, changes);
      && Inv(cfg, st) && FullSize(cfg, st)
      && st.members == MembersAfter({}, changes) <= Mentioned(changes)
  {
    EmptyInv(cfg);
    assert EMPTY.members + Mentioned(changes) == Mentioned(changes);
    RunFrom(cfg, EMPTY, changes);
  }

  /** On a ring without shared positions, a member owns every one of its positions, and a position is a
      key exactly when it is some member's. */
  lemma MemberOwnsItsPositions(cfg: Config, st: RingState, node: string, i: nat)
    requires Inv(cfg, st) && node in st.members && i < cfg.vNodes && CrossFree(cfg, st.members, node)
    ensures var p := Position(cfg, node, i); p in st.keys && p in st.owners && st.owners[p] == node
  {
    var p := Position(cfg, node, i);
    assert Holds(cfg, node, p);
    KeyIsHeld(cfg, st, p);
    assert Holds(cfg, st.owners[p], p);
  }

  /** The ring remembers nothing of its past: runs that end with the same members end in the same ring. */
  lemma HistoryForgotten(cfg: Config, a: seq<Change>, b: seq<Change>)
    requires CollisionFree(cfg, Mentioned(a)) && CollisionFree(cfg, Mentioned(b))
    requires MembersAfter({}, a) == MembersAfter({}, b)
    ensures Run(cfg, EMPTY, a) == Run(cfg, EMPTY, b)
  {
    RunInvariant(cfg, a);
    RunInvariant(cfg, b);
    var members := MembersAfter({}, a);
    forall n | n in members ensures CrossFree(cfg, members, n) {
      CollisionFreeIsExclusive(cfg, Mentioned(a), members, n);
    }
    SameRing(cfg, Run(cfg, EMPTY, a), Run(cfg, EMPTY, b));
  }

  // ---- rebuilding from a listing ----

  /** The ring that SyncLoop builds from a list of addresses. */
  function Rebuild(cfg: Config, nodes: seq<string>): RingState {
    if nodes == [] then EMPTY
    else Add(cfg, Rebuild(cfg, nodes[..|nodes| - 1]), nodes[|nodes| - 1])
  }

  /** Holds with hash collisions, too. */
  lemma {:induction false} RebuildInvariant(cfg: Config, nodes: seq<string>)
    ensures var st := Rebuild(cfg, nodes);
      Inv(cfg, st) && FullSize(cfg, st) && st.members == Elements(nodes)
  {
    EmptyInv(cfg);
    if nodes != [] {
      var init, n := nodes[..|nodes| - 1], nodes[|nodes| - 1];
      RebuildInvariant(cfg, init);
      AddInvariant(cfg, Rebuild(cfg, init), n);
      ElementsAppend(init, n);
      assert nodes == init + [n];
    }
  }

  ghost predicate PairwiseCrossFree(cfg: Config, nodes: set<string>) {
    forall n :: n in nodes ==> CrossFree(cfg, nodes, n)
  }

  /** Whatever the order of the listing, every lookup gives the same answer. */
  ghost predicate OrderIrrelevant(cfg: Config, nodes: set<string>) {
    forall a, b, h: Pos, count: int | Elements(a) == nodes && Elements(b) == nodes ::
      Place(Rebuild(cfg, a), h, count) == Place(Rebuild(cfg, b), h, count)
  }

  /** Gateways that list the same nodes in different orders agree on every placement exactly when no two
      of the nodes share a position. */
  lemma OrderIrrelevantIff(cfg: Config, nodes: set<string>)
    ensures OrderIrrelevant(cfg, nodes) <==> PairwiseCrossFree(cfg, nodes)
  {
    if PairwiseCrossFree(cfg, nodes) {
      forall a, b, h: Pos, count: int | Elements(a) == nodes && Elements(b) == nodes
        ensures Place(Rebuild(cfg, a), h, count) == Place(Rebuild(cfg, b), h, count)
      {
        RebuildOrder(cfg, a, b);
      }
    } else {
      var n :| n in nodes && !CrossFree(cfg, nodes, n);
      var m, p: Pos :| m in nodes && m != n && Holds(cfg, m, p) && Holds(cfg, n, p);
      var a := LastListed(cfg, nodes, m, p);
      var b := LastListed(cfg, nodes, n, p);
      assert Place(Rebuild(cfg, a), p, 1) != Place(Rebuild(cfg, b), p, 1);
    }
  }

  lemma RebuildOrder(cfg: Config, a: seq<string>, b: seq<string>)
    requires Elements(a) == Elements(b) && PairwiseCrossFree(cfg, Elements(a))
    ensures Rebuild(cfg, a) == Rebuild(cfg, b)
  {
    RebuildInvariant(cfg, a);
    RebuildInvariant(cfg, b);
    SameRing(cfg, Rebuild(cfg, a), Rebuild(cfg, b));
  }

  /** The gateway never removes a node; it rebuilds the ring from the next listing.  That ring is the one
      that the joins and leaves between the two listings make of the old ring. */
  lemma RebuildFollows(cfg: Config, a: seq<string>, b: seq<string>, changes: seq<Change>)
    requires CollisionFree(cfg, Elements(a) + Mentioned(changes))
    requires Elements(b) == MembersAfter(Elements(a), changes)
    ensures Rebuild(cfg, b) == Run(cfg, Rebuild(cfg, a), changes)
  {
    RebuildInvariant(cfg, a);
    RebuildInvariant(cfg, b);
    RunFrom(cfg, Rebuild(cfg, a), changes);
    var members := Elements(b);
    forall n | n in members ensures CrossFree(cfg, members, n) {
      CollisionFreeIsExclusive(cfg, Elements(a) + Mentioned(changes), members, n);
    }
    SameRing(cfg, Rebuild(cfg, b), Run(cfg, Rebuild(cfg, a), changes));
  }

  lemma RebuildFollowsOne(cfg: Config, a: seq<string>, b: seq<string>, c: Change)
    requires CollisionFree(cfg, Elements(a) + {c.node}) && Elements(b) == MemberStep(Elements(a), c)
    ensures Rebuild(cfg, b) == Apply(cfg, Rebuild(cfg, a), c)
  {
    assert [c][..0] == [];
    assert Mentioned([c]) == {c.node};
    assert MembersAfter(Elements(a), [c]) == Elements(b);
    RebuildFollows(cfg, a, b, [c]);
  }

  /** The nodes in one of the sets only. */
  ghost function ComeOrGone(a: set<string>, b: set<string>): set<string> {
    (a - b) + (b - a)
  }

  lemma NearerByJoin(a: set<string>, b: set<string>, n: string)
    requires n in b && n !in a
    ensures ComeOrGone(a, b) == ComeOrGone(a, b - {n}) + {n} && n !in ComeOrGone(a, b - {n})
    ensures b - {n} + {n} == b
  {
  }

  lemma NearerByLeave(a: set<string>, b: set<string>, n: string)
    requires n in a && n !in b
    ensures ComeOrGone(a, b) == ComeOrGone(a, b + {n}) + {n} && n !in ComeOrGone(a, b + {n})
    ensures b + {n} - {n} == b
  {
  }

  lemma OneChangeMore(a: set<string>, init: seq<Change>, c: Change)
    ensures MembersAfter(a, init + [c]) == MemberStep(MembersAfter(a, init), c)
  {
  }

  /** The shortest way from one set of members to another. */
  lemma {:induction false} ChangesBetween(a: set<string>, b: set<string>) returns (changes: seq<Change>)
    ensures MembersAfter(a, changes) == b && Mentioned(changes) == ComeOrGone(a, b)
    ensures |changes| == |ComeOrGone(a, b)|
    decreases ComeOrGone(a, b)
  {
    var b', c;
    if n :| n in b && n !in a {
      NearerByJoin(a, b, n);
      b', c := b - {n}, Join(n);
    } else if n :| n in a && n !in b {
      NearerByLeave(a, b, n);
      b', c := b + {n}, Leave(n);
    } else {
      assert a == b;
      return [];
    }
    var init := ChangesBetween(a, b');
    OneChangeMore(a, init, c);
    MentionedAppend(init, c);
    changes := init + [c];
  }

  /** The node that is listed last wins a shared position. */
  lemma LastListed(cfg: Config, nodes: set<string>, node: string, p: Pos) returns (s: seq<string>)
    requires node in nodes && Holds(cfg, node, p)
    ensures Elements(s) == nodes && Place(Rebuild(cfg, s), p, 1) == [node]
  {
    var init := SomeListing(nodes - {node});
    s := init + [node];
    ElementsAppend(init, node);
    assert s[..|s| - 1] == init;
    var before, st := Rebuild(cfg, init), Rebuild(cfg, s);
    RebuildInvariant(cfg, init);
    RebuildInvariant(cfg, s);
    AddedOwners(cfg, before, node);
    FirstOwner(st, p);
  }

  lemma {:induction false} AtLeastFirst(keys: seq<Pos>, p: Pos)
    requires Ascending(keys) && p in keys
    ensures AtLeast(keys, p) != [] && AtLeast(keys, p)[0] == p
  {
    var init, last := keys[..|keys| - 1], keys[|keys| - 1];
    assert keys == init + [last];
    if p in init {
      AtLeastFirst(init, p);
    } else {
      forall j | 0 <= j < |init| ensures init[j] < p {
        assert init[j] in init;
      }
      AllBelow(init, p);
    }
  }

  lemma {:induction false} DedupHead(s: seq<string>)
    requires s != []
    ensures Dedup(s) != [] && Dedup(s)[0] == s[0]
  {
    if |s| > 1 {
      DedupHead(s[..|s| - 1]);
    }
  }

  lemma FirstOwner(st: RingState, p: Pos)
    requires Ascending(st.keys) && p in st.keys && st.members != {}
    ensures Place(st, p, 1) == [Owner(st.owners, p)]
  {
    var path := Clockwise(st.keys, p);
    AtLeastFirst(st.keys, p);
    assert path[0] == p;
    OwnersOfAt(path, st.owners);
    DedupHead(OwnersOf(path, st.owners));
  }
}
