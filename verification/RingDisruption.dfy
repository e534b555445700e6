/** Minimal disruption: how the placement of a chunk on two different rings is related. */
module RingDisruption {
  import opened Sequences
  import opened Ring
  import opened RingInvariant
  import opened RingTheory

  /** `ext` is `base` with the positions of one more node, and otherwise the same. */
  ghost predicate Grown(base: RingState, ext: RingState, node: string) {
    && base.keys == Kept(ext.keys, ext.owners, node)
    && (forall p :: p in base.keys ==> Owner(base.owners, p) == Owner(ext.owners, p))
    && node !in base.members && ext.members == base.members + {node}
    && (base.members == {} ==> base.keys == [])
  }

  lemma NoMembersNoKeys(cfg: Config, st: RingState)
    requires Inv(cfg, st) && st.members == {}
    ensures st.keys == []
  {
    if st.keys != [] {
      KeyIsHeld(cfg, st, st.keys[0]);
    }
  }

  lemma KeptOfLarger(cfg: Config, st: RingState, ext: RingState, node: string)
    requires Inv(cfg, st) && Inv(cfg, ext) && node !in st.members && ext.members == st.members + {node}
    requires CrossFree(cfg, ext.members, node)
    ensures Kept(ext.keys, ext.owners, node) == st.keys
  {
    assert ext.members - {node} == st.members;
    var kept: seq<Pos> := Kept(ext.keys, ext.owners, node);
    forall p: Pos ensures multiset(kept)[p] == multiset(st.keys)[p] {
      RemovedCount(cfg, ext, node, p);
    }
    KeptAscending(ext.keys, ext.owners, node);
    AscendingUnique(kept, st.keys);
  }

  lemma AddGrows(cfg: Config, st: RingState, node: string)
    requires Inv(cfg, st) && node !in st.members && CrossFree(cfg, st.members + {node}, node)
    ensures Grown(st, Add(cfg, st, node), node)
  {
    AddKeepsInv(cfg, st, node);
    KeptOfLarger(cfg, st, Add(cfg, st, node), node);
    AddedOwners(cfg, st, node);
    forall p | p in st.keys ensures Owner(st.owners, p) == Owner(Add(cfg, st, node).owners, p) {
      KeyIsHeld(cfg, st, p);
    }
    if st.members == {} {
      NoMembersNoKeys(cfg, st);
    }
  }

  lemma RemoveShrinks(cfg: Config, st: RingState, node: string)
    requires Inv(cfg, st) && node in st.members && Exclusive(cfg, st.members, node)
    ensures Grown(Remove(st, node), st, node)
  {
    var base := Remove(st, node);
    RemoveKeepsInv(cfg, st, node);
    RemovedKeys(cfg, st, node);
    RemovedOwners(cfg, st, node);
    forall p | p in base.keys ensures Owner(base.owners, p) == Owner(st.owners, p) {
      assert p in base.owners;
    }
    if base.members == {} {
      NoMembersNoKeys(cfg, base);
    }
  }

  // ---- the walk on the smaller ring is the walk on the larger one without the node ----

  lemma {:induction false} KeptOfConcat(a: seq<Pos>, b: seq<Pos>, owners: map<Pos, string>, node: string)
    ensures Kept(a + b, owners, node) == Kept(a, owners, node) + Kept(b, owners, node)
  {
    if b == [] {
      assert a + b == a;
    } else {
      assert (a + b)[..|a + b| - 1] == a + b[..|b| - 1];
      KeptOfConcat(a, b[..|b| - 1], owners, node);
    }
  }

  lemma {:induction false} KeptCommutes(keys: seq<Pos>, owners: map<Pos, string>, node: string, h: Pos)
    ensures Kept(AtLeast(keys, h), owners, node) == AtLeast(Kept(keys, owners, node), h)
    ensures Kept(Below(keys, h), owners, node) == Below(Kept(keys, owners, node), h)
  {
    if keys != [] {
      var init, p := keys[..|keys| - 1], keys[|keys| - 1];
      KeptCommutes(init, owners, node, h);
      SnocInit(Kept(init, owners, node), p);
      SnocInit(AtLeast(init, h), p);
      SnocInit(Below(init, h), p);
    }
  }

  lemma KeptClockwise(keys: seq<Pos>, owners: map<Pos, string>, node: string, h: Pos)
    ensures Clockwise(Kept(keys, owners, node), h) == Kept(Clockwise(keys, h), owners, node)
  {
    KeptCommutes(keys, owners, node, h);
    KeptOfConcat(AtLeast(keys, h), Below(keys, h), owners, node);
  }

  lemma {:induction false} OwnersOfKept(keys: seq<Pos>, small: map<Pos, string>, large: map<Pos, string>,
                                        node: string)
    requires forall p :: p in keys && Owner(large, p) != node ==> Owner(small, p) == Owner(large, p)
    ensures OwnersOf(Kept(keys, large, node), small) == Without(OwnersOf(keys, large), node)
  {
    if keys != [] {
      var init, p := keys[..|keys| - 1], keys[|keys| - 1];
      OwnersOfKept(init, small, large, node);
      SnocInit(Kept(init, large, node), p);
      SnocInit(OwnersOf(init, large), Owner(large, p));
    }
  }

  lemma WalkWithout(base: RingState, ext: RingState, node: string, h: Pos)
    requires Grown(base, ext, node)
    ensures Walk(base, h) == Without(Walk(ext, h), node)
  {
    var path := Clockwise(ext.keys, h);
    KeptClockwise(ext.keys, ext.owners, node, h);
    forall p | p in path && Owner(ext.owners, p) != node
      ensures Owner(base.owners, p) == Owner(ext.owners, p)
    {
      ClockwiseMembers(ext.keys, h, p);
      KeptFacts(ext.keys, ext.owners, node, p);
      assert multiset(ext.keys)[p] > 0;
      assert multiset(base.keys)[p] > 0;
    }
    OwnersOfKept(path, base.owners, ext.owners, node);
    DedupWithout(OwnersOf(path, ext.owners), node);
  }

  lemma {:induction false} ClockwiseMembers(keys: seq<Pos>, h: Pos, p: Pos)
    ensures p in AtLeast(keys, h) || p in Below(keys, h) <==> p in keys
    ensures p in Clockwise(keys, h) <==> p in keys
  {
    if keys != [] {
      ClockwiseMembers(keys[..|keys| - 1], h, p);
      assert keys == keys[..|keys| - 1] + [keys[|keys| - 1]];
    }
  }

  // ---- one membership change ----

  /** `new` is `old` with `node` put in at one place and cut back to `count` entries. */
  ghost predicate Inserted(before: seq<string>, after: seq<string>, node: string, count: int) {
    && node !in before
    && exists k :: 0 <= k <= |before| && after == TakeCount(before[..k] + [node] + before[k..], count)
  }

  lemma GrownPlacement(base: RingState, ext: RingState, node: string, h: Pos, count: int)
    requires Grown(base, ext, node)
    ensures node in Walk(ext, h) ==> Inserted(Place(base, h, count), Place(ext, h, count), node, count)
    ensures node !in Walk(ext, h) ==> Place(base, h, count) == Place(ext, h, count)
  {
    var w, v := Walk(ext, h), Walk(base, h);
    WalkWithout(base, ext, node, h);
    assert base.members == {} ==> v == [];
    DedupFacts(OwnersOf(Clockwise(ext.keys, h), ext.owners));
    if node in w {
      var k :| 0 <= k < |w| && w[k] == node;
      WithoutOnce(w, k);
      CutInsertion(v, w, k, node, count);
    } else {
      WithoutAbsent(w, node);
    }
  }

  lemma CutInsertion(v: seq<string>, w: seq<string>, k: nat, node: string, count: int)
    requires k < |w| && w[k] == node && Distinct(w) && v == w[..k] + w[k + 1..]
    ensures Inserted(TakeCount(v, count), TakeCount(w, count), node, count)
  {
    var was := TakeCount(v, count);
    assert w == v[..k] + [node] + v[k..];
    if 0 < count <= k {
      assert was == v[..count] == w[..count];
      assert TakeCount(was[..count] + [node] + was[count..], count) == was;
    } else if 0 < count < |v| {
      assert was[..k] + [node] + was[k..] == (v[..k] + [node] + v[k..])[..count + 1];
      assert TakeCount(was[..k] + [node] + was[k..], count) == w[..count];
    } else {
      assert was == v;
    }
  }

  /** Minimal disruption, arrival: a node that shares no position with another member enters every
      placement at one place, and only the last entry of a full placement gives way to it. */
  lemma JoinDisruption(cfg: Config, st: RingState, node: string, h: Pos, count: int)
    requires Inv(cfg, st) && node !in st.members && CrossFree(cfg, st.members + {node}, node)
    ensures var now := Place(Add(cfg, st, node), h, count);
      if cfg.vNodes >= 1 then Inserted(Place(st, h, count), now, node, count) else now == Place(st, h, count)
  {
    var ext := Add(cfg, st, node);
    AddGrows(cfg, st, node);
    AddKeepsInv(cfg, st, node);
    GrownPlacement(st, ext, node, h, count);
    NodeOnWalk(cfg, ext, node, h);
  }

  /** Minimal disruption, departure: the mirror image. */
  lemma LeaveDisruption(cfg: Config, st: RingState, node: string, h: Pos, count: int)
    requires Inv(cfg, st) && node in st.members && Exclusive(cfg, st.members, node)
    ensures var now := Place(Remove(st, node), h, count);
      if cfg.vNodes >= 1 then Inserted(now, Place(st, h, count), node, count) else now == Place(st, h, count)
  {
    RemoveShrinks(cfg, st, node);
    GrownPlacement(Remove(st, node), st, node, h, count);
    NodeOnWalk(cfg, st, node, h);
  }

  lemma WalkFacts(st: RingState, h: Pos)
    ensures Distinct(Walk(st, h))
    ensures forall n :: n in Walk(st, h) <==> exists p :: p in st.keys && Owner(st.owners, p) == n
  {
    var path := Clockwise(st.keys, h);
    var met := OwnersOf(path, st.owners);
    DedupFacts(met);
    OwnersOfAt(path, st.owners);
    forall n ensures n in Walk(st, h) <==> exists p :: p in st.keys && Owner(st.owners, p) == n {
      assert n in Elements(Dedup(met)) <==> n in met;
      if n in met {
        var i :| 0 <= i < |met| && met[i] == n;
        ClockwiseMembers(st.keys, h, path[i]);
      }
      if p :| p in st.keys && Owner(st.owners, p) == n {
        ClockwiseMembers(st.keys, h, p);
        var i :| 0 <= i < |path| && path[i] == p;
        assert met[i] == n;
      }
    }
  }

  lemma NodeOnWalk(cfg: Config, st: RingState, node: string, h: Pos)
    requires Inv(cfg, st) && node in st.members && CrossFree(cfg, st.members, node)
    ensures node in Walk(st, h) <==> cfg.vNodes >= 1
  {
    WalkFacts(st, h);
    if cfg.vNodes >= 1 {
      MemberOwnsItsPositions(cfg, st, node, 0);
    }
  }

  // ---- what a placement contains ----

  lemma PlacementPrefix(st: RingState, h: Pos, fewer: int, more: int)
    requires 0 < fewer <= more
    ensures Place(st, h, fewer) <= Place(st, h, more) <= Place(st, h, 0)
  {
  }

  lemma PlacementDistinct(st: RingState, h: Pos, count: int)
    ensures Distinct(Place(st, h, count))
  {
    WalkFacts(st, h);
  }

  lemma PlacementMembers(cfg: Config, st: RingState, h: Pos, count: int)
    requires Inv(cfg, st)
    ensures Distinct(Place(st, h, count)) && Elements(Place(st, h, count)) <= st.members
  {
    WalkFacts(st, h);
    forall n | n in Walk(st, h) ensures n in st.members {
      var p :| p in st.keys && Owner(st.owners, p) == n;
      assert p in st.owners;
    }
  }

  /** On a ring without shared positions a placement has exactly the requested number of nodes, or all
      members when there are fewer or when the request is zero or negative. */
  lemma PlacementSize(cfg: Config, st: RingState, h: Pos, count: int)
    requires Inv(cfg, st) && cfg.vNodes >= 1 && PairwiseCrossFree(cfg, st.members)
    ensures Elements(Walk(st, h)) == st.members
    ensures |Place(st, h, count)| == if 0 < count < |st.members| then count else |st.members|
  {
    PlacementMembers(cfg, st, h, 0);
    WalkFacts(st, h);
    forall n | n in st.members ensures n in Walk(st, h) {
      NodeOnWalk(cfg, st, n, h);
    }
    if st.members == {} {
      assert Walk(st, h) == [] by {
        NoMembersNoKeys(cfg, st);
      }
    }
    assert Elements(Walk(st, h)) == st.members;
    DistinctSize(Walk(st, h));
  }

  // ---- several membership changes ----

  lemma InsertedReplacesOne(was: seq<string>, now: seq<string>, node: string, count: int)
    requires Inserted(was, now, node, count) && (count <= 0 || |was| <= count)
    ensures |Elements(was) - Elements(now)| <= 1
    ensures Elements(now) - Elements(was) <= {node}
  {
    var k :| 0 <= k <= |was| && now == TakeCount(was[..k] + [node] + was[k..], count);
    var all := was[..k] + [node] + was[k..];
    forall n ensures n in all <==> n in was || n == node {
      assert was == was[..k] + was[k..];
    }
    if was != [] && count == |was| {
      var last := all[|was|];
      assert all == now + [last];
      SubsetSize(Elements(was) - Elements(now), {last});
    } else {
      assert now == all;
      assert Elements(was) - Elements(now) == {};
    }
  }

  lemma ReplacesOne(cfg: Config, st: RingState, c: Change, h: Pos, count: int)
    requires Inv(cfg, st) && CrossFree(cfg, st.members + {c.node}, c.node)
    requires SelfFree(cfg, c.node)
    ensures |Elements(Place(st, h, count)) - Elements(Place(Apply(cfg, st, c), h, count))| <= 1
    ensures c.Leave? ==> Elements(Place(st, h, count)) - Elements(Place(Apply(cfg, st, c), h, count)) <= {c.node}
  {
    var was, now := Place(st, h, count), Place(Apply(cfg, st, c), h, count);
    if c.Join? && c.node !in st.members {
      JoinDisruption(cfg, st, c.node, h, count);
      if Inserted(was, now, c.node, count) {
        InsertedReplacesOne(was, now, c.node, count);
      }
    } else if c.Leave? && c.node in st.members {
      assert st.members + {c.node} == st.members;
      LeaveDisruption(cfg, st, c.node, h, count);
      if Inserted(now, was, c.node, count) {
        InsertedReplacesOne(now, was, c.node, count);
        SubsetSize(Elements(was) - Elements(now), {c.node});
      }
    }
  }

  lemma ChangeKeepsInv(cfg: Config, st: RingState, c: Change)
    requires Inv(cfg, st) && CrossFree(cfg, st.members + {c.node}, c.node) && SelfFree(cfg, c.node)
    ensures Inv(cfg, Apply(cfg, st, c))
    ensures Apply(cfg, st, c).members <= st.members + {c.node}
  {
    match c {
      case Join(n) => AddKeepsInv(cfg, st, n);
      case Leave(n) =>
        assert n in st.members ==> st.members + {n} == st.members;
        RemoveKeepsInv(cfg, st, n);
    }
  }

  /** A run of k membership changes takes at most k nodes away from any placement. */
  lemma {:induction false} Drift(cfg: Config, st: RingState, changes: seq<Change>, h: Pos, count: int)
    requires Inv(cfg, st) && CollisionFree(cfg, st.members + Mentioned(changes))
    ensures var after := Run(cfg, st, changes);
      && Inv(cfg, after) && after.members <= st.members + Mentioned(changes)
      && |Elements(Place(st, h, count)) - Elements(Place(after, h, count))| <= |changes|
  {
    if changes != [] {
      var init, c := changes[..|changes| - 1], changes[|changes| - 1];
      MentionedAppend(init, c);
      assert changes == init + [c];
      Drift(cfg, st, init, h, count);
      DriftStep(cfg, st, Run(cfg, st, init), c, st.members + Mentioned(changes), h, count);
    }
  }

  lemma DriftStep(cfg: Config, st: RingState, mid: RingState, c: Change, nodes: set<string>, h: Pos, count: int)
    requires Inv(cfg, mid) && CollisionFree(cfg, nodes) && mid.members <= nodes && c.node in nodes
    ensures var after := Apply(cfg, mid, c);
      && Inv(cfg, after) && after.members <= nodes
      && |Elements(Place(st, h, count)) - Elements(Place(after, h, count))|
           <= |Elements(Place(st, h, count)) - Elements(Place(mid, h, count))| + 1
  {
    CollisionFreeIsExclusive(cfg, nodes, mid.members + {c.node}, c.node);
    ChangeKeepsInv(cfg, mid, c);
    ReplacesOne(cfg, mid, c, h, count);
    Triangle(Elements(Place(st, h, count)), Elements(Place(mid, h, count)),
             Elements(Place(Apply(cfg, mid, c), h, count)));
  }

  lemma Triangle(a: set<string>, b: set<string>, c: set<string>)
    ensures |a - c| <= |a - b| + |b - c|
  {
    SubsetSize(a - c, (a - b) + (b - c));
  }

  lemma BetweenCovers(a: set<string>, b: set<string>, mentioned: set<string>)
    requires mentioned == ComeOrGone(a, b)
    ensures a + mentioned == a + b
  {
  }

  /** Two rings rebuilt from different listings: a placement loses at most one node for each node that has
      come or gone. */
  lemma RebuildDrift(cfg: Config, a: seq<string>, b: seq<string>, h: Pos, count: int)
    requires CollisionFree(cfg, Elements(a) + Elements(b))
    ensures |Elements(Place(Rebuild(cfg, a), h, count)) - Elements(Place(Rebuild(cfg, b), h, count))|
         <= |ComeOrGone(Elements(a), Elements(b))|
  {
    var changes := ChangesBetween(Elements(a), Elements(b));
    BetweenCovers(Elements(a), Elements(b), Mentioned(changes));
    RebuildInvariant(cfg, a);
    RebuildFollows(cfg, a, b, changes);
    Drift(cfg, Rebuild(cfg, a), changes, h, count);
  }

  lemma OneLeaver(cfg: Config, a: seq<string>, b: seq<string>, gone: string, h: Pos, count: int)
    requires gone in Elements(a) && Elements(b) == Elements(a) - {gone} && CollisionFree(cfg, Elements(a))
    ensures Elements(Place(Rebuild(cfg, a), h, count)) - Elements(Place(Rebuild(cfg, b), h, count)) <= {gone}
  {
    var was := Elements(a);
    assert was + {gone} == was;
    RebuildInvariant(cfg, a);
    RebuildFollowsOne(cfg, a, b, Leave(gone));
    CollisionFreeIsExclusive(cfg, was, was, gone);
    ReplacesOne(cfg, Rebuild(cfg, a), Leave(gone), h, count);
  }

  /** When nodes only leave, a placement loses nothing but those nodes. */
  lemma {:induction false} LeaversOnly(cfg: Config, a: seq<string>, b: seq<string>, h: Pos, count: int)
    requires Elements(b) <= Elements(a) && CollisionFree(cfg, Elements(a))
    ensures Elements(Place(Rebuild(cfg, a), h, count)) - Elements(Place(Rebuild(cfg, b), h, count))
         <= Elements(a) - Elements(b)
    decreases Elements(a)
  {
    var was, now := Elements(a), Elements(b);
    if was != now {
      var gone :| gone in was && gone !in now;
      var mid := SomeListing(was - {gone});
      OneLeaver(cfg, a, mid, gone, h, count);
      FewerCollideLess(cfg, was, was - {gone});
      LeaversOnly(cfg, mid, b, h, count);
      LossesAdd(Elements(Place(Rebuild(cfg, a), h, count)), Elements(Place(Rebuild(cfg, mid), h, count)),
                Elements(Place(Rebuild(cfg, b), h, count)), was, gone, now);
    } else {
      SameListing(cfg, a, b);
    }
  }

  lemma LossesAdd(before: set<string>, between: set<string>, after: set<string>, was: set<string>, gone: string,
                  now: set<string>)
    requires before - between <= {gone} && between - after <= was - {gone} - now && gone in was - now
    ensures before - after <= was - now
  {
    forall n | n in before - after ensures n in was - now {
      if n in between {
        assert n in between - after;
      } else {
        assert n in before - between;
      }
    }
  }

  lemma SameListing(cfg: Config, a: seq<string>, b: seq<string>)
    requires Elements(a) == Elements(b) && CollisionFree(cfg, Elements(a))
    ensures Rebuild(cfg, a) == Rebuild(cfg, b)
  {
    forall n | n in Elements(a) ensures CrossFree(cfg, Elements(a), n) {
      CollisionFreeIsExclusive(cfg, Elements(a), Elements(a), n);
    }
    RebuildOrder(cfg, a, b);
  }

  lemma LossSplit(before: set<string>, between: set<string>, after: set<string>, gone: set<string>, k: nat)
    requires before - between <= gone && |between - after| <= k
    ensures |before - after - gone| <= k
  {
    SubsetSize(before - after - gone, between - after);
  }

  lemma Stayed(was: set<string>, now: set<string>)
    ensures ComeOrGone(was * now, now) == now - was && was - was * now == was - now
  {
  }

  /** Two rings rebuilt from different listings: what a placement loses is nodes that have gone and, besides,
      at most one node for each that has come. */
  lemma PlacementLoss(cfg: Config, a: seq<string>, b: seq<string>, h: Pos, count: int)
    requires CollisionFree(cfg, Elements(a) + Elements(b))
    ensures var lost := Elements(Place(Rebuild(cfg, a), h, count)) - Elements(Place(Rebuild(cfg, b), h, count));
      |lost - (Elements(a) - Elements(b))| <= |Elements(b) - Elements(a)|
  {
    var was, now := Elements(a), Elements(b);
    var mid := SomeListing(was * now);
    Stayed(was, now);
    FewerCollideLess(cfg, was + now, was);
    FewerCollideLess(cfg, was + now, was * now + now);
    LeaversOnly(cfg, a, mid, h, count);
    RebuildDrift(cfg, mid, b, h, count);
    LossSplit(Elements(Place(Rebuild(cfg, a), h, count)), Elements(Place(Rebuild(cfg, mid), h, count)),
              Elements(Place(Rebuild(cfg, b), h, count)), was - now, |now - was|);
  }
}
