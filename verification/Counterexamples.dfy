/** Concrete inputs at which a promise that one might expect fails: a ring of nodes named by single letters,
    with the gateway's number of virtual nodes, and a codec that prefixes a byte. */
module Counterexamples {
  import opened Sequences
  import opened Labels
  import opened Ring
  import opened RingInvariant
  import opened RingTheory
  import opened RingDisruption
  import opened Membership
  import opened Cluster
  import opened Tables
  import opened Rebalancer
  import opened SharedDigests
  import opened RebalanceRuns
  import opened Content
  import opened Storing
  import opened Saves
  import opened ObjectHandler

  // ---- the ring ----

  /** Virtual node i of the k-th letter sits at 1000 k + i, and everything else at the first one of "c". */
  function LetterHash(s: string): Pos {
    if |s| >= 3 && 'a' <= s[0] <= 'z' && s[1] == '-' && 0 <= Denotes(s[2..]) < 1000
    then (s[0] as int - 'a' as int + 1) * 1000 + Denotes(s[2..])
    else 3000
  }

  const LETTERS := Config(LetterHash, V_NODES)

  predicate IsLetter(node: string) {
    |node| == 1 && 'a' <= node[0] <= 'z'
  }

  lemma LetterPosition(node: string, i: nat)
    requires IsLetter(node) && i < V_NODES
    ensures Position(LETTERS, node, i) == (node[0] as int - 'a' as int + 1) * 1000 + i
  {
    var text := Label(node, i);
    DecimalDigits(i);
    DecimalDenotes(i);
    assert text[0] == node[0] && text[1] == '-' && text[2..] == Decimal(i);
  }

  lemma LettersCollisionFree(nodes: set<string>)
    requires forall n :: n in nodes ==> IsLetter(n)
    ensures CollisionFree(LETTERS, nodes)
  {
    forall m, n, i: nat, j: nat |
      m in nodes && n in nodes && i < V_NODES && j < V_NODES && Label(m, i) != Label(n, j)
      ensures Position(LETTERS, m, i) != Position(LETTERS, n, j)
    {
      LetterPosition(m, i);
      LetterPosition(n, j);
      assert m != n ==> m[0] != n[0];
    }
  }

  /** Rings of letters are in order, and small placements name all members. */
  lemma LetterRing(nodes: seq<string>)
    requires forall n :: n in nodes ==> IsLetter(n)
    ensures Inv(LETTERS, Rebuild(LETTERS, nodes)) && Rebuild(LETTERS, nodes).members == Elements(nodes)
    ensures PairwiseCrossFree(LETTERS, Elements(nodes))
  {
    RebuildInvariant(LETTERS, nodes);
    LettersCollisionFree(Elements(nodes));
    forall n | n in Elements(nodes) ensures CrossFree(LETTERS, Elements(nodes), n) {
      CollisionFreeIsExclusive(LETTERS, Elements(nodes), Elements(nodes), n);
    }
  }

  lemma AllPlaced(nodes: seq<string>, hash: string, replicas: nat)
    requires (forall n :: n in nodes ==> IsLetter(n)) && Distinct(nodes) && |nodes| <= replicas && nodes != []
    ensures Elements(Place(Rebuild(LETTERS, nodes), LetterHash(hash), replicas)) == Elements(nodes)
    ensures |Place(Rebuild(LETTERS, nodes), LetterHash(hash), replicas)| == |nodes|
  {
    LetterRing(nodes);
    DistinctSize(nodes);
    MembersPlaced(LETTERS, Rebuild(LETTERS, nodes), LetterHash(hash), replicas);
  }

  lemma MembersPlaced(cfg: Config, st: RingState, h: Pos, count: int)
    requires Inv(cfg, st) && cfg.vNodes >= 1 && PairwiseCrossFree(cfg, st.members) && |st.members| <= count
    ensures Elements(Place(st, h, count)) == st.members && |Place(st, h, count)| == |st.members|
  {
    PlacementSize(cfg, st, h, count);
    WalkFacts(st, h);
    DistinctSize(Walk(st, h));
  }

  // ---- the codec ----

  function Digest(b: Bytes): string {
    "digest" + seq(|b|, i requires 0 <= i < |b| => b[i] as char)
  }

  function Prefixing(): Codec {
    Codec(b => Digest(b), b => b, b => Some(b), (nonce, b) => [0] + b, b => if b == [] then None else Some(b[1..]))
  }

  lemma PrefixingIsLawful()
    ensures Lawful(Prefixing())
  {
  }

  lemma DigestsDiffer(a: Bytes, b: Bytes)
    requires Digest(a) == Digest(b)
    ensures a == b
  {
    assert Digest(a)[6..] == Digest(b)[6..];
    forall i | 0 <= i < |a| && i < |b| ensures a[i] == b[i] {
      assert Digest(a)[6 + i] == Digest(b)[6 + i];
    }
  }

  // ---- an upload that answered 201 ----

  const NO_ROWS := Tables(map[], map[], map[], map[], map[], map[])

  function OneRow(codec: Codec, plain: Bytes, nodes: set<string>): Tables {
    NO_ROWS.(objects := map[0 := ObjectRow("user", "untitled", "application/octet-stream", |plain|)],
             chunks := map[0 := ChunkRow(0, 0, codec.hash(plain), |plain|)],
             locations := map[0 := nodes])
  }

  /** A one-chunk object uploaded to two nodes, replication factor 2; all saves have succeeded. */
  ghost predicate UploadedTo(run: UploadRun, plain: Bytes, nodes: seq<string>, files: Files) {
    var x := Site(Prefixing(), LETTERS, Rebuild(LETTERS, nodes), |nodes|);
    var t := OneRow(Prefixing(), plain, Elements(nodes));
    && IsUploadRun(x, run, map[], files) && run.chunks == [plain] && Answers201(x, run.chunks, run.nonces, run.trace)
    && Uploaded(x, NO_ROWS, t, 0, t.objects[0], run.chunks) && RecordsSaves(t, 0, run.trace)
  }

  function SavesOn(hash: string, nodes: seq<string>, sealed: Bytes): seq<Save> {
    seq(|nodes|, k requires 0 <= k < |nodes| => Save(0, hash, nodes[k], true, Some(sealed)))
  }

  lemma TwoPlaced(x: Site, plain: Bytes, nodes: seq<string>)
    requires x == Site(Prefixing(), LETTERS, Rebuild(LETTERS, nodes), |nodes|)
    requires (forall n :: n in nodes ==> IsLetter(n)) && Distinct(nodes) && nodes != []
    ensures Elements(PlacementOf(x, plain)) == Elements(nodes) && PlacementOf(x, plain) != []
    ensures |Elements(nodes)| == |nodes|
  {
    AllPlaced(nodes, Digest(plain), |nodes|);
    DistinctSize(nodes);
    assert PlacementOf(x, plain) == Place(x.st, LetterHash(Digest(plain)), |nodes|);
  }

  lemma WholeRun(x: Site, plain: Bytes, nodes: seq<string>, trace: seq<Save>)
    requires x.codec == Prefixing() && Distinct(nodes) && |nodes| >= Quorum(x.replicas)
    requires Elements(PlacementOf(x, plain)) == Elements(nodes) && PlacementOf(x, plain) != []
    requires trace == SavesOn(Digest(plain), nodes, Seal(Prefixing(), [], plain))
    ensures Answers201(x, [plain], [[]], trace) && SavedBy(trace, 0) == Elements(nodes)
  {
    DistinctSize(nodes);
    SavesOnFacts(Digest(plain), nodes, Seal(Prefixing(), [], plain));
    forall e | e in trace ensures IsSave(x, [plain], [[]], e) {
      assert e.node in Elements(PlacementOf(x, plain));
    }
  }

  lemma OneRowUploaded(x: Site, plain: Bytes, nodes: set<string>, trace: seq<Save>)
    requires x.codec == Prefixing() && SavedBy(trace, 0) == nodes && |nodes| >= Quorum(x.replicas)
    requires nodes <= Elements(PlacementOf(x, plain))
    ensures var t := OneRow(x.codec, plain, nodes);
      Uploaded(x, NO_ROWS, t, 0, t.objects[0], [plain]) && RecordsSaves(t, 0, trace)
  {
  }

  lemma AllSavedGood(x: Site, plain: Bytes, nodes: seq<string>, trace: seq<Save>, files: Files)
    requires x.codec == Prefixing() && Answers201(x, [plain], [[]], trace)
    requires Distinct(nodes) && trace == SavesOn(Digest(plain), nodes, Seal(Prefixing(), [], plain))
    ensures Backed(Digest(plain), Elements(nodes), FilesAfter(files, trace), GoodFor(Prefixing()))
  {
    PrefixingIsLawful();
    SavesOnFacts(Digest(plain), nodes, Seal(Prefixing(), [], plain));
    forall n | n in Elements(nodes) ensures GoodAt(Digest(plain), n, FilesAfter(files, trace), GoodFor(Prefixing())) {
      var e :| e in trace && e.node == n;
      assert At(e, n, Digest(plain));
      AllOkSealed(x, [plain], [[]], trace, files, n, Digest(plain));
    }
  }

  lemma SomeUpload(plain: Bytes, nodes: seq<string>) returns (run: UploadRun, files: Files)
    requires (forall n :: n in nodes ==> IsLetter(n)) && Distinct(nodes) && |nodes| >= 2
    ensures UploadedTo(run, plain, nodes, files)
    ensures Backed(Digest(plain), Elements(nodes), files, GoodFor(Prefixing()))
  {
    var x := Site(Prefixing(), LETTERS, Rebuild(LETTERS, nodes), |nodes|);
    var trace := SavesOn(Digest(plain), nodes, Seal(Prefixing(), [], plain));
    run, files := UploadRun([plain], [[]], trace), FilesAfter(map[], trace);
    TwoPlaced(x, plain, nodes);
    WholeRun(x, plain, nodes, trace);
    OneRowUploaded(x, plain, Elements(nodes), trace);
    AllSavedGood(x, plain, nodes, trace, map[]);
  }

  lemma SavesOnFacts(hash: string, nodes: seq<string>, sealed: Bytes)
    requires Distinct(nodes)
    ensures var trace := SavesOn(hash, nodes, sealed);
      && SavedBy(trace, 0) == TriedBy(trace, 0) == Elements(nodes)
      && (forall e :: e in trace ==> e == Save(0, hash, e.node, true, Some(sealed)) && e.node in Elements(nodes))
      && (forall k, l :: 0 <= k < l < |trace| ==> trace[k].node != trace[l].node)
      && (forall n :: n in Elements(nodes) ==> exists e :: e in trace && e.node == n)
  {
    var trace := SavesOn(hash, nodes, sealed);
    forall n | n in nodes ensures Save(0, hash, n, true, Some(sealed)) in trace {
      var k :| 0 <= k < |nodes| && nodes[k] == n;
      assert trace[k] == Save(0, hash, n, true, Some(sealed));
    }
    forall n | n in nodes ensures n in SavedBy(trace, 0) {
      assert Save(0, hash, n, true, Some(sealed)) in trace;
    }
  }

  // ---- the rebalancer ----

  /** Uploaded to "a" and "b" with replication factor 2; then "c" and "d" join, "a" and "b" leave, and the
      next pass reads the chunk, fails to save it, and drops both records.  Nothing is recorded any more. */
  lemma LastRecordLost() returns (run: UploadRun, p: RowPass)
    ensures UploadedTo(run, [7], ["a", "b"], p.files)
    ensures var changes := [Join("c"), Join("d"), Leave("a"), Leave("b")];
      p.expected == Expected(LETTERS, Run(LETTERS, Rebuild(LETTERS, ["a", "b"]), changes), Digest([7]), 2)
    ensures Starts(p, Digest([7]), {"a", "b"}, p.expected, p.files) && p.after == {}
  {
    var files;
    run, files := SomeUpload([7], ["a", "b"]);
    AllReplaced([7]);
    MembersStepwise();
    p := LoseFrom([7], {"a", "b"}, {"c", "d"}, files, "a");
  }

  lemma LoseFrom(plain: Bytes, nodes: set<string>, expected: set<string>, files: Files, m: string) returns (p: RowPass)
    requires Backed(Digest(plain), nodes, files, GoodFor(Prefixing())) && m in nodes && nodes * expected == {}
    ensures Starts(p, Digest(plain), nodes, expected, files) && p.after == {}
  {
    assert Open(Prefixing(), []) == None;
    p := LosingPass(Digest(plain), nodes, expected, files, m);
  }

  lemma AllReplaced(plain: Bytes)
    ensures var changes := [Join("c"), Join("d"), Leave("a"), Leave("b")];
      Expected(LETTERS, Run(LETTERS, Rebuild(LETTERS, ["a", "b"]), changes), Digest(plain), 2) == {"c", "d"}
  {
    MembersStepwise();
    Replaced(plain, ["a", "b"], ["c", "d"], [Join("c"), Join("d"), Leave("a"), Leave("b")]);
  }

  lemma Replaced(plain: Bytes, before: seq<string>, after: seq<string>, changes: seq<Change>)
    requires Elements(after) == MembersAfter(Elements(before), changes)
    requires (forall n :: n in Elements(before) + Mentioned(changes) ==> IsLetter(n))
    requires (forall n :: n in after ==> IsLetter(n)) && Distinct(after) && after != []
    ensures var st := Run(LETTERS, Rebuild(LETTERS, before), changes);
      Expected(LETTERS, st, Digest(plain), |after|) == Elements(after)
  {
    LettersCollisionFree(Elements(before) + Mentioned(changes));
    RebuildFollows(LETTERS, before, after, changes);
    AllPlaced(after, Digest(plain), |after|);
  }

  lemma MembersStepwise()
    ensures Elements(["a", "b"]) == {"a", "b"} && Elements(["c", "d"]) == {"c", "d"}
    ensures MembersAfter({"a", "b"}, [Join("c"), Join("d"), Leave("a"), Leave("b")]) == {"c", "d"}
    ensures Mentioned([Join("c"), Join("d"), Leave("a"), Leave("b")]) == {"a", "b", "c", "d"}
  {
    var members := {"a", "b"};
    OneChangeMore(members, [], Join("c"));
    OneChangeMore(members, [Join("c")], Join("d"));
    OneChangeMore(members, [Join("c"), Join("d")], Leave("a"));
    OneChangeMore(members, [Join("c"), Join("d"), Leave("a")], Leave("b"));
    assert [Join("c"), Join("d"), Leave("a")] + [Leave("b")] == [Join("c"), Join("d"), Leave("a"), Leave("b")];
    assert [Join("c"), Join("d")] + [Leave("a")] == [Join("c"), Join("d"), Leave("a")];
    assert [] + [Join("c")] == [Join("c")] && [Join("c")] + [Join("d")] == [Join("c"), Join("d")];
    assert members + {"c"} + {"d"} - {"a"} - {"b"} == {"c", "d"};
  }

  // ---- two objects with the same content ----

  /** Two objects with the same single chunk, both recorded on the same nodes. */
  function TwoRows(plain: Bytes, nodes: set<string>): Tables {
    var row := ObjectRow("user", "untitled", "application/octet-stream", |plain|);
    NO_ROWS.(objects := map[0 := row, 1 := row],
             chunks := map[0 := ChunkRow(0, 0, Digest(plain), |plain|), 1 := ChunkRow(1, 0, Digest(plain), |plain|)],
             locations := map[0 := nodes, 1 := nodes])
  }

  /** The same content uploaded once more, to the same nodes, as a second object. */
  ghost predicate UploadedAgain(run: UploadRun, plain: Bytes, nodes: seq<string>, files: Files, files': Files) {
    var x := Site(Prefixing(), LETTERS, Rebuild(LETTERS, nodes), |nodes|);
    var t, t' := OneRow(Prefixing(), plain, Elements(nodes)), TwoRows(plain, Elements(nodes));
    && IsUploadRun(x, run, files, files') && run.chunks == [plain] && Answers201(x, run.chunks, run.nonces, run.trace)
    && Uploaded(x, t, t', 1, t'.objects[1], run.chunks) && RecordsSaves(t', 1, run.trace)
  }

  lemma SecondRowUploaded(x: Site, plain: Bytes, nodes: set<string>, trace: seq<Save>)
    requires x.codec == Prefixing() && SavedBy(trace, 0) == nodes && |nodes| >= Quorum(x.replicas)
    requires nodes <= Elements(PlacementOf(x, plain))
    ensures var t, t' := OneRow(x.codec, plain, nodes), TwoRows(plain, nodes);
      Uploaded(x, t, t', 1, t'.objects[1], [plain]) && RecordsSaves(t', 1, trace)
  {
    var t' := TwoRows(plain, nodes);
    assert ChunksOf(t', 1) == {1};
    assert Flatten([plain]) == plain;
    assert t'.chunks[1].index == 0 && 0 in ContentOf([plain]);
  }

  lemma SecondUpload(plain: Bytes, nodes: seq<string>, files: Files) returns (run: UploadRun, files': Files)
    requires (forall n :: n in nodes ==> IsLetter(n)) && Distinct(nodes) && |nodes| >= 2
    ensures UploadedAgain(run, plain, nodes, files, files')
    ensures Backed(Digest(plain), Elements(nodes), files', GoodFor(Prefixing()))
  {
    var x := Site(Prefixing(), LETTERS, Rebuild(LETTERS, nodes), |nodes|);
    var trace := SavesOn(Digest(plain), nodes, Seal(Prefixing(), [], plain));
    run, files' := UploadRun([plain], [[]], trace), FilesAfter(files, trace);
    TwoPlaced(x, plain, nodes);
    WholeRun(x, plain, nodes, trace);
    SecondRowUploaded(x, plain, Elements(nodes), trace);
    AllSavedGood(x, plain, nodes, trace, files);
  }

  /** The same file uploaded twice to "a" and "b"; then all nodes are replaced as before, and nothing fails.
      The pass over the first row moves the chunk and deletes the files; the second row finds nothing, and
      stays recorded on nodes that do not have it. */
  lemma SharedFileLost() returns (first: UploadRun, second: UploadRun, files: Files, y: Setting, order: seq<nat>,
                                  passes: seq<RowPass>)
    ensures UploadedTo(first, [7], ["a", "b"], files) && UploadedAgain(second, [7], ["a", "b"], files, y.files)
    ensures
      var changes := [Join("c"), Join("d"), Leave("a"), Leave("b")];
      y == Setting(LETTERS, Run(LETTERS, Rebuild(LETTERS, ["a", "b"]), changes), 2, TwoRows([7], {"a", "b"}), y.files)
    ensures var g := GroupOf(y, Digest([7]));
      && AllGood(g, GoodFor(Prefixing())) && g.current.Keys == {0, 1}
      && AllInTurn(g, order, passes) && IsCalm(passes)
      && Orphaned(g, 1, RecordedAfter(g, order, passes), FilesAfterPasses(g, passes))
  {
    MembersStepwise();
    first, second, files, y, order, passes :=
      SharedLoss([7], ["a", "b"], ["c", "d"], [Join("c"), Join("d"), Leave("a"), Leave("b")]);
  }

  lemma SharedLoss(plain: Bytes, before: seq<string>, after: seq<string>, changes: seq<Change>)
    returns (first: UploadRun, second: UploadRun, files: Files, y: Setting, order: seq<nat>, passes: seq<RowPass>)
    requires (forall n :: n in before ==> IsLetter(n)) && Distinct(before) && |before| >= 2
    requires (forall n :: n in after ==> IsLetter(n)) && Distinct(after) && |after| == |before|
    requires Elements(after) == MembersAfter(Elements(before), changes) && Elements(before) * Elements(after) == {}
    requires forall n :: n in Elements(before) + Mentioned(changes) ==> IsLetter(n)
    ensures UploadedTo(first, plain, before, files) && UploadedAgain(second, plain, before, files, y.files)
    ensures y == Setting(LETTERS, Run(LETTERS, Rebuild(LETTERS, before), changes), |after|,
                         TwoRows(plain, Elements(before)), y.files)
    ensures var g := GroupOf(y, Digest(plain));
      && AllGood(g, GoodFor(Prefixing())) && g.current.Keys == {0, 1}
      && AllInTurn(g, order, passes) && IsCalm(passes)
      && Orphaned(g, 1, RecordedAfter(g, order, passes), FilesAfterPasses(g, passes))
  {
    var files';
    first, files := SomeUpload(plain, before);
    second, files' := SecondUpload(plain, before, files);
    Replaced(plain, before, after, changes);
    y := Setting(LETTERS, Run(LETTERS, Rebuild(LETTERS, before), changes), |after|,
                 TwoRows(plain, Elements(before)), files');
    assert before[0] in Elements(before);
    order, passes := SecondOrphaned(y, plain, Elements(before), before[0]);
  }

  lemma SecondOrphaned(y: Setting, plain: Bytes, nodes: set<string>, n: string)
    returns (order: seq<nat>, passes: seq<RowPass>)
    requires y.t == TwoRows(plain, nodes) && n in nodes && nodes * ExpectedFor(y, Digest(plain)) == {}
    requires Backed(Digest(plain), nodes, y.files, GoodFor(Prefixing()))
    ensures var g := GroupOf(y, Digest(plain));
      && AllGood(g, GoodFor(Prefixing())) && g.current.Keys == {0, 1}
      && AllInTurn(g, order, passes) && IsCalm(passes)
      && Orphaned(g, 1, RecordedAfter(g, order, passes), FilesAfterPasses(g, passes))
  {
    var g := GroupOf(y, Digest(plain));
    assert g.current == map[0 := nodes, 1 := nodes];
    order, passes := SecondOfTwo(g, plain, nodes, n);
  }

  lemma SecondOfTwo(g: Group, plain: Bytes, nodes: set<string>, n: string)
    returns (order: seq<nat>, passes: seq<RowPass>)
    requires g.hash == Digest(plain) && g.current == map[0 := nodes, 1 := nodes] && n in nodes
    requires nodes * g.expected == {} && Backed(Digest(plain), nodes, g.files, GoodFor(Prefixing()))
    ensures AllGood(g, GoodFor(Prefixing())) && AllInTurn(g, order, passes) && IsCalm(passes)
    ensures Orphaned(g, 1, RecordedAfter(g, order, passes), FilesAfterPasses(g, passes))
  {
    assert Open(Prefixing(), []) == None;
    assert Digest(plain)[0] == 'd';
    assert !SafeRow(g, 1) by {
      assert forall m :: m in g.current[1] ==> 0 in g.current && m in g.current[0];
    }
    order, passes := UnsafeRowOrphaned(g, GoodFor(Prefixing()), 1);
  }

  // ---- a bad replica beside a good one ----

  lemma FirstPlaced(cfg: Config, st: RingState, node: string, h: Pos, count: int)
    requires Inv(cfg, st) && node in st.members && CrossFree(cfg, st.members, node) && cfg.vNodes >= 1
    requires Position(cfg, node, 0) == h && count >= 1
    ensures Place(st, h, count) != [] && Place(st, h, count)[0] == node
  {
    MemberOwnsItsPositions(cfg, st, node, 0);
    FirstOwner(st, h);
    PlacementPrefix(st, h, 1, count);
  }

  /** "c" joins "a" and "b": it comes first in the chunk's placement, one of the two stays, the other drops. */
  lemma OneStays(plain: Bytes) returns (stays: string, drops: string)
    ensures {stays, drops} == {"a", "b"} && stays != drops
    ensures Expected(LETTERS, Apply(LETTERS, Rebuild(LETTERS, ["a", "b"]), Join("c")), Digest(plain), 2) == {stays, "c"}
  {
    var before := ["a", "b"];
    assert Elements(before) == {"a", "b"};
    stays, drops := StaysOf(plain, before, "c");
  }

  lemma StaysOf(plain: Bytes, before: seq<string>, c: string) returns (stays: string, drops: string)
    requires |before| == 2 && Distinct(before) && c !in before && c == "c" && forall n :: n in before ==> IsLetter(n)
    ensures Elements(before) == {stays, drops} && stays != drops
    ensures Expected(LETTERS, Apply(LETTERS, Rebuild(LETTERS, before), Join(c)), Digest(plain), 2) == {stays, c}
  {
    var st, h := Rebuild(LETTERS, before), LetterHash(Digest(plain));
    BothPlaced(st, h, plain, before);
    assert h == 3000 by {
      NotALabel(plain);
    }
    FirstAfterJoin(st, h, c);
    stays, drops := InsertedFirst(Place(st, h, 2), Place(Add(LETTERS, st, c), h, 2), c);
  }

  lemma NotALabel(plain: Bytes)
    ensures LetterHash(Digest(plain)) == 3000
  {
  }

  lemma BothPlaced(st: RingState, h: Pos, plain: Bytes, before: seq<string>)
    requires |before| == 2 && Distinct(before) && forall n :: n in before ==> IsLetter(n)
    requires st == Rebuild(LETTERS, before) && h == LetterHash(Digest(plain))
    ensures Inv(LETTERS, st) && st.members == Elements(before)
    ensures |Place(st, h, 2)| == 2 && Distinct(Place(st, h, 2)) && Elements(Place(st, h, 2)) == Elements(before)
  {
    LetterRing(before);
    AllPlaced(before, Digest(plain), 2);
    PlacementDistinct(st, h, 2);
  }

  lemma FirstAfterJoin(st: RingState, h: Pos, c: string)
    requires Inv(LETTERS, st) && c == "c" && c !in st.members && h == 3000
    requires forall n :: n in st.members ==> IsLetter(n)
    ensures var now := Place(Add(LETTERS, st, c), h, 2);
      Inserted(Place(st, h, 2), now, c, 2) && now != [] && now[0] == c
  {
    var nodes := st.members + {c};
    LettersCollisionFree(nodes);
    CollisionFreeIsExclusive(LETTERS, nodes, nodes, c);
    JoinDisruption(LETTERS, st, c, h, 2);
    AddKeepsInv(LETTERS, st, c);
    LetterPosition(c, 0);
    FirstPlaced(LETTERS, Add(LETTERS, st, c), c, h, 2);
  }

  lemma InsertedFirst(was: seq<string>, now: seq<string>, c: string) returns (stays: string, drops: string)
    requires |was| == 2 && Distinct(was) && Inserted(was, now, c, 2) && now != [] && now[0] == c
    ensures Elements(was) == {stays, drops} && stays != drops && Elements(now) == {stays, c}
  {
    stays, drops := was[0], was[1];
    var k :| 0 <= k <= |was| && now == TakeCount(was[..k] + [c] + was[k..], 2);
    assert k == 0;
    assert was[..0] + [c] + was[0..] == [c, stays, drops];
    assert now == [c, stays];
    assert was == [stays, drops];
  }

  /** Nothing fails, one of two replicas is good, and yet only corrupt copies are left: the replica that stays
      is the corrupt one, it answers first, and the good one is retired. */
  lemma CorruptionSpreads() returns (files: Files, p: RowPass)
    ensures p.expected == Expected(LETTERS, Apply(LETTERS, Rebuild(LETTERS, ["a", "b"]), Join("c")), Digest([7]), 2)
    ensures Starts(p, Digest([7]), {"a", "b"}, p.expected, files) && Undisturbed(p)
    ensures HasGood(Digest([7]), {"a", "b"}, files, GoodFor(Prefixing()))
    ensures p.after != {} && !HasGood(Digest([7]), p.after, p.files', GoodFor(Prefixing()))
  {
    var stays, drops := OneStays([7]);
    files, p := Spread([7], stays, drops, "c");
  }

  lemma Spread(plain: Bytes, stays: string, drops: string, c: string) returns (files: Files, p: RowPass)
    requires stays != drops && c != stays && c != drops && plain != [9]
    ensures Starts(p, Digest(plain), {stays, drops}, {stays, c}, files) && Undisturbed(p)
    ensures HasGood(Digest(plain), {stays, drops}, files, GoodFor(Prefixing()))
    ensures p.after == {stays, c} && !HasGood(Digest(plain), p.after, p.files', GoodFor(Prefixing()))
  {
    var hash, bad := Digest(plain), Seal(Prefixing(), [], [9]);
    var sealed := Seal(Prefixing(), [], plain);
    files := map[(stays, hash) := bad, (drops, hash) := sealed];
    PrefixingIsLawful();
    OpenUndoesSeal(Prefixing(), [], plain);
    OpenUndoesSeal(Prefixing(), [], [9]);
    if Digest([9]) == hash {
      DigestsDiffer([9], plain);
    }
    assert GoodAt(hash, drops, files, GoodFor(Prefixing()));
    CalmMovePossible(hash, {stays, drops}, {stays, c}, files, stays);
    p := CalmMove(hash, {stays, drops}, {stays, c}, files, stays);
    assert (stays, hash) in p.files' && p.files'[(stays, hash)] == bad;
    assert (c, hash) in p.files' && p.files'[(c, hash)] == bad;
  }

  // ---- a body with a repeated chunk ----

  /** Two mebibytes of zeros make two equal chunks.  On three nodes, with replication factor 3, there is a run
      that answers 201, after which a single node that is down is enough to lose the first chunk. */
  lemma RepeatedChunkLost() returns (chunks: seq<Bytes>, nonces: seq<Bytes>, trace: seq<Save>, down: set<string>)
    ensures |chunks| == 2 && chunks[0] == chunks[1] && IsSplit(chunks[0] + chunks[1], ChunkSize(1), chunks)
    ensures
      var x := Site(Prefixing(), LETTERS, Rebuild(LETTERS, ["a", "b", "c"]), 3);
      && Answers201(x, chunks, nonces, trace) && |down| == 1 < Quorum(3)
      && !StillThere(x, chunks[0], SavedBy(trace, 0), FilesAfter(map[], trace), down)
  {
    var zeros: Bytes := seq(MEBIBYTE, i => 0);
    chunks := [zeros, zeros];
    TwoPieces(zeros);
    nonces, trace, down := LostWithOneDown(zeros, ["a", "b", "c"]);
  }

  lemma TwoPieces(piece: Bytes)
    requires |piece| == MEBIBYTE
    ensures IsSplit(piece + piece, ChunkSize(1), [piece, piece])
  {
    FlattenAppend([piece], [piece]);
    assert [piece] + [piece] == [piece, piece];
    assert Flatten([piece]) == piece;
  }

  lemma LostWithOneDown(piece: Bytes, nodes: seq<string>)
    returns (nonces: seq<Bytes>, trace: seq<Save>, down: set<string>)
    requires |nodes| == 3 && Distinct(nodes) && forall n :: n in nodes ==> IsLetter(n)
    ensures
      var x := Site(Prefixing(), LETTERS, Rebuild(LETTERS, nodes), 3);
      && Answers201(x, [piece, piece], nonces, trace) && |down| == 1
      && !StillThere(x, piece, SavedBy(trace, 0), FilesAfter(map[], trace), down)
  {
    var x := Site(Prefixing(), LETTERS, Rebuild(LETTERS, nodes), 3);
    TwoPlaced(x, piece, nodes);
    PlacementsAreDistinct(x, Digest(piece));
    assert Digest(piece)[0] == 'd';
    assert Feasible(x, piece);
    var n;
    nonces, trace, n := SpoilingRun(x, [piece, piece], map[], 0, 1);
    down := SavedBy(trace, 0) - {n};
    PrefixingIsLawful();
    EmptyIsLost(x, piece, {n}, n, FilesAfter(map[], trace));
  }
}
