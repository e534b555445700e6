/** The saves of one upload.  Its chunk jobs run at the same time, each saving to all nodes of its placement
    at the same time, so the saves happen in any order.  Jobs for chunks of the same digest write the same
    files, and a failed save may leave anything in its file (internal/storage/disk.go). */
module Saves {
  import opened Sequences
  import opened Cluster
  import opened Content
  import opened Storing

  /** One save that has ended: whose it was, where it went, and what is in the file now, if there is one. */
  datatype Save = Save(job: nat, hash: string, node: string, ok: bool, left: Option<Bytes>)

  ghost function Leave(files: Files, node: string, hash: string, left: Option<Bytes>): Files {
    if left.Some? then files[(node, hash) := left.value] else files - {(node, hash)}
  }

  ghost function FilesAfter(files: Files, trace: seq<Save>): Files {
    if trace == [] then files
    else
      var e := trace[|trace| - 1];
      Leave(FilesAfter(files, trace[..|trace| - 1]), e.node, e.hash, e.left)
  }

  /** The save belongs to one of the jobs; a successful one leaves the job's ciphertext. */
  ghost predicate IsSave(x: Site, chunks: seq<Bytes>, nonces: seq<Bytes>, e: Save)
    requires |nonces| == |chunks|
  {
    && e.job < |chunks| && e.hash == x.codec.hash(chunks[e.job]) && e.node in PlacementFor(x, e.hash)
    && (e.ok ==> e.hash != "" && e.left == Some(Seal(x.codec, nonces[e.job], chunks[e.job])))
  }

  /** Each job saves to a node at most once. */
  ghost predicate IsTrace(x: Site, chunks: seq<Bytes>, nonces: seq<Bytes>, trace: seq<Save>) {
    && |nonces| == |chunks| && (forall e :: e in trace ==> IsSave(x, chunks, nonces, e))
    && forall k, l :: 0 <= k < l < |trace| ==> trace[k].job != trace[l].job || trace[k].node != trace[l].node
  }

  ghost function TriedBy(trace: seq<Save>, job: nat): set<string> {
    set e | e in trace && e.job == job :: e.node
  }

  ghost function SavedBy(trace: seq<Save>, job: nat): set<string> {
    set e | e in trace && e.job == job && e.ok :: e.node
  }

  /** All jobs have saved to all nodes of their placements. */
  ghost predicate IsWhole(x: Site, chunks: seq<Bytes>, nonces: seq<Bytes>, trace: seq<Save>) {
    && IsTrace(x, chunks, nonces, trace)
    && forall i: nat :: i < |chunks| ==> TriedBy(trace, i) == Elements(PlacementOf(x, chunks[i]))
  }

  /** What the upload needs in order to answer 201. */
  ghost predicate AllQuorate(x: Site, chunks: seq<Bytes>, trace: seq<Save>) {
    forall i: nat :: i < |chunks| ==> PlacementOf(x, chunks[i]) != [] && |SavedBy(trace, i)| >= Quorum(x.replicas)
  }

  ghost predicate FailedAt(trace: seq<Save>, node: string, hash: string) {
    exists e :: e in trace && At(e, node, hash) && !e.ok
  }

  ghost predicate AllFeasible(x: Site, chunks: seq<Bytes>) {
    forall i :: 0 <= i < |chunks| ==> Feasible(x, chunks[i])
  }

  // ---- what a trace leaves in a file ----

  /** The file holds a ciphertext of one of the chunks that have this digest. */
  ghost predicate SealedAt(codec: Codec, chunks: seq<Bytes>, node: string, hash: string, files: Files) {
    (node, hash) in files &&
    exists i ::
      0 <= i < |chunks| && codec.hash(chunks[i]) == hash && Open(codec, files[(node, hash)]) == Some(chunks[i])
  }

  ghost predicate At(e: Save, node: string, hash: string) {
    e.node == node && e.hash == hash
  }

  /** A file that nobody saves to is untouched. */
  lemma {:induction false} Untried(trace: seq<Save>, files: Files, node: string, hash: string)
    requires forall e :: e in trace ==> !At(e, node, hash)
    ensures SameAt(files, FilesAfter(files, trace), (node, hash))
  {
    if trace != [] {
      var init, e := trace[..|trace| - 1], trace[|trace| - 1];
      assert forall d :: d in init ==> d in trace;
      assert !At(e, node, hash);
      Untried(init, files, node, hash);
    }
  }

  lemma OkIsSealed(x: Site, chunks: seq<Bytes>, nonces: seq<Bytes>, files: Files, e: Save)
    requires Lawful(x.codec) && |nonces| == |chunks| && IsSave(x, chunks, nonces, e) && e.ok
    ensures SealedAt(x.codec, chunks, e.node, e.hash, Leave(files, e.node, e.hash, e.left))
  {
  }

  /** A file is sealed if all saves to it, at least one, have succeeded. */
  lemma {:induction false} AllOkSealed(x: Site, chunks: seq<Bytes>, nonces: seq<Bytes>, trace: seq<Save>, files: Files,
                                       node: string, hash: string)
    requires Lawful(x.codec) && |nonces| == |chunks| && forall e :: e in trace ==> IsSave(x, chunks, nonces, e)
    requires !FailedAt(trace, node, hash) && exists e :: e in trace && At(e, node, hash)
    ensures SealedAt(x.codec, chunks, node, hash, FilesAfter(files, trace))
  {
    var init, e := trace[..|trace| - 1], trace[|trace| - 1];
    assert forall d :: d in trace <==> d in init || d == e;
    if At(e, node, hash) {
      OkIsSealed(x, chunks, nonces, FilesAfter(files, init), e);
    } else {
      assert !FailedAt(init, node, hash);
      AllOkSealed(x, chunks, nonces, init, files, node, hash);
    }
  }

  lemma TraceOnce(x: Site, chunks: seq<Bytes>, nonces: seq<Bytes>, trace: seq<Save>, d: Save, e: Save)
    requires IsTrace(x, chunks, nonces, trace) && d in trace && e in trace && d.job == e.job && d.node == e.node
    ensures d == e
  {
  }

  lemma SavedWithin(x: Site, chunks: seq<Bytes>, nonces: seq<Bytes>, trace: seq<Save>, i: nat)
    requires IsTrace(x, chunks, nonces, trace) && i < |chunks|
    ensures SavedBy(trace, i) <= TriedBy(trace, i) <= Elements(PlacementOf(x, chunks[i]))
  {
  }

  /** The only way to fail on a node and still have a quorum is a placement with a node to spare. */
  lemma FailureNeedsRoom(x: Site, chunks: seq<Bytes>, nonces: seq<Bytes>, trace: seq<Save>, e: Save)
    requires IsTrace(x, chunks, nonces, trace) && AllQuorate(x, chunks, trace) && e in trace && !e.ok
    ensures e.node !in SavedBy(trace, e.job) && |PlacementFor(x, e.hash)| > Quorum(x.replicas)
  {
    var saved := SavedBy(trace, e.job);
    if e.node in saved {
      var d :| d in trace && d.job == e.job && d.ok && d.node == e.node;
      TraceOnce(x, chunks, nonces, trace, d, e);
    }
    SavedWithin(x, chunks, nonces, trace, e.job);
    if |PlacementFor(x, e.hash)| <= Quorum(x.replicas) {
      QuorumIsAll(x, chunks[e.job], saved);
      assert false;
    }
  }

  lemma NothingSpoilt(x: Site, chunks: seq<Bytes>, nonces: seq<Bytes>, trace: seq<Save>, i: nat, n: string)
    requires IsTrace(x, chunks, nonces, trace) && AllQuorate(x, chunks, trace) && i < |chunks| && n in SavedBy(trace, i)
    requires RepeatsFit(x, ContentOf(chunks)) || forall e :: e in trace ==> e.ok
    ensures !FailedAt(trace, n, x.codec.hash(chunks[i]))
    ensures exists e :: e in trace && At(e, n, x.codec.hash(chunks[i]))
  {
    var hash := x.codec.hash(chunks[i]);
    forall e | e in trace && At(e, n, hash) ensures e.ok {
      assert IsSave(x, chunks, nonces, e);
      assert ContentOf(chunks)[i] == chunks[i] && ContentOf(chunks)[e.job] == chunks[e.job];
      if !e.ok {
        FailureNeedsRoom(x, chunks, nonces, trace, e);
      }
    }
    var d :| d in trace && d.job == i && d.ok && d.node == n;
    assert IsSave(x, chunks, nonces, d) && At(d, n, hash);
  }

  /** Where every repeated digest has just enough nodes, no job spoils what another one has saved. */
  lemma FitsKept(x: Site, chunks: seq<Bytes>, nonces: seq<Bytes>, trace: seq<Save>, files: Files, i: nat)
    requires Lawful(x.codec) && IsTrace(x, chunks, nonces, trace) && AllQuorate(x, chunks, trace) && i < |chunks|
    requires RepeatsFit(x, ContentOf(chunks)) || forall e :: e in trace ==> e.ok
    ensures OnNodes(x, chunks[i], SavedBy(trace, i), FilesAfter(files, trace))
  {
    forall n | n in SavedBy(trace, i)
      ensures GoodAt(x.codec.hash(chunks[i]), n, FilesAfter(files, trace), GoodFor(x.codec))
    {
      NothingSpoilt(x, chunks, nonces, trace, i, n);
      AllOkSealed(x, chunks, nonces, trace, files, n, x.codec.hash(chunks[i]));
    }
  }

  // ---- traces exist ----

  /** All saves that the jobs make. */
  ghost function AllSaves(x: Site, chunks: seq<Bytes>): set<(nat, string)> {
    set i: nat, n | i < |chunks| && n in PlacementOf(x, chunks[i]) :: (i, n)
  }

  ghost function Picked(saves: set<(nat, string)>, job: nat): set<string> {
    set s | s in saves && s.0 == job :: s.1
  }

  /** A save that succeeds if it is one of `oks`, and otherwise leaves the file empty. */
  ghost function SaveOf(x: Site, chunks: seq<Bytes>, nonces: seq<Bytes>, oks: set<(nat, string)>,
                        s: (nat, string)): Save
    requires s.0 < |chunks| == |nonces|
  {
    Save(s.0, x.codec.hash(chunks[s.0]), s.1, s in oks,
         Some(if s in oks then Seal(x.codec, nonces[s.0], chunks[s.0]) else []))
  }

  /** Any choice of saves may be the successful ones, and any of the others may come last. */
  lemma SomeTrace(x: Site, chunks: seq<Bytes>, oks: set<(nat, string)>, last: (nat, string), files: Files)
    returns (nonces: seq<Bytes>, trace: seq<Save>)
    requires oks <= AllSaves(x, chunks) && last in AllSaves(x, chunks) - oks
    requires forall s :: s in oks ==> s.0 < |chunks| && x.codec.hash(chunks[s.0]) != ""
    ensures IsWhole(x, chunks, nonces, trace)
    ensures forall i: nat :: i < |chunks| ==> SavedBy(trace, i) == Picked(oks, i)
    ensures var k := (last.1, x.codec.hash(chunks[last.0]));
      k in FilesAfter(files, trace) && FilesAfter(files, trace)[k] == []
  {
    nonces := seq(|chunks|, i => []);
    var all := AllSaves(x, chunks);
    var first: seq<(nat, string)> := SomeListing(all - {last});
    assert last !in first by {
      assert last !in Elements(first);
    }
    var order: seq<(nat, string)> := first + [last];
    ElementsAppend(first, last);
    assert Elements(order) == all;
    forall k | 0 <= k < |order| ensures order[k] in all && order[k].0 < |chunks| {
      assert order[k] in Elements(order);
    }
    trace := seq(|order|, k requires 0 <= k < |order| => SaveOf(x, chunks, nonces, oks, order[k]));
    TraceOfOrder(x, chunks, nonces, oks, order, trace);
  }

  lemma TraceOfOrder(x: Site, chunks: seq<Bytes>, nonces: seq<Bytes>, oks: set<(nat, string)>,
                     order: seq<(nat, string)>, trace: seq<Save>)
    requires |nonces| == |chunks| && Lists(order, AllSaves(x, chunks)) && oks <= AllSaves(x, chunks)
    requires forall s :: s in oks ==> s.0 < |chunks| && x.codec.hash(chunks[s.0]) != ""
    requires |trace| == |order| && forall k :: 0 <= k < |order| ==>
      order[k].0 < |chunks| && trace[k] == SaveOf(x, chunks, nonces, oks, order[k])
    ensures IsWhole(x, chunks, nonces, trace)
    ensures forall i: nat :: i < |chunks| ==> SavedBy(trace, i) == Picked(oks, i)
  {
    forall s | s in AllSaves(x, chunks) ensures s.0 < |chunks| && SaveOf(x, chunks, nonces, oks, s) in trace {
      assert s in Elements(order);
      var k :| 0 <= k < |order| && order[k] == s;
      assert trace[k] == SaveOf(x, chunks, nonces, oks, s);
    }
    forall e | e in trace
      ensures (e.job, e.node) in AllSaves(x, chunks) && e == SaveOf(x, chunks, nonces, oks, (e.job, e.node))
    {
      var k :| 0 <= k < |trace| && trace[k] == e;
      assert order[k] in Elements(order);
    }
    forall i: nat | i < |chunks|
      ensures TriedBy(trace, i) == Elements(PlacementOf(x, chunks[i])) && SavedBy(trace, i) == Picked(oks, i)
    {
      forall n | n in PlacementOf(x, chunks[i]) ensures n in TriedBy(trace, i) {
        assert (i, n) in AllSaves(x, chunks);
        assert SaveOf(x, chunks, nonces, oks, (i, n)) in trace;
      }
      forall n | n in Picked(oks, i) ensures n in SavedBy(trace, i) {
        assert (i, n) in oks;
        assert SaveOf(x, chunks, nonces, oks, (i, n)) in trace;
      }
    }
  }

  // ---- repeated digests ----

  /** A run of all jobs after which an upload answers 201. */
  ghost predicate Answers201(x: Site, chunks: seq<Bytes>, nonces: seq<Bytes>, trace: seq<Save>) {
    IsWhole(x, chunks, nonces, trace) && AllQuorate(x, chunks, trace)
  }

  /** All of these nodes hold the chunk, in that their files open to bytes of its digest. */
  ghost predicate OnNodes(x: Site, chunk: Bytes, nodes: set<string>, files: Files) {
    Backed(x.codec.hash(chunk), nodes, files, GoodFor(x.codec))
  }

  /** After every such run, every node recorded for a chunk holds it. */
  ghost predicate AlwaysOnNodes(x: Site, chunks: seq<Bytes>, files: Files) {
    forall nonces, trace, i: nat :: Answers201(x, chunks, nonces, trace) && i < |chunks| ==>
      OnNodes(x, chunks[i], SavedBy(trace, i), FilesAfter(files, trace))
  }

  /** Some recorded node that is up holds the chunk. */
  ghost predicate StillThere(x: Site, chunk: Bytes, nodes: set<string>, files: Files, down: set<string>) {
    exists n :: n in nodes && n !in down && OnNodes(x, chunk, {n}, files)
  }

  /** After every such run, fewer nodes than a quorum may fail. */
  ghost predicate AlwaysDurable(x: Site, chunks: seq<Bytes>, files: Files) {
    forall nonces, trace, i: nat, down ::
      Answers201(x, chunks, nonces, trace) && i < |chunks| && |down| < Quorum(x.replicas) ==>
      StillThere(x, chunks[i], SavedBy(trace, i), FilesAfter(files, trace), down)
  }

  /** What can be told before the upload: no 201 is possible, or each repeated digest has just enough nodes. */
  ghost predicate RepeatsHarmless(x: Site, chunks: seq<Bytes>) {
    AllFeasible(x, chunks) ==> RepeatsFit(x, ContentOf(chunks))
  }

  lemma QuorateIsFeasible(x: Site, chunks: seq<Bytes>, nonces: seq<Bytes>, trace: seq<Save>)
    requires Answers201(x, chunks, nonces, trace) && Quorum(x.replicas) >= 1
    ensures AllFeasible(x, chunks)
  {
    forall i: nat | i < |chunks| ensures Feasible(x, chunks[i]) {
      PlacementsAreDistinct(x, x.codec.hash(chunks[i]));
      SavedWithin(x, chunks, nonces, trace, i);
      SubsetSize(SavedBy(trace, i), Elements(PlacementOf(x, chunks[i])));
      var n :| n in SavedBy(trace, i);
      var e :| e in trace && e.job == i && e.ok && e.node == n;
      assert IsSave(x, chunks, nonces, e);
    }
  }

  lemma SubsetOfSize(s: set<string>, n: string, k: nat) returns (t: set<string>)
    requires n in s && 1 <= k <= |s|
    ensures t <= s && n in t && |t| == k
  {
    t := {n};
    while |t| < k
      invariant t <= s && n in t && |t| <= k
      decreases k - |t|
    {
      if s <= t {
        SubsetSize(s, t);
        assert false;
      }
      var m :| m in s && m !in t;
      t := t + {m};
    }
  }

  /** The saves that succeed in the bad run: all but the last one, of job j on node n, and for job i only
      those on the chosen nodes. */
  ghost function AllBut(x: Site, chunks: seq<Bytes>, i: nat, chosen: set<string>, j: nat, n: string)
    : set<(nat, string)>
  {
    set s | s in AllSaves(x, chunks) && s != (j, n) && (s.0 == i ==> s.1 in chosen)
  }

  lemma AllButPicked(x: Site, chunks: seq<Bytes>, i: nat, chosen: set<string>, j: nat, n: string, k: nat)
    requires i < |chunks| && j < |chunks| && i != j && k < |chunks|
    requires chosen <= Elements(PlacementOf(x, chunks[i])) && n in PlacementOf(x, chunks[j])
    ensures Picked(AllBut(x, chunks, i, chosen, j, n), k) ==
      if k == i then chosen
      else if k == j then Elements(PlacementOf(x, chunks[k])) - {n}
      else Elements(PlacementOf(x, chunks[k]))
  {
    var saves := AllBut(x, chunks, i, chosen, j, n);
    forall m ensures m in Picked(saves, k) <==> (k, m) in saves {
    }
  }

  /** The bad run.  Two chunks have the same digest, and its placement has a node to spare.  One job saves
      on a bare quorum; then the other fails on one of those nodes, leaves the file empty, and still has
      its quorum elsewhere. */
  lemma SpoilingRun(x: Site, chunks: seq<Bytes>, files: Files, i: nat, j: nat)
    returns (nonces: seq<Bytes>, trace: seq<Save>, n: string)
    requires AllFeasible(x, chunks) && Quorum(x.replicas) >= 1 && i < |chunks| && j < |chunks| && i != j
    requires x.codec.hash(chunks[i]) == x.codec.hash(chunks[j])
    requires |PlacementOf(x, chunks[i])| > Quorum(x.replicas)
    ensures Answers201(x, chunks, nonces, trace) && n in SavedBy(trace, i) && |SavedBy(trace, i)| == Quorum(x.replicas)
    ensures var k := (n, x.codec.hash(chunks[i]));
      k in FilesAfter(files, trace) && FilesAfter(files, trace)[k] == []
  {
    var placement := PlacementOf(x, chunks[i]);
    n := placement[0];
    PlacementsAreDistinct(x, x.codec.hash(chunks[i]));
    var chosen := SubsetOfSize(Elements(placement), n, Quorum(x.replicas));
    var oks := AllBut(x, chunks, i, chosen, j, n);
    assert (j, n) in AllSaves(x, chunks);
    nonces, trace := SomeTrace(x, chunks, oks, (j, n), files);
    forall k: nat | k < |chunks|
      ensures PlacementOf(x, chunks[k]) != [] && |SavedBy(trace, k)| >= Quorum(x.replicas)
      ensures k == i ==> SavedBy(trace, k) == chosen
    {
      PlacementsAreDistinct(x, x.codec.hash(chunks[k]));
      AllButPicked(x, chunks, i, chosen, j, n, k);
    }
  }

  lemma EmptyIsLost(x: Site, chunk: Bytes, nodes: set<string>, n: string, files: Files)
    requires Lawful(x.codec) && n in nodes
    requires (n, x.codec.hash(chunk)) in files && files[(n, x.codec.hash(chunk))] == []
    ensures !OnNodes(x, chunk, nodes, files)
  {
    assert Open(x.codec, []) == None;
  }

  /** Repeated digests and durability.  After every 201 all recorded nodes hold their chunks, and fewer nodes
      than a quorum may fail without harm, exactly if no 201 is possible or each digest that occurs twice has
      just enough nodes in its placement. */
  lemma DurableIff(x: Site, chunks: seq<Bytes>, files: Files)
    requires Lawful(x.codec) && Quorum(x.replicas) >= 1
    ensures AlwaysOnNodes(x, chunks, files) <==> RepeatsHarmless(x, chunks)
    ensures AlwaysDurable(x, chunks, files) <==> RepeatsHarmless(x, chunks)
  {
    if RepeatsHarmless(x, chunks) {
      HarmlessKept(x, chunks, files);
      KeptDurable(x, chunks, files);
    } else {
      var content := ContentOf(chunks);
      var i, j :| i in content && j in content && i != j &&
        x.codec.hash(content[i]) == x.codec.hash(content[j]) && |PlacementOf(x, content[i])| > Quorum(x.replicas);
      var nonces, trace, n := SpoilingRun(x, chunks, files, i, j);
      var saved := SavedBy(trace, i);
      EmptyIsLost(x, chunks[i], saved, n, FilesAfter(files, trace));
      EmptyIsLost(x, chunks[i], {n}, n, FilesAfter(files, trace));
      assert |saved - {n}| < Quorum(x.replicas);
      assert !StillThere(x, chunks[i], saved, FilesAfter(files, trace), saved - {n});
    }
  }

  lemma HarmlessKept(x: Site, chunks: seq<Bytes>, files: Files)
    requires Lawful(x.codec) && Quorum(x.replicas) >= 1
    requires RepeatsHarmless(x, chunks)
    ensures AlwaysOnNodes(x, chunks, files)
  {
    forall nonces, trace, i: nat | Answers201(x, chunks, nonces, trace) && i < |chunks|
      ensures OnNodes(x, chunks[i], SavedBy(trace, i), FilesAfter(files, trace))
    {
      QuorateIsFeasible(x, chunks, nonces, trace);
      FitsKept(x, chunks, nonces, trace, files, i);
    }
  }

  lemma KeptDurable(x: Site, chunks: seq<Bytes>, files: Files)
    requires AlwaysOnNodes(x, chunks, files)
    ensures AlwaysDurable(x, chunks, files)
  {
    forall nonces, trace, i: nat, down |
      Answers201(x, chunks, nonces, trace) && i < |chunks| && |down| < Quorum(x.replicas)
      ensures StillThere(x, chunks[i], SavedBy(trace, i), FilesAfter(files, trace), down)
    {
      var n := OneUp(SavedBy(trace, i), down);
      assert OnNodes(x, chunks[i], SavedBy(trace, i), FilesAfter(files, trace));
      assert OnNodes(x, chunks[i], {n}, FilesAfter(files, trace));
    }
  }

  // ---- replicas that were stored before ----

  ghost function HashesOf(codec: Codec, chunks: seq<Bytes>): set<string> {
    set i | 0 <= i < |chunks| :: codec.hash(chunks[i])
  }

  lemma OtherDigests(x: Site, chunks: seq<Bytes>, nonces: seq<Bytes>, trace: seq<Save>, files: Files)
    requires IsTrace(x, chunks, nonces, trace)
    ensures OthersSame(files, FilesAfter(files, trace), HashesOf(x.codec, chunks))
  {
    forall n, h | h !in HashesOf(x.codec, chunks) ensures SameAt(files, FilesAfter(files, trace), (n, h)) {
      forall e | e in trace ensures !At(e, n, h) {
        assert IsSave(x, chunks, nonces, e);
      }
      Untried(trace, files, n, h);
    }
  }

  /** A good file can only be spoilt by a save that fails on it. */
  lemma GoodUnlessFailed(x: Site, chunks: seq<Bytes>, nonces: seq<Bytes>, trace: seq<Save>, files: Files, n: string,
                         hash: string)
    requires Lawful(x.codec) && IsTrace(x, chunks, nonces, trace)
    requires GoodAt(hash, n, files, GoodFor(x.codec)) && !FailedAt(trace, n, hash)
    ensures GoodAt(hash, n, FilesAfter(files, trace), GoodFor(x.codec))
  {
    if exists e :: e in trace && At(e, n, hash) {
      AllOkSealed(x, chunks, nonces, trace, files, n, hash);
    } else {
      Untried(trace, files, n, hash);
    }
  }

  /** A good file on a node stays good through every upload that answers 201. */
  ghost predicate KeptBy201(x: Site, chunks: seq<Bytes>, files: Files, n: string, hash: string) {
    forall nonces, trace :: Answers201(x, chunks, nonces, trace) ==>
      GoodAt(hash, n, FilesAfter(files, trace), GoodFor(x.codec))
  }

  /** The same, whatever the upload answers. */
  ghost predicate KeptByAny(x: Site, chunks: seq<Bytes>, files: Files, n: string, hash: string) {
    forall nonces, trace :: IsWhole(x, chunks, nonces, trace) ==>
      GoodAt(hash, n, FilesAfter(files, trace), GoodFor(x.codec))
  }

  /** The whole run in which just these saves do not succeed, one of them last, leaves that file empty. */
  lemma EmptyingRun(x: Site, chunks: seq<Bytes>, files: Files, j: nat, n: string, oks: set<(nat, string)>)
    returns (nonces: seq<Bytes>, trace: seq<Save>)
    requires Lawful(x.codec) && j < |chunks| && n in PlacementOf(x, chunks[j])
    requires oks <= AllSaves(x, chunks) - {(j, n)} && (oks != {} ==> AllFeasible(x, chunks))
    ensures IsWhole(x, chunks, nonces, trace)
    ensures forall i: nat :: i < |chunks| ==> SavedBy(trace, i) == Picked(oks, i)
    ensures !GoodAt(x.codec.hash(chunks[j]), n, FilesAfter(files, trace), GoodFor(x.codec))
  {
    assert (j, n) in AllSaves(x, chunks);
    forall s | s in oks ensures s.0 < |chunks| && x.codec.hash(chunks[s.0]) != "" {
      assert Feasible(x, chunks[s.0]);
    }
    nonces, trace := SomeTrace(x, chunks, oks, (j, n), files);
    assert !GoodFor(x.codec)(x.codec.hash(chunks[j]), []) by {
      assert Open(x.codec, []) == None;
    }
  }

  lemma AllButOne(x: Site, chunks: seq<Bytes>, j: nat, n: string, k: nat)
    requires j < |chunks| && k < |chunks| && n in PlacementOf(x, chunks[j])
    ensures Picked(AllSaves(x, chunks) - {(j, n)}, k) ==
      if k == j then Elements(PlacementOf(x, chunks[k])) - {n} else Elements(PlacementOf(x, chunks[k]))
  {
    var saves := AllSaves(x, chunks) - {(j, n)};
    forall m ensures m in Picked(saves, k) <==> (k, m) in saves {
    }
  }

  /** An upload can spoil what another object has stored under one of its digests.  A replica is out of
      danger from uploads that answer 201 exactly if no 201 is possible, the node is outside the digest's
      present placement, or that placement has just enough nodes; and from all uploads exactly if the node is
      outside the placement. */
  lemma StoredReplicaIff(x: Site, chunks: seq<Bytes>, files: Files, n: string, hash: string)
    requires Lawful(x.codec) && Quorum(x.replicas) >= 1 && hash in HashesOf(x.codec, chunks)
    requires GoodAt(hash, n, files, GoodFor(x.codec))
    ensures KeptBy201(x, chunks, files, n, hash) <==>
      (AllFeasible(x, chunks) ==> n !in PlacementFor(x, hash) || |PlacementFor(x, hash)| <= Quorum(x.replicas))
    ensures KeptByAny(x, chunks, files, n, hash) <==> n !in PlacementFor(x, hash)
  {
    if n in PlacementFor(x, hash) {
      var j :| 0 <= j < |chunks| && x.codec.hash(chunks[j]) == hash;
      var nonces, trace := EmptyingRun(x, chunks, files, j, n, {});
      if AllFeasible(x, chunks) && |PlacementFor(x, hash)| > Quorum(x.replicas) {
        SpoiltBy201(x, chunks, files, j, n);
      } else {
        NoFailureAt201(x, chunks, files, n, hash);
      }
    } else {
      forall nonces, trace | IsTrace(x, chunks, nonces, trace)
        ensures GoodAt(hash, n, FilesAfter(files, trace), GoodFor(x.codec))
      {
        forall e | e in trace ensures !At(e, n, hash) {
          assert IsSave(x, chunks, nonces, e);
        }
        GoodUnlessFailed(x, chunks, nonces, trace, files, n, hash);
      }
    }
  }

  lemma SpoiltBy201(x: Site, chunks: seq<Bytes>, files: Files, j: nat, n: string)
    requires Lawful(x.codec) && Quorum(x.replicas) >= 1 && AllFeasible(x, chunks) && j < |chunks|
    requires n in PlacementOf(x, chunks[j]) && |PlacementOf(x, chunks[j])| > Quorum(x.replicas)
    ensures !KeptBy201(x, chunks, files, n, x.codec.hash(chunks[j]))
  {
    var nonces, trace := EmptyingRun(x, chunks, files, j, n, AllSaves(x, chunks) - {(j, n)});
    forall k: nat | k < |chunks|
      ensures PlacementOf(x, chunks[k]) != [] && |SavedBy(trace, k)| >= Quorum(x.replicas)
    {
      assert Feasible(x, chunks[k]);
      PlacementsAreDistinct(x, x.codec.hash(chunks[k]));
      AllButOne(x, chunks, j, n, k);
    }
    assert Answers201(x, chunks, nonces, trace);
  }

  lemma NoFailureAt201(x: Site, chunks: seq<Bytes>, files: Files, n: string, hash: string)
    requires Lawful(x.codec) && Quorum(x.replicas) >= 1 && GoodAt(hash, n, files, GoodFor(x.codec))
    requires AllFeasible(x, chunks) ==> |PlacementFor(x, hash)| <= Quorum(x.replicas)
    ensures KeptBy201(x, chunks, files, n, hash)
  {
    forall nonces, trace | Answers201(x, chunks, nonces, trace)
      ensures GoodAt(hash, n, FilesAfter(files, trace), GoodFor(x.codec))
    {
      QuorateIsFeasible(x, chunks, nonces, trace);
      forall e | e in trace && At(e, n, hash) ensures e.ok {
        if !e.ok {
          FailureNeedsRoom(x, chunks, nonces, trace, e);
        }
      }
      GoodUnlessFailed(x, chunks, nonces, trace, files, n, hash);
    }
  }
}
