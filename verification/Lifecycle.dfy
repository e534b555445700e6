/** An object through its life: uploaded, carried through changes of membership and a pass of the
    rebalancer, and downloaded. */
module Lifecycle {
  import opened Sequences
  import opened Ring
  import opened RingInvariant
  import opened RingTheory
  import opened RingDisruption
  import opened Membership
  import opened Cluster
  import opened Tables
  import opened Repository
  import opened SharedDigests
  import opened RebalanceRuns
  import opened Content
  import opened Storing
  import opened Saves
  import opened UploadJobs
  import opened ObjectHandler

  // ---- an upload beside older rows ----

  lemma RowOfChunk(x: Site, t: Tables, t': Tables, objectId: nat, row: ObjectRow, chunks: seq<Bytes>, c: nat)
    requires Uploaded(x, t, t', objectId, row, chunks) && c in ChunksOf(t', objectId)
    ensures var i := t'.chunks[c].index;
      0 <= i < |chunks| && t'.chunks[c].hash == x.codec.hash(chunks[i])
  {
  }

  /** No save of the run has failed on a file that some row records. */
  ghost predicate Unspoilt(t: Tables, trace: seq<Save>) {
    forall c, n :: c in t.chunks && n in NodesOf(t, c) ==> !FailedAt(trace, n, t.chunks[c].hash)
  }

  /** Every recorded replica of this digest is good. */
  ghost predicate DigestBacked(t: Tables, hash: string, files: Files, good: (string, Bytes) -> bool) {
    forall c :: c in t.chunks && t.chunks[c].hash == hash ==> Backed(hash, NodesOf(t, c), files, good)
  }

  /** An upload leaves the replicas of all rows good, its own and older ones, also those of the same digests,
      if no save has failed on a recorded file. */
  lemma UploadKeepsBacked(x: Site, t: Tables, t': Tables, objectId: nat, row: ObjectRow, run: UploadRun,
                          files: Files, files': Files, hash: string)
    requires Lawful(x.codec) && IsUploadRun(x, run, files, files') && Unspoilt(t', run.trace)
    requires Uploaded(x, t, t', objectId, row, run.chunks) && RecordsSaves(t', objectId, run.trace)
    requires DigestBacked(t, hash, files, GoodFor(x.codec))
    ensures DigestBacked(t', hash, files', GoodFor(x.codec))
  {
    forall c | c in t'.chunks && t'.chunks[c].hash == hash
      ensures Backed(hash, NodesOf(t', c), files', GoodFor(x.codec))
    {
      forall n | n in NodesOf(t', c) ensures GoodAt(hash, n, files', GoodFor(x.codec)) {
        assert !FailedAt(run.trace, n, hash);
        if c in ChunksOf(t', objectId) {
          OwnReplica(x, t, t', objectId, row, run, files, c, n);
        } else {
          OlderRow(x, t, t', objectId, row, run.chunks, c);
          assert Backed(hash, NodesOf(t, c), files, GoodFor(x.codec));
          GoodUnlessFailed(x, run.chunks, run.nonces, run.trace, files, n, hash);
        }
      }
    }
  }

  lemma OlderRow(x: Site, t: Tables, t': Tables, objectId: nat, row: ObjectRow, chunks: seq<Bytes>, c: nat)
    requires Uploaded(x, t, t', objectId, row, chunks) && c in t'.chunks && c !in ChunksOf(t', objectId)
    ensures c in t.chunks && t'.chunks[c] == t.chunks[c] && NodesOf(t', c) == NodesOf(t, c)
  {
  }

  lemma OwnReplica(x: Site, t: Tables, t': Tables, objectId: nat, row: ObjectRow, run: UploadRun, files: Files,
                   c: nat, n: string)
    requires Lawful(x.codec) && IsTrace(x, run.chunks, run.nonces, run.trace)
    requires Uploaded(x, t, t', objectId, row, run.chunks) && RecordsSaves(t', objectId, run.trace)
    requires c in ChunksOf(t', objectId) && n in NodesOf(t', c) && !FailedAt(run.trace, n, t'.chunks[c].hash)
    ensures GoodAt(t'.chunks[c].hash, n, FilesAfter(files, run.trace), GoodFor(x.codec))
  {
    RowOfChunk(x, t, t', objectId, row, run.chunks, c);
    assert n in SavedBy(run.trace, t'.chunks[c].index);
    var e :| e in run.trace && e.job == t'.chunks[c].index && e.ok && e.node == n;
    assert IsSave(x, run.chunks, run.nonces, e) && At(e, n, t'.chunks[c].hash);
    AllOkSealed(x, run.chunks, run.nonces, run.trace, files, n, t'.chunks[c].hash);
  }

  // ---- changes of membership, and a pass ----

  /** Nodes that are down do not count if they have left; the others, the nodes that have left, and the nodes
      that have come are together fewer than a quorum. */
  ghost predicate Survivable(down: set<string>, was: set<string>, now: set<string>, q: int) {
    |down - (was - now)| + |was - now| + |now - was| < q
  }

  /** One node that leaves may be the one that is down, and fewer others than a quorum less one; when a node
      joins, fewer than a quorum less one may be down. */
  lemma OneChangeSurvivable(was: set<string>, change: Change, down: set<string>, q: int)
    requires change.Leave? ==> |down - {change.node}| < q - 1
    requires change.Join? ==> |down| < q - 1
    ensures Survivable(down, was, MemberStep(was, change), q)
  {
  }

  /** Some node that recorded a chunk is still expected to, and is up. */
  lemma OneUpAfterChanges(cfg: Config, a: seq<string>, b: seq<string>, hash: string, replicas: int,
                          recorded: set<string>, down: set<string>, q: int)
    returns (n: string)
    requires CollisionFree(cfg, Elements(a) + Elements(b)) && Survivable(down, Elements(a), Elements(b), q)
    requires recorded <= Expected(cfg, Rebuild(cfg, a), hash, replicas) && |recorded| >= q
    ensures n in recorded * Expected(cfg, Rebuild(cfg, b), hash, replicas) && n !in down
  {
    var was, now := Expected(cfg, Rebuild(cfg, a), hash, replicas), Expected(cfg, Rebuild(cfg, b), hash, replicas);
    var gone := Elements(a) - Elements(b);
    PlacementLoss(cfg, a, b, cfg.hash(hash), replicas);
    n := OutsideThree(recorded, down - gone, gone, was - now - gone);
  }

  lemma OutsideThree(s: set<string>, a: set<string>, b: set<string>, c: set<string>) returns (n: string)
    requires |a| + |b| + |c| < |s|
    ensures n in s && n !in a && n !in b && n !in c
  {
    if s <= a + b + c {
      SubsetSize(s, a + b + c);
      assert false;
    }
    n :| n in s && n !in a + b + c;
  }

  /** The pass after an upload: the ring has been rebuilt from another listing. */
  ghost predicate FollowsUpload(x: Site, a: seq<string>, y: Setting, b: seq<string>) {
    x.st == Rebuild(x.cfg, a) && y.cfg == x.cfg && y.st == Rebuild(x.cfg, b) && y.replicas == x.replicas
  }

  /** A pass after changes of membership leaves every chunk of the object on all but as many of its nodes as
      nodes have come or gone. */
  lemma StillRecorded(x: Site, a: seq<string>, y: Setting, b: seq<string>, t: Tables, objectId: nat, row: ObjectRow,
                      chunks: seq<Bytes>, t': Tables)
    requires FollowsUpload(x, a, y, b) && CollisionFree(x.cfg, Elements(a) + Elements(b))
    requires Uploaded(x, t, y.t, objectId, row, chunks) && t'.chunks == y.t.chunks && AllToward(y, t')
    ensures RecordedOn(t', objectId, Quorum(x.replicas) - |ComeOrGone(Elements(a), Elements(b))|)
  {
    forall c | c in ChunksOf(t', objectId)
      ensures |NodesOf(t', c)| >= Quorum(x.replicas) - |ComeOrGone(Elements(a), Elements(b))|
    {
      assert c in ChunksOf(y.t, objectId);
      var hash, recorded := y.t.chunks[c].hash, NodesOf(y.t, c);
      RebuildDrift(x.cfg, a, b, x.cfg.hash(hash), x.replicas);
      KeptShare(recorded, Expected(x.cfg, x.st, hash, x.replicas), ExpectedFor(y, hash),
                |ComeOrGone(Elements(a), Elements(b))|);
      SubsetSize(recorded * ExpectedFor(y, hash), NodesOf(t', c));
    }
  }

  /** The replicas that a pass has to leave recorded are good. */
  ghost predicate RetainedGood(y: Setting, codec: Codec, objectId: nat, files: Files) {
    forall c, n :: c in ChunksOf(y.t, objectId) && n in NodesOf(y.t, c) * ExpectedFor(y, y.t.chunks[c].hash) ==>
      GoodAt(y.t.chunks[c].hash, n, files, GoodFor(codec))
  }

  /** Every other row of one of the object's digests records these replicas, too, so that nobody writes them. */
  ghost predicate Undisputed(y: Setting, objectId: nat) {
    forall c, n :: c in ChunksOf(y.t, objectId) && n in NodesOf(y.t, c) * ExpectedFor(y, y.t.chunks[c].hash) ==>
      Anchor(GroupOf(y, y.t.chunks[c].hash), n)
  }

  /** Whatever calls fail during the pass, undisputed replicas stay good. */
  lemma UndisputedRetained(y: Setting, codec: Codec, objectId: nat, files: Files)
    requires OnDisk(codec, y.t, objectId, y.files) && Undisputed(y, objectId) && AnchorsHeld(y, files)
    ensures RetainedGood(y, codec, objectId, files)
  {
  }

  /** All rows of the object's digests have good replicas only, and the object's rows are safe. */
  ghost predicate DigestsReady(y: Setting, codec: Codec, objectId: nat) {
    forall c :: c in ChunksOf(y.t, objectId) ==>
      && DigestBacked(y.t, y.t.chunks[c].hash, y.files, GoodFor(codec)) && y.t.chunks[c].hash != ""
      && NodesOf(y.t, c) * ExpectedFor(y, y.t.chunks[c].hash) != {}
  }

  /** When nothing fails, the object's replicas are all good after the pass. */
  lemma CalmRetained(y: Setting, codec: Codec, objectId: nat, t: Tables, files: Files)
    requires Lawful(codec) && DigestsReady(y, codec, objectId) && SafeRowsSettled(y, GoodFor(codec), t, files)
    ensures RetainedGood(y, codec, objectId, files)
  {
    forall c, n | c in ChunksOf(y.t, objectId) && n in NodesOf(y.t, c) * ExpectedFor(y, y.t.chunks[c].hash)
      ensures GoodAt(y.t.chunks[c].hash, n, files, GoodFor(codec))
    {
      var hash := y.t.chunks[c].hash;
      var g := GroupOf(y, hash);
      assert !GoodFor(codec)(hash, []) by {
        assert Open(codec, []) == None;
      }
      assert DigestBacked(y.t, hash, y.files, GoodFor(codec));
      assert AllGood(g, GoodFor(codec));
      assert c in g.current && SafeRow(g, c);
      assert StartsSafe(y, GoodFor(codec), c);
    }
  }

  /** The object is still delivered whole after changes of membership and a pass, although nodes that have
      left, and some others, are down or lie. */
  lemma ObjectSurvives(x: Site, a: seq<string>, y: Setting, b: seq<string>, t: Tables, objectId: nat, row: ObjectRow,
                       chunks: seq<Bytes>, body: Bytes, size: nat, t': Tables, files: Files, rows: seq<Chunk>,
                       answers: Answers, down: set<string>)
    requires FollowsUpload(x, a, y, b) && CollisionFree(x.cfg, Elements(a) + Elements(b))
    requires Survivable(down, Elements(a), Elements(b), Quorum(x.replicas))
    requires Uploaded(x, t, y.t, objectId, row, chunks) && IsSplit(body, size, chunks)
    requires Valid(t') && t' == y.t.(locations := t'.locations) && AllToward(y, t')
    requires RetainedGood(y, x.codec, objectId, files)
    requires Listing(t', objectId, rows) && AnswersFrom(rows, answers, files, down)
    requires NoCollision(x.codec, ContentOf(chunks), rows, answers)
    ensures Answer(x.codec, rows, answers) == Response(200, body)
  {
    assert ChunksOf(t', objectId) == ChunksOf(y.t, objectId);
    assert Describes(x.codec, t', objectId, ContentOf(chunks));
    forall c | c in ChunksOf(t', objectId) ensures |NodesOf(t', c)| >= 1 {
      var n := ChunkUp(x, a, y, b, t, objectId, row, chunks, t', down, c);
    }
    forall k: nat | k < |rows| && rows[k].index in ContentOf(chunks)
      ensures exists n :: n in rows[k].nodes && GoodAnswer(x.codec, ContentOf(chunks)[rows[k].index], answers(k, n))
    {
      assert AsStored(t', rows[k]);
      var n := ChunkUp(x, a, y, b, t, objectId, row, chunks, t', down, rows[k].id);
      assert n in Elements(rows[k].nodes) && GoodAt(rows[k].hash, n, files, GoodFor(x.codec));
      AnswerIsGood(x.codec, ContentOf(chunks)[rows[k].index], rows, answers, files, down, k, n);
    }
    var order := ChunksInOrder(chunks);
    RoundTrip(x.codec, t', objectId, ContentOf(chunks), rows, answers, order);
  }

  lemma AnswerIsGood(codec: Codec, plain: Bytes, rows: seq<Chunk>, answers: Answers, files: Files, down: set<string>,
                     k: nat, n: string)
    requires k < |rows| && n in rows[k].nodes && n !in down && rows[k].hash == codec.hash(plain)
    requires AnswersFrom(rows, answers, files, down) && GoodAt(rows[k].hash, n, files, GoodFor(codec))
    requires NoCollisionAt(codec, plain, answers(k, n))
    ensures GoodAnswer(codec, plain, answers(k, n))
  {
  }

  lemma ChunkUp(x: Site, a: seq<string>, y: Setting, b: seq<string>, t: Tables, objectId: nat, row: ObjectRow,
                chunks: seq<Bytes>, t': Tables, down: set<string>, c: nat)
    returns (n: string)
    requires FollowsUpload(x, a, y, b) && CollisionFree(x.cfg, Elements(a) + Elements(b))
    requires Survivable(down, Elements(a), Elements(b), Quorum(x.replicas))
    requires Uploaded(x, t, y.t, objectId, row, chunks) && AllToward(y, t') && c in ChunksOf(y.t, objectId)
    ensures n in NodesOf(y.t, c) * ExpectedFor(y, y.t.chunks[c].hash) && n in NodesOf(t', c) && n !in down
  {
    var hash := y.t.chunks[c].hash;
    n := OneUpAfterChanges(x.cfg, a, b, hash, x.replicas, NodesOf(y.t, c), down, Quorum(x.replicas));
    assert Toward(NodesOf(y.t, c), NodesOf(t', c), ExpectedFor(y, hash));
  }

  // ---- the whole life ----

  function CommandOf(c: Change): Entry {
    Some(Command(if c.Join? then NODE_JOIN else NODE_LEAVE, c.node))
  }

  /** What a committed join or leave does to the members. */
  lemma CommandIsChange(nodes: map<string, bool>, c: Change)
    ensures Replay(nodes, [CommandOf(c)]).Keys == MemberStep(nodes.Keys, c)
  {
  }

  /** The gateway's loop turns once, with the answer of the state machine. */
  method SyncFromCluster(fsm: ClusterFSM, manager: RingManager) returns (ghost listing: seq<string>)
    modifies manager
    ensures Elements(listing) == fsm.nodes.m.Keys && fresh(manager.ring) && manager.ring.Valid()
    ensures manager.ring.cfg == Config(manager.hash, V_NODES)
    ensures manager.ring.State() == Rebuild(manager.ring.cfg, listing)
  {
    var nodes := fsm.GetNodes();
    var _ := manager.Sync(Some(nodes), None);
    listing := nodes;
  }

  /** What happened until the download: the upload, the listings before and after the changes, the tables and
      files between upload and pass. */
  datatype Story = Story(x: Site, t: Tables, files: Files, run: UploadRun, objectId: nat, row: ObjectRow,
                         a: seq<string>, b: seq<string>, y: Setting)

  ghost predicate UploadDoneIn(s: Story) {
    && FollowsUpload(s.x, s.a, s.y, s.b) && IsUploadRun(s.x, s.run, s.files, s.y.files)
    && Answers201(s.x, s.run.chunks, s.run.nonces, s.run.trace)
    && Uploaded(s.x, s.t, s.y.t, s.objectId, s.row, s.run.chunks) && RecordsSaves(s.y.t, s.objectId, s.run.trace)
  }

  ghost predicate NoSaveFailed(s: Story) {
    forall e :: e in s.run.trace ==> e.ok || e.hash == ""
  }

  /** The pass has kept the object's retained replicas, either because nobody else writes to them, or because
      nothing has failed and all older replicas of the object's digests were good. */
  ghost predicate PassKeeps(s: Story, calm: bool) {
    || (Undisputed(s.y, s.objectId) && (RepeatsFit(s.x, ContentOf(s.run.chunks)) || NoSaveFailed(s)))
    || (calm && NoSaveFailed(s) &&
        forall hash :: hash in HashesOf(s.x.codec, s.run.chunks) ==>
          DigestBacked(s.t, hash, s.files, GoodFor(s.x.codec)))
  }

  lemma NothingSpoiltIn(s: Story)
    requires UploadDoneIn(s) && NoSaveFailed(s) && Quorum(s.x.replicas) >= 1
    ensures Unspoilt(s.y.t, s.run.trace)
  {
  }

  lemma StoryReady(s: Story, down: set<string>)
    requires Lawful(s.x.codec) && UploadDoneIn(s) && NoSaveFailed(s)
    requires CollisionFree(s.x.cfg, Elements(s.a) + Elements(s.b))
    requires Survivable(down, Elements(s.a), Elements(s.b), Quorum(s.x.replicas))
    requires forall hash :: hash in HashesOf(s.x.codec, s.run.chunks) ==>
      DigestBacked(s.t, hash, s.files, GoodFor(s.x.codec))
    ensures DigestsReady(s.y, s.x.codec, s.objectId)
  {
    NothingSpoiltIn(s);
    QuorateIsFeasible(s.x, s.run.chunks, s.run.nonces, s.run.trace);
    forall c | c in ChunksOf(s.y.t, s.objectId)
      ensures DigestBacked(s.y.t, s.y.t.chunks[c].hash, s.y.files, GoodFor(s.x.codec))
      ensures s.y.t.chunks[c].hash != "" && NodesOf(s.y.t, c) * ExpectedFor(s.y, s.y.t.chunks[c].hash) != {}
    {
      var hash := s.y.t.chunks[c].hash;
      RowOfChunk(s.x, s.t, s.y.t, s.objectId, s.row, s.run.chunks, c);
      assert Feasible(s.x, s.run.chunks[s.y.t.chunks[c].index]) && hash in HashesOf(s.x.codec, s.run.chunks);
      UploadKeepsBacked(s.x, s.t, s.y.t, s.objectId, s.row, s.run, s.files, s.y.files, hash);
      var n := OneUpAfterChanges(s.x.cfg, s.a, s.b, hash, s.x.replicas, NodesOf(s.y.t, c), down, Quorum(s.x.replicas));
    }
  }

  /** A placement that names a node comes from a ring with members. */
  lemma ExpectedNeedsMembers(y: Setting, hash: string)
    requires ExpectedFor(y, hash) != {}
    ensures y.st.members != {}
  {
  }

  lemma StoryKept(s: Story, t': Tables, files': Files, calm: bool, down: set<string>)
    requires Lawful(s.x.codec) && UploadDoneIn(s) && PassKeeps(s, calm)
    requires CollisionFree(s.x.cfg, Elements(s.a) + Elements(s.b))
    requires Survivable(down, Elements(s.a), Elements(s.b), Quorum(s.x.replicas))
    requires AnchorsHeld(s.y, files')
    requires calm && s.y.st.members != {} ==> SafeRowsSettled(s.y, GoodFor(s.x.codec), t', files')
    ensures RetainedGood(s.y, s.x.codec, s.objectId, files')
  {
    if Undisputed(s.y, s.objectId) && (RepeatsFit(s.x, ContentOf(s.run.chunks)) || NoSaveFailed(s)) {
      UploadOnDisk(s.x, s.t, s.y.t, s.objectId, s.row, s.run, s.files, s.y.files);
      UndisputedRetained(s.y, s.x.codec, s.objectId, files');
    } else if c :| c in ChunksOf(s.y.t, s.objectId) {
      StoryReady(s, down);
      ExpectedNeedsMembers(s.y, s.y.t.chunks[c].hash);
      CalmRetained(s.y, s.x.codec, s.objectId, t', files');
    }
  }

  /** An upload through the ring of the present members. */
  method UploadVia(fsm: ClusterFSM, manager: RingManager, cluster: StorageNodes, db: Database, codec: Codec,
                   chunkSizeMB: nat, replicas: int, userId: string, body: Bytes, entropy: Entropy)
    returns (objectId: Option<nat>, ghost run: UploadRun, ghost a: seq<string>)
    requires Valid(db.tables) && chunkSizeMB >= 1
    modifies manager, cluster, db
    ensures Valid(db.tables) && db.faults >= old(db.faults) && cluster.faults >= old(cluster.faults)
    ensures Elements(a) == fsm.nodes.m.Keys && IsSplit(body, chunkSizeMB * 1_048_576, run.chunks)
    ensures cluster.faults == old(cluster.faults) ==> forall e :: e in run.trace ==> e.ok || e.hash == ""
    ensures
      var cfg := Config(manager.hash, V_NODES);
      var x := Site(codec, cfg, Rebuild(cfg, a), replicas);
      && IsUploadRun(x, run, old(cluster.files), cluster.files)
      && (CanStore(x, run.chunks, entropy) && |run.chunks| <= 0x8000_0000 ==>
            objectId.Some? || cluster.faults > old(cluster.faults) || db.faults > old(db.faults))
      && (objectId.Some? ==>
            && objectId.value in db.tables.objects && db.tables.objects[objectId.value].userId == userId
            && Answers201(x, run.chunks, run.nonces, run.trace)
            && Uploaded(x, old(db.tables), db.tables, objectId.value, db.tables.objects[objectId.value], run.chunks)
            && RecordsSaves(db.tables, objectId.value, run.trace))
  {
    a := SyncFromCluster(fsm, manager);
    var status;
    status, objectId, run := Upload(manager.ring, cluster, db, codec, chunkSizeMB, replicas, userId, "", "", body,
                                    false, entropy);
  }

  /** Committed commands, then a pass of the rebalancer with the ring of the new members. */
  method PassVia(fsm: ClusterFSM, manager: RingManager, cluster: StorageNodes, db: Database, codec: Codec,
                 replicas: int, log: seq<Entry>)
    returns (ghost b: seq<string>)
    requires Valid(db.tables)
    modifies fsm.nodes, manager, cluster, db
    ensures Valid(db.tables) && db.faults >= old(db.faults) && cluster.faults >= old(cluster.faults)
    ensures fsm.nodes == old(fsm.nodes) && fsm.nodes.m == Replay(old(fsm.nodes.m), log)
    ensures Elements(b) == fsm.nodes.m.Keys && db.tables == old(db.tables).(locations := db.tables.locations)
    ensures
      var cfg := Config(manager.hash, V_NODES);
      var y := Setting(cfg, Rebuild(cfg, b), replicas, old(db.tables), old(cluster.files));
      && AllToward(y, db.tables) && AnchorsHeld(y, cluster.files)
      && (db.faults == old(db.faults) && cluster.faults == old(cluster.faults) && y.st.members != {} ==>
            SafeRowsSettled(y, GoodFor(codec), db.tables, cluster.files))
  {
    fsm.ApplyAll(log);
    b := SyncFromCluster(fsm, manager);
    ghost var read, turns;
    read, turns := RebalancePass(manager.ring, cluster, db, replicas, GoodFor(codec));
  }

  /** Both, one after the other. */
  method UploadAndMove(fsm: ClusterFSM, manager: RingManager, cluster: StorageNodes, db: Database, codec: Codec,
                       chunkSizeMB: nat, replicas: int, userId: string, body: Bytes, entropy: Entropy,
                       log: seq<Entry>)
    returns (objectId: Option<nat>, ghost s: Story)
    requires Valid(db.tables) && chunkSizeMB >= 1
    modifies fsm.nodes, manager, cluster, db
    ensures Valid(db.tables) && db.faults >= old(db.faults) && cluster.faults >= old(cluster.faults)
    ensures fsm.nodes == old(fsm.nodes) && fsm.nodes.m == Replay(old(fsm.nodes.m), log)
    ensures IsSplit(body, chunkSizeMB * 1_048_576, s.run.chunks)
    ensures s.x == Site(codec, s.x.cfg, Rebuild(s.x.cfg, s.a), replicas) && s.x.cfg == Config(manager.hash, V_NODES)
    ensures Elements(s.a) == old(fsm.nodes.m.Keys) && Elements(s.b) == fsm.nodes.m.Keys
    ensures CanStore(s.x, s.run.chunks, entropy) && |s.run.chunks| <= 0x8000_0000 ==>
      objectId.Some? || cluster.faults > old(cluster.faults) || db.faults > old(db.faults)
    ensures objectId.Some? ==>
      && UploadDoneIn(s) && s.objectId == objectId.value && s.row.userId == userId
      && s.t == old(db.tables) && s.files == old(cluster.files)
      && (cluster.faults == old(cluster.faults) ==> NoSaveFailed(s))
      && db.tables == s.y.t.(locations := db.tables.locations) && AllToward(s.y, db.tables)
      && AnchorsHeld(s.y, cluster.files)
      && (db.faults == old(db.faults) && cluster.faults == old(cluster.faults) && s.y.st.members != {} ==>
            SafeRowsSettled(s.y, GoodFor(codec), db.tables, cluster.files))
  {
    ghost var t, files, cfg := db.tables, cluster.files, Config(manager.hash, V_NODES);
    ghost var run, a;
    objectId, run, a := UploadVia(fsm, manager, cluster, db, codec, chunkSizeMB, replicas, userId, body, entropy);
    ghost var stored, written := db.tables, cluster.files;
    ghost var b := PassVia(fsm, manager, cluster, db, codec, replicas, log);
    ghost var row := if objectId.Some? then stored.objects[objectId.value] else ObjectRow("", "", "", 0);
    s := Story(Site(codec, cfg, Rebuild(cfg, a), replicas), t, files, run,
               if objectId.Some? then objectId.value else 0, row, a, b,
               Setting(cfg, Rebuild(cfg, b), replicas, stored, written));
  }

  /** The whole life of an object.  It is uploaded; the cluster commits any commands; the gateway rebuilds its
      ring; the rebalancer makes a pass, during which any remote call may fail unless older objects share
      digests with this one; the object is downloaded while nodes are down, those that have left and fewer
      others than the quorum has to spare.  If the upload answered 201 and the database did not fail, the
      download writes exactly the body. */
  method Live(fsm: ClusterFSM, manager: RingManager, cluster: StorageNodes, db: Database, codec: Codec,
              chunkSizeMB: nat, replicas: int, userId: string, body: Bytes, entropy: Entropy, log: seq<Entry>,
              answers: Answers)
    returns (uploaded: bool, response: Response, ghost s: Story, ghost rows: seq<Chunk>)
    requires Valid(db.tables) && Lawful(codec) && chunkSizeMB >= 1
    requires CollisionFree(Config(manager.hash, V_NODES), fsm.nodes.m.Keys + Replay(fsm.nodes.m, log).Keys)
    modifies fsm.nodes, manager, cluster, db
    ensures Flatten(s.run.chunks) == body && s.x.replicas == replicas
    ensures s.x.st == Rebuild(Config(manager.hash, 50), s.a) && Elements(s.a) == old(fsm.nodes.m.Keys)
    ensures fsm.nodes.m == Replay(old(fsm.nodes.m), log)
    ensures CanStore(s.x, s.run.chunks, entropy) && |s.run.chunks| <= 0x8000_0000 ==>
      uploaded || cluster.faults > old(cluster.faults) || db.faults > old(db.faults)
    ensures uploaded && db.faults == old(db.faults) && PassKeeps(s, cluster.faults == old(cluster.faults)) ==>
      NoCollision(codec, ContentOf(s.run.chunks), rows, answers) ==>
      forall down | Survivable(down, old(fsm.nodes.m.Keys), fsm.nodes.m.Keys, Quorum(replicas)) &&
        AnswersFrom(rows, answers, cluster.files, down) ::
        response == Response(200, body)
  {
    var objectId;
    objectId, s := UploadAndMove(fsm, manager, cluster, db, codec, chunkSizeMB, replicas, userId, body, entropy, log);
    uploaded, rows, response := objectId.Some?, [], Response(500, []);
    if uploaded {
      var listed;
      response, listed := Download(db, codec, objectId.value, userId, answers, None);
      rows := listed;
      ghost var calm := cluster.faults == old(cluster.faults);
      forall down | db.faults == old(db.faults) && PassKeeps(s, calm) &&
        NoCollision(codec, ContentOf(s.run.chunks), rows, answers) &&
        Survivable(down, old(fsm.nodes.m.Keys), fsm.nodes.m.Keys, Quorum(replicas)) &&
        AnswersFrom(rows, answers, cluster.files, down)
        ensures response == Response(200, body)
      {
        StoryKept(s, db.tables, cluster.files, calm, down);
        ObjectSurvives(s.x, s.a, s.y, s.b, s.t, s.objectId, s.row, s.run.chunks, body, ChunkSize(chunkSizeMB),
                       db.tables, cluster.files, rows, answers, down);
      }
    }
  }
}
