/** The rebalancer of internal/api/rebalancer.go: it moves recorded replicas toward the placement that
    the ring asks for, while any remote call and any database statement may fail. */
module Rebalancer {
  import opened Sequences
  import opened Ring
  import opened Cluster
  import opened Tables
  import opened Repository

  /** How the pass over one row ended: nothing to do, no replica could be read, or the row was moved.
      `saved` are the nodes that took a copy, `recorded` those that the database then recorded, and
      `stuck` the obsolete ones whose record could not be deleted. */
  datatype RowEnd = Balanced | Unfetched | Moved(data: Bytes, saved: set<string>, recorded: set<string>,
                                                 stuck: set<string>)

  /** One row before and after its pass: the nodes recorded for it, the nodes expected, and the files. */
  datatype RowPass = RowPass(hash: string, current: set<string>, expected: set<string>, files: Files,
                             after: set<string>, files': Files, end: RowEnd)

  /** What a pass over one row can do, whatever fails. */
  ghost predicate Possible(p: RowPass) {
    match p.end
    case Balanced => p.current == p.expected && p.after == p.current && p.files' == p.files
    case Unfetched => p.current != p.expected && p.after == p.current && p.files' == p.files
    case Moved(data, saved, recorded, stuck) =>
      && p.current != p.expected
      && data != [] && (exists m :: m in p.current && (m, p.hash) in p.files && p.files[(m, p.hash)] == data)
      && saved <= p.expected - p.current && recorded <= saved && stuck <= p.current - p.expected
      && p.after == (p.current * p.expected) + recorded + stuck
      && OnlyTouched(p.files, p.files', (p.expected - p.current) + (p.current - p.expected), p.hash)
      && forall n :: n in saved ==> (n, p.hash) in p.files' && p.files'[(n, p.hash)] == data
  }

  /** What a pass without failed calls or statements achieves. */
  ghost predicate Undisturbed(p: RowPass) {
    match p.end
    case Balanced => true
    case Unfetched =>
      || (forall m :: m in p.current ==> (m, p.hash) !in p.files)
      || (exists m :: m in p.current && (m, p.hash) in p.files && p.files[(m, p.hash)] == [])
    case Moved(_, saved, recorded, stuck) =>
      && stuck == {} && recorded == saved && (p.hash != "" ==> saved == p.expected - p.current)
      && forall n :: n in p.current - p.expected ==> (n, p.hash) !in p.files'
  }

  /** Some recorded replica can be read and is not empty. */
  ghost predicate Readable(hash: string, current: set<string>, files: Files) {
    exists m :: m in current && (m, hash) in files && files[(m, hash)] != []
  }

  // ---- what every pass keeps ----

  /** A replica that is both recorded and expected stays recorded, and its file is not touched; nothing
      but recorded or expected nodes is ever recorded. */
  lemma RetainedUntouched(p: RowPass)
    requires Possible(p)
    ensures p.current * p.expected <= p.after <= p.current + p.expected
    ensures forall n :: n in p.current * p.expected ==> SameAt(p.files, p.files', (n, p.hash))
    ensures forall n, h :: h != p.hash ==> SameAt(p.files, p.files', (n, h))
  {
  }

  /** The row never moves away from what is expected. */
  lemma NeverFarther(p: RowPass)
    requires Possible(p)
    ensures (p.after - p.expected) + (p.expected - p.after)
         <= (p.current - p.expected) + (p.expected - p.current)
  {
  }

  lemma StaysBacked(p: RowPass, good: (string, Bytes) -> bool)
    requires Possible(p) && Backed(p.hash, p.current, p.files, good)
    requires p.end.Moved? ==> p.end.stuck == {}
    ensures Backed(p.hash, p.after, p.files', good)
  {
  }

  /** The ways in which a pass can leave a row, the database permitting. */
  ghost predicate MayLeave(hash: string, current: set<string>, expected: set<string>, files: Files,
                           after: set<string>) {
    exists files', end :: Possible(RowPass(hash, current, expected, files, after, files', end)) &&
      (end.Moved? ==> end.stuck == {})
  }

  /** The pass that loses everything: a replica is read, every save fails, and the records go. */
  lemma LosingPass(hash: string, current: set<string>, expected: set<string>, files: Files, m: string)
    returns (p: RowPass)
    requires m in current && current * expected == {} && (m, hash) in files && files[(m, hash)] != []
    ensures Possible(p) && p == RowPass(hash, current, expected, files, {}, files, p.end)
    ensures p.end.Moved? && p.end.stuck == {}
  {
    assert current != expected by {
      assert m !in current * expected;
    }
    p := RowPass(hash, current, expected, files, {}, files, Moved(files[(m, hash)], {}, {}, {}));
    assert m in p.current && p.files[(m, p.hash)] == p.end.data;
    assert p.after == (p.current * p.expected) + p.end.recorded + p.end.stuck;
  }

  /** A row can lose its last recorded replica.  It is safe from that, whatever calls fail, exactly when
      it shares a node with the expected placement or none of its replicas can be read. */
  lemma SurvivesIff(hash: string, current: set<string>, expected: set<string>, files: Files)
    requires current != {}
    ensures !MayLeave(hash, current, expected, files, {}) <==>
      current * expected != {} || !Readable(hash, current, files)
  {
    if current * expected == {} && Readable(hash, current, files) {
      var m :| m in current && (m, hash) in files && files[(m, hash)] != [];
      var p := LosingPass(hash, current, expected, files, m);
    }
  }

  // ---- what becomes of the content ----

  /** The passes over a row that starts like this, the database permitting. */
  ghost predicate Starts(p: RowPass, hash: string, current: set<string>, expected: set<string>, files: Files) {
    && Possible(p) && p.hash == hash && p.current == current && p.expected == expected && p.files == files
    && (p.end.Moved? ==> p.end.stuck == {})
  }

  ghost predicate NeverLosesContent(hash: string, current: set<string>, expected: set<string>, files: Files,
                                    good: (string, Bytes) -> bool) {
    forall p :: Starts(p, hash, current, expected, files) ==> HasGood(hash, p.after, p.files', good)
  }

  /** The same, when no call and no statement fails. */
  ghost predicate CalmKeepsContent(hash: string, current: set<string>, expected: set<string>, files: Files,
                                   good: (string, Bytes) -> bool) {
    forall p :: Starts(p, hash, current, expected, files) && Undisturbed(p) ==> HasGood(hash, p.after, p.files', good)
  }

  /** The rebalancer copies whatever the first node answers, without looking at it.  So a row keeps a good
      replica, whatever remote calls fail, exactly when some node that is both recorded and expected holds
      a good file. */
  lemma KeepsContentIff(hash: string, current: set<string>, expected: set<string>, files: Files,
                        good: (string, Bytes) -> bool)
    requires HasGood(hash, current, files, good) && !good(hash, [])
    ensures NeverLosesContent(hash, current, expected, files, good) <==>
      HasGood(hash, current * expected, files, good)
  {
    if HasGood(hash, current * expected, files, good) {
      var n :| n in current * expected && GoodAt(hash, n, files, good);
      forall p | Starts(p, hash, current, expected, files) ensures HasGood(hash, p.after, p.files', good) {
        assert n in p.after && SameAt(p.files, p.files', (n, hash)) by {
          RetainedUntouched(p);
        }
        assert GoodAt(hash, n, p.files', good);
      }
    } else {
      var m :| m in current && GoodAt(hash, m, files, good);
      var p := RowPass(hash, current, expected, files, current * expected, files,
                       Moved(files[(m, hash)], {}, {}, {}));
      assert m !in current * expected;
      assert Starts(p, hash, current, expected, files);
    }
  }

  /** The files once `data` has been written under this hash on some nodes and deleted on others. */
  ghost function Rewritten(files: Files, hash: string, data: Bytes, saved: set<string>, deleted: set<string>): Files {
    map k | k in files.Keys + (set n | n in saved :: (n, hash)) && !(k.1 == hash && k.0 in deleted) ::
      if k.1 == hash && k.0 in saved then data else files[k]
  }

  /** A pass during which nothing fails, with the data of node m. */
  ghost function CalmMove(hash: string, current: set<string>, expected: set<string>, files: Files, m: string): RowPass
    requires (m, hash) in files
  {
    var data, missing := files[(m, hash)], expected - current;
    RowPass(hash, current, expected, files, expected, Rewritten(files, hash, data, missing, current - expected),
            Moved(data, missing, missing, {}))
  }

  lemma CalmMovePossible(hash: string, current: set<string>, expected: set<string>, files: Files, m: string)
    requires current != expected && m in current && (m, hash) in files && files[(m, hash)] != []
    ensures var p := CalmMove(hash, current, expected, files, m);
      Starts(p, hash, current, expected, files) && Undisturbed(p)
  {
  }

  /** When nothing fails, a copy is made; it is good for certain only if whatever might be copied is. */
  lemma CalmKeepsContentIff(hash: string, current: set<string>, expected: set<string>, files: Files,
                            good: (string, Bytes) -> bool)
    requires HasGood(hash, current, files, good) && !good(hash, []) && hash != ""
    ensures CalmKeepsContent(hash, current, expected, files, good) <==>
      || HasGood(hash, current * expected, files, good)
      || (!(expected <= current) &&
          forall n :: n in current && (n, hash) in files && files[(n, hash)] != [] ==> GoodAt(hash, n, files, good))
  {
    if HasGood(hash, current * expected, files, good) {
      KeepsContentIff(hash, current, expected, files, good);
    } else if expected <= current {
      var m :| m in current && GoodAt(hash, m, files, good);
      CalmMovePossible(hash, current, expected, files, m);
      var p := CalmMove(hash, current, expected, files, m);
      assert !HasGood(hash, p.after, p.files', good);
    } else if m :| m in current && (m, hash) in files && files[(m, hash)] != [] && !GoodAt(hash, m, files, good) {
      CalmMovePossible(hash, current, expected, files, m);
      var p := CalmMove(hash, current, expected, files, m);
      assert !HasGood(hash, p.after, p.files', good);
    } else {
      var n :| n in expected && n !in current;
      forall p | Starts(p, hash, current, expected, files) && Undisturbed(p)
        ensures HasGood(hash, p.after, p.files', good)
      {
        if p.end.Moved? {
          assert n in p.after && GoodAt(hash, n, p.files', good);
        }
      }
    }
  }

  // ---- the code ----

  /** The source's lookup map of a list of addresses. */
  method Lookup(nodes: seq<string>) returns (found: set<string>)
    ensures found == Elements(nodes)
  {
    found := {};
    for i := 0 to |nodes|
      invariant found == Elements(nodes[..i])
    {
      ElementsAppend(nodes[..i], nodes[i]);
      assert nodes[..i + 1] == nodes[..i] + [nodes[i]];
      found := found + {nodes[i]};
    }
    assert nodes[..|nodes|] == nodes;
  }

  /** The keys of the first map that are missing from the second, in some order. */
  method Difference(a: set<string>, b: set<string>) returns (only: seq<string>)
    ensures Lists(only, a - b)
  {
    only := [];
    var rest := a;
    while rest != {}
      invariant rest <= a && Lists(only, a - b - rest)
      decreases rest
    {
      var n :| n in rest;
      ElementsAppend(only, n);
      assert n !in Elements(only);
      rest := rest - {n};
      if n !in b {
        only := only + [n];
      }
      assert a - b - rest == Elements(only);
    }
  }

  /** Asks the recorded nodes, in any order, until one answers.  It gives up only when all have been asked. */
  method Fetch(cluster: StorageNodes, current: set<string>, hash: string)
    returns (data: Option<Bytes>, ghost made: seq<Call>)
    modifies cluster
    ensures cluster.files == old(cluster.files) && cluster.faults >= old(cluster.faults)
    ensures cluster.calls == old(cluster.calls) + made
    ensures forall c :: c in made ==> c.Got? && c.hash == hash && c.node in current
    ensures data.None? ==> forall m :: m in current ==> Got(m, hash, None) in made
    ensures data.None? ==> |Holders(current, hash, cluster.files)| <= cluster.faults - old(cluster.faults)
    ensures data.None? && cluster.faults == old(cluster.faults) ==>
      forall m :: m in current ==> (m, hash) !in cluster.files
    ensures data.Some? ==> made != [] && made[|made| - 1].Got? && made[|made| - 1].data == data
    ensures data.Some? ==> forall k :: 0 <= k < |made| - 1 ==> made[k].Got? && made[k].data == None
    ensures data.Some? ==>
      exists m :: m in current && (m, hash) in cluster.files && cluster.files[(m, hash)] == data.value
  {
    var rest := current;
    data, made := None, [];
    while rest != {}
      invariant rest <= current && data == None
      invariant cluster.files == old(cluster.files) && cluster.faults >= old(cluster.faults)
      invariant cluster.calls == old(cluster.calls) + made
      invariant forall c :: c in made ==> c.Got? && c.hash == hash && c.node in current && c.data == None
      invariant forall m :: m in current - rest ==> Got(m, hash, None) in made
      invariant |Holders(current - rest, hash, cluster.files)| <= cluster.faults - old(cluster.faults)
      decreases rest
    {
      var m :| m in rest;
      HoldersGrow(current - rest, m, hash, cluster.files);
      assert current - (rest - {m}) == (current - rest) + {m};
      rest := rest - {m};
      data := cluster.GetChunk(m, hash);
      made := made + [Got(m, hash, data)];
      if data.Some? {
        return;
      }
    }
    assert current - rest == current;
    assert Holders(current, hash, cluster.files) == {} ==> forall m :: m in current ==> (m, hash) !in cluster.files by {
      assert forall m :: m in current && (m, hash) in cluster.files ==> m in Holders(current, hash, cluster.files);
    }
  }

  /** The nodes that have the file. */
  ghost function Holders(nodes: set<string>, hash: string, files: Files): set<string> {
    set m | m in nodes && (m, hash) in files
  }

  lemma HoldersGrow(nodes: set<string>, m: string, hash: string, files: Files)
    requires m !in nodes
    ensures |Holders(nodes + {m}, hash, files)| == |Holders(nodes, hash, files)| + if (m, hash) in files then 1 else 0
  {
    var before, after := Holders(nodes, hash, files), Holders(nodes + {m}, hash, files);
    if (m, hash) in files {
      assert after == before + {m};
    } else {
      assert after == before;
    }
  }

  /** The tables differ at most in the nodes recorded for one chunk. */
  ghost predicate SameButNodes(t: Tables, t': Tables, chunk: nat) {
    && t' == t.(locations := t'.locations)
    && forall c :: c != chunk ==> NodesOf(t', c) == NodesOf(t, c)
  }

  ghost predicate NodesBecame(t: Tables, t': Tables, chunk: nat, nodes: set<string>) {
    SameButNodes(t, t', chunk) && NodesOf(t', chunk) == nodes
  }

  lemma NodeAdded(t: Tables, t': Tables, chunk: nat, nodes: set<string>, n: string)
    requires NodesBecame(t, t', chunk, nodes)
    ensures NodesBecame(t, WithLocation(t', chunk, n), chunk, nodes + {n})
  {
  }

  lemma NodeDropped(t: Tables, t': Tables, chunk: nat, nodes: set<string>, n: string)
    requires NodesBecame(t, t', chunk, nodes)
    ensures NodesBecame(t, WithoutLocation(t', chunk, n), chunk, nodes - {n})
  {
  }

  /** The nodes at which it went well. */
  ghost function Took(nodes: seq<string>, oks: seq<bool>): set<string>
    requires |oks| <= |nodes|
  {
    if oks == [] then {}
    else
      var k := |oks| - 1;
      if oks[k] then Took(nodes, oks[..k]) + {nodes[k]} else Took(nodes, oks[..k])
  }

  ghost function Misses(oks: seq<bool>): nat {
    if oks == [] then 0 else Misses(oks[..|oks| - 1]) + if oks[|oks| - 1] then 0 else 1
  }

  lemma {:induction false} TookSome(nodes: seq<string>, oks: seq<bool>)
    requires Distinct(nodes) && |oks| <= |nodes|
    ensures forall n :: n in Took(nodes, oks) ==> n in nodes[..|oks|]
    ensures |Took(nodes, oks)| + Misses(oks) == |oks|
  {
    if oks != [] {
      var k := |oks| - 1;
      TookSome(nodes, oks[..k]);
      assert nodes[k] !in nodes[..k];
      assert nodes[..k + 1] == nodes[..k] + [nodes[k]];
    }
  }

  lemma MissesCounted(nodes: seq<string>, oks: seq<bool>)
    requires Distinct(nodes) && |oks| == |nodes|
    ensures Took(nodes, oks) <= Elements(nodes)
    ensures |Elements(nodes) - Took(nodes, oks)| == Misses(oks)
  {
    TookSome(nodes, oks);
    DistinctSize(nodes);
    assert nodes[..|oks|] == nodes;
    assert Elements(nodes) == Took(nodes, oks) + (Elements(nodes) - Took(nodes, oks));
  }

  lemma TookStep(nodes: seq<string>, oks: seq<bool>, ok: bool, before: set<string>)
    requires |oks| < |nodes|
    ensures Misses(oks + [ok]) == Misses(oks) + if ok then 0 else 1
    ensures before + Took(nodes, oks + [ok]) ==
      if ok then before + Took(nodes, oks) + {nodes[|oks|]} else before + Took(nodes, oks)
    ensures before - Took(nodes, oks + [ok]) ==
      if ok then before - Took(nodes, oks) - {nodes[|oks|]} else before - Took(nodes, oks)
  {
  }

  method RecordOne(db: Database, chunk: nat, n: string, ghost t: Tables, ghost nodes: set<string>) returns (ok: bool)
    requires Valid(db.tables) && chunk in db.tables.chunks && NodesBecame(t, db.tables, chunk, nodes)
    modifies db
    ensures Valid(db.tables) && NodesBecame(t, db.tables, chunk, if ok then nodes + {n} else nodes)
    ensures chunk in db.tables.chunks && db.faults == old(db.faults) + if ok then 0 else 1
  {
    NodeAdded(t, db.tables, chunk, nodes, n);
    ok := db.AddChunkLocation(chunk, n);
  }

  /** Records the nodes that took a copy; the errors are ignored. */
  method Record(db: Database, chunk: nat, nodes: seq<string>) returns (ghost recorded: set<string>)
    requires Valid(db.tables) && chunk in db.tables.chunks && Distinct(nodes)
    modifies db
    ensures Valid(db.tables) && SameButNodes(old(db.tables), db.tables, chunk)
    ensures recorded <= Elements(nodes) && NodesOf(db.tables, chunk) == NodesOf(old(db.tables), chunk) + recorded
    ensures db.faults == old(db.faults) + |Elements(nodes) - recorded|
  {
    ghost var t, before := db.tables, NodesOf(db.tables, chunk);
    ghost var oks, now := [], before;
    for i := 0 to |nodes|
      invariant Valid(db.tables) && chunk in db.tables.chunks && NodesBecame(t, db.tables, chunk, now)
      invariant |oks| == i && now == before + Took(nodes, oks) && db.faults == old(db.faults) + Misses(oks)
    {
      var ok := RecordOne(db, chunk, nodes[i], t, now);
      TookStep(nodes, oks, ok, before);
      oks, now := oks + [ok], if ok then now + {nodes[i]} else now;
    }
    recorded := Took(nodes, oks);
    MissesCounted(nodes, oks);
  }

  /** One obsolete replica. */
  method RetireOne(cluster: StorageNodes, db: Database, chunk: nat, hash: string, n: string, ghost t: Tables,
                   ghost nodes: set<string>)
    returns (dropped: bool, ghost deleted: bool)
    requires Valid(db.tables) && chunk in db.tables.chunks && NodesBecame(t, db.tables, chunk, nodes)
    modifies cluster, db
    ensures Valid(db.tables) && NodesBecame(t, db.tables, chunk, if dropped then nodes - {n} else nodes)
    ensures chunk in db.tables.chunks && db.faults == old(db.faults) + if dropped then 0 else 1
    ensures OnlyTouched(old(cluster.files), cluster.files, {n}, hash)
    ensures cluster.calls == old(cluster.calls) + [Deleted(n, hash, deleted)] && cluster.faults >= old(cluster.faults)
    ensures deleted || cluster.faults == old(cluster.faults) ==> (n, hash) !in cluster.files
  {
    var ok := cluster.DeleteChunk(n, hash);
    deleted := ok;
    NodeDropped(t, db.tables, chunk, nodes, n);
    dropped := db.RemoveChunkLocation(chunk, n);
  }

  /** Deletes the obsolete replicas and their records; a failed delete still drops the record. */
  method Retire(cluster: StorageNodes, db: Database, chunk: nat, hash: string, nodes: seq<string>)
    returns (ghost stuck: set<string>, ghost made: seq<Call>)
    requires Valid(db.tables) && chunk in db.tables.chunks && Distinct(nodes)
    modifies cluster, db
    ensures Valid(db.tables) && SameButNodes(old(db.tables), db.tables, chunk)
    ensures OnlyTouched(old(cluster.files), cluster.files, Elements(nodes), hash)
    ensures stuck <= Elements(nodes) && db.faults == old(db.faults) + |stuck|
    ensures NodesOf(db.tables, chunk) == NodesOf(old(db.tables), chunk) - (Elements(nodes) - stuck)
    ensures cluster.calls == old(cluster.calls) + made && Deletions(made, nodes, hash, cluster.files)
    ensures cluster.faults >= old(cluster.faults)
    ensures cluster.faults == old(cluster.faults) ==> AllGone(nodes, hash, cluster.files)
  {
    made := [];
    ghost var t, before := db.tables, NodesOf(db.tables, chunk);
    ghost var oks, now, calm := [], before, true;
    for i := 0 to |nodes|
      invariant Valid(db.tables) && chunk in db.tables.chunks && NodesBecame(t, db.tables, chunk, now)
      invariant |oks| == i && now == before - Took(nodes, oks) && db.faults == old(db.faults) + Misses(oks)
      invariant cluster.calls == old(cluster.calls) + made && cluster.faults >= old(cluster.faults)
      invariant calm <==> cluster.faults == old(cluster.faults)
      invariant Retired(old(cluster.files), cluster.files, nodes, i, hash, made, calm)
    {
      ghost var files, calm' := cluster.files, calm;
      var dropped;
      ghost var deleted;
      dropped, deleted := RetireOne(cluster, db, chunk, hash, nodes[i], t, now);
      calm := cluster.faults == old(cluster.faults);
      RetiredStep(old(cluster.files), files, cluster.files, nodes, i, hash, made, calm', deleted, calm);
      made := made + [Deleted(nodes[i], hash, deleted)];
      TookStep(nodes, oks, dropped, before);
      oks, now := oks + [dropped], if dropped then now - {nodes[i]} else now;
    }
    stuck := StuckOnes(nodes, oks);
    assert nodes[..|nodes|] == nodes;
  }

  lemma StuckOnes(nodes: seq<string>, oks: seq<bool>) returns (stuck: set<string>)
    requires Distinct(nodes) && |oks| == |nodes|
    ensures stuck <= Elements(nodes) && |stuck| == Misses(oks) && Elements(nodes) - stuck == Took(nodes, oks)
  {
    MissesCounted(nodes, oks);
    stuck := Elements(nodes) - Took(nodes, oks);
  }

  /** What has become of the files of the first k nodes. */
  ghost predicate Retired(files: Files, files': Files, nodes: seq<string>, k: nat, hash: string, made: seq<Call>,
                          calm: bool)
  {
    && k <= |nodes| && OnlyTouched(files, files', Elements(nodes), hash) && Deletions(made, nodes[..k], hash, files')
    && (calm ==> AllGone(nodes[..k], hash, files'))
  }

  lemma RetiredStep(files: Files, files': Files, files'': Files, nodes: seq<string>, k: nat, hash: string,
                    made: seq<Call>, calm: bool, ok: bool, calm': bool)
    requires k < |nodes| && Distinct(nodes) && Retired(files, files', nodes, k, hash, made, calm)
    requires OnlyTouched(files', files'', {nodes[k]}, hash)
    requires (calm' ==> calm && (nodes[k], hash) !in files'') && (ok ==> (nodes[k], hash) !in files'')
    ensures Retired(files, files'', nodes, k + 1, hash, made + [Deleted(nodes[k], hash, ok)], calm')
  {
  }

  ghost predicate AllGone(nodes: seq<string>, hash: string, files: Files) {
    forall n :: n in nodes ==> (n, hash) !in files
  }

  /** Each of the nodes has been told to delete the file, and where that succeeded there is none. */
  ghost predicate Deletions(made: seq<Call>, nodes: seq<string>, hash: string, files: Files) {
    && |made| == |nodes|
    && forall k :: 0 <= k < |nodes| ==>
         && made[k].Deleted? && made[k].node == nodes[k] && made[k].hash == hash
         && (made[k].ok ==> (nodes[k], hash) !in files)
  }

  lemma DifferentSets(a: set<string>, b: set<string>, onlyA: seq<string>, onlyB: seq<string>)
    requires Lists(onlyA, a - b) && Lists(onlyB, b - a)
    ensures a == b <==> onlyA == [] && onlyB == []
  {
    if onlyA != [] {
      assert onlyA[0] in Elements(onlyA);
    }
    if onlyB != [] {
      assert onlyB[0] in Elements(onlyB);
    }
  }

  /** Saves a copy to the missing nodes and records exactly those that took it. */
  method Fill(cluster: StorageNodes, db: Database, chunk: nat, hash: string, data: Bytes, missing: seq<string>)
    returns (ghost saved: set<string>, ghost recorded: set<string>, ghost made: seq<Call>)
    requires Valid(db.tables) && chunk in db.tables.chunks && Distinct(missing)
    modifies cluster, db
    ensures Valid(db.tables) && SameButNodes(old(db.tables), db.tables, chunk)
    ensures recorded <= saved <= Elements(missing)
    ensures NodesOf(db.tables, chunk) == NodesOf(old(db.tables), chunk) + recorded
    ensures OnlyTouched(old(cluster.files), cluster.files, Elements(missing), hash)
    ensures forall n :: n in saved ==> (n, hash) in cluster.files && cluster.files[(n, hash)] == data
    ensures cluster.calls == old(cluster.calls) + made && Savings(made, Elements(missing), saved, hash)
    ensures cluster.faults == old(cluster.faults) + if hash == "" then 0 else |Elements(missing) - saved|
    ensures db.faults == old(db.faults) + |saved - recorded|
  {
    saved, recorded, made := {}, {}, [];
    if |missing| > 0 {
      var successNodes, failed;
      successNodes, failed, made := cluster.SaveChunk(missing, hash, data);
      SavingsOf(successNodes, failed, missing, hash, made);
      saved := Elements(successNodes);
      recorded := Record(db, chunk, successNodes);
    }
  }

  function Stage(c: Call): nat {
    match c
    case Got(_, _, _) => 0
    case Saved(_, _, _) => 1
    case Deleted(_, _, _) => 2
  }

  /** Nothing is read after a save, and nothing read or saved after a delete. */
  ghost predicate InStages(made: seq<Call>) {
    forall i, j :: 0 <= i < j < |made| ==> Stage(made[i]) <= Stage(made[j])
  }

  /** The calls of a pass over one row: what was asked, saved and deleted, in this order, and how that ended. */
  ghost predicate Reported(p: RowPass, made: seq<Call>) {
    && (forall c :: c in made ==> c.hash == p.hash) && InStages(made)
    && (forall c :: c in made && c.Got? ==> c.node in p.current)
    && (forall c :: c in made && c.Saved? ==> p.end.Moved? && c.node in p.expected - p.current)
    && (forall c :: c in made && c.Deleted? ==> p.end.Moved? && c.node in p.current - p.expected)
    && match p.end
       case Balanced => made == []
       case Unfetched =>
         || (forall m :: m in p.current ==> Got(m, p.hash, None) in made)
         || (exists m :: m in p.current && Got(m, p.hash, Some([])) in made)
       case Moved(data, saved, recorded, stuck) =>
         && (exists m :: m in p.current && Got(m, p.hash, Some(data)) in made)
         && (forall n :: n in saved <==> Saved(n, p.hash, true) in made)
         && (forall n :: n in p.expected - p.current && n !in saved ==> Saved(n, p.hash, false) in made)
         && (forall n :: n in p.current - p.expected ==> exists ok :: Deleted(n, p.hash, ok) in made)
         && (forall n :: Deleted(n, p.hash, true) in made ==> (n, p.hash) !in p.files')
  }

  /** The statements of a pass over one row that the database did not carry out. */
  ghost function Lost(p: RowPass): nat {
    if p.end.Moved? then |p.end.saved - p.end.recorded| + |p.end.stuck| else 0
  }

  lemma MoveReported(p: RowPass, got: seq<Call>, put: seq<Call>, dropped: seq<Call>, obsolete: seq<string>)
    requires p.end.Moved? && Elements(obsolete) == p.current - p.expected
    requires forall c :: c in got ==> c.Got? && c.hash == p.hash && c.node in p.current
    requires exists m :: m in p.current && Got(m, p.hash, Some(p.end.data)) in got
    requires p.end.saved <= p.expected - p.current && Savings(put, p.expected - p.current, p.end.saved, p.hash)
    requires Deletions(dropped, obsolete, p.hash, p.files')
    ensures Reported(p, got + (put + dropped))
  {
  }

  /** The part of a pass that changes something: fill the missing nodes, retire the obsolete ones. */
  method Move(cluster: StorageNodes, db: Database, chunk: nat, hash: string, data: Bytes,
              missing: seq<string>, obsolete: seq<string>, ghost current: set<string>, ghost expected: set<string>,
              ghost got: seq<Call>)
    returns (ghost p: RowPass, ghost made: seq<Call>)
    requires Valid(db.tables) && chunk in db.tables.chunks && current == NodesOf(db.tables, chunk)
    requires Lists(missing, expected - current) && Lists(obsolete, current - expected) && current != expected
    requires data != []
    requires exists m :: m in current && (m, hash) in cluster.files && cluster.files[(m, hash)] == data
    requires forall c :: c in got ==> c.Got? && c.hash == hash && c.node in current
    requires exists m :: m in current && Got(m, hash, Some(data)) in got
    modifies cluster, db
    ensures p == RowPass(hash, current, expected, old(cluster.files), NodesOf(db.tables, chunk), cluster.files, p.end)
    ensures p.end.Moved? && Possible(p)
    ensures Valid(db.tables) && SameButNodes(old(db.tables), db.tables, chunk)
    ensures cluster.faults >= old(cluster.faults) && db.faults == old(db.faults) + Lost(p)
    ensures cluster.calls == old(cluster.calls) + made && Reported(p, got + made)
    ensures db.faults == old(db.faults) && cluster.faults == old(cluster.faults) ==> Undisturbed(p)
  {
    ghost var files, calls := cluster.files, cluster.calls;
    ghost var saved, recorded, put := Fill(cluster, db, chunk, hash, data, missing);
    ghost var filled := cluster.files;
    ghost var stuck, dropped := Retire(cluster, db, chunk, hash, obsolete);
    p := RowPass(hash, current, expected, files, NodesOf(db.tables, chunk), cluster.files,
                 Moved(data, saved, recorded, stuck));
    made := put + dropped;
    Appended(calls, cluster.calls, put, dropped);
    RecordsMoved(current, expected, recorded, stuck, NodesOf(db.tables, chunk));
    MovePossible(p, filled, missing, obsolete);
    MoveReported(p, got, put, dropped, obsolete);
    if db.faults == old(db.faults) && cluster.faults == old(cluster.faults) {
      MoveUndisturbed(p, obsolete);
    }
  }

  lemma RecordsMoved(current: set<string>, expected: set<string>, recorded: set<string>, stuck: set<string>,
                     after: set<string>)
    requires recorded <= expected - current && stuck <= current - expected
    requires after == current + recorded - (current - expected - stuck)
    ensures after == (current * expected) + recorded + stuck
  {
  }

  lemma MovePossible(p: RowPass, filled: Files, missing: seq<string>, obsolete: seq<string>)
    requires p.end.Moved? && p.current != p.expected && p.end.data != []
    requires exists m :: m in p.current && (m, p.hash) in p.files && p.files[(m, p.hash)] == p.end.data
    requires Elements(missing) == p.expected - p.current && Elements(obsolete) == p.current - p.expected
    requires p.end.recorded <= p.end.saved <= Elements(missing) && p.end.stuck <= Elements(obsolete)
    requires p.after == (p.current * p.expected) + p.end.recorded + p.end.stuck
    requires OnlyTouched(p.files, filled, Elements(missing), p.hash)
    requires OnlyTouched(filled, p.files', Elements(obsolete), p.hash)
    requires forall n :: n in p.end.saved ==> (n, p.hash) in filled && filled[(n, p.hash)] == p.end.data
    ensures Possible(p)
  {
  }

  lemma MoveUndisturbed(p: RowPass, obsolete: seq<string>)
    requires p.end.Moved? && |p.end.stuck| == 0 && |p.end.saved - p.end.recorded| == 0
    requires p.end.recorded <= p.end.saved <= p.expected - p.current
    requires p.hash != "" ==> |p.expected - p.current - p.end.saved| == 0
    requires Elements(obsolete) == p.current - p.expected && AllGone(obsolete, p.hash, p.files')
    ensures Undisturbed(p)
  {
  }

  /** The pass over one row as it was read. */
  method RebalanceRow(ring: HashRing, cluster: StorageNodes, db: Database, chunk: Chunk, replicas: int)
    returns (ghost p: RowPass, ghost made: seq<Call>)
    requires ring.Valid() && Valid(db.tables) && AsStored(db.tables, chunk)
    modifies cluster, db
    ensures Possible(p)
    ensures p == RowPass(chunk.hash, NodesOf(old(db.tables), chunk.id),
      Elements(Place(ring.State(), ring.cfg.hash(chunk.hash), replicas)),
      old(cluster.files), NodesOf(db.tables, chunk.id), cluster.files, p.end)
    ensures Valid(db.tables) && SameButNodes(old(db.tables), db.tables, chunk.id)
    ensures cluster.calls == old(cluster.calls) + made && Reported(p, made)
    ensures cluster.faults >= old(cluster.faults) && db.faults == old(db.faults) + Lost(p)
    ensures db.faults == old(db.faults) ==>
      forall n :: Saved(n, chunk.hash, true) in made ==> n in NodesOf(db.tables, chunk.id)
    ensures db.faults == old(db.faults) && cluster.faults == old(cluster.faults) ==> Undisturbed(p)
  {
    made := [];
    var currentMap, expectedMap, missingNodes, obsoleteNodes := Compare(ring, chunk, replicas);
    p := RowPass(chunk.hash, currentMap, expectedMap, cluster.files, currentMap, cluster.files, Balanced);
    if |missingNodes| == 0 && |obsoleteNodes| == 0 {
      return;
    }
    ghost var calls := cluster.calls;
    var data;
    data, made := Fetch(cluster, currentMap, chunk.hash);
    if data.None? || |data.value| == 0 {
      p := p.(end := Unfetched);
      NothingFetched(p, data, made);
      return;
    }
    ghost var got := made;
    p, made := Move(cluster, db, chunk.id, chunk.hash, data.value, missingNodes, obsoleteNodes, currentMap, expectedMap,
                    got);
    Appended(calls, cluster.calls, got, made);
    made := got + made;
    SavesRecorded(p, made);
  }

  /** What is recorded, what is expected, and the differences. */
  method Compare(ring: HashRing, chunk: Chunk, replicas: int)
    returns (current: set<string>, expected: set<string>, missing: seq<string>, obsolete: seq<string>)
    requires ring.Valid()
    ensures current == Elements(chunk.nodes)
    ensures expected == Elements(Place(ring.State(), ring.cfg.hash(chunk.hash), replicas))
    ensures Lists(missing, expected - current) && Lists(obsolete, current - expected)
    ensures current == expected <==> missing == [] && obsolete == []
  {
    var expectedNodes := ring.GetNodes(chunk.hash, replicas);
    expected := Lookup(expectedNodes);
    current := Lookup(chunk.nodes);
    missing := Difference(expected, current);
    obsolete := Difference(current, expected);
    DifferentSets(expected, current, missing, obsolete);
  }

  lemma NothingFetched(p: RowPass, data: Option<Bytes>, made: seq<Call>)
    requires p.end.Unfetched? && (data.None? || data.value == [])
    requires forall c :: c in made ==> c.Got? && c.hash == p.hash && c.node in p.current
    requires data.None? ==> forall m :: m in p.current ==> Got(m, p.hash, None) in made
    requires data.Some? ==> made != [] && made[|made| - 1].Got? && made[|made| - 1].data == data
    ensures Reported(p, made)
  {
  }

  /** Unless a statement failed, every node whose save succeeded is recorded. */
  lemma SavesRecorded(p: RowPass, made: seq<Call>)
    requires p.end.Moved? && Possible(p) && Reported(p, made)
    ensures Lost(p) == 0 ==> forall n :: Saved(n, p.hash, true) in made ==> n in p.after
  {
  }
}
