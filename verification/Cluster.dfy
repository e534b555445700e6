/** The storage nodes as a client sees them through internal/api/storage_client.go: each node keeps one
    file per chunk hash (internal/storage/disk.go), and every remote call may fail. */
module Cluster {
  import opened Sequences

  type byte = x: int | 0 <= x < 256
  type Bytes = seq<byte>

  /** The file that a node keeps under a chunk hash. */
  type Files = map<(string, string), Bytes>

  ghost predicate SameAt(files: Files, files': Files, k: (string, string)) {
    (k in files <==> k in files') && (k in files ==> files[k] == files'[k])
  }

  /** Nothing changed except, perhaps, the files of these nodes under this hash. */
  ghost predicate OnlyTouched(files: Files, files': Files, nodes: set<string>, hash: string) {
    forall k: (string, string) :: !(k.0 in nodes && k.1 == hash) ==> SameAt(files, files', k)
  }

  lemma TouchedAgain(files: Files, files': Files, files'': Files, nodes: set<string>, n: string, hash: string)
    requires OnlyTouched(files, files', nodes, hash) && OnlyTouched(files', files'', {n}, hash) && n in nodes
    ensures OnlyTouched(files, files'', nodes, hash)
  {
  }

  /** The node holds a good file, for any meaning of good. */
  ghost predicate GoodAt(hash: string, node: string, files: Files, good: (string, Bytes) -> bool) {
    (node, hash) in files && good(hash, files[(node, hash)])
  }

  ghost predicate HasGood(hash: string, nodes: set<string>, files: Files, good: (string, Bytes) -> bool) {
    exists n :: n in nodes && GoodAt(hash, n, files, good)
  }

  /** Every one of the nodes does. */
  ghost predicate Backed(hash: string, nodes: set<string>, files: Files, good: (string, Bytes) -> bool) {
    forall n :: n in nodes ==> (n, hash) in files && good(hash, files[(n, hash)])
  }

  /** A remote call that has ended, and how. */
  datatype Call =
    | Got(node: string, hash: string, data: Option<Bytes>)
    | Saved(node: string, hash: string, ok: bool)
    | Deleted(node: string, hash: string, ok: bool)

  class StorageNodes {
    var files: Files
    /** The calls so far, in the order in which they ended. */
    var calls: seq<Call>
    /** How many of them have failed for reasons that neither their arguments nor the files explain. */
    var faults: nat

    constructor ()
      ensures files == map[] && calls == [] && faults == 0
    {
      files, calls, faults := map[], [], 0;
    }

    method GetChunk(node: string, hash: string) returns (data: Option<Bytes>)
      modifies this
      ensures files == old(files) && calls == old(calls) + [Got(node, hash, data)]
      ensures old(faults) <= faults <= old(faults) + 1
      ensures data.Some? ==> (node, hash) in files && data.value == files[(node, hash)] && faults == old(faults)
      ensures data.None? && faults == old(faults) ==> (node, hash) !in files
    {
      if * {
        data, faults := None, faults + 1;
      } else {
        data := if (node, hash) in files then Some(files[(node, hash)]) else None;
      }
      calls := calls + [Got(node, hash, data)];
    }

    /** One remote save.  A failed save may leave the file as it was, absent, or with any content: the
        node truncates the file before it writes, and the answer may be lost after it has written. */
    method SaveOne(node: string, hash: string, data: Bytes) returns (ok: bool)
      modifies this
      ensures OnlyTouched(old(files), files, {node}, hash)
      ensures calls == old(calls) + [Saved(node, hash, ok)]
      ensures ok ==> hash != "" && (node, hash) in files && files[(node, hash)] == data
      ensures faults == old(faults) + if ok || hash == "" then 0 else 1
    {
      if hash == "" {
        ok := false;
      } else if * {
        ok, faults := false, faults + 1;
        var junk: Bytes := *;
        if * {
          files := files[(node, hash) := junk];
        } else if * {
          files := files - {(node, hash)};
        }
      } else {
        ok, files := true, files[(node, hash) := data];
      }
      calls := calls + [Saved(node, hash, ok)];
    }

    method DeleteChunk(node: string, hash: string) returns (ok: bool)
      modifies this
      ensures OnlyTouched(old(files), files, {node}, hash)
      ensures calls == old(calls) + [Deleted(node, hash, ok)]
      ensures old(faults) <= faults <= old(faults) + if ok then 0 else 1
      ensures (node, hash) in files ==> SameAt(old(files), files, (node, hash))
      ensures ok || faults == old(faults) ==> (node, hash) !in files
      ensures faults == old(faults) ==> (ok <==> (node, hash) in old(files))
    {
      if * {
        ok, faults := false, faults + 1;
        if * {
          files := files - {(node, hash)};
        }
      } else {
        ok, files := (node, hash) in files, files - {(node, hash)};
      }
      calls := calls + [Deleted(node, hash, ok)];
    }

    /** Saves to all nodes at once; the saves end in any order.  Every address is in exactly one of the two
        results, and in the one that its own save has earned it. */
    method SaveChunk(nodes: seq<string>, hash: string, data: Bytes)
      returns (saved: seq<string>, failed: seq<string>, ghost made: seq<Call>)
      modifies this
      ensures OnlyTouched(old(files), files, Elements(nodes), hash)
      ensures multiset(saved) + multiset(failed) == multiset(nodes)
      ensures calls == old(calls) + made && |made| == |nodes|
      ensures forall c :: c in made ==> c.Saved? && c.hash == hash
      ensures forall n :: n in saved <==> Saved(n, hash, true) in made
      ensures forall n :: n in failed <==> Saved(n, hash, false) in made
      ensures Written(saved, failed, hash, data, files)
      ensures faults == old(faults) + if hash == "" then 0 else |failed|
      ensures hash == "" ==> saved == []
    {
      saved, failed, made := [], [], [];
      var running := multiset(nodes);
      while |running| > 0
        invariant Split(saved, failed, running, nodes)
        invariant OnlyTouched(old(files), files, Elements(nodes), hash)
        invariant Written(saved, failed, hash, data, files)
        invariant calls == old(calls) + made && |made| + |running| == |nodes|
        invariant Earned(saved, failed, hash, made)
        invariant faults == old(faults) + if hash == "" then 0 else |failed|
        invariant hash == "" ==> saved == []
        decreases |running|
      {
        var n :| n in running;
        SplitStep(saved, failed, running, nodes, n);
        ghost var before := files;
        var ok := SaveOne(n, hash, data);
        TouchedAgain(old(files), before, files, Elements(nodes), n, hash);
        WrittenStep(saved, failed, hash, data, before, files, n, ok);
        EarnedStep(saved, failed, hash, made, n, ok);
        made := made + [Saved(n, hash, ok)];
        running := running - multiset{n};
        if ok {
          saved := saved + [n];
        } else {
          failed := failed + [n];
        }
      }
    }
  }

  ghost predicate Earned(saved: seq<string>, failed: seq<string>, hash: string, made: seq<Call>) {
    && (forall c :: c in made ==> c.Saved? && c.hash == hash)
    && (forall n :: n in saved <==> Saved(n, hash, true) in made)
    && (forall n :: n in failed <==> Saved(n, hash, false) in made)
  }

  lemma EarnedStep(saved: seq<string>, failed: seq<string>, hash: string, made: seq<Call>, n: string, ok: bool)
    requires Earned(saved, failed, hash, made)
    ensures
      if ok then Earned(saved + [n], failed, hash, made + [Saved(n, hash, ok)])
      else Earned(saved, failed + [n], hash, made + [Saved(n, hash, ok)])
  {
  }

  /** Every address is saved to, failed on, or still running. */
  ghost predicate Split(saved: seq<string>, failed: seq<string>, running: multiset<string>, nodes: seq<string>) {
    multiset(saved) + multiset(failed) + running == multiset(nodes)
  }

  lemma SplitStep(saved: seq<string>, failed: seq<string>, running: multiset<string>, nodes: seq<string>, n: string)
    requires Split(saved, failed, running, nodes) && n in running
    ensures n in nodes && |running - multiset{n}| == |running| - 1
    ensures Split(saved + [n], failed, running - multiset{n}, nodes)
    ensures Split(saved, failed + [n], running - multiset{n}, nodes)
  {
    assert n in multiset(nodes);
  }

  /** The nodes that took the data, and have not failed on another copy of it, hold it. */
  ghost predicate Written(saved: seq<string>, failed: seq<string>, hash: string, data: Bytes, files: Files) {
    forall n :: n in saved && n !in failed ==> (n, hash) in files && files[(n, hash)] == data
  }

  lemma WrittenStep(saved: seq<string>, failed: seq<string>, hash: string, data: Bytes, files: Files, files': Files,
                    n: string, ok: bool)
    requires Written(saved, failed, hash, data, files) && OnlyTouched(files, files', {n}, hash)
    requires ok ==> (n, hash) in files' && files'[(n, hash)] == data
    ensures
      if ok then Written(saved + [n], failed, hash, data, files')
      else Written(saved, failed + [n], hash, data, files')
  {
  }

  lemma {:induction false} PartitionDistinct(saved: seq<string>, failed: seq<string>, nodes: seq<string>)
    requires Distinct(nodes) && multiset(saved) + multiset(failed) == multiset(nodes)
    ensures Distinct(saved) && Elements(saved) <= Elements(nodes)
    ensures forall n :: n in saved ==> n !in failed
    ensures failed == [] ==> Elements(saved) == Elements(nodes)
  {
    DistinctBag(nodes);
    forall n ensures multiset(saved)[n] + multiset(failed)[n] <= 1 {
      assert (multiset(saved) + multiset(failed))[n] == multiset(Elements(nodes))[n];
    }
    AtMostOnceIsDistinct(saved);
    forall n | n in saved ensures n in nodes && n !in failed {
      assert multiset(saved)[n] >= 1;
      assert n in multiset(nodes);
    }
    if failed == [] {
      forall n | n in nodes ensures n in saved {
        assert n in multiset(nodes);
      }
    }
  }

  lemma FailedOnes(saved: seq<string>, failed: seq<string>, nodes: seq<string>)
    requires Distinct(nodes) && multiset(saved) + multiset(failed) == multiset(nodes)
    ensures Distinct(saved) && Elements(nodes) - Elements(saved) == Elements(failed)
    ensures |Elements(failed)| == |failed|
  {
    PartitionDistinct(saved, failed, nodes);
    assert multiset(failed) + multiset(saved) == multiset(nodes);
    PartitionDistinct(failed, saved, nodes);
    DistinctSize(failed);
    forall n | n in nodes ensures n in saved || n in failed {
      assert n in multiset(nodes);
    }
  }

  /** A save has been tried on each of the nodes, and `saved` are those where it succeeded. */
  ghost predicate Savings(made: seq<Call>, nodes: set<string>, saved: set<string>, hash: string) {
    && saved <= nodes && |made| == |nodes| && (forall c :: c in made ==> c.Saved? && c.hash == hash)
    && (forall n :: n in saved <==> Saved(n, hash, true) in made)
    && (forall n :: n in nodes - saved <==> Saved(n, hash, false) in made)
  }

  /** What a save to distinct nodes comes to. */
  lemma SavingsOf(saved: seq<string>, failed: seq<string>, nodes: seq<string>, hash: string, made: seq<Call>)
    requires Distinct(nodes) && multiset(saved) + multiset(failed) == multiset(nodes)
    requires |made| == |nodes| && Earned(saved, failed, hash, made)
    ensures Savings(made, Elements(nodes), Elements(saved), hash) && Distinct(saved)
    ensures |failed| == |Elements(nodes) - Elements(saved)| && forall n :: n in saved ==> n !in failed
  {
    PartitionDistinct(saved, failed, nodes);
    FailedOnes(saved, failed, nodes);
    DistinctSize(nodes);
    assert forall n :: n in failed <==> n in Elements(failed);
  }

  lemma Appended(before: seq<Call>, after: seq<Call>, first: seq<Call>, second: seq<Call>)
    requires after == before + first + second
    ensures after == before + (first + second)
  {
  }

  lemma AtMostOnceIsDistinct(s: seq<string>)
    requires forall n :: multiset(s)[n] <= 1
    ensures Distinct(s)
  {
    forall i, j | 0 <= i < j < |s| ensures s[i] != s[j] {
      CountIndices(s, s[i]);
      if s[i] == s[j] {
        SubsetSize({i, j}, Indices(s, s[i]));
      }
    }
  }
}
