/** Storing chunks: how a body is cut, where a chunk goes, and when it counts as stored
    (internal/api/object_handler.go). */
module Storing {
  import opened Sequences
  import opened Ring
  import opened RingDisruption
  import opened Cluster
  import opened Content

  /** Go's integer division, which truncates toward zero. */
  function Half(n: int): int {
    if n >= 0 then n / 2 else -(-n / 2)
  }

  function Quorum(replicas: int): (q: int)
    ensures replicas >= 0 ==> replicas < 2 * q <= replicas + 2
    ensures replicas < 0 ==> -replicas - 1 <= 2 * (1 - q) <= -replicas
  {
    Half(replicas) + 1
  }

  /** A quorum is a majority of the replication factor, so two quorums of one placement share a node. */
  lemma QuorumsMeet(replicas: int, placement: set<string>, a: set<string>, b: set<string>)
    requires |placement| <= replicas && a <= placement && b <= placement
    requires |a| >= Quorum(replicas) && |b| >= Quorum(replicas)
    ensures 2 * Quorum(replicas) > replicas >= 2 * (Quorum(replicas) - 1)
    ensures a * b != {}
  {
    if a * b == {} {
      SubsetSize(a + b, placement);
    }
  }

  const MEBIBYTE := 1024 * 1024

  function ChunkSize(chunkSizeMB: nat): (size: nat)
    ensures size == chunkSizeMB * 1_048_576
  {
    chunkSizeMB * MEBIBYTE
  }

  /** What an upload depends on besides its body. */
  datatype Site = Site(codec: Codec, cfg: Config, st: RingState, replicas: int)

  function PlacementFor(x: Site, hash: string): seq<string> {
    Place(x.st, x.cfg.hash(hash), x.replicas)
  }

  function PlacementOf(x: Site, chunk: Bytes): seq<string> {
    PlacementFor(x, x.codec.hash(chunk))
  }

  lemma PlacementsAreDistinct(x: Site, hash: string)
    ensures Distinct(PlacementFor(x, hash))
    ensures |Elements(PlacementFor(x, hash))| == |PlacementFor(x, hash)|
  {
    PlacementDistinct(x.st, x.cfg.hash(hash), x.replicas);
    DistinctSize(PlacementFor(x, hash));
  }

  /** The nodes of a stored chunk: enough distinct ones, all from the chunk's placement. */
  ghost predicate Quorate(x: Site, chunk: Bytes, nodes: set<string>) {
    nodes <= Elements(PlacementOf(x, chunk)) && |nodes| >= Quorum(x.replicas)
  }

  ghost predicate SealedOn(codec: Codec, chunk: Bytes, nodes: set<string>, files: Files) {
    forall n :: n in nodes ==>
      (n, codec.hash(chunk)) in files && Open(codec, files[(n, codec.hash(chunk))]) == Some(chunk)
  }

  /** Files under other hashes are as they were. */
  ghost predicate OthersSame(files: Files, files': Files, hashes: set<string>) {
    forall n, h :: h !in hashes ==> SameAt(files, files', (n, h))
  }

  /** The ring offers enough nodes for the chunk. */
  ghost predicate Feasible(x: Site, chunk: Bytes) {
    x.codec.hash(chunk) != "" && PlacementOf(x, chunk) != [] && |PlacementOf(x, chunk)| >= Quorum(x.replicas)
  }

  /** A digest that occurs twice has no more nodes in its placement than a quorum needs. */
  ghost predicate RepeatsFit(x: Site, content: map<int, Bytes>) {
    forall i, j :: i in content && j in content && i != j && x.codec.hash(content[i]) == x.codec.hash(content[j]) ==>
      |PlacementOf(x, content[i])| <= Quorum(x.replicas)
  }

  /** With no more nodes than a quorum needs, a quorum is all of them. */
  lemma QuorumIsAll(x: Site, chunk: Bytes, nodes: set<string>)
    requires Quorate(x, chunk, nodes) && |PlacementOf(x, chunk)| <= Quorum(x.replicas)
    ensures nodes == Elements(PlacementOf(x, chunk))
  {
    var placement := Elements(PlacementOf(x, chunk));
    PlacementsAreDistinct(x, x.codec.hash(chunk));
    if n :| n in placement && n !in nodes {
      SubsetSize(nodes, placement - {n});
    }
  }

  /** How the storing of a chunk ended: with these nodes, or because the cipher failed, the ring had no node,
      or too few saves succeeded. */
  datatype Stored = Stored(nodes: seq<string>) | Unsealed | NoNode | TooFew

  /** Hash, compress, encrypt, place, save, and count: what is done with one chunk.  Without a nonce the cipher
      has failed.  A quorum of successful saves is enough, and nothing less. */
  method StoreChunk(ring: HashRing, cluster: StorageNodes, codec: Codec, chunk: Bytes, replicas: int,
                    nonce: Option<Bytes>)
    returns (r: Stored, ghost took: set<string>, ghost made: seq<Call>)
    requires ring.Valid() && Lawful(codec)
    modifies cluster
    ensures cluster.calls == old(cluster.calls) + made
    ensures r.Unsealed? <==> nonce.None?
    ensures
      var x := Site(codec, ring.cfg, ring.State(), replicas);
      && OnlyTouched(old(cluster.files), cluster.files, if nonce.Some? then Elements(PlacementOf(x, chunk)) else {},
                     codec.hash(chunk))
      && (r.NoNode? <==> nonce.Some? && PlacementOf(x, chunk) == [])
      && Savings(made, if nonce.Some? then Elements(PlacementOf(x, chunk)) else {}, took, codec.hash(chunk))
      && (codec.hash(chunk) == "" ==> took == {})
      && (nonce.Some? && PlacementOf(x, chunk) != [] ==> (r.Stored? <==> |took| >= Quorum(replicas)))
      && cluster.faults == old(cluster.faults) +
           (if nonce.None? || codec.hash(chunk) == "" then 0 else |Elements(PlacementOf(x, chunk)) - took|)
      && (r.Stored? ==>
            && Distinct(r.nodes) && Elements(r.nodes) == took && Quorate(x, chunk, took)
            && SealedOn(codec, chunk, took, cluster.files))
  {
    took, made := {}, [];
    var hash := codec.hash(chunk);
    var compressed := codec.compress(chunk);
    if nonce.None? {
      return Unsealed, took, made;
    }
    var encrypted := codec.encrypt(nonce.value, compressed);
    var nodeAddresses := ring.GetNodes(hash, replicas);
    if |nodeAddresses| == 0 {
      return NoNode, took, made;
    }
    PlacementDistinct(ring.State(), ring.cfg.hash(hash), replicas);
    var saved, failed;
    saved, failed, made := cluster.SaveChunk(nodeAddresses, hash, encrypted);
    SavingsOf(saved, failed, nodeAddresses, hash, made);
    took := Elements(saved);
    DistinctSize(saved);
    if |saved| < Quorum(replicas) {
      return TooFew, took, made;
    }
    OpenUndoesSeal(codec, nonce.value, chunk);
    return Stored(saved), took, made;
  }

  // ---- cutting a body ----

  /** The body cut into chunks: nothing lost, no chunk empty, every chunk but the last one full. */
  ghost predicate IsSplit(body: Bytes, size: nat, chunks: seq<Bytes>) {
    && Flatten(chunks) == body
    && (forall i :: 0 <= i < |chunks| ==> 0 < |chunks[i]| <= size)
    && (forall i :: 0 <= i < |chunks| - 1 ==> |chunks[i]| == size)
  }

  /** The read loop.  A full read asks for more; a short or empty one ends the loop. */
  method ReadChunks(body: Bytes, chunkSize: nat) returns (chunks: seq<Bytes>)
    requires chunkSize > 0
    ensures IsSplit(body, chunkSize, chunks)
  {
    chunks := [];
    var pos := 0;
    while true
      invariant 0 <= pos <= |body| && IsSplit(body[..pos], chunkSize, chunks)
      invariant forall i :: 0 <= i < |chunks| ==> |chunks[i]| == chunkSize
      decreases |body| - pos
    {
      var n := if |body| - pos < chunkSize then |body| - pos else chunkSize;
      if n > 0 {
        var chunk := body[pos..pos + n];
        assert body[..pos + n] == body[..pos] + chunk;
        assert (chunks + [chunk])[..|chunks|] == chunks;
        chunks := chunks + [chunk];
        pos := pos + n;
      }
      if n < chunkSize {
        assert body[..pos] == body;
        return;
      }
    }
  }

  lemma SplitHead(body: Bytes, size: nat, chunks: seq<Bytes>)
    requires IsSplit(body, size, chunks) && body != []
    ensures var n := if |body| < size then |body| else size;
      chunks != [] && chunks[0] == body[..n] && IsSplit(body[n..], size, chunks[1..])
  {
    assert chunks != [];
    var head, rest := chunks[0], chunks[1..];
    assert chunks == [head] + rest;
    FlattenAppend([head], rest);
    assert Flatten([head]) == head;
    assert body == head + Flatten(rest);
    if rest != [] {
      assert Flatten(rest) == Flatten(rest[..|rest| - 1]) + rest[|rest| - 1];
    }
  }

  /** There is only one way to cut a body. */
  lemma {:induction false} SplitUnique(body: Bytes, size: nat, a: seq<Bytes>, b: seq<Bytes>)
    requires size > 0 && IsSplit(body, size, a) && IsSplit(body, size, b)
    ensures a == b
    decreases |body|
  {
    if body == [] {
      NoChunks(size, a);
      NoChunks(size, b);
    } else {
      SplitHead(body, size, a);
      SplitHead(body, size, b);
      var n := if |body| < size then |body| else size;
      SplitUnique(body[n..], size, a[1..], b[1..]);
      assert a == [a[0]] + a[1..] && b == [b[0]] + b[1..];
    }
  }

  lemma NoChunks(size: nat, chunks: seq<Bytes>)
    requires IsSplit([], size, chunks)
    ensures chunks == []
  {
  }

  function ContentOf(chunks: seq<Bytes>): map<int, Bytes> {
    map i | 0 <= i < |chunks| :: chunks[i]
  }
}
