/** Cluster membership: the state machine that the replicated log drives (pkg/raft/fsm.go) and the
    gateway loop that turns a listing of it into a ring (internal/api/ring_manager.go). */
module Membership {
  import opened Sequences
  import opened Ring
  import opened RingTheory

  const NODE_JOIN := "node_join"
  const NODE_LEAVE := "node_leave"

  datatype Command = Command(kind: string, address: string)

  /** A committed log entry as DecodeCommand sees it: a command, or bytes that do not decode. */
  type Entry = Option<Command>

  /** A Go map from addresses to booleans, which variables refer to rather than contain. */
  class NodeTable {
    var m: map<string, bool>

    constructor (m: map<string, bool>)
      ensures this.m == m
    {
      this.m := m;
    }
  }

  function ApplyEntry(nodes: map<string, bool>, e: Entry): map<string, bool> {
    match e
    case None => nodes
    case Some(Command(kind, address)) =>
      if kind == NODE_JOIN then nodes[address := true]
      else if kind == NODE_LEAVE then nodes - {address}
      else nodes
  }

  function Replay(nodes: map<string, bool>, log: seq<Entry>): map<string, bool> {
    if log == [] then nodes else ApplyEntry(Replay(nodes, log[..|log| - 1]), log[|log| - 1])
  }

  class FsmSnapshot {
    const nodes: NodeTable

    constructor (nodes: NodeTable)
      ensures this.nodes == nodes
    {
      this.nodes := nodes;
    }

    /** The image written to the sink; its JSON coding is taken to round-trip. */
    method Persist() returns (image: map<string, bool>)
      ensures image == nodes.m
    {
      image := nodes.m;
    }
  }

  class ClusterFSM {
    var nodes: NodeTable

    constructor ()
      ensures fresh(nodes) && nodes.m == map[]
    {
      nodes := new NodeTable(map[]);
    }

    method Apply(e: Entry) returns (ok: bool)
      modifies nodes
      ensures ok <==> e.Some?
      ensures nodes.m == ApplyEntry(old(nodes.m), e)
    {
      if e.None? {
        return false;
      }
      if e.value.kind == NODE_JOIN {
        nodes.m := nodes.m[e.value.address := true];
      } else if e.value.kind == NODE_LEAVE {
        nodes.m := nodes.m - {e.value.address};
      }
      return true;
    }

    method ApplyAll(log: seq<Entry>)
      modifies nodes
      ensures nodes.m == Replay(old(nodes.m), log)
    {
      for i := 0 to |log|
        invariant nodes == old(nodes) && nodes.m == Replay(old(nodes.m), log[..i])
      {
        var _ := Apply(log[i]);
        assert log[..i + 1][..i] == log[..i];
      }
      assert log[..|log|] == log;
    }

    /** Ranging over a Go map visits the keys once each, in any order. */
    method GetNodes() returns (result: seq<string>)
      ensures Lists(result, nodes.m.Keys)
    {
      result := [];
      var rest := nodes.m.Keys;
      while rest != {}
        invariant rest <= nodes.m.Keys && Lists(result, nodes.m.Keys - rest)
        decreases rest
      {
        var addr :| addr in rest;
        ElementsAppend(result, addr);
        assert addr !in Elements(result);
        result, rest := result + [addr], rest - {addr};
        assert nodes.m.Keys - rest == Elements(result);
      }
    }

    method Snapshot() returns (snapshot: FsmSnapshot)
      ensures fresh(snapshot) && fresh(snapshot.nodes) && snapshot.nodes.m == nodes.m
    {
      var copy := new NodeTable(map[]);
      var rest := nodes.m.Keys;
      while rest != {}
        invariant fresh(copy) && rest <= nodes.m.Keys
        invariant copy.m == map k | k in nodes.m && k !in rest :: nodes.m[k]
        decreases rest
      {
        var k :| k in rest;
        copy.m := copy.m[k := nodes.m[k]];
        rest := rest - {k};
      }
      snapshot := new FsmSnapshot(copy);
    }

    method Restore(image: Option<map<string, bool>>) returns (ok: bool)
      modifies this
      ensures ok <==> image.Some?
      ensures if ok then fresh(nodes) && nodes.m == image.value else nodes == old(nodes)
    {
      if image.None? {
        return false;
      }
      nodes := new NodeTable(image.value);
      return true;
    }
  }

  /** A snapshot taken after `cut` entries, written out only after the rest of the log has been applied,
      and restored into another machine that then applies the rest: both machines end alike. */
  method Recover(log: seq<Entry>, cut: nat) returns (original: ClusterFSM, restored: ClusterFSM)
    requires cut <= |log|
    ensures restored.nodes.m == original.nodes.m == Replay(map[], log)
    ensures restored.nodes != original.nodes
  {
    original := new ClusterFSM();
    original.ApplyAll(log[..cut]);
    var snapshot := original.Snapshot();
    original.ApplyAll(log[cut..]);
    var image := snapshot.Persist();
    restored := new ClusterFSM();
    var ok := restored.Restore(Some(image));
    restored.ApplyAll(log[cut..]);
    ReplaySplit(map[], log, cut);
  }

  lemma {:induction false} ReplaySplit(nodes: map<string, bool>, log: seq<Entry>, cut: nat)
    requires cut <= |log|
    ensures Replay(Replay(nodes, log[..cut]), log[cut..]) == Replay(nodes, log)
  {
    if cut == |log| {
      assert log[..cut] == log;
    } else {
      var init := log[..|log| - 1];
      ReplaySplit(nodes, init, cut);
      assert init[..cut] == log[..cut];
      assert log[cut..][..|log[cut..]| - 1] == init[cut..];
    }
  }

  ghost predicate JoinedAt(log: seq<Entry>, address: string, i: nat) {
    && i < |log| && log[i] == Some(Command("node_join", address))
    && forall j :: i < j < |log| ==> log[j] != Some(Command("node_leave", address))
  }

  /** An address is a member exactly when it joined and has not left since. */
  lemma {:induction false} MemberIff(log: seq<Entry>, address: string)
    ensures address in Replay(map[], log) <==> exists i: nat :: JoinedAt(log, address, i)
  {
    if log != [] {
      var n := |log| - 1;
      MemberIff(log[..n], address);
      if log[n] == Some(Command(NODE_JOIN, address)) {
        assert JoinedAt(log, address, n);
      } else if log[n] != Some(Command(NODE_LEAVE, address)) {
        if i: nat :| JoinedAt(log[..n], address, i) {
          assert JoinedAt(log, address, i);
        }
        if i: nat :| JoinedAt(log, address, i) {
          assert JoinedAt(log[..n], address, i);
        }
      }
    }
  }

  // ---- the gateway's view ----

  const V_NODES := 50

  datatype DbNode = DbNode(address: string, isActive: bool)

  /** These are the indices of the active rows, in row order. */
  ghost predicate ActiveRows(rows: seq<DbNode>, picked: seq<nat>) {
    && (forall k, l :: 0 <= k < l < |picked| ==> picked[k] < picked[l])
    && (forall i: nat :: i in picked <==> i < |rows| && rows[i].isActive)
  }

  ghost function AddressesAt(rows: seq<DbNode>, picked: seq<nat>): (r: seq<string>)
    requires forall k :: 0 <= k < |picked| ==> picked[k] < |rows|
    ensures |r| == |picked| && forall k :: 0 <= k < |r| ==> r[k] == rows[picked[k]].address
  {
    seq(|picked|, k requires 0 <= k < |picked| => rows[picked[k]].address)
  }

  lemma ActiveAddresses(rows: seq<DbNode>, picked: seq<nat>)
    requires ActiveRows(rows, picked)
    ensures forall k :: 0 <= k < |picked| ==> picked[k] < |rows|
    ensures Elements(AddressesAt(rows, picked)) == set r | r in rows && r.isActive :: r.address
    ensures |picked| == |set i: nat | i < |rows| && rows[i].isActive|
  {
    assert forall k :: 0 <= k < |picked| ==> picked[k] in picked;
    var addresses := AddressesAt(rows, picked);
    forall r | r in rows && r.isActive ensures r.address in addresses {
      var i: nat :| i < |rows| && rows[i] == r;
      var k: nat :| k < |picked| && picked[k] == i;
      assert addresses[k] == r.address;
    }
    assert Elements(picked) == set i: nat | i < |rows| && rows[i].isActive;
    DistinctSize(picked);
  }

  lemma PickedNext(rows: seq<DbNode>, picked: seq<nat>, i: nat)
    requires i < |rows| && ActiveRows(rows[..i], picked)
    ensures ActiveRows(rows[..i + 1], if rows[i].isActive then picked + [i] else picked)
  {
    var more := rows[..i + 1];
    assert forall k :: 0 <= k < |picked| ==> picked[k] in picked;
    assert forall j: nat :: j < i ==> more[j] == rows[..i][j];
    assert more[i] == rows[i];
  }

  /** A new ring with these nodes added one after the other. */
  method RebuildRing(cfg: Config, nodes: seq<string>) returns (ring: HashRing)
    ensures fresh(ring) && ring.Valid() && ring.cfg == cfg && ring.State() == Rebuild(cfg, nodes)
    ensures ring.nodesMap == Elements(nodes) && |ring.keys| == VirtualNodes(cfg) * |ring.nodesMap|
  {
    ring := new HashRing(cfg);
    for i := 0 to |nodes|
      invariant fresh(ring) && ring.Valid() && ring.cfg == cfg && ring.State() == Rebuild(cfg, nodes[..i])
    {
      assert nodes[..i + 1][..i] == nodes[..i];
      ring.AddNode(nodes[i]);
    }
    assert nodes[..|nodes|] == nodes;
    RebuildInvariant(cfg, nodes);
  }

  class RingManager {
    const hash: string -> Pos
    const quorumSize: int
    var ring: HashRing
    var degraded: bool
    var activeCount: int

    constructor (hash: string -> Pos, quorumSize: int)
      ensures this.hash == hash && this.quorumSize == quorumSize
      ensures fresh(ring) && ring.Valid() && ring.State() == EMPTY && !degraded && activeCount == 0
    {
      this.hash, this.quorumSize := hash, quorumSize;
      ring := new HashRing(Config(hash, V_NODES));
      degraded, activeCount := false, 0;
    }

    /** One turn of SyncLoop, given the answers of the cluster and of the database, if any.  The ring is built
        on the cluster's nodes, or else on the active rows of the database, in row order.  The old ring is
        replaced, not changed, so a reader that still holds it is undisturbed. */
    method Sync(raftNodes: Option<seq<string>>, dbNodes: Option<seq<DbNode>>) returns (ghost picked: seq<nat>)
      modifies this
      ensures raftNodes.None? && dbNodes.None? ==>
        ring == old(ring) && degraded == old(degraded) && activeCount == old(activeCount)
      ensures raftNodes.Some? || dbNodes.Some? ==>
        && fresh(ring) && ring.Valid() && ring.cfg == Config(hash, 50) && |ring.keys| == 50 * |ring.nodesMap|
        && (degraded <==> activeCount < quorumSize)
      ensures raftNodes.Some? ==>
        && ring.State() == Rebuild(ring.cfg, raftNodes.value) && activeCount == |raftNodes.value|
        && ring.nodesMap == set n | n in raftNodes.value
      ensures raftNodes.None? && dbNodes.Some? ==>
        var rows := dbNodes.value;
        && ActiveRows(rows, picked) && (forall k :: 0 <= k < |picked| ==> picked[k] < |rows|)
        && ring.State() == Rebuild(ring.cfg, AddressesAt(rows, picked))
        && ring.nodesMap == (set r | r in rows && r.isActive :: r.address)
        && activeCount == |set i: nat | i < |rows| && rows[i].isActive|
    {
      var activeNodes: seq<string> := [];
      picked := [];
      if raftNodes.Some? {
        activeNodes := raftNodes.value;
      } else {
        if dbNodes.None? {
          return;
        }
        activeNodes, picked := ActiveNodes(dbNodes.value);
        ActiveAddresses(dbNodes.value, picked);
      }
      ring := RebuildRing(Config(hash, V_NODES), activeNodes);
      activeCount := |activeNodes|;
      if !degraded && activeCount < quorumSize {
        degraded := true;
      }
      if degraded && activeCount >= quorumSize {
        degraded := false;
      }
    }
  }

  /** The addresses of the active rows, in row order. */
  method ActiveNodes(rows: seq<DbNode>) returns (activeNodes: seq<string>, ghost picked: seq<nat>)
    ensures ActiveRows(rows, picked) && forall k :: 0 <= k < |picked| ==> picked[k] < |rows|
    ensures activeNodes == AddressesAt(rows, picked)
  {
    activeNodes, picked := [], [];
    for i := 0 to |rows|
      invariant ActiveRows(rows[..i], picked) && forall k :: 0 <= k < |picked| ==> picked[k] < i
      invariant activeNodes == AddressesAt(rows, picked)
    {
      PickedNext(rows, picked, i);
      if rows[i].isActive {
        activeNodes, picked := activeNodes + [rows[i].address], picked + [i];
      }
    }
    assert rows[..|rows|] == rows;
  }

  /** Two gateways that list the same replicated state, each in its own order, place every chunk alike. */
  lemma GatewaysAgree(hash: string -> Pos, log: seq<Entry>, a: seq<string>, b: seq<string>)
    requires Lists(a, Replay(map[], log).Keys) && Lists(b, Replay(map[], log).Keys)
    requires PairwiseCrossFree(Config(hash, V_NODES), Replay(map[], log).Keys)
    ensures Rebuild(Config(hash, V_NODES), a) == Rebuild(Config(hash, V_NODES), b)
  {
    RebuildOrder(Config(hash, V_NODES), a, b);
  }

  /** The same, end to end: the two gateways ask the state machine, rebuild, and look a chunk up. */
  method TwoGateways(fsm: ClusterFSM, first: RingManager, second: RingManager, chunkHash: string, count: int)
    returns (a: seq<string>, b: seq<string>)
    requires first != second && first.hash == second.hash
    requires PairwiseCrossFree(Config(first.hash, V_NODES), fsm.nodes.m.Keys)
    modifies first, second
    ensures a == b
  {
    var listing := fsm.GetNodes();
    var _ := first.Sync(Some(listing), None);
    var listing' := fsm.GetNodes();
    var _ := second.Sync(Some(listing'), None);
    RebuildOrder(Config(first.hash, V_NODES), listing, listing');
    a := first.ring.GetNodes(chunkHash, count);
    b := second.ring.GetNodes(chunkHash, count);
  }
}
