/** The device-tree memory filter: of the root node's children, the ones
    whose `device_type` is "memory" and that have a `reg` property become
    memory nodes, their `reg` read as a 64-bit big-endian address followed by
    a 64-bit big-endian size.  A child is reduced to the three things the
    filter reads. */
module DeviceTree {
  import opened Common

  /** A child of the root node: its name, its `device_type` string (`None`
      when the lookup fails) and its raw `reg` bytes (`None` when absent). */
  datatype Child = Child(name: string, deviceType: Option<string>, reg: Option<seq<u8>>)

  datatype MemoryNode = MemoryNode(address: u64, size: u64, name: string)

  /** The error type of the filter's result; the filter never produces it. */
  datatype DtError = DtError

  // ---------------------------------------------------------------------
  // Big-endian integers
  // ---------------------------------------------------------------------

  function Pow256(n: nat): (p: nat)
    ensures p >= 1
  {
    if n == 0 then 1 else 256 * Pow256(n - 1)
  }

  lemma Pow256Eight()
    ensures Pow256(8) == U64_LIMIT
  {
  }

  /** The value of bytes read most significant first; it fits in as many
      bytes as were read. */
  function BigEndian(bytes: seq<u8>): (v: nat)
    ensures v < Pow256(|bytes|)
  {
    if bytes == [] then 0
    else
      var high := BigEndian(bytes[..|bytes| - 1]);
      assert high * 256 + bytes[|bytes| - 1] < Pow256(|bytes|) by {
        assert high <= Pow256(|bytes| - 1) - 1;
        assert high * 256 <= Pow256(|bytes|) - 256;
      }
      high * 256 + bytes[|bytes| - 1]
  }

  /** The `n` bytes of `v`, most significant first. */
  function ToBigEndian(v: nat, n: nat): (bytes: seq<u8>)
    requires v < Pow256(n)
    ensures |bytes| == n
  {
    if n == 0 then []
    else ToBigEndian(v / 256, n - 1) + [v % 256]
  }

  lemma {:induction false} BigEndianOfToBigEndian(v: nat, n: nat)
    requires v < Pow256(n)
    ensures BigEndian(ToBigEndian(v, n)) == v
  {
    if n > 0 {
      var bytes := ToBigEndian(v, n);
      assert bytes[..n - 1] == ToBigEndian(v / 256, n - 1);
      BigEndianOfToBigEndian(v / 256, n - 1);
    }
  }

  lemma {:induction false} ToBigEndianOfBigEndian(bytes: seq<u8>)
    ensures ToBigEndian(BigEndian(bytes), |bytes|) == bytes
  {
    if bytes != [] {
      var n := |bytes|;
      var front, last := bytes[..n - 1], bytes[n - 1];
      var high := BigEndian(front);
      var v := BigEndian(bytes);
      assert v == high * 256 + last;
      assert v / 256 == high && v % 256 == last;
      assert ToBigEndian(v, n) == ToBigEndian(high, n - 1) + [last];
      ToBigEndianOfBigEndian(front);
      assert bytes == front + [last];
    }
  }

  /** `u64::from_be_bytes`: the `u64` whose eight big-endian bytes are the
      given ones. */
  function FromBeBytes(bytes: seq<u8>): (v: u64)
    requires |bytes| == 8
    ensures ToBigEndian(v, 8) == bytes
  {
    Pow256Eight();
    ToBigEndianOfBigEndian(bytes);
    BigEndian(bytes)
  }

  // ---------------------------------------------------------------------
  // The filter
  // ---------------------------------------------------------------------

  /** A child the filter turns into a memory node. */
  predicate IsMemoryChild(c: Child) {
    c.deviceType == Some("memory") && c.reg.Some?
  }

  /** Every memory child's `reg` is exactly an address and a size: a shorter
      one makes `split_at(8)` panic and any other length makes the second
      eight-byte conversion panic. */
  predicate RegsWellFormed(children: seq<Child>) {
    forall i :: 0 <= i < |children| && IsMemoryChild(children[i]) ==> |children[i].reg.value| == 16
  }

  /** The node of a memory child: labelled with the child's name, its `reg`
      the big-endian address followed by the big-endian size. */
  function NodeOf(c: Child): (node: MemoryNode)
    requires IsMemoryChild(c) && |c.reg.value| == 16
    ensures node.name == c.name
    ensures c.reg.value == ToBigEndian(node.address, 8) + ToBigEndian(node.size, 8)
  {
    var reg := c.reg.value;
    MemoryNode(FromBeBytes(reg[..8]), FromBeBytes(reg[8..]), c.name)
  }

  /** The filter's output as a function of the children, in child order. */
  function MemoryNodes(children: seq<Child>): (nodes: seq<MemoryNode>)
    requires RegsWellFormed(children)
    ensures |nodes| <= |children|
  {
    if children == [] then []
    else
      var last := children[|children| - 1];
      assert RegsWellFormed(children[..|children| - 1]);
      MemoryNodes(children[..|children| - 1]) + (if IsMemoryChild(last) then [NodeOf(last)] else [])
  }

  /** `dt_get_memory_nodes` over the root's children.  It always succeeds. */
  method DtGetMemoryNodes(children: seq<Child>) returns (r: Result<seq<MemoryNode>, DtError>)
    requires RegsWellFormed(children)
    ensures r == Ok(MemoryNodes(children))
  {
    var memoryNodes: seq<MemoryNode> := [];
    for i := 0 to |children|
      invariant RegsWellFormed(children[..i])
      invariant memoryNodes == MemoryNodes(children[..i])
    {
      var child := children[i];
      assert children[..i + 1][..i] == children[..i];
      assert RegsWellFormed(children[..i + 1]);
      var deviceType := child.deviceType;
      if deviceType.None? {
        continue;
      }
      if deviceType.value == "memory" {
        var reg := child.reg;
        if reg.None? {
          continue;
        }
        var addrVec, sizeVec := reg.value[..8], reg.value[8..];
        var addr := FromBeBytes(addrVec);
        var size := FromBeBytes(sizeVec);
        var node := MemoryNode(addr, size, child.name);
        memoryNodes := memoryNodes + [node];
      }
    }
    assert children[..|children|] == children;
    return Ok(memoryNodes);
  }

  // ---------------------------------------------------------------------
  // What the filter keeps
  // ---------------------------------------------------------------------

  /** A single child contributes its node if it is a memory child, and
      nothing otherwise. */
  lemma MemoryNodesOfOne(c: Child)
    requires IsMemoryChild(c) ==> |c.reg.value| == 16
    ensures RegsWellFormed([c])
    ensures MemoryNodes([c]) == if IsMemoryChild(c) then [NodeOf(c)] else []
  {
    assert [c][..0] == [];
  }

  /** The output for a list of children is the output for its front part
      followed by the output for its back part: order is kept. */
  lemma {:induction false} MemoryNodesAppend(a: seq<Child>, b: seq<Child>)
    requires RegsWellFormed(a) && RegsWellFormed(b)
    ensures RegsWellFormed(a + b)
    ensures MemoryNodes(a + b) == MemoryNodes(a) + MemoryNodes(b)
    decreases |b|
  {
    assert RegsWellFormed(a + b) by {
      forall i | 0 <= i < |a + b| && IsMemoryChild((a + b)[i])
        ensures |(a + b)[i].reg.value| == 16
      {
        if i >= |a| { assert (a + b)[i] == b[i - |a|]; }
      }
    }
    if b == [] {
      assert a + b == a;
    } else {
      var front := b[..|b| - 1];
      assert RegsWellFormed(front);
      assert (a + b)[..|a + b| - 1] == a + front;
      MemoryNodesAppend(a, front);
    }
  }

  /** Every output node is the node of some memory child, and every memory
      child's node is in the output. */
  lemma {:induction false} MemoryNodesExactly(children: seq<Child>)
    requires RegsWellFormed(children)
    ensures forall n :: n in MemoryNodes(children) ==>
      exists i :: 0 <= i < |children| && IsMemoryChild(children[i]) && n == NodeOf(children[i])
    ensures forall i :: 0 <= i < |children| && IsMemoryChild(children[i]) ==> NodeOf(children[i]) in MemoryNodes(children)
  {
    if children != [] {
      var front := children[..|children| - 1];
      assert RegsWellFormed(front);
      MemoryNodesExactly(front);
      forall i | 0 <= i < |front| ensures front[i] == children[i] { }
    }
  }
}
