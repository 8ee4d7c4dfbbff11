/**
 * An abstract FlatBuffers builder and reader. The byte layout (vtables,
 * alignment, little-endian scalars) is not modelled; what is kept is the
 * builder's protocol and the reader's defaults:
 *  - the buffer is an append-only sequence of finished nodes (strings,
 *    vectors of offsets, tables); offset k names nodes[k - 1] and offset 0
 *    means "no object";
 *  - at most one vector or table is under construction at a time, and a
 *    string, vector or table may only be started when nothing is open;
 *  - a vector is built by prepending its elements, so the last element is
 *    prepended first;
 *  - a table slot reads back as its default (0, false, 0.0, offset 0) when
 *    nothing was written to it, and an absent vector has length 0.
 * The builder leaves a slot out when the value added equals the slot's
 * default. No accessor can tell such a slot from one holding the default,
 * so the model records the default value instead. The one value this
 * affects is -0.0, which equals the default 0.0 under float comparison: it
 * is left out and reads back as +0.0, so the model records +0.0.
 */
module FlatBuilder {
  import opened Wrappers
  import opened GoInts

  type Offset = nat

  /** A value stored in a table slot. */
  datatype Field = Ref(target: Offset) | Int(value: int) | Bool(flag: bool) | Float(bits: bv64)

  datatype Node =
    | Str(text: string)
    | Vector(elems: seq<Offset>)
    | Table(fields: map<nat, Field>)

  /** What is under construction. */
  datatype Frame = Idle | InVector(pending: seq<Offset>) | InTable(fields: map<nat, Field>)

  /** A finished buffer: its nodes and the offset of its root table. */
  datatype Buffer = Buffer(nodes: seq<Node>, root: Offset)

  /** A float64 slot equal to the default 0.0 under IEEE comparison: +0.0 or -0.0. */
  predicate FloatIsZero(bits: bv64) { bits == 0 || bits == 0x8000_0000_0000_0000 }

  /** +0.0 for either zero, any other bit pattern unchanged: what a float64 slot reads back. */
  function PositiveZero(bits: bv64): bv64 { if FloatIsZero(bits) then 0 else bits }

  /** Every offset held by `n` names one of the first `k` nodes. */
  ghost predicate RefsBelow(n: Node, k: nat)
  {
    match n
    case Str(_) => true
    case Vector(elems) => forall i | 0 <= i < |elems| :: 1 <= elems[i] <= k
    case Table(fields) => forall s {:trigger RefSlot(fields, s)} :: RefSlot(fields, s) <= k
  }

  ghost predicate FrameRefsBelow(f: Frame, k: nat)
  {
    match f
    case Idle => true
    case InVector(pending) => RefsBelow(Vector(pending), k)
    case InTable(fields) => RefsBelow(Table(fields), k)
  }

  /** Every node refers only to nodes finished before it (children before parents). */
  ghost predicate WellFormed(nodes: seq<Node>)
  {
    forall i {:trigger RefsBelow(nodes[i], i)} | 0 <= i < |nodes| :: RefsBelow(nodes[i], i)
  }

  class Builder {
    var nodes: seq<Node>
    var open: Frame

    ghost predicate Valid()
      reads this
    {
      WellFormed(nodes) && FrameRefsBelow(open, |nodes|)
    }

    constructor ()
      ensures Valid() && nodes == [] && open == Idle
    {
      nodes := [];
      open := Idle;
    }

    method CreateString(s: string) returns (off: Offset)
      requires Valid() && open == Idle
      modifies this
      ensures Valid() && open == Idle
      ensures nodes == old(nodes) + [Str(s)] && off == |nodes|
    {
      nodes := nodes + [Str(s)];
      off := |nodes|;
    }

    /** Opens a vector; `count` is the size hint the encoder passes. */
    method StartVector(count: nat)
      requires Valid() && open == Idle
      modifies this
      ensures Valid() && nodes == old(nodes) && open == InVector([])
    {
      open := InVector([]);
    }

    /** Puts `off` in front of the elements prepended so far. */
    method PrependUOffsetT(off: Offset)
      requires Valid() && open.InVector? && 1 <= off <= |nodes|
      modifies this
      ensures Valid() && nodes == old(nodes) && open == InVector([off] + old(open.pending))
    {
      open := InVector([off] + open.pending);
    }

    /** Closes the vector; `count` must be the number of elements prepended. */
    method EndVector(count: nat) returns (off: Offset)
      requires Valid() && open.InVector? && count == |open.pending|
      modifies this
      ensures Valid() && open == Idle
      ensures nodes == old(nodes) + [Vector(old(open.pending))] && off == |nodes|
    {
      nodes := nodes + [Vector(open.pending)];
      open := Idle;
      off := |nodes|;
    }

    /** Opens a table with `numFields` slots. */
    method StartObject(numFields: nat)
      requires Valid() && open == Idle
      modifies this
      ensures Valid() && nodes == old(nodes) && open == InTable(map[])
    {
      open := InTable(map[]);
    }

    /** Writes an offset into a slot of the open table. */
    method AddOffset(slot: nat, off: Offset)
      requires Valid() && open.InTable? && off <= |nodes|
      modifies this
      ensures Valid() && nodes == old(nodes)
      ensures open == InTable(old(open.fields)[slot := Ref(off)])
    {
      var fields := open.fields[slot := Ref(off)];
      forall s ensures RefSlot(fields, s) <= |nodes| {
        assert s != slot ==> RefSlot(fields, s) == RefSlot(open.fields, s);
      }
      open := InTable(fields);
    }

    method AddInt(slot: nat, x: int)
      requires Valid() && open.InTable?
      modifies this
      ensures Valid() && nodes == old(nodes)
      ensures open == InTable(old(open.fields)[slot := Int(x)])
    {
      var fields := open.fields[slot := Int(x)];
      forall s ensures RefSlot(fields, s) <= |nodes| {
        assert s != slot ==> RefSlot(fields, s) == RefSlot(open.fields, s);
      }
      open := InTable(fields);
    }

    method AddBool(slot: nat, x: bool)
      requires Valid() && open.InTable?
      modifies this
      ensures Valid() && nodes == old(nodes)
      ensures open == InTable(old(open.fields)[slot := Bool(x)])
    {
      var fields := open.fields[slot := Bool(x)];
      forall s ensures RefSlot(fields, s) <= |nodes| {
        assert s != slot ==> RefSlot(fields, s) == RefSlot(open.fields, s);
      }
      open := InTable(fields);
    }

    /** A float64 slot: -0.0 is recorded as the +0.0 it reads back as. */
    method AddFloat(slot: nat, bits: bv64)
      requires Valid() && open.InTable?
      modifies this
      ensures Valid() && nodes == old(nodes)
      ensures open == InTable(old(open.fields)[slot := Float(PositiveZero(bits))])
    {
      var fields := open.fields[slot := Float(PositiveZero(bits))];
      forall s ensures RefSlot(fields, s) <= |nodes| {
        assert s != slot ==> RefSlot(fields, s) == RefSlot(open.fields, s);
      }
      open := InTable(fields);
    }

    method EndObject() returns (off: Offset)
      requires Valid() && open.InTable?
      modifies this
      ensures Valid() && open == Idle
      ensures nodes == old(nodes) + [Table(old(open.fields))] && off == |nodes|
    {
      nodes := nodes + [Table(open.fields)];
      open := Idle;
      off := |nodes|;
    }

    /**
     * The finished buffer with `root` as its root table. This contract only
     * records the builder's state; what a reader sees in the buffer is
     * stated by the decoding functions and the lemmas about them.
     */
    method Finish(root: Offset) returns (buf: Buffer)
      requires Valid() && open == Idle && 1 <= root <= |nodes|
      ensures buf == Buffer(nodes, root)
    {
      buf := Buffer(nodes, root);
    }
  }

  // ---------------------------------------------------------------------
  // The reader: accessors over finished nodes, with the format's defaults.

  function NodeAt(nodes: seq<Node>, off: Offset): Option<Node>
  {
    if 1 <= off <= |nodes| then Some(nodes[off - 1]) else None
  }

  function StringAt(nodes: seq<Node>, off: Offset): string
  {
    match NodeAt(nodes, off)
    case Some(Str(s)) => s
    case _ => ""
  }

  function VectorAt(nodes: seq<Node>, off: Offset): seq<Offset>
  {
    match NodeAt(nodes, off)
    case Some(Vector(elems)) => elems
    case _ => []
  }

  function FieldsAt(nodes: seq<Node>, off: Offset): map<nat, Field>
  {
    match NodeAt(nodes, off)
    case Some(Table(fields)) => fields
    case _ => map[]
  }

  /** The offset in a slot of a field map; 0 (absent) when the slot was not written. */
  function RefSlot(f: map<nat, Field>, slot: nat): Offset
  {
    if slot in f && f[slot].Ref? then f[slot].target else 0
  }

  function IntSlot(f: map<nat, Field>, slot: nat): int
  {
    if slot in f && f[slot].Int? then f[slot].value else 0
  }

  function BoolSlot(f: map<nat, Field>, slot: nat): bool
  {
    if slot in f && f[slot].Bool? then f[slot].flag else false
  }

  function FloatSlot(f: map<nat, Field>, slot: nat): bv64
  {
    if slot in f && f[slot].Float? then f[slot].bits else 0
  }

  function RefField(nodes: seq<Node>, table: Offset, slot: nat): Offset
  {
    RefSlot(FieldsAt(nodes, table), slot)
  }

  function IntField(nodes: seq<Node>, table: Offset, slot: nat): int
  {
    IntSlot(FieldsAt(nodes, table), slot)
  }

  function BoolField(nodes: seq<Node>, table: Offset, slot: nat): bool
  {
    BoolSlot(FieldsAt(nodes, table), slot)
  }

  function FloatField(nodes: seq<Node>, table: Offset, slot: nat): bv64
  {
    FloatSlot(FieldsAt(nodes, table), slot)
  }

  /** An int32 slot: the reader sees the slot's 32-bit value. */
  function Int32Field(nodes: seq<Node>, table: Offset, slot: nat): Int32
  {
    Wrap32(IntField(nodes, table, slot))
  }

  /** An int64 slot: the reader sees the slot's 64-bit value. */
  function Int64Field(nodes: seq<Node>, table: Offset, slot: nat): Int64
  {
    Wrap64(IntField(nodes, table, slot))
  }

  /** A string slot; an absent string reads as "". */
  function StringField(nodes: seq<Node>, table: Offset, slot: nat): string
  {
    StringAt(nodes, RefField(nodes, table, slot))
  }

  /** The elements of a vector slot; an absent vector reads as empty. */
  function VectorField(nodes: seq<Node>, table: Offset, slot: nat): seq<Offset>
  {
    VectorAt(nodes, RefField(nodes, table, slot))
  }

  /** The generated `XLength()` accessor. */
  function VectorLength(nodes: seq<Node>, table: Offset, slot: nat): nat
  {
    |VectorField(nodes, table, slot)|
  }

  /**
   * The generated `X(obj, j)` accessor of a vector of tables: None (false)
   * when the vector slot is absent, otherwise the j-th element.
   */
  function TableElement(nodes: seq<Node>, table: Offset, slot: nat, j: nat): (r: Option<Offset>)
    ensures j < VectorLength(nodes, table, slot) ==> r == Some(VectorField(nodes, table, slot)[j])
  {
    var v := VectorField(nodes, table, slot);
    if RefField(nodes, table, slot) == 0 then None
    else Some(if j < |v| then v[j] else 0)
  }

  // ---------------------------------------------------------------------
  // Frame: appending nodes does not change what earlier offsets read.

  lemma ReadFrame(nodes: seq<Node>, nodes': seq<Node>, off: Offset)
    requires WellFormed(nodes') && nodes <= nodes' && off <= |nodes|
    ensures NodeAt(nodes, off) == NodeAt(nodes', off)
    ensures forall slot :: RefField(nodes, off, slot) == RefField(nodes', off, slot) <= |nodes|
    ensures forall slot :: IntField(nodes, off, slot) == IntField(nodes', off, slot)
    ensures forall slot :: BoolField(nodes, off, slot) == BoolField(nodes', off, slot)
    ensures forall slot :: FloatField(nodes, off, slot) == FloatField(nodes', off, slot)
    ensures forall slot :: StringField(nodes, off, slot) == StringField(nodes', off, slot)
    ensures forall slot :: VectorField(nodes, off, slot) == VectorField(nodes', off, slot)
    ensures forall i | 0 <= i < |VectorAt(nodes, off)| :: VectorAt(nodes, off)[i] <= |nodes|
    ensures StringAt(nodes, off) == StringAt(nodes', off)
    ensures VectorAt(nodes, off) == VectorAt(nodes', off)
  {
    if 1 <= off {
      assert nodes[off - 1] == nodes'[off - 1];
      assert RefsBelow(nodes'[off - 1], off - 1);
    }
  }

  /** A vector finished in `nodes` keeps its elements, all of them offsets into `nodes`. */
  lemma VectorFrame(nodes: seq<Node>, nodes': seq<Node>, off: Offset)
    requires WellFormed(nodes') && nodes <= nodes' && off <= |nodes|
    ensures VectorAt(nodes, off) == VectorAt(nodes', off)
    ensures forall i | 0 <= i < |VectorAt(nodes, off)| :: VectorAt(nodes, off)[i] <= |nodes|
  {
    if 1 <= off {
      assert nodes[off - 1] == nodes'[off - 1];
      assert RefsBelow(nodes'[off - 1], off - 1);
    }
  }
}
