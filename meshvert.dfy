/** The untextured mesh: it stores its vertices, indices and flat colour,
    reserves four dummy sampler units from the shared counter, and copies
    instance matrices for instanced drawing. */
module MeshUntextured {
  import opened Common
  import opened MeshBase

  /** The sampler units of setData: each of the four units is
      startIndex + (the counter, post-incremented) + startIndex, in the order
      diffuse one, diffuse two, specular, binormal; the diffuse count is 0. */
  function ReserveUnits(s: SlotState, start: int): SlotState
  {
    var a := s.(diffuse := s.diffuse.(diffOne := start + s.dummyTex + start),
                dummyTex := s.dummyTex + 1);
    var b := a.(diffuse := a.diffuse.(diffTwo := start + a.dummyTex + start),
                dummyTex := a.dummyTex + 1);
    var c := b.(spec := b.spec.(unit := start + b.dummyTex + start),
                dummyTex := b.dummyTex + 1);
    var d := c.(binorm := c.binorm.(unit := start + c.dummyTex + start),
                dummyTex := c.dummyTex + 1);
    d.(diffuse := d.diffuse.(numDiff := 0))
  }

  /** The four units are the consecutive values 2 * start + counter ..
      2 * start + counter + 3, the counter advances by exactly four, and
      nothing else in the bookkeeping changes but the diffuse count. */
  lemma ReserveUnitsValues(s: SlotState, start: int)
    ensures var r := ReserveUnits(s, start);
            var base := 2 * start + s.dummyTex;
            && r.diffuse.diffOne == base && r.diffuse.diffTwo == base + 1
            && r.spec.unit == base + 2 && r.binorm.unit == base + 3
            && r.dummyTex == s.dummyTex + 4 && r.diffuse.numDiff == 0
            && r.diffuse.(diffOne := 0, diffTwo := 0, numDiff := 0) ==
               s.diffuse.(diffOne := 0, diffTwo := 0, numDiff := 0)
            && r.spec.(unit := 0) == s.spec.(unit := 0)
            && r.binorm.(unit := 0) == s.binorm.(unit := 0)
  {
  }

  /** On a fresh mesh the units are 2 * start + 500 .. 503 and the counter
      ends at 504. */
  lemma ReserveUnitsFresh(s: SlotState, start: int)
    requires s.dummyTex == DummyStart
    ensures var r := ReserveUnits(s, start);
            && r.diffuse.diffOne == 2 * start + 500 && r.diffuse.diffTwo == 2 * start + 501
            && r.spec.unit == 2 * start + 502 && r.binorm.unit == 2 * start + 503
            && r.dummyTex == 504
  {
    ReserveUnitsValues(s, start);
  }

  function Units(s: SlotState): set<int>
  {
    {s.diffuse.diffOne, s.diffuse.diffTwo, s.spec.unit, s.binorm.unit}
  }

  /** The four units are distinct, and a second setData on the same mesh
      with the same start reserves four units above all four of the first
      call's units. */
  lemma ReserveUnitsDisjoint(s: SlotState, start: int)
    ensures var r := ReserveUnits(s, start);
            && r.diffuse.diffOne != r.diffuse.diffTwo && r.diffuse.diffOne != r.spec.unit
            && r.diffuse.diffOne != r.binorm.unit && r.diffuse.diffTwo != r.spec.unit
            && r.diffuse.diffTwo != r.binorm.unit && r.spec.unit != r.binorm.unit
    ensures forall u, v ::
              (u in Units(ReserveUnits(s, start)) &&
               v in Units(ReserveUnits(ReserveUnits(s, start), start))) ==> u < v
  {
    ReserveUnitsValues(s, start);
    ReserveUnitsValues(ReserveUnits(s, start), start);
  }

  class MeshVert {
    /** The inherited mesh state. */
    const base: Mesh
    var vertices: seq<Vertex1>
    var indices: seq<nat>
    var vertSize: int
    var indexSize: int
    /** The flat colour of the mesh. */
    var colordiff: Vec3

    constructor()
      ensures fresh(base)
      ensures base.slots.dummyTex == DummyStart
      ensures !base.instanced && base.quantity == 1
      ensures colordiff == Vec3(1.0, 1.0, 1.0)
    {
      base := new Mesh();
      colordiff := Vec3(1.0, 1.0, 1.0);
    }

    /** Stores the mesh data, allocates the instance array for quantity
        matrices whatever the instancing flag, and reserves the four dummy
        sampler units.  blockIndex is the uniform block index GL reports to
        the buffer setup of an instanced mesh.  Returns the first unit left
        for the next mesh. */
    method SetData(vertices: seq<Vertex1>, indices: seq<nat>, color: Vec3,
                   vertSize: int, indexSize: int, instanced: bool, quantity: int,
                   shader: Option<nat>, startIndex: int, blockIndex: int)
      returns (next: int)
      requires quantity >= 0
      modifies this, base
      ensures next == startIndex + 4
      ensures this.vertices == vertices && this.indices == indices
      ensures colordiff == color && this.vertSize == vertSize && this.indexSize == indexSize
      ensures fresh(base.instanceArray) && base.instanceArray.Length == quantity
      ensures base.State() ==
                old(base.State()).(instanced := instanced, quantity := quantity,
                                   shader := shader,
                                   dataIndex := if instanced then blockIndex
                                                else old(base.dataIndex),
                                   slots := ReserveUnits(old(base.slots), startIndex))
    {
      this.vertices := vertices;
      this.indices := indices;
      this.colordiff := color;
      this.vertSize := vertSize;
      this.indexSize := indexSize;
      base.instanced := instanced;
      base.quantity := quantity;
      base.shader := shader;
      base.instanceArray := new Transform[quantity];
      SetupMesh(blockIndex);
      ReserveSlots(startIndex);
      next := startIndex + 4;
    }

    /** The four post-increments of the dummy counter in setData. */
    method ReserveSlots(startIndex: int)
      modifies base
      ensures base.State() ==
                old(base.State()).(slots := ReserveUnits(old(base.slots), startIndex))
      ensures base.instanceArray == old(base.instanceArray)
    {
      var s := base.slots;
      s := s.(diffuse := s.diffuse.(diffOne := startIndex + s.dummyTex + startIndex),
              dummyTex := s.dummyTex + 1);
      s := s.(diffuse := s.diffuse.(diffTwo := startIndex + s.dummyTex + startIndex),
              dummyTex := s.dummyTex + 1);
      s := s.(spec := s.spec.(unit := startIndex + s.dummyTex + startIndex),
              dummyTex := s.dummyTex + 1);
      s := s.(binorm := s.binorm.(unit := startIndex + s.dummyTex + startIndex),
              dummyTex := s.dummyTex + 1);
      s := s.(diffuse := s.diffuse.(numDiff := 0));
      base.slots := s;
    }

    /** The buffer setup: for an instanced mesh it records the uniform block
        index; everything else it does is GL state. */
    method SetupMesh(blockIndex: int)
      modifies base
      ensures base.State() ==
                old(base.State()).(dataIndex := if base.instanced then blockIndex
                                                else old(base.dataIndex))
      ensures base.instanceArray == old(base.instanceArray)
    {
      if base.instanced {
        base.dataIndex := blockIndex;
      }
    }

    /** Copies the first quantity model matrices into the instance array;
        the rest of the array and the mesh state are unchanged. */
    method DrawInstanced(model: seq<Transform>)
      requires 0 <= base.quantity <= |model| && base.quantity <= base.instanceArray.Length
      modifies base.instanceArray
      ensures base.instanceArray[..base.quantity] == model[..base.quantity]
      ensures base.instanceArray[base.quantity..] == old(base.instanceArray[base.quantity..])
    {
      var a := base.instanceArray;
      var x := 0;
      while x < base.quantity
        invariant 0 <= x <= base.quantity
        invariant forall k :: 0 <= k < x ==> a[k] == model[k]
        invariant forall k :: base.quantity <= k < a.Length ==> a[k] == old(a[k])
      {
        a[x] := model[x];
        x := x + 1;
      }
    }
  }
}
