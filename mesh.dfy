/** The state every mesh of the asset library shares: the message string,
    the opacity, the instancing parameters and the texture-unit bookkeeping
    that both the textured and the untextured mesh fill in.  The base class
    itself only stores; its drawing and upload entry points do nothing. */
module MeshBase {
  import opened Common

  /** First texture unit handed out for a sampler that has no real texture. */
  const DummyStart: int := 500

  /** The diffuse part of the sampler bookkeeping: the trigger that is armed
      until the first diffuse texture, the two presence flags, the two texture
      units, their subscripts into the texture list and the diffuse count
      passed to the shader (difftrigger, isDiff, isDiffTwo, diffOne, diffTwo,
      diffOneX, diffTwoX, numDiff in the program). */
  datatype DiffuseSlots = DiffuseSlots(
    trigger: bool, isDiff: bool, isDiffTwo: bool,
    diffOne: int, diffTwo: int, diffOneX: int, diffTwoX: int, numDiff: int)

  /** A one-texture sampler: its trigger, its presence flag, its texture unit
      and its subscript (spectrigger, isSpec, specOne, specOneX for the
      specular sampler; heighttrigger, isBinorm, binormOne, binormOneX for the
      binormal one). */
  datatype Sampler = Sampler(trigger: bool, present: bool, unit: int, index: int)

  /** The whole sampler bookkeeping of a mesh, with the dummy-unit counter. */
  datatype SlotState = SlotState(
    diffuse: DiffuseSlots, spec: Sampler, binorm: Sampler, dummyTex: int)

  /** A snapshot of every field of a mesh. */
  datatype MeshState = MeshState(
    meshType: string, opacity: real, instanceMatrices: seq<Transform>,
    instanced: bool, quantity: int, dataIndex: int, shader: Option<nat>,
    intdummyTex: int, slots: SlotState)

  /** One texture binding issued by a draw: the texture unit and the GL
      texture handle bound to it. */
  datatype Binding = Binding(unit: int, id: nat)

  class Mesh {
    /** The message string (`type` in the program). */
    var meshType: string
    var opacity: real
    var instanceMatrices: seq<Transform>
    var instanceArray: array<Transform>
    var instanced: bool
    var quantity: int
    var dataIndex: int
    /** The shader the mesh draws with, by handle; None is a null pointer. */
    var shader: Option<nat>
    /** A second counter declared next to the triggers and never used. */
    var intdummyTex: int
    /** The sampler bookkeeping fields of the class (triggers, flags,
        units, dummy counter, subscripts, diffuse count), kept together. */
    var slots: SlotState

    function State(): MeshState
      reads this
    {
      MeshState(meshType, opacity, instanceMatrices, instanced, quantity,
                dataIndex, shader, intdummyTex, slots)
    }

    /** A fresh mesh: the member initialisers of the class.  The flags,
        units and subscripts without an initialiser are indeterminate in the
        program; the constructor gives them some value and promises nothing
        about it. */
    constructor()
      ensures slots.diffuse.trigger && slots.spec.trigger && slots.binorm.trigger
      ensures slots.dummyTex == DummyStart && intdummyTex == DummyStart
      ensures !instanced && quantity == 1 && dataIndex == 0 && shader == None
    {
      instanceArray := new Transform[0];
      instanced := false;
      quantity := 1;
      dataIndex := 0;
      shader := None;
      intdummyTex := DummyStart;
      slots := SlotState(DiffuseSlots(true, false, false, 0, 0, 0, 0, 0),
                         Sampler(true, false, 0, 0), Sampler(true, false, 0, 0),
                         DummyStart);
    }

    /** Sets the message string and nothing else. */
    method SetType(val: string)
      modifies this
      ensures State() == old(State()).(meshType := val)
      ensures GetType() == val
    {
      meshType := val;
    }

    function GetType(): (t: string)
      reads this
      ensures t == State().meshType
    {
      meshType
    }

    /** The textured upload entry point of the base class: it reserves the
        same four texture units as the derived classes and stores nothing. */
    method SetData(vertices: seq<Vertex>, indices: seq<nat>, textures: seq<Texture>,
                   vertSize: int, indexSize: int, instanced: bool, quantity: int,
                   shader: Option<nat>, startIndex: int) returns (next: int)
      ensures next == startIndex + 4
    {
      next := startIndex + 4;
    }

    /** The untextured upload entry point of the base class: no effect. */
    method SetDataUntextured(vertices: seq<Vertex1>, indices: seq<nat>,
                             vertSize: int, indexSize: int, instanced: bool,
                             quantity: int, shader: Option<nat>)
    {
    }

    /** Drawing through the base class issues no texture binding. */
    method Draw() returns (bindings: seq<Binding>)
      ensures bindings == []
    {
      bindings := [];
    }

    /** Instanced drawing through the base class issues no texture binding. */
    method DrawInstanced(model: seq<Transform>) returns (bindings: seq<Binding>)
      ensures bindings == []
    {
      bindings := [];
    }

    /** Buffer setup of the base class: no effect. */
    method SetupMesh()
    {
    }

    /** Debug dump of the base class: no effect. */
    method DumpData()
    {
    }
  }
}
