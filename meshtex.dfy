/** The textured mesh: assignment of the four sampler texture units from the
    mesh's texture list, de-indexing of the vertex array for instanced
    drawing, and the texture bindings and instance copy of a draw. */
module MeshTextured {
  import opened Common
  import opened MeshBase

  /** How the slot scan classifies a texture by its type name. */
  datatype TexClass = DiffuseTex | SpecularTex | BumpTex | OtherTex

  function ClassOf(t: Texture): TexClass
  {
    if t.kind == "diffuse" then DiffuseTex
    else if t.kind == "shininess" || t.kind == "specular" then SpecularTex
    else if t.kind == "height" || t.kind == "normal" then BumpTex
    else OtherTex
  }

  /** A mesh none of whose three triggers has fired yet. */
  predicate Fresh(s: SlotState)
  {
    s.diffuse.trigger && s.spec.trigger && s.binorm.trigger
  }

  // ---------------------------------------------------------------------
  // Reference definitions: the first and the last texture of a class.

  /** The position of the first texture of class c among ts[..m]. */
  function FirstOf(ts: seq<Texture>, c: TexClass, m: nat): Option<nat>
    requires m <= |ts|
  {
    if m == 0 then None
    else match FirstOf(ts, c, m - 1)
      case Some(i) => Some(i)
      case None => if ClassOf(ts[m - 1]) == c then Some(m - 1) else None
  }

  /** The position of the last texture of class c among ts[..m]. */
  function LastOf(ts: seq<Texture>, c: TexClass, m: nat): Option<nat>
    requires m <= |ts|
  {
    if m == 0 then None
    else if ClassOf(ts[m - 1]) == c then Some(m - 1)
    else LastOf(ts, c, m - 1)
  }

  predicate Has(ts: seq<Texture>, c: TexClass)
  {
    exists k :: 0 <= k < |ts| && ClassOf(ts[k]) == c
  }

  lemma {:induction false} FirstOfMeaning(ts: seq<Texture>, c: TexClass, m: nat)
    requires m <= |ts|
    ensures FirstOf(ts, c, m).None? <==> forall k :: 0 <= k < m ==> ClassOf(ts[k]) != c
    ensures FirstOf(ts, c, m).Some? ==>
              var i := FirstOf(ts, c, m).value;
              i < m && ClassOf(ts[i]) == c &&
              forall k :: 0 <= k < i ==> ClassOf(ts[k]) != c
  {
    if m > 0 {
      FirstOfMeaning(ts, c, m - 1);
    }
  }

  lemma {:induction false} LastOfMeaning(ts: seq<Texture>, c: TexClass, m: nat)
    requires m <= |ts|
    ensures LastOf(ts, c, m).None? <==> FirstOf(ts, c, m).None?
    ensures LastOf(ts, c, m).Some? ==>
              var j := LastOf(ts, c, m).value;
              FirstOf(ts, c, m).value <= j < m && ClassOf(ts[j]) == c &&
              forall k :: j < k < m ==> ClassOf(ts[k]) != c
  {
    if m > 0 {
      LastOfMeaning(ts, c, m - 1);
      FirstOfMeaning(ts, c, m - 1);
    }
  }

  lemma HasFirst(ts: seq<Texture>, c: TexClass)
    ensures Has(ts, c) <==> FirstOf(ts, c, |ts|).Some?
  {
    FirstOfMeaning(ts, c, |ts|);
  }

  // ---------------------------------------------------------------------
  // The slot scan of setData, as a fold over the texture list.

  /** A one-texture sampler meets a texture of its class: it takes the
      texture if its trigger is still armed. */
  function Claim(p: Sampler, unit: int, x: int): Sampler
  {
    if p.trigger then Sampler(false, true, unit, x) else p
  }

  /** One iteration of the texture loop, for a texture of class c at
      position x: the class-specific update followed by the counter step
      every texture makes. */
  function Step(s: SlotState, c: TexClass, x: int, start: int): SlotState
  {
    match c
    case DiffuseTex =>
      if !s.diffuse.trigger then
        s.(diffuse := s.diffuse.(diffTwo := start + x, diffTwoX := x, isDiffTwo := true,
                                 numDiff := 2, isDiff := true),
           dummyTex := s.dummyTex + 1)
      else
        s.(diffuse := s.diffuse.(diffOne := start + x, diffOneX := x,
                                 diffTwo := s.dummyTex + 1 + start, isDiffTwo := false,
                                 numDiff := 1, isDiff := true, trigger := false),
           dummyTex := s.dummyTex + 2)
    case SpecularTex => s.(spec := Claim(s.spec, start + x, x), dummyTex := s.dummyTex + 1)
    case BumpTex => s.(binorm := Claim(s.binorm, start + x, x), dummyTex := s.dummyTex + 1)
    case OtherTex => s.(dummyTex := s.dummyTex + 1)
  }

  /** The state after the loop has visited ts[..m]. */
  function Scan(s: SlotState, ts: seq<Texture>, start: int, m: nat): SlotState
    requires m <= |ts|
  {
    if m == 0 then s
    else Step(Scan(s, ts, start, m - 1), ClassOf(ts[m - 1]), m - 1, start)
  }

  /** The fallback after the loop: every sampler whose trigger never fired
      is cleared and gets the next dummy unit(s). */
  function Finish(s: SlotState, start: int): SlotState
  {
    var a := if s.diffuse.trigger then
               s.(diffuse := s.diffuse.(isDiff := false, diffOne := s.dummyTex + start,
                                        diffTwo := s.dummyTex + 1 + start),
                  dummyTex := s.dummyTex + 2)
             else s;
    var b := if a.spec.trigger then
               a.(spec := a.spec.(present := false, unit := a.dummyTex + start),
                  dummyTex := a.dummyTex + 1)
             else a;
    if b.binorm.trigger then
      b.(binorm := b.binorm.(present := false, unit := b.dummyTex + start),
         dummyTex := b.dummyTex + 1)
    else b
  }

  /** The complete slot assignment of setData: the diffuse count is reset,
      the textures are scanned, the unfilled samplers get dummies. */
  function Allocate(s: SlotState, ts: seq<Texture>, start: int): SlotState
  {
    Finish(Scan(s.(diffuse := s.diffuse.(numDiff := 0)), ts, start, |ts|), start)
  }

  /** The one-texture sampler that serves class c. */
  function SamplerOf(s: SlotState, c: TexClass): Sampler
    requires c == SpecularTex || c == BumpTex
  {
    if c == SpecularTex then s.spec else s.binorm
  }

  // ---------------------------------------------------------------------
  // What the scan does, class by class.

  /** The diffuse trigger fires at the first diffuse texture, and the
      counter advances once per texture plus once at that texture. */
  lemma {:induction false} ScanDiffuseCounter(s: SlotState, ts: seq<Texture>, start: int, m: nat)
    requires s.diffuse.trigger && m <= |ts|
    ensures Scan(s, ts, start, m).diffuse.trigger == FirstOf(ts, DiffuseTex, m).None?
    ensures Scan(s, ts, start, m).dummyTex ==
              s.dummyTex + m + (if FirstOf(ts, DiffuseTex, m).Some? then 1 else 0)
  {
    if m > 0 {
      ScanDiffuseCounter(s, ts, start, m - 1);
    }
  }

  /** Before any diffuse texture the diffuse fields keep their values. */
  lemma {:induction false} ScanDiffuseNone(s: SlotState, ts: seq<Texture>, start: int, m: nat)
    requires m <= |ts| && FirstOf(ts, DiffuseTex, m).None?
    ensures Scan(s, ts, start, m).diffuse == s.diffuse
  {
    if m > 0 {
      ScanDiffuseNone(s, ts, start, m - 1);
    }
  }

  /** The first diffuse texture takes diffuse unit one for good. */
  lemma {:induction false} ScanDiffuseFirst(s: SlotState, ts: seq<Texture>, start: int, m: nat)
    requires s.diffuse.trigger && m <= |ts| && FirstOf(ts, DiffuseTex, m).Some?
    ensures var d := Scan(s, ts, start, m).diffuse;
            var i := FirstOf(ts, DiffuseTex, m).value;
            d.isDiff && d.diffOne == start + i && d.diffOneX == i
  {
    ScanDiffuseCounter(s, ts, start, m - 1);
    if FirstOf(ts, DiffuseTex, m - 1).Some? {
      ScanDiffuseFirst(s, ts, start, m - 1);
    }
  }

  /** Diffuse unit two: a dummy right after the first diffuse texture, then
      each later diffuse texture in turn, so the last one wins. */
  lemma {:induction false} ScanDiffuseSecond(s: SlotState, ts: seq<Texture>, start: int, m: nat)
    requires s.diffuse.trigger && m <= |ts| && FirstOf(ts, DiffuseTex, m).Some?
    ensures var d := Scan(s, ts, start, m).diffuse;
            var i := FirstOf(ts, DiffuseTex, m).value;
            var l := LastOf(ts, DiffuseTex, m);
            l.Some? &&
            (l.value == i ==>
               !d.isDiffTwo && d.numDiff == 1 && d.diffTwo == start + s.dummyTex + i + 1) &&
            (l.value != i ==>
               d.isDiffTwo && d.numDiff == 2 && d.diffTwo == start + l.value &&
               d.diffTwoX == l.value)
  {
    LastOfMeaning(ts, DiffuseTex, m);
    LastOfMeaning(ts, DiffuseTex, m - 1);
    ScanDiffuseCounter(s, ts, start, m - 1);
    if FirstOf(ts, DiffuseTex, m - 1).Some? {
      ScanDiffuseSecond(s, ts, start, m - 1);
    }
  }

  /** One step on a one-texture sampler: only a texture of its class changes
      it, by a claim. */
  lemma StepSampler(p: SlotState, k: TexClass, x: int, start: int, c: TexClass)
    requires c == SpecularTex || c == BumpTex
    ensures SamplerOf(Step(p, k, x, start), c) ==
              if k == c then Claim(SamplerOf(p, c), start + x, x) else SamplerOf(p, c)
  {
  }

  /** A one-texture sampler armed at the start is claimed by the first
      texture of its class and never changes afterwards. */
  lemma {:induction false} ScanSampler(s: SlotState, ts: seq<Texture>, start: int, m: nat, c: TexClass)
    requires c == SpecularTex || c == BumpTex
    requires SamplerOf(s, c).trigger && m <= |ts|
    ensures var p := SamplerOf(Scan(s, ts, start, m), c);
            var f := FirstOf(ts, c, m);
            && p.trigger == f.None?
            && (f.None? ==> p == SamplerOf(s, c))
            && (f.Some? ==> p.present && p.unit == start + f.value && p.index == f.value)
  {
    if m > 0 {
      ScanSampler(s, ts, start, m - 1, c);
      StepSampler(Scan(s, ts, start, m - 1), ClassOf(ts[m - 1]), m - 1, start, c);
    }
  }

  /** From any state, each visited texture advances the dummy counter. */
  lemma {:induction false} ScanCounts(s: SlotState, ts: seq<Texture>, start: int, m: nat)
    requires m <= |ts|
    ensures Scan(s, ts, start, m).dummyTex >= s.dummyTex + m
  {
    if m > 0 {
      ScanCounts(s, ts, start, m - 1);
    }
  }

  // ---------------------------------------------------------------------
  // The properties of the complete assignment.

  /** The diffuse slots on a fresh mesh: the first diffuse texture takes unit
      one, the last one (if it is not the first) takes unit two, a single
      diffuse texture leaves unit two a dummy, and without any diffuse
      texture both units are dummies and the count is 0. */
  lemma AllocateDiffuse(s: SlotState, ts: seq<Texture>, start: int)
    requires Fresh(s)
    ensures var d := Allocate(s, ts, start).diffuse;
            var f := FirstOf(ts, DiffuseTex, |ts|);
            var l := LastOf(ts, DiffuseTex, |ts|);
            && (d.isDiff <==> Has(ts, DiffuseTex))
            && (f.Some? ==> l.Some? && d.diffOne == start + f.value && d.diffOneX == f.value)
            && (f.Some? && l.Some? && l.value == f.value ==>
                  !d.isDiffTwo && d.numDiff == 1 &&
                  d.diffTwo == start + s.dummyTex + f.value + 1)
            && (f.Some? && l.Some? && l.value != f.value ==>
                  d.isDiffTwo && d.numDiff == 2 &&
                  d.diffTwo == start + l.value && d.diffTwoX == l.value)
            && (f.None? ==>
                  d.numDiff == 0 && d.isDiffTwo == s.diffuse.isDiffTwo &&
                  d.diffOne == start + s.dummyTex + |ts| &&
                  d.diffTwo == start + s.dummyTex + |ts| + 1)
  {
    var s0 := s.(diffuse := s.diffuse.(numDiff := 0));
    ScanDiffuseCounter(s0, ts, start, |ts|);
    if FirstOf(ts, DiffuseTex, |ts|).None? {
      ScanDiffuseNone(s0, ts, start, |ts|);
    } else {
      ScanDiffuseFirst(s0, ts, start, |ts|);
      ScanDiffuseSecond(s0, ts, start, |ts|);
    }
    HasFirst(ts, DiffuseTex);
  }

  /** The specular sampler on a fresh mesh is claimed by the first
      "specular" or "shininess" texture, the binormal one by the first
      "height" or "normal" texture; later ones are ignored. */
  lemma AllocateSampler(s: SlotState, ts: seq<Texture>, start: int, c: TexClass)
    requires Fresh(s) && (c == SpecularTex || c == BumpTex)
    ensures var p := SamplerOf(Allocate(s, ts, start), c);
            var f := FirstOf(ts, c, |ts|);
            && (p.present <==> Has(ts, c))
            && (f.Some? ==> p.unit == start + f.value && p.index == f.value)
  {
    ScanSampler(s.(diffuse := s.diffuse.(numDiff := 0)), ts, start, |ts|, c);
    HasFirst(ts, c);
  }

  /** The dummy counter on a fresh mesh ends exactly at its start plus one per
      texture, one for the first diffuse texture and one per fallback unit;
      the specular and binormal fallbacks are the last units handed out. */
  lemma AllocateDummies(s: SlotState, ts: seq<Texture>, start: int)
    requires Fresh(s)
    ensures var r := Allocate(s, ts, start);
            && r.dummyTex ==
                 s.dummyTex + |ts| + (if Has(ts, DiffuseTex) then 1 else 2)
                 + (if Has(ts, SpecularTex) then 0 else 1)
                 + (if Has(ts, BumpTex) then 0 else 1)
            && (!Has(ts, SpecularTex) ==>
                  r.spec.unit == start + s.dummyTex + |ts| +
                                 (if Has(ts, DiffuseTex) then 1 else 2))
            && (!Has(ts, BumpTex) ==> r.binorm.unit == start + r.dummyTex - 1)
  {
    var s0 := s.(diffuse := s.diffuse.(numDiff := 0));
    ScanDiffuseCounter(s0, ts, start, |ts|);
    ScanSampler(s0, ts, start, |ts|, SpecularTex);
    ScanSampler(s0, ts, start, |ts|, BumpTex);
    HasFirst(ts, DiffuseTex);
    HasFirst(ts, SpecularTex);
    HasFirst(ts, BumpTex);
  }

  /** Whatever state the mesh is in, the dummy counter never decreases and
      advances at least once per texture. */
  lemma AllocateMonotone(s: SlotState, ts: seq<Texture>, start: int)
    ensures Allocate(s, ts, start).dummyTex >= s.dummyTex + |ts|
  {
    ScanCounts(s.(diffuse := s.diffuse.(numDiff := 0)), ts, start, |ts|);
  }

  /** Every subscript into the texture list that a draw uses is in range. */
  predicate SubscriptsValid(s: SlotState, n: int)
  {
    && (s.diffuse.isDiff ==> 0 <= s.diffuse.diffOneX < n)
    && (s.diffuse.isDiffTwo ==> 0 <= s.diffuse.diffTwoX < n)
    && (s.spec.present ==> 0 <= s.spec.index < n)
    && (s.binorm.present ==> 0 <= s.binorm.index < n)
  }

  /** Every set sampler's unit is start plus its subscript. */
  predicate UnitsMatch(s: SlotState, start: int)
  {
    && (s.diffuse.isDiff ==> s.diffuse.diffOne == start + s.diffuse.diffOneX)
    && (s.diffuse.isDiffTwo ==> s.diffuse.diffTwo == start + s.diffuse.diffTwoX)
    && (s.spec.present ==> s.spec.unit == start + s.spec.index)
    && (s.binorm.present ==> s.binorm.unit == start + s.binorm.index)
  }

  /** On a fresh mesh the subscripts set by setData are in range and match
      the units.  The second diffuse flag is assigned only when a diffuse
      texture exists, so its earlier value must not be set when none does. */
  lemma AllocateSubscripts(s: SlotState, ts: seq<Texture>, start: int)
    requires Fresh(s)
    requires Has(ts, DiffuseTex) || !s.diffuse.isDiffTwo
    ensures SubscriptsValid(Allocate(s, ts, start), |ts|)
    ensures UnitsMatch(Allocate(s, ts, start), start)
  {
    AllocateDiffuse(s, ts, start);
    AllocateSampler(s, ts, start, SpecularTex);
    AllocateSampler(s, ts, start, BumpTex);
    LastOfMeaning(ts, DiffuseTex, |ts|);
    FirstOfMeaning(ts, DiffuseTex, |ts|);
    FirstOfMeaning(ts, SpecularTex, |ts|);
    FirstOfMeaning(ts, BumpTex, |ts|);
    HasFirst(ts, DiffuseTex);
    HasFirst(ts, SpecularTex);
    HasFirst(ts, BumpTex);
  }

  /** Where each unit lies after setData on a fresh mesh: a unit holding a
      real texture is start plus the position of a texture of its class; the
      dummy units are consecutive values of the counter, above start plus its
      initial value. */
  lemma AllocateUnitRanges(s: SlotState, ts: seq<Texture>, start: int)
    requires Fresh(s)
    ensures var r := Allocate(s, ts, start);
            var d := r.diffuse;
            var n := start + s.dummyTex + |ts|;
            && (d.isDiff ==> exists i :: 0 <= i < |ts| && ClassOf(ts[i]) == DiffuseTex &&
                                           d.diffOne == start + i)
            && (d.isDiff && d.isDiffTwo ==>
                  exists j :: 0 <= j < |ts| && ClassOf(ts[j]) == DiffuseTex &&
                              d.diffTwo == start + j && d.diffTwo != d.diffOne)
            && (d.isDiff && !d.isDiffTwo ==> start + s.dummyTex < d.diffTwo <= n)
            && (!d.isDiff ==> d.diffOne == n && d.diffTwo == n + 1)
            && (r.spec.present ==> exists k :: 0 <= k < |ts| && ClassOf(ts[k]) == SpecularTex &&
                                                r.spec.unit == start + k)
            && (!r.spec.present ==> r.spec.unit == n + (if d.isDiff then 1 else 2))
            && (r.binorm.present ==> exists k :: 0 <= k < |ts| && ClassOf(ts[k]) == BumpTex &&
                                                  r.binorm.unit == start + k)
            && (!r.binorm.present ==>
                  r.binorm.unit == n + (if d.isDiff then 1 else 2) +
                                   (if r.spec.present then 0 else 1))
  {
    AllocateDiffuse(s, ts, start);
    AllocateSampler(s, ts, start, SpecularTex);
    AllocateSampler(s, ts, start, BumpTex);
    AllocateDummies(s, ts, start);
    LastOfMeaning(ts, DiffuseTex, |ts|);
    FirstOfMeaning(ts, DiffuseTex, |ts|);
    FirstOfMeaning(ts, SpecularTex, |ts|);
    FirstOfMeaning(ts, BumpTex, |ts|);
  }

  /** On a fresh mesh whose dummy counter starts at or above the number of
      textures, the four sampler units are pairwise distinct, and each unit
      that holds no real texture is at or above start + the initial counter. */
  lemma AllocateDistinct(s: SlotState, ts: seq<Texture>, start: int)
    requires Fresh(s) && s.dummyTex >= |ts|
    ensures var r := Allocate(s, ts, start);
            var d := r.diffuse;
            && d.diffOne != d.diffTwo && d.diffOne != r.spec.unit
            && d.diffOne != r.binorm.unit && d.diffTwo != r.spec.unit
            && d.diffTwo != r.binorm.unit && r.spec.unit != r.binorm.unit
            && (!d.isDiff ==> d.diffOne >= start + s.dummyTex)
            && (!d.isDiffTwo ==> d.diffTwo >= start + s.dummyTex)
            && (!r.spec.present ==> r.spec.unit >= start + s.dummyTex)
            && (!r.binorm.present ==> r.binorm.unit >= start + s.dummyTex)
  {
    AllocateUnitRanges(s, ts, start);
    AllocateDiffuse(s, ts, start);
  }

  // ---------------------------------------------------------------------
  // Draw and the de-indexing gather.

  /** The texture bindings a draw issues, in the order diffuse one, diffuse
      two, specular, binormal, each only when its flag is set. */
  function Bindings(s: SlotState, ts: seq<Texture>): (b: seq<Binding>)
    requires SubscriptsValid(s, |ts|)
    ensures |b| <= 4
  {
    var d := s.diffuse;
    (if d.isDiff then [Binding(d.diffOne, ts[d.diffOneX].id)] else [])
    + (if d.isDiffTwo then [Binding(d.diffTwo, ts[d.diffTwoX].id)] else [])
    + (if s.spec.present then [Binding(s.spec.unit, ts[s.spec.index].id)] else [])
    + (if s.binorm.present then [Binding(s.binorm.unit, ts[s.binorm.index].id)] else [])
  }

  /** A binding comes from one of the four samplers whose flag is set. */
  lemma BindingsShape(s: SlotState, ts: seq<Texture>, b: Binding)
    requires SubscriptsValid(s, |ts|) && b in Bindings(s, ts)
    ensures || (s.diffuse.isDiff && b == Binding(s.diffuse.diffOne, ts[s.diffuse.diffOneX].id))
            || (s.diffuse.isDiffTwo && b == Binding(s.diffuse.diffTwo, ts[s.diffuse.diffTwoX].id))
            || (s.spec.present && b == Binding(s.spec.unit, ts[s.spec.index].id))
            || (s.binorm.present && b == Binding(s.binorm.unit, ts[s.binorm.index].id))
  {
  }

  /** After setData on a fresh mesh, every texture a draw binds is one of the
      mesh's own textures, bound to unit start + its position. */
  lemma AllocatedBindings(s: SlotState, ts: seq<Texture>, start: int)
    requires Fresh(s) && (Has(ts, DiffuseTex) || !s.diffuse.isDiffTwo)
    ensures SubscriptsValid(Allocate(s, ts, start), |ts|)
    ensures forall b :: b in Bindings(Allocate(s, ts, start), ts) ==>
              exists x :: 0 <= x < |ts| && b == Binding(start + x, ts[x].id)
  {
    var r := Allocate(s, ts, start);
    AllocateSubscripts(s, ts, start);
    forall b | b in Bindings(r, ts)
      ensures exists x :: 0 <= x < |ts| && b == Binding(start + x, ts[x].id)
    {
      BindingsShape(r, ts, b);
      var d := r.diffuse;
      if d.isDiff && b == Binding(d.diffOne, ts[d.diffOneX].id) {
        assert b == Binding(start + d.diffOneX, ts[d.diffOneX].id);
      } else if d.isDiffTwo && b == Binding(d.diffTwo, ts[d.diffTwoX].id) {
        assert b == Binding(start + d.diffTwoX, ts[d.diffTwoX].id);
      } else if r.spec.present && b == Binding(r.spec.unit, ts[r.spec.index].id) {
        assert b == Binding(start + r.spec.index, ts[r.spec.index].id);
      } else {
        assert b == Binding(start + r.binorm.index, ts[r.binorm.index].id);
      }
    }
  }

  /** Vertex x of the de-indexed array is the vertex named by index x. */
  predicate IndicesInRange(vertices: seq<Vertex>, indices: seq<nat>)
  {
    forall x :: 0 <= x < |indices| ==> indices[x] < |vertices|
  }

  function Gather(vertices: seq<Vertex>, indices: seq<nat>): (g: seq<Vertex>)
    requires IndicesInRange(vertices, indices)
    ensures |g| == |indices|
  {
    seq(|indices|, x requires 0 <= x < |indices| => vertices[indices[x]])
  }

  /** Gathering through the identity index list returns the vertices. */
  lemma GatherIdentity(vertices: seq<Vertex>, indices: seq<nat>)
    requires |indices| == |vertices|
    requires forall x :: 0 <= x < |indices| ==> indices[x] == x
    ensures IndicesInRange(vertices, indices)
    ensures Gather(vertices, indices) == vertices
  {
  }

  /** Gathering twice is gathering once through the composed index list. */
  lemma GatherCompose(vertices: seq<Vertex>, a: seq<nat>, b: seq<nat>)
    requires IndicesInRange(vertices, a)
    requires forall x :: 0 <= x < |b| ==> b[x] < |a|
    ensures IndicesInRange(Gather(vertices, a), b)
    ensures IndicesInRange(vertices, seq(|b|, x requires 0 <= x < |b| => a[b[x]]))
    ensures Gather(Gather(vertices, a), b) ==
            Gather(vertices, seq(|b|, x requires 0 <= x < |b| => a[b[x]]))
  {
  }

  class MeshTex {
    /** The inherited mesh state. */
    const base: Mesh
    var vertices: seq<Vertex>
    var verticesIndexed: array<Vertex>
    var indices: seq<nat>
    var textures: seq<Texture>
    /** This class's own instance array; it hides the base one. */
    var instanceArray: array<Transform>
    var vertSize: int
    var indexSize: int

    constructor()
      ensures fresh(base)
      ensures Fresh(base.slots) && base.slots.dummyTex == DummyStart
      ensures !base.instanced && base.quantity == 1
    {
      base := new Mesh();
      verticesIndexed := new Vertex[0];
      instanceArray := new Transform[0];
    }

    /** Stores the mesh data, assigns the sampler units and, for an
        instanced mesh, builds the de-indexed vertex array.  Returns the
        first texture unit left for the next mesh. */
    method SetData(vertices: seq<Vertex>, indices: seq<nat>, textures: seq<Texture>,
                   vertSize: int, indexSize: int, instanced: bool, quantity: int,
                   shader: Option<nat>, startIndex: int) returns (next: int)
      requires vertSize == |vertices| && indexSize == |indices|
      requires instanced ==> IndicesInRange(vertices, indices)
      modifies this, base
      ensures next == startIndex + 4
      ensures this.vertices == vertices && this.indices == indices
      ensures this.textures == textures
      ensures this.vertSize == vertSize && this.indexSize == indexSize
      ensures base.State() ==
                old(base.State()).(instanced := instanced, quantity := quantity,
                                   shader := shader,
                                   slots := Allocate(old(base.slots), textures, startIndex))
      ensures if instanced && quantity > 0
              then fresh(instanceArray) && instanceArray.Length == quantity
              else instanceArray == old(instanceArray)
      ensures instanced ==>
                fresh(verticesIndexed) && verticesIndexed[..] == Gather(vertices, indices)
      ensures !instanced ==> verticesIndexed == old(verticesIndexed)
    {
      StoreData(vertices, indices, textures, vertSize, indexSize, instanced, quantity, shader);
      AssignSlots(textures, startIndex);
      if instanced {
        SetupInstancedMesh();
      }
      next := startIndex + 4;
    }

    /** The field stores at the head of SetData, with the instance array
        allocated for a positive instanced quantity. */
    method StoreData(vertices: seq<Vertex>, indices: seq<nat>, textures: seq<Texture>,
                     vertSize: int, indexSize: int, instanced: bool, quantity: int,
                     shader: Option<nat>)
      modifies this, base
      ensures this.vertices == vertices && this.indices == indices
      ensures this.textures == textures
      ensures this.vertSize == vertSize && this.indexSize == indexSize
      ensures base.State() ==
                old(base.State()).(instanced := instanced, quantity := quantity,
                                   shader := shader)
      ensures if instanced && quantity > 0
              then fresh(instanceArray) && instanceArray.Length == quantity
              else instanceArray == old(instanceArray)
      ensures verticesIndexed == old(verticesIndexed)
    {
      this.vertices := vertices;
      this.indices := indices;
      this.textures := textures;
      this.vertSize := vertSize;
      this.indexSize := indexSize;
      base.instanced := instanced;
      base.quantity := quantity;
      base.shader := shader;
      if instanced && quantity > 0 {
        instanceArray := new Transform[quantity];
      }
    }

    /** The sampler assignment of SetData: reset the diffuse count, scan the
        textures, hand dummies to the samplers left unfilled. */
    method AssignSlots(textures: seq<Texture>, startIndex: int)
      modifies base
      ensures base.State() ==
                old(base.State()).(slots := Allocate(old(base.slots), textures, startIndex))
    {
      base.slots := base.slots.(diffuse := base.slots.diffuse.(numDiff := 0));
      ghost var s0 := base.slots;
      ghost var pre := base.State();
      var x := 0;
      while x < |textures|
        invariant 0 <= x <= |textures|
        invariant base.State() == pre.(slots := Scan(s0, textures, startIndex, x))
      {
        ScanTexture(ClassOf(textures[x]), x, startIndex);
        x := x + 1;
      }
      FinishSlots(startIndex);
    }

    /** One pass of the texture loop of SetData, for a texture of class
        kind at position x. */
    method ScanTexture(kind: TexClass, x: int, startIndex: int)
      modifies base
      ensures base.State() ==
                old(base.State()).(slots := Step(old(base.slots), kind, x, startIndex))
    {
      var d := base.slots.diffuse;
      if kind == DiffuseTex {
        if !d.trigger {
          d := d.(diffTwo := startIndex + x, diffTwoX := x, isDiffTwo := true, numDiff := 2);
        } else {
          d := d.(diffOne := startIndex + x, diffOneX := x);
          base.slots := base.slots.(dummyTex := base.slots.dummyTex + 1);
          d := d.(diffTwo := base.slots.dummyTex + startIndex, isDiffTwo := false,
                  numDiff := 1);
        }
        d := d.(isDiff := true, trigger := false);
        base.slots := base.slots.(diffuse := d);
      } else if kind == SpecularTex && base.slots.spec.trigger {
        base.slots := base.slots.(spec := Sampler(false, true, startIndex + x, x));
      } else if kind == BumpTex && base.slots.binorm.trigger {
        base.slots := base.slots.(binorm := Sampler(false, true, startIndex + x, x));
      }
      base.slots := base.slots.(dummyTex := base.slots.dummyTex + 1);
    }

    /** The fallback of SetData after the texture loop. */
    method FinishSlots(startIndex: int)
      modifies base
      ensures base.State() == old(base.State()).(slots := Finish(old(base.slots), startIndex))
    {
      if base.slots.diffuse.trigger {
        var n := base.slots.dummyTex;
        base.slots := base.slots.(diffuse := base.slots.diffuse.(
                                    isDiff := false, diffOne := n + startIndex,
                                    diffTwo := n + 1 + startIndex),
                                  dummyTex := n + 2);
      }
      if base.slots.spec.trigger {
        var n := base.slots.dummyTex;
        base.slots := base.slots.(spec := base.slots.spec.(present := false,
                                                          unit := n + startIndex),
                                  dummyTex := n + 1);
      }
      if base.slots.binorm.trigger {
        var n := base.slots.dummyTex;
        base.slots := base.slots.(binorm := base.slots.binorm.(present := false,
                                                              unit := n + startIndex),
                                  dummyTex := n + 1);
      }
    }

    /** Builds the de-indexed vertex array: entry x is the vertex that index
        x names. */
    method SetupInstancedMesh()
      requires indexSize == |indices| && IndicesInRange(vertices, indices)
      modifies this
      ensures vertices == old(vertices) && indices == old(indices)
      ensures textures == old(textures) && instanceArray == old(instanceArray)
      ensures vertSize == old(vertSize) && indexSize == old(indexSize)
      ensures fresh(verticesIndexed)
      ensures verticesIndexed[..] == Gather(vertices, indices)
    {
      var out := new Vertex[indexSize];
      var x := 0;
      while x < indexSize
        invariant 0 <= x <= indexSize
        invariant forall k :: 0 <= k < x ==> out[k] == vertices[indices[k]]
        modifies out
      {
        out[x] := vertices[indices[x]];
        x := x + 1;
      }
      verticesIndexed := out;
    }

    /** Draws the mesh once: sets the opacity to 1 and binds the textures of
        the set samplers. */
    method Draw() returns (bindings: seq<Binding>)
      requires SubscriptsValid(base.slots, |textures|)
      modifies base
      ensures base.State() == old(base.State()).(opacity := 1.0)
      ensures bindings == Bindings(base.slots, textures)
    {
      base.opacity := 1.0;
      var s := base.slots;
      bindings := [];
      if s.diffuse.isDiff {
        bindings := bindings + [Binding(s.diffuse.diffOne, textures[s.diffuse.diffOneX].id)];
      }
      if s.diffuse.isDiffTwo {
        bindings := bindings + [Binding(s.diffuse.diffTwo, textures[s.diffuse.diffTwoX].id)];
      }
      if s.spec.present {
        bindings := bindings + [Binding(s.spec.unit, textures[s.spec.index].id)];
      }
      if s.binorm.present {
        bindings := bindings + [Binding(s.binorm.unit, textures[s.binorm.index].id)];
      }
    }

    /** Draws quantity instances: copies the first quantity model matrices
        into the instance array, records the uniform block index, sets the
        opacity to 1 and binds the textures as Draw does. */
    method DrawInstanced(model: seq<Transform>, blockIndex: int) returns (bindings: seq<Binding>)
      requires 0 <= base.quantity <= |model| && base.quantity <= instanceArray.Length
      requires SubscriptsValid(base.slots, |textures|)
      modifies base, instanceArray
      ensures base.State() == old(base.State()).(opacity := 1.0, dataIndex := blockIndex)
      ensures instanceArray[..base.quantity] == model[..base.quantity]
      ensures instanceArray[base.quantity..] == old(instanceArray[base.quantity..])
      ensures bindings == Bindings(base.slots, textures)
    {
      var x := 0;
      while x < base.quantity
        invariant 0 <= x <= base.quantity
        invariant forall k :: 0 <= k < x ==> instanceArray[k] == model[k]
        invariant forall k :: base.quantity <= k < instanceArray.Length ==>
                    instanceArray[k] == old(instanceArray[k])
        modifies instanceArray
      {
        instanceArray[x] := model[x];
        x := x + 1;
      }
      base.dataIndex := blockIndex;
      bindings := Draw();
    }
  }
}
