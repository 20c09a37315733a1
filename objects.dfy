/** The asteroid field: placement of the instances inside a cube, the
    per-frame step that moves them, reflects the ones that leave the cube
    and exchanges the velocities of touching pairs, and the asset records
    handed to the model loader.  Random draws are an input; distance and
    normalize are uninterpreted. */
module Objects {
  import opened Common
  import opened ModelLoader

  /** Instances per asteroid model, and the number of models. */
  const Quantity: nat := 36
  const Amount: nat := 6

  /** The six asteroid asset files. */
  const AsteroidPaths: seq<string> := [
    "/usr/share/openglresources/asteroids/asteroid1.obj",
    "/usr/share/openglresources/asteroids/asteroid2.obj",
    "/usr/share/openglresources/asteroids/asteroid3.obj",
    "/usr/share/openglresources/asteroids/asteroid4.obj",
    "/usr/share/openglresources/asteroids/asteroid5.obj",
    "/usr/share/openglresources/asteroids/asteroid6.obj"]

  /** Draws consumed by the placement of one instance. */
  const DrawsPerAsteroid: nat := 20

  /** One instance of the field (struct AsterLoc): its matrix, location,
      size, velocity, rotation axis, accumulated rotation and spin. */
  datatype AsterLoc = AsterLoc(
    objMatrices: Transform, objLocs: Vec3, radii: real, velocity: Vec3,
    axis: Vec3, rotation: real, rotVel: real)

  /** The limits of the field on each axis. */
  datatype Bounds = Bounds(minx: real, maxx: real, miny: real, maxy: real,
                           minz: real, maxz: real)


  // ---------------------------------------------------------------------
  // The step of calcPosition

  predicate Outside(p: Vec3, b: Bounds)
  {
    p.x < b.minx || p.x > b.maxx || p.y < b.miny || p.y > b.maxy ||
    p.z < b.minz || p.z > b.maxz
  }

  /** The instance advanced by its velocity; a location that leaves the
      field is negated as a whole. */
  function Moved(a: AsterLoc, b: Bounds): AsterLoc
  {
    var p := Add(a.objLocs, a.velocity);
    a.(objLocs := if Outside(p, b) then Neg(p) else p)
  }

  /** Instances i and x overlap: their distance is below the sum of sizes. */
  predicate Touching(s: seq<AsterLoc>, i: nat, x: nat, num: Numerics)
    requires i < |s| && x < |s|
  {
    num.distance(s[i].objLocs, s[x].objLocs) < s[i].radii + s[x].radii
  }

  /** The collision response: i and x exchange velocities and both spins
      are reversed. */
  function Bounce(s: seq<AsterLoc>, i: nat, x: nat): seq<AsterLoc>
    requires x < i < |s|
  {
    s[i := s[i].(velocity := s[x].velocity, rotVel := -s[i].rotVel)]
     [x := s[x].(velocity := s[i].velocity, rotVel := -s[x].rotVel)]
  }

  /** Instance i checked against instances 0 .. n - 1 in turn. */
  function Collided(s: seq<AsterLoc>, i: nat, n: nat, num: Numerics): (t: seq<AsterLoc>)
    requires n <= i < |s|
    ensures |t| == |s|
  {
    if n == 0 then s
    else
      var t := Collided(s, i, n - 1, num);
      if Touching(t, i, n - 1, num) then Bounce(t, i, n - 1) else t
  }

  /** The matrix rebuilt from location, size, rotation and axis. */
  function Matrix(a: AsterLoc): Transform
  {
    Rotate(Scale(Translate(Identity, a.objLocs), Vec3(a.radii, a.radii, a.radii)),
           a.rotation, a.axis)
  }

  /** The rotation advanced by the spin, wrapped by fmod, and the matrix
      rebuilt. */
  function Spun(a: AsterLoc): AsterLoc
  {
    var r := FMod(a.rotation + a.rotVel, Pi360);
    a.(rotation := r, objMatrices := Matrix(a.(rotation := r)))
  }

  /** The step of instance i: move, collide with the instances before it,
      spin. */
  function StepAt(s: seq<AsterLoc>, i: nat, b: Bounds, num: Numerics): (t: seq<AsterLoc>)
    requires i < |s|
    ensures |t| == |s|
  {
    var c := Collided(s[i := Moved(s[i], b)], i, i, num);
    c[i := Spun(c[i])]
  }

  /** calcPosition over the first n instances, in index order. */
  function Steps(s: seq<AsterLoc>, n: nat, b: Bounds, num: Numerics): (t: seq<AsterLoc>)
    requires n <= |s|
    ensures |t| == |s|
  {
    if n == 0 then s else StepAt(Steps(s, n - 1, b, num), n - 1, b, num)
  }

  function Velocities(s: seq<AsterLoc>): seq<Vec3>
  {
    seq(|s|, k requires 0 <= k < |s| => s[k].velocity)
  }

  /** Everything but the velocity, and the spin up to its sign. */
  predicate Kept(a: AsterLoc, b: AsterLoc)
  {
    a.objMatrices == b.objMatrices && a.objLocs == b.objLocs && a.radii == b.radii &&
    a.axis == b.axis && a.rotation == b.rotation && Abs(a.rotVel) == Abs(b.rotVel)
  }

  /** A bounce exchanges two velocities, so their multiset stays. */
  lemma BounceFacts(s: seq<AsterLoc>, i: nat, x: nat)
    requires x < i < |s|
    ensures multiset(Velocities(Bounce(s, i, x))) == multiset(Velocities(s))
    ensures forall k :: 0 <= k < |s| ==> Kept(Bounce(s, i, x)[k], s[k])
    ensures forall k :: 0 <= k < |s| && k != i && k != x ==> Bounce(s, i, x)[k] == s[k]
  {
    var v := Velocities(s);
    assert Velocities(Bounce(s, i, x)) == v[i := v[x]][x := v[i]];
    SwapMultiset(v, i, x);
  }

  lemma SwapMultiset<T>(v: seq<T>, i: nat, x: nat)
    requires x < i < |v|
    ensures multiset(v[i := v[x]][x := v[i]]) == multiset(v)
  {
    var w := v[i := v[x]];
    assert multiset(w) == multiset(v) - multiset{v[i]} + multiset{v[x]};
    assert multiset(w[x := v[i]]) == multiset(w) - multiset{w[x]} + multiset{v[i]};
  }

  /** The collision loop of one instance keeps the multiset of velocities. */
  lemma {:induction false} CollidedVelocities(s: seq<AsterLoc>, i: nat, n: nat, num: Numerics)
    requires n <= i < |s|
    ensures multiset(Velocities(Collided(s, i, n, num))) == multiset(Velocities(s))
  {
    if n > 0 {
      CollidedVelocities(s, i, n - 1, num);
      var t := Collided(s, i, n - 1, num);
      if Touching(t, i, n - 1, num) {
        BounceFacts(t, i, n - 1);
      }
    }
  }

  /** The collision loop keeps every location, size, axis, rotation and spin
      magnitude. */
  lemma {:induction false} CollidedKept(s: seq<AsterLoc>, i: nat, n: nat, num: Numerics)
    requires n <= i < |s|
    ensures forall k :: 0 <= k < |s| ==> Kept(Collided(s, i, n, num)[k], s[k])
  {
    if n > 0 {
      CollidedKept(s, i, n - 1, num);
      var t := Collided(s, i, n - 1, num);
      if Touching(t, i, n - 1, num) {
        BounceFacts(t, i, n - 1);
      }
    }
  }

  /** The collision loop touches only instance i and the instances below n. */
  lemma {:induction false} CollidedFrame(s: seq<AsterLoc>, i: nat, n: nat, num: Numerics)
    requires n <= i < |s|
    ensures forall k :: n <= k < |s| && k != i ==> Collided(s, i, n, num)[k] == s[k]
  {
    if n > 0 {
      CollidedFrame(s, i, n - 1, num);
      var t := Collided(s, i, n - 1, num);
      if Touching(t, i, n - 1, num) {
        BounceFacts(t, i, n - 1);
      }
    }
  }

  /** One step of instance i: its location is moved once, its spin keeps
      its magnitude and the new rotation uses it, its matrix is rebuilt;
      the others keep everything but velocity and spin sign, the ones
      above i are untouched, and the multiset of velocities stays. */
  lemma StepAtFacts(s: seq<AsterLoc>, i: nat, b: Bounds, num: Numerics)
    requires i < |s|
    ensures multiset(Velocities(StepAt(s, i, b, num))) == multiset(Velocities(s))
    ensures forall k :: 0 <= k < |s| && k != i ==> Kept(StepAt(s, i, b, num)[k], s[k])
    ensures forall k :: i < k < |s| ==> StepAt(s, i, b, num)[k] == s[k]
    ensures var a := StepAt(s, i, b, num)[i];
            && a.radii == s[i].radii && a.axis == s[i].axis
            && Abs(a.rotVel) == Abs(s[i].rotVel)
            && Stepped(a, s[i], b)
  {
    var m := s[i := Moved(s[i], b)];
    var c := Collided(m, i, i, num);
    CollidedVelocities(m, i, i, num);
    CollidedKept(m, i, i, num);
    CollidedFrame(m, i, i, num);
    var t := c[i := Spun(c[i])];
    assert Velocities(m) == Velocities(s);
    assert Velocities(t) == Velocities(c);
    assert Kept(c[i], m[i]);
    assert c[i].rotVel == s[i].rotVel || c[i].rotVel == -s[i].rotVel;
  }

  /** calcPosition over the first n instances keeps the multiset of
      velocities. */
  lemma {:induction false} StepsVelocities(s: seq<AsterLoc>, n: nat, b: Bounds, num: Numerics)
    requires n <= |s|
    ensures multiset(Velocities(Steps(s, n, b, num))) == multiset(Velocities(s))
  {
    if n > 0 {
      StepsVelocities(s, n - 1, b, num);
      StepAtFacts(Steps(s, n - 1, b, num), n - 1, b, num);
    }
  }

  /** Every instance keeps its size, its axis and the magnitude of its spin. */
  lemma {:induction false} StepsShape(s: seq<AsterLoc>, n: nat, b: Bounds, num: Numerics)
    requires n <= |s|
    ensures forall k :: 0 <= k < |s| ==> Same(Steps(s, n, b, num)[k], s[k])
  {
    if n > 0 {
      StepsShape(s, n - 1, b, num);
      var t := Steps(s, n - 1, b, num);
      StepAtFacts(t, n - 1, b, num);
      forall k | 0 <= k < |s|
        ensures Same(Steps(s, n, b, num)[k], s[k])
      {
        assert Same(Steps(s, n, b, num)[k], t[k]);
      }
    }
  }

  /** The instances from n on are untouched. */
  lemma {:induction false} StepsFrame(s: seq<AsterLoc>, n: nat, b: Bounds, num: Numerics)
    requires n <= |s|
    ensures forall k :: n <= k < |s| ==> Steps(s, n, b, num)[k] == s[k]
  {
    if n > 0 {
      StepsFrame(s, n - 1, b, num);
      StepAtFacts(Steps(s, n - 1, b, num), n - 1, b, num);
    }
  }

  /** Each instance below n was moved by its own velocity exactly once (and
      negated if it left the field), its rotation advanced by its spin or
      the reversed spin and wrapped, and its matrix rebuilt. */
  lemma {:induction false} StepsStepped(s: seq<AsterLoc>, n: nat, b: Bounds, num: Numerics)
    requires n <= |s|
    ensures forall k :: 0 <= k < n ==> Stepped(Steps(s, n, b, num)[k], s[k], b)
  {
    if n > 0 {
      StepsStepped(s, n - 1, b, num);
      StepsFrame(s, n - 1, b, num);
      var t := Steps(s, n - 1, b, num);
      StepAtFacts(t, n - 1, b, num);
      forall k | 0 <= k < n
        ensures Stepped(Steps(s, n, b, num)[k], s[k], b)
      {
        if k < n - 1 {
          StepKeepsStepped(Steps(s, n, b, num)[k], t[k], s[k], b);
        }
      }
    }
  }

  /** Size, axis and spin magnitude agree. */
  predicate Same(a: AsterLoc, a0: AsterLoc)
  {
    a.radii == a0.radii && a.axis == a0.axis && Abs(a.rotVel) == Abs(a0.rotVel)
  }

  /** A later bounce does not undo an earlier step's effect. */
  lemma StepKeepsStepped(a: AsterLoc, t: AsterLoc, a0: AsterLoc, b: Bounds)
    requires Kept(a, t) && Stepped(t, a0, b)
    ensures Stepped(a, a0, b)
  {
  }

  /** Instance a is instance a0 after its own step. */
  predicate Stepped(a: AsterLoc, a0: AsterLoc, b: Bounds)
  {
    a.objLocs == Moved(a0, b).objLocs &&
    (a.rotation == FMod(a0.rotation + a0.rotVel, Pi360) ||
     a.rotation == FMod(a0.rotation - a0.rotVel, Pi360)) &&
    a.objMatrices == Matrix(a)
  }

  // ---------------------------------------------------------------------
  // Placement in createAsteroids

  /** The size range of createAsteroids: scale between 1 and 1 + Multi. */
  const Multi: real := 1.0

  /** Every block of draws holds the twenty draws of one instance. */
  predicate Blocks(draws: seq<seq<real>>)
  {
    forall k :: 0 <= k < |draws| ==> |draws[k]| == DrawsPerAsteroid
  }

  /** The field as a cube of half side c. */
  function Cube(c: real): Bounds
  {
    Bounds(-c, c, -c, c, -c, c)
  }

  /** Each lower limit is at most its upper limit. */
  predicate Ordered(b: Bounds)
  {
    b.minx <= b.maxx && b.miny <= b.maxy && b.minz <= b.maxz
  }

  predicate Inside(p: Vec3, b: Bounds)
  {
    b.minx <= p.x <= b.maxx && b.miny <= p.y <= b.maxy && b.minz <= p.z <= b.maxz
  }

  /** The coordinate drawn in createAsteroids: the lower limit plus the
      draw times the side of the cube, written as the source groups it. */
  function Coord(lo: real, d: real, c: real, limit: nat): real
    requires limit > 0
  {
    lo + ((c * 2.0) / (limit as real)) * d * (limit as real)
  }

  /** The bound checks of createAsteroids: first against the minimum,
      then against the maximum. */
  function Limited(v: real, lo: real, hi: real): (r: real)
    ensures r <= hi
    ensures lo <= hi ==> lo <= r
    ensures lo <= v <= hi ==> r == v
  {
    var w := if v < lo then lo else v;
    if w > hi then hi else w
  }

  /** r, negated when flip holds. */
  function Signed(flip: bool, r: real): real
  {
    if flip then -r else r
  }

  /** randVec on its six draws: draws 1, 3 and 5 are the magnitudes of x, y
      and z, and each component is negated when an odd number of the sign
      draws 0, 2 and 4 before it exceeded one half. */
  function RandVecOf(e: seq<real>): Vec3
    requires |e| == 6
  {
    var fx := e[0] > 0.5;
    var fy := fx != (e[2] > 0.5);
    var fz := fy != (e[4] > 0.5);
    Vec3(Signed(fx, e[1]), Signed(fy, e[3]), Signed(fz, e[5]))
  }

  /** The size of an instance from its fourth draw. */
  function Scaler(d: seq<real>): real
    requires |d| == DrawsPerAsteroid
  {
    Multi * d[3] + 1.0
  }

  /** The size passes the exit check of createAsteroids. */
  predicate SizeOk(d: seq<real>)
    requires |d| == DrawsPerAsteroid
  {
    Scaler(d) <= Multi + 2.0
  }

  /** The first n instances pass the size check. */
  predicate AllSized(draws: seq<seq<real>>, n: nat)
    requires n <= |draws| && Blocks(draws)
  {
    forall k :: 0 <= k < n ==> SizeOk(draws[k])
  }

  /** One instance placed by createAsteroids from its twenty draws: three
      coordinates, the size, randVec and a factor for the velocity, a sign
      and a magnitude for the spin, an angle and randVec for the axis. The
      first instance (origin) sits at the origin whatever its draws. */
  function Placement(d: seq<real>, origin: bool, b: Bounds, c: real, limit: nat,
                     num: Numerics): AsterLoc
    requires |d| == DrawsPerAsteroid && limit > 0
  {
    var x := Limited(Coord(b.minx, d[0], c, limit), b.minx, b.maxx);
    var y := Limited(Coord(b.miny, d[1], c, limit), b.miny, b.maxy);
    var z := Limited(Coord(b.minz, d[2], c, limit), b.minz, b.maxz);
    var pos := if origin then Zero3 else Vec3(x, y, z);
    var s := Scaler(d);
    var spin := (if d[11] > 0.5 then -1.0 else 1.0) * d[12] * (Pi180 / 90.0);
    var angle := (d[13] * 360.0) * (3.14159 / 180.0);
    var axis := num.normalize(RandVecOf(d[14..20]));
    AsterLoc(Rotate(Scale(Translate(Identity, pos), Vec3(s, s, s)), angle, axis),
             pos, s, Times(RandVecOf(d[4..10]), d[10] * 0.03), axis, 0.0, spin)
  }

  /** The first n instances as createAsteroids places them, in count
      order; instance 0 is the origin instance. */
  function Placements(draws: seq<seq<real>>, n: nat, b: Bounds, c: real, limit: nat,
                      num: Numerics): (ps: seq<AsterLoc>)
    requires n <= |draws| && Blocks(draws) && (n == 0 || limit > 0)
    ensures |ps| == n
  {
    seq(n, k requires 0 <= k < n => Placement(draws[k], k == 0, b, c, limit, num))
  }

  /** The array state after n placements: placed prefix, untouched rest. */
  function Spliced(ps: seq<AsterLoc>, s: seq<AsterLoc>, n: nat): (t: seq<AsterLoc>)
    requires n <= |ps| && n <= |s|
    ensures |t| == |s|
  {
    ps[..n] + s[n..]
  }

  lemma SplicedStep(ps: seq<AsterLoc>, s: seq<AsterLoc>, n: nat)
    requires n < |ps| && n < |s|
    ensures Spliced(ps, s, n)[n := ps[n]] == Spliced(ps, s, n + 1)
  {
    assert ps[..n + 1] == ps[..n] + [ps[n]];
  }

  /** randVec on the six draws it consumes, with its running sign. */
  method RandVec(e: seq<real>) returns (v: Vec3)
    requires |e| == 6
    ensures v == RandVecOf(e)
  {
    var sign := 1.0;
    ghost var flip := false;
    if e[0] > 0.5 {
      sign := sign * -1.0;
      flip := !flip;
    }
    var x := sign * e[1];
    SignTimes(flip, sign, e[1]);
    if e[2] > 0.5 {
      sign := sign * -1.0;
      flip := !flip;
    }
    var y := sign * e[3];
    SignTimes(flip, sign, e[3]);
    if e[4] > 0.5 {
      sign := sign * -1.0;
      flip := !flip;
    }
    var z := sign * e[5];
    SignTimes(flip, sign, e[5]);
    v := Vec3(x, y, z);
  }

  lemma SignTimes(flip: bool, sign: real, r: real)
    requires sign == if flip then -1.0 else 1.0
    ensures sign * r == Signed(flip, r)
  {
  }

  /** Each component of randVec has the magnitude of its draw and the sign
      fixed by the parity of the flips before it; for draws in [0, 1) it
      lies in (-1, 1). */
  lemma RandVecFacts(e: seq<real>)
    requires |e| == 6
    requires forall j :: 0 <= j < 6 ==> 0.0 <= e[j] < 1.0
    ensures var v := RandVecOf(e);
            && Abs(v.x) == e[1] && Abs(v.y) == e[3] && Abs(v.z) == e[5]
            && -1.0 < v.x < 1.0 && -1.0 < v.y < 1.0 && -1.0 < v.z < 1.0
  {
    assert 0.0 <= e[1] && 0.0 <= e[3] && 0.0 <= e[5];
  }

  /** A second flip cancels the first: with both of the first two sign
      draws above one half, y keeps the sign of its draw. */
  lemma RandVecParity(e: seq<real>)
    requires |e| == 6 && e[0] > 0.5 && e[2] > 0.5
    ensures RandVecOf(e).x == -e[1] && RandVecOf(e).y == e[3]
  {
  }

  /** Places one instance at index count from its draws; false when its
      size exceeds the limit, where the source exits. */
  method PlaceOne(a: array<AsterLoc>, count: nat, d: seq<real>, origin: bool, b: Bounds,
                  c: real, limit: nat, num: Numerics) returns (ok: bool)
    requires count < a.Length && |d| == DrawsPerAsteroid && limit > 0
    modifies a
    ensures ok <==> SizeOk(d)
    ensures ok ==> a[..] == old(a[..])[count := Placement(d, origin, b, c, limit, num)]
    ensures !ok ==> a[..] == old(a[..])
  {
    var x := b.minx + (((c * 2.0) / (limit as real)) * d[0] * (limit as real));
    var y := b.miny + (((c * 2.0) / (limit as real)) * d[1] * (limit as real));
    var z := b.minz + (((c * 2.0) / (limit as real)) * d[2] * (limit as real));
    if x < b.minx { x := b.minx; }
    if y < b.miny { y := b.miny; }
    if z < b.minz { z := b.minz; }
    if x > b.maxx { x := b.maxx; }
    if y > b.maxy { y := b.maxy; }
    if z > b.maxz { z := b.maxz; }
    var tmpvec := if origin then Zero3 else Vec3(x, y, z);
    var model := Translate(Identity, tmpvec);
    var scaler := (Multi * d[3]) + 1.0;
    if scaler > Multi + 2.0 {
      ok := false;
      return;
    }
    model := Scale(model, Vec3(scaler, scaler, scaler));
    var velocity := RandVec(d[4..10]);
    velocity := Times(velocity, d[10] * 0.03);
    var sign := 1.0;
    if d[11] > 0.5 {
      sign := -1.0;
    }
    var rotation := sign * d[12] * (Pi180 / 90.0);
    var degAngle := d[13] * 360.0;
    var rotAngle := degAngle * (3.14159 / 180.0);
    var axis := RandVec(d[14..20]);
    axis := num.normalize(axis);
    model := Rotate(model, rotAngle, axis);
    a[count] := AsterLoc(model, tmpvec, scaler, velocity, axis, 0.0, rotation);
    ok := true;
  }

  /** a times b by repeated addition: the grid arithmetic of the placement
      loops without nonlinear terms. */
  function Mul(a: nat, b: nat): nat
  {
    if a == 0 then 0 else Mul(a - 1, b) + b
  }

  lemma {:induction false} MulIsProduct(a: nat, b: nat)
    ensures Mul(a, b) == a * b
  {
    if a > 0 {
      MulIsProduct(a - 1, b);
    }
  }

  /** Mul keeps the order of its first argument, as the product does. */
  lemma MulOfMono(a: nat, a1: nat, b: nat)
    requires a <= a1
    ensures Mul(a, b) <= Mul(a1, b)
  {
    MulIsProduct(a, b);
    MulIsProduct(a1, b);
    MulMono(a, a1, b);
  }

  /** Row j of plane i of the grid starts at i * limit * limit + j * limit,
      fits in the limit cubed instances, and starts at 0 only for the first
      row of the first plane. */
  lemma RowFits(i: nat, j: nat, limit: nat)
    requires i < limit && j < limit
    ensures Mul(i, Mul(limit, limit)) + Mul(j, limit) + limit <= Cubed(limit)
    ensures Mul(i, Mul(limit, limit)) + Mul(j, limit) == 0 <==> (i == 0 && j == 0)
  {
    MulOfMono(j + 1, limit, limit);
    MulOfMono(i + 1, limit, Mul(limit, limit));
  }

  /** The number of grid cells, limit cubed. */
  function Cubed(limit: nat): nat
  {
    Mul(limit, Mul(limit, limit))
  }

  lemma CubeIsProduct(limit: nat)
    ensures Cubed(limit) == limit * limit * limit
  {
    MulIsProduct(limit, limit);
    MulIsProduct(limit, limit * limit);
  }

  /** Row of the grid: limit instances placed from index count0 on, the
      first of them the origin instance when first holds. */
  method PlaceRow(a: array<AsterLoc>, draws: seq<seq<real>>, count0: nat, first: bool,
                  b: Bounds, c: real, limit: nat, num: Numerics,
                  ghost ps: seq<AsterLoc>, ghost s0: seq<AsterLoc>)
    returns (ok: bool, count: nat)
    requires count0 + limit <= a.Length && count0 + limit <= |draws| && limit > 0
    requires Blocks(draws) && |s0| == a.Length && (first <==> count0 == 0)
    requires count0 + limit <= |ps|
    requires forall k :: count0 <= k < count0 + limit ==>
               ps[k] == Placement(draws[k], k == 0, b, c, limit, num)
    requires AllSized(draws, count0) && a[..] == Spliced(ps, s0, count0)
    modifies a
    ensures ok <==> AllSized(draws, count0 + limit)
    ensures ok ==> count == count0 + limit && a[..] == Spliced(ps, s0, count)
  {
    count := count0;
    var k := 0;
    while k < limit
      invariant 0 <= k <= limit && count == count0 + k
      invariant AllSized(draws, count)
      invariant a[..] == Spliced(ps, s0, count)
    {
      assert (first && k == 0) == (count == 0);
      ok := PlaceOne(a, count, draws[count], first && k == 0, b, c, limit, num);
      if !ok {
        NotAllSized(draws, count + 1, count0 + limit);
        return;
      }
      SplicedStep(ps, s0, count);
      count := count + 1;
      k := k + 1;
    }
    ok := true;
  }

  /** The triple loop of createAsteroids: limit cubed instances placed in
      count order, stopping at the first one whose size fails the check. */
  method PlaceAll(a: array<AsterLoc>, draws: seq<seq<real>>, b: Bounds, c: real,
                  limit: nat, num: Numerics) returns (ok: bool)
    requires Cubed(limit) <= a.Length && Cubed(limit) <= |draws|
    requires Blocks(draws)
    modifies a
    ensures ok <==> AllSized(draws, Cubed(limit))
    ensures ok ==> a[..] == Spliced(Placements(draws, Cubed(limit), b, c, limit, num),
                                    old(a[..]), Cubed(limit))
  {
    ghost var s0 := a[..];
    ghost var sq := Mul(limit, limit);
    ghost var total := Mul(limit, sq);
    ghost var ps := Placements(draws, total, b, c, limit, num);
    var count: nat := 0;
    var i := 0;
    while i < limit
      invariant 0 <= i <= limit && count == Mul(i, sq) && count <= total
      invariant AllSized(draws, count)
      invariant a[..] == Spliced(ps, s0, count)
    {
      MulOfMono(i + 1, limit, sq);
      ok, count := PlacePlane(a, draws, i, b, c, limit, num, ps, s0);
      if !ok {
        NotAllSized(draws, Mul(i + 1, sq), total);
        return;
      }
      i := i + 1;
    }
    ok := true;
  }

  /** Plane i of the grid: limit rows of limit instances from
      i * limit * limit on. */
  method PlacePlane(a: array<AsterLoc>, draws: seq<seq<real>>, i: nat, b: Bounds, c: real,
                    limit: nat, num: Numerics, ghost ps: seq<AsterLoc>, ghost s0: seq<AsterLoc>)
    returns (ok: bool, count: nat)
    requires i < limit && Cubed(limit) <= a.Length && Cubed(limit) <= |draws| && Blocks(draws)
    requires Mul(i + 1, Mul(limit, limit)) <= Cubed(limit)
    requires ps == Placements(draws, Cubed(limit), b, c, limit, num) && |s0| == a.Length
    requires AllSized(draws, Mul(i, Mul(limit, limit)))
    requires a[..] == Spliced(ps, s0, Mul(i, Mul(limit, limit)))
    modifies a
    ensures ok <==> AllSized(draws, Mul(i + 1, Mul(limit, limit)))
    ensures ok ==> count == Mul(i + 1, Mul(limit, limit)) && a[..] == Spliced(ps, s0, count)
  {
    var sq := Mul(limit, limit);
    count := Mul(i, sq);
    var j := 0;
    while j < limit
      invariant 0 <= j <= limit && count == Mul(i, sq) + Mul(j, limit) <= Mul(i + 1, sq)
      invariant AllSized(draws, count)
      invariant a[..] == Spliced(ps, s0, count)
    {
      RowFits(i, j, limit);
      MulOfMono(j + 1, limit, limit);
      assert Mul(i + 1, sq) == Mul(i, sq) + sq && Mul(j + 1, limit) == Mul(j, limit) + limit;
      ghost var start := count;
      ok, count := PlaceRow(a, draws, count, i == 0 && j == 0, b, c, limit, num, ps, s0);
      if !ok {
        NotAllSized(draws, start + limit, Mul(i + 1, sq));
        return;
      }
      j := j + 1;
    }
    ok := true;
  }

  /** A failure among the first n instances is a failure among the first m. */
  lemma NotAllSized(draws: seq<seq<real>>, n: nat, m: nat)
    requires n <= m <= |draws| && Blocks(draws) && !AllSized(draws, n)
    ensures !AllSized(draws, m)
  {
  }

  /** What createAsteroids promises about one placed instance: the origin
      instance sits at the origin, every other one lies inside the field
      when its limits are ordered (and never above a maximum otherwise),
      its size is the scaler, its rotation starts at 0, and its spin is at
      most two degrees either way. */
  lemma PlacementFacts(d: seq<real>, origin: bool, b: Bounds, c: real, limit: nat,
                       num: Numerics)
    requires |d| == DrawsPerAsteroid && limit > 0
    ensures var p := Placement(d, origin, b, c, limit, num);
            && (origin ==> p.objLocs == Zero3)
            && (!origin ==> p.objLocs.x <= b.maxx && p.objLocs.y <= b.maxy && p.objLocs.z <= b.maxz)
            && (!origin && Ordered(b) ==> Inside(p.objLocs, b))
            && p.radii == Scaler(d) && p.rotation == 0.0
            && p.axis == num.normalize(RandVecOf(d[14..20]))
            && Abs(p.rotVel) == Abs(d[12]) * (Pi180 / 90.0)
  {
    var p := Placement(d, origin, b, c, limit, num);
    var k := Pi180 / 90.0;
    assert k > 0.0;
    if d[11] > 0.5 {
      assert p.rotVel == -1.0 * d[12] * k;
    } else {
      assert p.rotVel == 1.0 * d[12] * k;
    }
    AbsScaled(d[12], k);
  }

  lemma AbsScaled(r: real, k: real)
    requires k > 0.0
    ensures Abs(-1.0 * r * k) == Abs(r) * k && Abs(1.0 * r * k) == Abs(r) * k
  {
    if r < 0.0 {
      ScaleMonoStrict(r, 0.0, k);
    } else {
      ScaleMono(0.0, r, k);
    }
  }

  /** Draws in [0, 1) give a size in [1, 2), so the exit of createAsteroids
      is never taken. */
  lemma DrawsNeverExit(draws: seq<seq<real>>, n: nat)
    requires n <= |draws| && Blocks(draws)
    requires forall k, j :: 0 <= k < n && 0 <= j < DrawsPerAsteroid ==> 0.0 <= draws[k][j] < 1.0
    ensures AllSized(draws, n)
    ensures forall k :: 0 <= k < n ==> 1.0 <= Scaler(draws[k]) < 2.0
  {
    forall k | 0 <= k < n
      ensures 1.0 <= Scaler(draws[k]) < 2.0 && SizeOk(draws[k])
    {
      assert 0.0 <= draws[k][3] < 1.0;
    }
  }

  /** The field before its first step: instance k below limit cubed is the
      placement of block k, the first one at the origin, all of them inside
      the cube when its half side is not negative; the rest is untouched. */
  lemma CreatedFacts(s: seq<AsterLoc>, draws: seq<seq<real>>, c: real, limit: nat,
                     num: Numerics)
    requires Cubed(limit) <= |s| && Cubed(limit) <= |draws| && Blocks(draws)
    ensures forall k :: 0 <= k < Cubed(limit) ==>
              Created(s, draws, c, limit, num)[k] == Placement(draws[k], k == 0, Cube(c), c, limit, num)
    ensures forall k :: Cubed(limit) <= k < |s| ==> Created(s, draws, c, limit, num)[k] == s[k]
    ensures limit > 0 ==> Created(s, draws, c, limit, num)[0].objLocs == Zero3
    ensures c >= 0.0 ==> forall k :: 0 <= k < Cubed(limit) ==>
              Inside(Created(s, draws, c, limit, num)[k].objLocs, Cube(c))
  {
    var t := Created(s, draws, c, limit, num);
    if limit > 0 {
      MulOfMono(1, limit, Mul(limit, limit));
      MulOfMono(1, limit, limit);
      PlacementFacts(draws[0], true, Cube(c), c, limit, num);
    }
    if c >= 0.0 {
      forall k | 0 <= k < Cubed(limit)
        ensures Inside(t[k].objLocs, Cube(c))
      {
        PlacementFacts(draws[k], k == 0, Cube(c), c, limit, num);
      }
    }
  }

  /** Negating a location that left the field need not bring it back: an
      instance just inside the unit cube moving outward lands outside on
      the opposite side. */
  lemma ReflectionMayStayOutside()
    ensures var b := Cube(1.0);
            var a := AsterLoc(Identity, Vec3(0.9, 0.0, 0.0), 1.0, Vec3(0.2, 0.0, 0.0),
                              Zero3, 0.0, 0.0);
            && !Outside(a.objLocs, b)
            && Outside(Add(a.objLocs, a.velocity), b)
            && Outside(Moved(a, b).objLocs, b)
  {
  }

  // ---------------------------------------------------------------------
  // The array updates of calcPosition

  /** The collision loop of calcPosition for instance i against every
      instance before it. */
  method Collide(a: array<AsterLoc>, i: nat, num: Numerics)
    requires i < a.Length
    modifies a
    ensures a[..] == Collided(old(a[..]), i, i, num)
  {
    ghost var s0 := a[..];
    var x := 0;
    while x < i
      invariant 0 <= x <= i
      invariant a[..] == Collided(s0, i, x, num)
    {
      if num.distance(a[i].objLocs, a[x].objLocs) < a[i].radii + a[x].radii {
        ghost var t := a[..];
        var tmpvec := a[i].velocity;
        a[i] := a[i].(velocity := a[x].velocity);
        a[x] := a[x].(velocity := tmpvec);
        a[i] := a[i].(rotVel := a[i].rotVel * -1.0);
        a[x] := a[x].(rotVel := a[x].rotVel * -1.0);
        assert a[..] == Bounce(t, i, x);
      }
      x := x + 1;
    }
  }

  /** One instance of calcPosition: move and reflect, collide, spin and
      rebuild the matrix. */
  method StepOne(a: array<AsterLoc>, i: nat, b: Bounds, num: Numerics)
    requires i < a.Length
    modifies a
    ensures a[..] == StepAt(old(a[..]), i, b, num)
  {
    MoveOne(a, i, b);
    Collide(a, i, num);
    SpinOne(a, i);
  }

  /** The move of calcPosition: add the velocity, negate the location when
      it left the field. */
  method MoveOne(a: array<AsterLoc>, i: nat, b: Bounds)
    requires i < a.Length
    modifies a
    ensures a[..] == old(a[..])[i := Moved(old(a[i]), b)]
  {
    a[i] := a[i].(objLocs := Add(a[i].objLocs, a[i].velocity));
    if Outside(a[i].objLocs, b) {
      a[i] := a[i].(objLocs := Times(a[i].objLocs, -1.0));
    }
  }

  /** The spin of calcPosition: advance the rotation, wrap it, rebuild the
      matrix from location, size, rotation and axis. */
  method SpinOne(a: array<AsterLoc>, i: nat)
    requires i < a.Length
    modifies a
    ensures a[..] == old(a[..])[i := Spun(old(a[i]))]
  {
    a[i] := a[i].(rotation := a[i].rotation + a[i].rotVel);
    a[i] := a[i].(rotation := FMod(a[i].rotation, Pi360));
    var scaler := a[i].radii;
    var matpos := Identity;
    matpos := Translate(matpos, a[i].objLocs);
    matpos := Scale(matpos, Vec3(scaler, scaler, scaler));
    matpos := Rotate(matpos, a[i].rotation, a[i].axis);
    a[i] := a[i].(objMatrices := matpos);
  }

  /** The inner loop of calcPosition: the Quantity instances of one asteroid
      type, from flat index start on. */
  method StepGroup(a: array<AsterLoc>, start: nat, b: Bounds, num: Numerics,
                   ghost s0: seq<AsterLoc>)
    requires start + Quantity <= a.Length == |s0|
    requires a[..] == Steps(s0, start, b, num)
    modifies a
    ensures a[..] == Steps(s0, start + Quantity, b, num)
  {
    var y := 0;
    while y < Quantity
      invariant 0 <= y <= Quantity
      invariant a[..] == Steps(s0, start + y, b, num)
    {
      StepOne(a, start + y, b, num);
      y := y + 1;
    }
  }

  /** The number of instances calcPosition visits for a value. */
  function Visited(value: int): nat
  {
    if value <= 0 then 0 else value * Quantity
  }

  /** The asset record of asteroid x: the reused item with its path, matrix,
      gamma and location overwritten. */
  function Filled(base: ModelInfo, locs: seq<AsterLoc>, x: nat): ModelInfo
    requires x < |locs| && x < |AsteroidPaths|
  {
    base.(path := AsteroidPaths[x], model := locs[x].objMatrices, gamma := 2.3,
          location := locs[x].objLocs)
  }

  /** The records appended by createAsteroids, one per asteroid below value. */
  function Infos(base: ModelInfo, locs: seq<AsterLoc>, value: int): (r: seq<ModelInfo>)
    requires value <= |locs| && value <= |AsteroidPaths|
    ensures |r| == if value <= 0 then 0 else value
    ensures forall x :: 0 <= x < |r| ==>
              r[x].path == AsteroidPaths[x] && r[x].gamma == 2.3 &&
              r[x].model == locs[x].objMatrices && r[x].location == locs[x].objLocs &&
              r[x].(path := base.path, model := base.model, gamma := base.gamma,
                    location := base.location) == base
  {
    var n := if value <= 0 then 0 else value;
    seq(n, x requires 0 <= x < n => Filled(base, locs, x))
  }

  /** One more asteroid appends its record. */
  lemma InfosStep(base: ModelInfo, locs: seq<AsterLoc>, x: nat)
    requires x < |locs| && x < |AsteroidPaths|
    ensures Infos(base, locs, x + 1) == Infos(base, locs, x) + [Filled(base, locs, x)]
  {
    assert Infos(base, locs, x + 1)[..x] == Infos(base, locs, x);
  }

  /** The loop of Populate on the record list and the reused item. */
  method AppendInfos(infos: seq<ModelInfo>, base: ModelInfo, locs: seq<AsterLoc>, value: int)
    returns (out: seq<ModelInfo>, item: ModelInfo)
    requires value <= |AsteroidPaths| && value <= |locs|
    ensures out == infos + Infos(base, locs, value)
    ensures item == if value <= 0 then base else Filled(base, locs, value - 1)
  {
    out := infos;
    item := base;
    var x := 0;
    while x < value
      invariant 0 <= x <= if value > 0 then value else 0
      invariant out == infos + Infos(base, locs, x)
      invariant item == if x == 0 then base else Filled(base, locs, x - 1)
    {
      item := item.(path := AsteroidPaths[x]);
      item := item.(model := locs[x].objMatrices);
      item := item.(gamma := 2.3);
      item := item.(location := locs[x].objLocs);
      assert item == Filled(base, locs, x);
      InfosStep(base, locs, x);
      out := out + [item];
      x := x + 1;
    }
  }

  /** The field as createAsteroids leaves it before the first step: limit
      cubed instances placed inside the cube of half side c, the rest of
      the array as it was. */
  function Created(s: seq<AsterLoc>, draws: seq<seq<real>>, c: real, limit: nat,
                   num: Numerics): (t: seq<AsterLoc>)
    requires Cubed(limit) <= |s| && Cubed(limit) <= |draws| && Blocks(draws)
    ensures |t| == |s|
  {
    Spliced(Placements(draws, Cubed(limit), Cube(c), c, limit, num), s,
            Cubed(limit))
  }

  /** The asteroid field (class Objects): the instance array, the limits of
      the field, its scale, and the asset records. */
  class Field {
    const tmpLocs: array<AsterLoc>
    var minx: real
    var maxx: real
    var miny: real
    var maxy: real
    var minz: real
    var maxz: real
    var cubescale: int
    var modelinfo: seq<ModelInfo>
    var item: ModelInfo

    constructor()
      ensures fresh(tmpLocs) && Valid()
      ensures cubescale == 0 && modelinfo == []
    {
      tmpLocs := new AsterLoc[Quantity * Amount](_ =>
        AsterLoc(Identity, Zero3, 0.0, Zero3, Zero3, 0.0, 0.0));
      cubescale := 0;
      modelinfo := [];
      item := NewModelInfo("", Identity, Zero3);
    }

    /** The instance array has its declared size. */
    predicate Valid()
      reads this
    {
      tmpLocs.Length == Quantity * Amount
    }

    function Box(): Bounds
      reads this
    {
      Bounds(minx, maxx, miny, maxy, minz, maxz)
    }

    /** setScale: the float argument stored in the int member, truncated. */
    method SetScale(value: real)
      modifies this
      ensures cubescale == Trunc(value)
      ensures Box() == old(Box()) && modelinfo == old(modelinfo) && item == old(item)
    {
      cubescale := Trunc(value);
    }

    /** calcPosition: every instance of the first value asteroid types
        stepped in flat index order. The model argument is not used. */
    method CalcPosition(model: Transform, value: int, num: Numerics)
      requires value * Quantity <= tmpLocs.Length
      modifies tmpLocs
      ensures tmpLocs[..] == Steps(old(tmpLocs[..]), Visited(value), Box(), num)
    {
      ghost var s0 := tmpLocs[..];
      var q := 0;
      while q < value
        invariant 0 <= q <= if value > 0 then value else 0
        invariant tmpLocs[..] == Steps(s0, q * Quantity, Box(), num)
      {
        StepGroup(tmpLocs, q * Quantity, Box(), num, s0);
        q := q + 1;
      }
    }

    /** The loop that appends one asset record per asteroid type. */
    method Populate(value: int)
      requires value <= |AsteroidPaths| && value <= tmpLocs.Length
      modifies this
      ensures modelinfo == old(modelinfo) + Infos(old(item), tmpLocs[..], value)
      ensures item == if value <= 0 then old(item) else Filled(old(item), tmpLocs[..], value - 1)
      ensures Box() == old(Box()) && cubescale == old(cubescale)
    {
      modelinfo, item := AppendInfos(modelinfo, item, tmpLocs[..], value);
    }

    /** createAsteroids: the limits of the field from the scale, limit cubed
        instances placed from the draws (false where the source exits on an
        oversized instance), one step of calcPosition, and one asset record
        per asteroid type. limit stands for the integral cube root of
        Quantity * value. */
    method CreateAsteroids(value: int, limit: nat, draws: seq<seq<real>>, num: Numerics)
      returns (ok: bool)
      requires Valid() && value * Quantity <= tmpLocs.Length
      requires Cubed(limit) <= tmpLocs.Length && Cubed(limit) <= |draws|
      requires Blocks(draws)
      modifies this, tmpLocs
      ensures Box() == Cube(cubescale as real) && cubescale == old(cubescale)
      ensures ok <==> AllSized(draws, Cubed(limit))
      ensures ok ==> tmpLocs[..] == Steps(Created(old(tmpLocs[..]), draws, cubescale as real, limit, num),
                                          Visited(value), Box(), num)
      ensures ok ==> modelinfo == old(modelinfo) + Infos(old(item), tmpLocs[..], value)
      ensures !ok ==> modelinfo == old(modelinfo) && item == old(item)
    {
      minx, miny, minz := -(cubescale as real), -(cubescale as real), -(cubescale as real);
      maxx, maxy, maxz := cubescale as real, cubescale as real, cubescale as real;
      ok := PlaceAll(tmpLocs, draws, Box(), cubescale as real, limit, num);
      if !ok {
        return;
      }
      CalcPosition(Identity, value, num);
      Populate(value);
    }
  }
}
