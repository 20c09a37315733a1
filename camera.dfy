/** The viewer (class Camera): position and orientation, zoom, viewport, the
    copies kept for a reset, and the explicit 4x4 matrix product. Angles are
    radians; the trigonometry and normalisation are the uninterpreted
    `Numerics`. */
module CameraState {
  import opened Common

  /** Camera_Movement. */
  datatype Movement = Forward | Backward | Left | Right | Closer | Away | Up | Down

  /** Default camera values. */
  const Speed: real := 0.005
  const Sensitivity: real := 0.005
  const ZoomDefault: real := 45.0
  /** Up in this world is -y. */
  const WorldUpDefault: Vec3 := Vec3(0.0, -1.0, 0.0)
  const OneDegree: real := Pi / 180.0

  /** The default arguments of the first constructor. */
  const DefaultPosition: Vec3 := Vec3(0.0, 0.0, 2.0)
  const DefaultFocus: Vec3 := Vec3(0.0, 0.0, 0.0)

  // ---------------------------------------------------------------- matrices

  /** A glm mat4: four columns of four floats, m[column][row]. */
  type Mat4 = m: seq<seq<real>> | |m| == 4 && forall i :: 0 <= i < 4 ==> |m[i]| == 4
    witness seq(4, i => seq(4, j => 0.0))

  const Identity4: Mat4 := [[1.0, 0.0, 0.0, 0.0], [0.0, 1.0, 0.0, 0.0],
                            [0.0, 0.0, 1.0, 0.0], [0.0, 0.0, 0.0, 1.0]]

  /** The first n terms of entry [z][x] of multMat4(one, two), summed in the
      loop's order. */
  function Dot(one: Mat4, two: Mat4, z: nat, x: nat, n: nat): real
    requires z < 4 && x < 4 && n <= 4
  {
    if n == 0 then 0.0 else Dot(one, two, z, x, n - 1) + two[z][n - 1] * one[n - 1][x]
  }

  /** What multMat4(one, two) returns: entry [z][x] is the sum over y of
      two[z][y] * one[y][x]. */
  function Product(one: Mat4, two: Mat4): Mat4
  {
    seq(4, z requires 0 <= z < 4 => seq(4, x requires 0 <= x < 4 => Dot(one, two, z, x, 4)))
  }

  /** Every entry of the product is the four-term sum over the inner index,
      which in glm's column-major storage is the matrix product one * two. */
  lemma ProductEntry(one: Mat4, two: Mat4, z: nat, x: nat)
    requires z < 4 && x < 4
    ensures Product(one, two)[z][x] ==
            two[z][0] * one[0][x] + two[z][1] * one[1][x] +
            two[z][2] * one[2][x] + two[z][3] * one[3][x]
  {
    assert Dot(one, two, z, x, 1) == two[z][0] * one[0][x];
    assert Dot(one, two, z, x, 2) == Dot(one, two, z, x, 1) + two[z][1] * one[1][x];
    assert Dot(one, two, z, x, 3) == Dot(one, two, z, x, 2) + two[z][2] * one[2][x];
    assert Dot(one, two, z, x, 4) == Dot(one, two, z, x, 3) + two[z][3] * one[3][x];
  }

  /** The identity is neutral on both sides. */
  lemma ProductIdentity(m: Mat4)
    ensures Product(Identity4, m) == m
    ensures Product(m, Identity4) == m
  {
    forall z, x | 0 <= z < 4 && 0 <= x < 4
      ensures Product(Identity4, m)[z][x] == m[z][x]
      ensures Product(m, Identity4)[z][x] == m[z][x]
    {
      ProductEntry(Identity4, m, z, x);
      ProductEntry(m, Identity4, z, x);
    }
    assert forall z | 0 <= z < 4 :: Product(Identity4, m)[z] == m[z];
    assert forall z | 0 <= z < 4 :: Product(m, Identity4)[z] == m[z];
  }

  /** multMat4: three nested loops with a running sum per entry. */
  method MultMat4(one: Mat4, two: Mat4) returns (result: Mat4)
    ensures result == Product(one, two)
  {
    var rows: seq<seq<real>> := [];
    var z := 0;
    while z < 4
      invariant 0 <= z <= 4 && |rows| == z
      invariant forall i :: 0 <= i < z ==> rows[i] == Product(one, two)[i]
    {
      var row: seq<real> := [];
      var x := 0;
      while x < 4
        invariant 0 <= x <= 4 && |row| == x
        invariant forall j :: 0 <= j < x ==> row[j] == Dot(one, two, z, j, 4)
      {
        var sum := 0.0;
        var y := 0;
        while y < 4
          invariant 0 <= y <= 4 && sum == Dot(one, two, z, x, y)
        {
          sum := sum + two[z][y] * one[y][x];
          y := y + 1;
        }
        row := row + [sum];
        x := x + 1;
      }
      rows := rows + [row];
      z := z + 1;
    }
    result := rows;
  }

  // ------------------------------------------------------ the camera's state

  /** Every field of the camera. The home fields are the persistent copies
      (position, focus, front, yaw, pitch, width, height in the source) that
      a reset returns to. */
  datatype View = View(
    position: Vec3, front: Vec3, up: Vec3, focus: Vec3, right: Vec3, worldUp: Vec3,
    yaw: real, pitch: real, movementSpeed: real, mouseSensitivity: real, zoom: real,
    width: int, height: int, home: Home)

  /** The persistent copies (position, focus, front, yaw, pitch, width and
      height in lower case in the source); nothing but a constructor sets
      them. */
  datatype Home = Home(position: Vec3, focus: Vec3, front: Vec3, yaw: real, pitch: real,
                       width: int, height: int)

  /** The direction vectors and Euler angles that getEulerAngles and getFront
      derive from one another. */
  datatype Orientation = Orientation(front: Vec3, right: Vec3, up: Vec3, yaw: real, pitch: real)

  /** getEulerAngles: the front vector points from the position to the focus;
      right and up follow by cross products with the world's up; pitch is the
      arcsine of front.y and yaw that of the z of the vector across the
      fixed world up and right. The clamp of the pitch is discarded in the
      source and so is absent here. */
  function EulerAngles(num: Numerics, position: Vec3, focus: Vec3, worldUp: Vec3): Orientation
  {
    var front := num.normalize(Sub(focus, position));
    var right := num.normalize(Cross(front, worldUp));
    var up := num.normalize(Cross(right, front));
    var xz := num.normalize(Cross(WorldUpDefault, right));
    Orientation(front, right, up, num.asin(xz.z), num.asin(front.y))
  }

  /** getFront: the front vector from yaw and pitch, and right and up from it. */
  function FrontBasis(num: Numerics, yaw: real, pitch: real, worldUp: Vec3): Orientation
  {
    var raw := Vec3(num.cos(yaw) * num.cos(pitch), num.sin(pitch), num.sin(yaw) * num.cos(pitch));
    var front := num.normalize(raw);
    var right := num.normalize(Cross(front, worldUp));
    var up := num.normalize(Cross(right, front));
    Orientation(front, right, up, yaw, pitch)
  }

  /** The state after getEulerAngles. */
  function WithEuler(v: View, num: Numerics): View
  {
    var o := EulerAngles(num, v.position, v.focus, v.worldUp);
    v.(front := o.front, right := o.right, up := o.up, yaw := o.yaw, pitch := o.pitch)
  }

  /** The state after getFront: the focus becomes the front vector. */
  function WithFront(v: View, num: Numerics): View
  {
    var o := FrontBasis(num, v.yaw, v.pitch, v.worldUp);
    v.(front := o.front, focus := o.front, right := o.right, up := o.up)
  }

  /** Both derivations read only fields they do not write, so repeating one
      changes nothing; after getFront the focus is the front vector, and
      after getEulerAngles the pitch is the arcsine of front.y. */
  lemma DerivationsSettle(v: View, num: Numerics)
    ensures WithFront(WithFront(v, num), num) == WithFront(v, num)
    ensures WithEuler(WithEuler(v, num), num) == WithEuler(v, num)
    ensures WithFront(v, num).focus == WithFront(v, num).front
    ensures WithEuler(v, num).pitch == num.asin(WithEuler(v, num).front.y)
  {
  }

  /** The state the first constructor builds: defaults, the given viewport,
      position and focus, orientation from getEulerAngles, and home copies
      of all of it. */
  function Looking(num: Numerics, width: int, height: int, position: Vec3, focus: Vec3): View
  {
    var o := EulerAngles(num, position, focus, WorldUpDefault);
    View(position, o.front, o.up, focus, o.right, WorldUpDefault,
         o.yaw, o.pitch, Speed, Sensitivity, ZoomDefault, width, height,
         Home(position, focus, o.front, o.yaw, o.pitch, width, height))
  }

  /** The state the second constructor builds: the given world up, yaw and
      pitch, orientation from getFront, and home copies of it. */
  function Aimed(num: Numerics, width: int, height: int, position: Vec3, worldUp: Vec3,
                 yaw: real, pitch: real): View
  {
    var o := FrontBasis(num, yaw, pitch, worldUp);
    View(position, o.front, o.up, o.front, o.right, worldUp,
         yaw, pitch, Speed, Sensitivity, ZoomDefault, width, height,
         Home(position, o.front, o.front, yaw, pitch, width, height))
  }

  // ------------------------------------------------------------- operations

  /** processKeyboard: the six moves shift the position along the front,
      right or world-up vector by speed * deltaTime; CLOSER and AWAY change
      the zoom by 5 either way without any bound. */
  function Keyed(v: View, direction: Movement, deltaTime: real): View
  {
    var velocity := v.movementSpeed * deltaTime;
    match direction
    case Forward => v.(position := Add(v.position, Times(v.front, velocity)))
    case Backward => v.(position := Sub(v.position, Times(v.front, velocity)))
    case Left => v.(position := Sub(v.position, Times(v.right, velocity)))
    case Right => v.(position := Add(v.position, Times(v.right, velocity)))
    case Up => v.(position := Add(v.position, Times(v.worldUp, velocity)))
    case Down => v.(position := Sub(v.position, Times(v.worldUp, velocity)))
    case Closer => v.(zoom := v.zoom - 5.0)
    case Away => v.(zoom := v.zoom + 5.0)
  }

  /** The key that undoes a key. */
  function Opposite(d: Movement): (o: Movement)
    ensures o != d
  {
    match d
    case Forward => Backward
    case Backward => Forward
    case Left => Right
    case Right => Left
    case Up => Down
    case Down => Up
    case Closer => Away
    case Away => Closer
  }

  /** Whether a key moves the camera; CLOSER and AWAY change the zoom. */
  predicate Moves(d: Movement)
  {
    d != Closer && d != Away
  }

  /** The keys that move along their axis rather than against it. */
  predicate Ahead(d: Movement)
  {
    d == Forward || d == Right || d == Up
  }

  /** The camera vector a moving key follows. */
  function Axis(v: View, d: Movement): Vec3
  {
    match d
    case Forward => v.front
    case Backward => v.front
    case Right => v.right
    case Left => v.right
    case Up => v.worldUp
    case Down => v.worldUp
    case Closer => Zero3
    case Away => Zero3
  }

  /** A moving key displaces the position by its axis times
      speed * deltaTime, forward for FORWARD, RIGHT and UP and backward for
      the others, and leaves the zoom alone; a zoom key changes the zoom by
      exactly 5 and leaves the position alone; nothing else changes. */
  lemma KeyedMoves(v: View, d: Movement, deltaTime: real)
    ensures var r := Keyed(v, d, deltaTime);
            r == v.(position := r.position, zoom := r.zoom)
    ensures Moves(d) ==> Keyed(v, d, deltaTime).zoom == v.zoom
    ensures Ahead(d) ==>
              Sub(Keyed(v, d, deltaTime).position, v.position) ==
              Times(Axis(v, d), v.movementSpeed * deltaTime)
    ensures Moves(d) && !Ahead(d) ==>
              Sub(v.position, Keyed(v, d, deltaTime).position) ==
              Times(Axis(v, d), v.movementSpeed * deltaTime)
    ensures d == Closer ==> Keyed(v, d, deltaTime) == v.(zoom := v.zoom - 5.0)
    ensures d == Away ==> Keyed(v, d, deltaTime) == v.(zoom := v.zoom + 5.0)
  {
    var k := v.movementSpeed * deltaTime;
    var r := Keyed(v, d, deltaTime);
    match d
    case Forward => assert r.position == Add(v.position, Times(v.front, k));
    case Backward => assert r.position == Sub(v.position, Times(v.front, k));
    case Left => assert r.position == Sub(v.position, Times(v.right, k));
    case Right => assert r.position == Add(v.position, Times(v.right, k));
    case Up => assert r.position == Add(v.position, Times(v.worldUp, k));
    case Down => assert r.position == Sub(v.position, Times(v.worldUp, k));
    case _ =>
  }

  /** The opposite key over the same time restores the state exactly. */
  lemma KeyedInverse(v: View, d: Movement, deltaTime: real)
    ensures Keyed(Keyed(v, d, deltaTime), Opposite(d), deltaTime) == v
  {
  }

  /** processMouseScroll on the zoom: AWAY adds and CLOSER subtracts one
      degree, then the two sequential tests pin the zoom to
      [onedegree, pi90]. */
  function ScrolledZoom(zoom: real, inout: Movement): (z: real)
    ensures OneDegree <= z <= Pi90
    ensures var raw := if inout == Away then zoom + OneDegree
                       else if inout == Closer then zoom - OneDegree else zoom;
            (OneDegree <= raw <= Pi90 ==> z == raw) &&
            (raw < OneDegree ==> z == OneDegree) &&
            (raw > Pi90 ==> z == Pi90)
  {
    var raw := if inout == Away then zoom + OneDegree
               else if inout == Closer then zoom - OneDegree else zoom;
    var low := if raw <= OneDegree then OneDegree else raw;
    if low >= Pi90 then Pi90 else low
  }

  function Scrolled(v: View, inout: Movement): View
  {
    v.(zoom := ScrolledZoom(v.zoom, inout))
  }

  /** Inside the band, AWAY then CLOSER returns to the same zoom; any other
      movement value only pins it, so scrolling with one twice is the same
      as once. */
  lemma ScrolledInverse(v: View, d: Movement)
    ensures OneDegree <= v.zoom <= Pi90 - OneDegree ==>
              Scrolled(Scrolled(v, Away), Closer) == v
    ensures OneDegree + OneDegree <= v.zoom <= Pi90 ==>
              Scrolled(Scrolled(v, Closer), Away) == v
    ensures d != Away && d != Closer ==>
              Scrolled(Scrolled(v, d), d) == Scrolled(v, d)
  {
  }

  /** processMouseMovement: yaw minus and pitch plus the sensitivity-scaled
      offsets, then getFront. The clamps in the source discard their results,
      so neither angle is bounded. */
  function Turned(v: View, num: Numerics, xoffset: real, yoffset: real): View
  {
    WithFront(Angled(v, xoffset, yoffset), num)
  }

  /** The angles before getFront. */
  function Angled(v: View, xoffset: real, yoffset: real): View
  {
    v.(yaw := v.yaw - xoffset * v.mouseSensitivity, pitch := v.pitch + yoffset * v.mouseSensitivity)
  }

  /** Moving the mouse back by the same offsets restores the angles, so the
      state is the one getFront makes of the original angles. */
  lemma TurnedInverse(v: View, num: Numerics, xoffset: real, yoffset: real)
    ensures Turned(Turned(v, num, xoffset, yoffset), num, -xoffset, -yoffset) ==
            WithFront(v, num)
  {
    var s := v.mouseSensitivity;
    var w := Turned(v, num, xoffset, yoffset);
    NegatedOffset(v.yaw, v.pitch, xoffset, yoffset, s);
    assert w.yaw == v.yaw - xoffset * s && w.pitch == v.pitch + yoffset * s;
    var u := Turned(w, num, -xoffset, -yoffset);
    assert u.yaw == v.yaw && u.pitch == v.pitch;
    assert u == WithFront(v, num);
  }

  lemma NegatedOffset(yaw: real, pitch: real, x: real, y: real, s: real)
    ensures (yaw - x * s) - (-x) * s == yaw
    ensures (pitch + y * s) + (-y) * s == pitch
  {
  }

  /** With a positive sensitivity a large enough vertical offset takes the
      pitch past pi180: the discarded clamp bounds nothing. */
  lemma TurnedUnbounded(v: View, num: Numerics)
    requires v.mouseSensitivity > 0.0
    ensures var y := (Pi180 + 1.0 - v.pitch) / v.mouseSensitivity;
            Turned(v, num, 0.0, y).pitch == Pi180 + 1.0 > Pi180
  {
    var s := v.mouseSensitivity;
    var y := (Pi180 + 1.0 - v.pitch) / s;
    QuotientTimes(Pi180 + 1.0 - v.pitch, s);
    var a := Angled(v, 0.0, y);
    assert a.pitch == v.pitch + y * s == Pi180 + 1.0;
    assert Turned(v, num, 0.0, y).pitch == a.pitch;
  }

  lemma QuotientTimes(x: real, s: real)
    requires s > 0.0
    ensures (x / s) * s == x
  {
  }

  /** resetCamera: speed, sensitivity, zoom, up and world up back to the
      constants; position, focus, front, yaw and pitch back to the home
      copies. Right and the viewport keep their values. */
  function Reset(v: View): View
  {
    Restored(Defaulted(v))
  }

  /** The constants a reset puts back. */
  function Defaulted(v: View): View
  {
    v.(movementSpeed := Speed, mouseSensitivity := Sensitivity,
       up := WorldUpDefault, worldUp := WorldUpDefault, zoom := ZoomDefault)
  }

  /** The home copies a reset puts back. */
  function Restored(v: View): View
  {
    v.(position := v.home.position, focus := v.home.focus, front := v.home.front,
       yaw := v.home.yaw, pitch := v.home.pitch)
  }

  /** A reset is idempotent; on a camera from the first constructor it
      changes only up, which getEulerAngles had derived and a reset sets to
      the world up. */
  lemma ResetFacts(v: View, num: Numerics, width: int, height: int, position: Vec3, focus: Vec3)
    ensures Reset(Reset(v)) == Reset(v)
    ensures var c := Looking(num, width, height, position, focus);
            Reset(c) == c.(up := WorldUpDefault)
  {
  }

  // --------------------------------------------------------- call sequences

  /** One call on the camera. */
  datatype Call =
    | Key(direction: Movement, deltaTime: real)
    | Wheel(inout: Movement)
    | Mouse(xoffset: real, yoffset: real)
    | Resize(w: int, h: int)
    | Place(p: Vec3)
    | Aim(f: Vec3)
    | ResetCall

  /** resizeView sets the viewport only; setPosition the position only;
      setFocus the focus, then getEulerAngles. */
  function Apply(v: View, num: Numerics, c: Call): View
  {
    match c
    case Key(d, dt) => Keyed(v, d, dt)
    case Wheel(d) => Scrolled(v, d)
    case Mouse(x, y) => Turned(v, num, x, y)
    case Resize(w, h) => v.(width := w, height := h)
    case Place(p) => v.(position := p)
    case Aim(f) => WithEuler(v.(focus := f), num)
    case ResetCall => Reset(v)
  }

  function Replay(v: View, num: Numerics, cs: seq<Call>): View
    decreases |cs|
  {
    if cs == [] then v else Replay(Apply(v, num, cs[0]), num, cs[1..])
  }

  /** No call changes the home copies. */
  lemma {:induction false} ReplayKeepsHome(v: View, num: Numerics, cs: seq<Call>)
    ensures Replay(v, num, cs).home == v.home
    decreases |cs|
  {
    if cs != [] {
      assert Apply(v, num, cs[0]).home == v.home;
      ReplayKeepsHome(Apply(v, num, cs[0]), num, cs[1..]);
    }
  }

  /** Whatever calls came before, a reset lands on the state a reset of the
      starting camera gives, except for the right vector and the viewport,
      which a reset does not touch. */
  lemma ResetAfterReplay(v: View, num: Numerics, cs: seq<Call>)
    ensures var w := Replay(v, num, cs);
            Reset(w) == Reset(v).(right := w.right, width := w.width, height := w.height)
  {
    ReplayKeepsHome(v, num, cs);
  }

  // ------------------------------------------------------------- the class

  class Camera {
    var position: Vec3
    var front: Vec3
    var up: Vec3
    var focus: Vec3
    var right: Vec3
    var worldUp: Vec3
    var yaw: real
    var pitch: real
    var movementSpeed: real
    var mouseSensitivity: real
    var zoom: real
    var width: int
    var height: int
    var home: Home

    function State(): View
      reads this
    {
      View(position, front, up, focus, right, worldUp, yaw, pitch,
           movementSpeed, mouseSensitivity, zoom, width, height, home)
    }

    /** Camera(width, height, position, focus): call with DefaultPosition and
        DefaultFocus for the source's default arguments. */
    constructor(num: Numerics, width: int, height: int, position: Vec3, focus: Vec3)
      ensures State() == Looking(num, width, height, position, focus)
    {
      this.width, this.height := width, height;
      this.position, this.focus := position, focus;
      movementSpeed := Speed;
      mouseSensitivity := Sensitivity;
      zoom := ZoomDefault;
      up, worldUp := WorldUpDefault, WorldUpDefault;
      front, right, yaw, pitch := Zero3, Zero3, 0.0, 0.0;
      home := Home(position, focus, Zero3, 0.0, 0.0, width, height);
      new;
      GetEulerAngles(num);
      home := home.(yaw := yaw, pitch := pitch, front := front);
    }

    /** Camera(width, height, posX .. upZ, yaw, pitch). */
    constructor FromAngles(num: Numerics, width: int, height: int, position: Vec3,
                           worldUp: Vec3, yaw: real, pitch: real)
      ensures State() == Aimed(num, width, height, position, worldUp, yaw, pitch)
    {
      this.width, this.height := width, height;
      movementSpeed := Speed;
      mouseSensitivity := Sensitivity;
      zoom := ZoomDefault;
      this.position := position;
      this.worldUp := worldUp;
      this.yaw, this.pitch := yaw, pitch;
      front, up, focus, right := Zero3, Zero3, Zero3, Zero3;
      home := Home(position, Zero3, Zero3, yaw, pitch, width, height);
      new;
      GetFront(num);
      home := home.(focus := focus, front := front);
    }

    method GetEulerAngles(num: Numerics)
      modifies this
      ensures State() == WithEuler(old(State()), num)
    {
      var o := EulerAngles(num, position, focus, worldUp);
      front := o.front;
      pitch := o.pitch;
      right := o.right;
      up := o.up;
      yaw := o.yaw;
    }

    method GetFront(num: Numerics)
      modifies this
      ensures State() == WithFront(old(State()), num)
    {
      var o := FrontBasis(num, yaw, pitch, worldUp);
      front := o.front;
      focus := front;
      right := o.right;
      up := o.up;
    }

    method SetPosition(p: Vec3)
      modifies this
      ensures State() == old(State()).(position := p)
    {
      position := p;
    }

    method SetFocus(num: Numerics, f: Vec3)
      modifies this
      ensures State() == WithEuler(old(State()).(focus := f), num)
    {
      focus := f;
      GetEulerAngles(num);
    }

    method ResizeView(w: int, h: int)
      modifies this
      ensures State() == old(State()).(width := w, height := h)
    {
      width := w;
      height := h;
    }

    method ProcessKeyboard(direction: Movement, deltaTime: real)
      modifies this
      ensures State() == Keyed(old(State()), direction, deltaTime)
    {
      var velocity := movementSpeed * deltaTime;
      if direction == Forward {
        position := Add(position, Times(front, velocity));
      } else if direction == Backward {
        position := Sub(position, Times(front, velocity));
      } else if direction == Left {
        position := Sub(position, Times(right, velocity));
      } else if direction == Right {
        position := Add(position, Times(right, velocity));
      } else if direction == Up {
        position := Add(position, Times(worldUp, velocity));
      } else if direction == Down {
        position := Sub(position, Times(worldUp, velocity));
      } else if direction == Closer {
        zoom := zoom - 5.0;
      } else if direction == Away {
        zoom := zoom + 5.0;
      }
    }

    method ProcessMouseMovement(num: Numerics, xoffset: real, yoffset: real)
      modifies this
      ensures State() == Turned(old(State()), num, xoffset, yoffset)
    {
      var dx := xoffset * mouseSensitivity;
      var dy := yoffset * mouseSensitivity;
      yaw := yaw - dx;
      pitch := pitch + dy;
      assert State() == Angled(old(State()), xoffset, yoffset);
      GetFront(num);
    }

    method ProcessMouseScroll(inout: Movement)
      modifies this
      ensures State() == Scrolled(old(State()), inout)
      ensures OneDegree <= zoom <= Pi90
    {
      if inout == Away {
        zoom := zoom + OneDegree;
      }
      if inout == Closer {
        zoom := zoom - OneDegree;
      }
      if zoom <= OneDegree {
        zoom := OneDegree;
      }
      if zoom >= Pi90 {
        zoom := Pi90;
      }
    }

    method ResetCamera()
      modifies this
      ensures State() == Reset(old(State()))
    {
      movementSpeed := Speed;
      mouseSensitivity := Sensitivity;
      up, worldUp := WorldUpDefault, WorldUpDefault;
      zoom := ZoomDefault;
      assert State() == Defaulted(old(State()));
      position := home.position;
      focus := home.focus;
      front := home.front;
      yaw := home.yaw;
      pitch := home.pitch;
    }
  }
}
