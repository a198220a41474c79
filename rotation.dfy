/** The pinwheel's orientation, abstracted to a rotation about the fixed z axis.
    Every rotation the view applies is about that one axis, and composing two
    rotations about one axis adds their angles, so the orientation is kept as
    an accumulated angle. The angle is held exactly as piMultiple * π + radians,
    so that the per-tick step of -π/6 needs no decimal approximation of π. */
module Rotation {

  /** piMultiple * π + radians, in radians, about the z axis. */
  datatype Angle = Angle(piMultiple: real, radians: real)

  /** The identity transform's orientation. */
  const Identity: Angle := Angle(0.0, 0.0)

  /** Radians of rotation per point of horizontal drag (rotationGestureSpeed). */
  const GestureSpeed: real := 0.01

  /** The fixed rotation applied on every tick while the clip is playing: -π/6. */
  const PlayStep: Angle := Angle(-1.0 / 6.0, 0.0)

  /** Composing two rotations about the same axis: the orientation `*=` update. */
  function Compose(a: Angle, b: Angle): Angle
  {
    Angle(a.piMultiple + b.piMultiple, a.radians + b.radians)
  }

  /** A horizontal drag of dx points rotates by dx * -GestureSpeed about z. */
  function Gesture(o: Angle, dx: real): Angle
  {
    Compose(o, Angle(0.0, dx * -GestureSpeed))
  }

  /** The rotation a tick applies: PlayStep when the controller reports playing. */
  function TickRotation(o: Angle, playing: bool): Angle
  {
    if playing then Compose(o, PlayStep) else o
  }

  /** Successive drags, applied in order. */
  function Gestures(o: Angle, dxs: seq<real>): Angle
    decreases |dxs|
  {
    if dxs == [] then o else Gestures(Gesture(o, dxs[0]), dxs[1..])
  }

  function Sum(xs: seq<real>): real
    decreases |xs|
  {
    if xs == [] then 0.0 else xs[0] + Sum(xs[1..])
  }

  /** Successive ticks, each reporting whether the clip is playing. */
  function TickRotations(o: Angle, playing: seq<bool>): Angle
    decreases |playing|
  {
    if playing == [] then o else TickRotations(TickRotation(o, playing[0]), playing[1..])
  }

  /** The number of ticks that reported playing. */
  function CountPlaying(playing: seq<bool>): nat
    decreases |playing|
  {
    if playing == [] then 0 else (if playing[0] then 1 else 0) + CountPlaying(playing[1..])
  }

  /** Compositions about one axis do not depend on the order they are applied in. */
  lemma ComposeCommutes(a: Angle, b: Angle)
    ensures Compose(a, b) == Compose(b, a)
  {
  }

  /** A drag leaves the π part alone and turns clockwise (negative angle) for a
      rightward drag, counter-clockwise for a leftward one. */
  lemma GestureDirection(o: Angle, dx: real)
    ensures Gesture(o, dx).piMultiple == o.piMultiple
    ensures dx > 0.0 ==> Gesture(o, dx).radians < o.radians
    ensures dx < 0.0 ==> Gesture(o, dx).radians > o.radians
    ensures dx == 0.0 ==> Gesture(o, dx) == o
  {
  }

  /** Two drags dx1 then dx2 end where one drag of dx1 + dx2 ends. */
  lemma TwoGesturesAsOne(o: Angle, dx1: real, dx2: real)
    ensures Gesture(Gesture(o, dx1), dx2) == Gesture(o, dx1 + dx2)
  {
  }

  /** Any sequence of drags ends where a single drag by their total ends. */
  lemma {:induction false} GesturesAsOne(o: Angle, dxs: seq<real>)
    ensures Gestures(o, dxs) == Gesture(o, Sum(dxs))
    decreases |dxs|
  {
    if dxs != [] {
      GesturesAsOne(Gesture(o, dxs[0]), dxs[1..]);
      TwoGesturesAsOne(o, dxs[0], Sum(dxs[1..]));
    }
  }

  /** A run of ticks turns the pinwheel by -π/6 per tick that reported playing
      and by nothing else. */
  lemma {:induction false} TickRotationsCount(o: Angle, playing: seq<bool>)
    ensures TickRotations(o, playing)
            == Angle(o.piMultiple - CountPlaying(playing) as real / 6.0, o.radians)
    decreases |playing|
  {
    if playing != [] {
      TickRotationsCount(TickRotation(o, playing[0]), playing[1..]);
    }
  }
}
