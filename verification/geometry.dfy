/**
  The drawing decisions of the face's canvas layer: the sweep of the
  hour-progress arc, the angle and colour of each of the 60 ring dots, and the
  12-hour fold of the stored hour. Pixel geometry (polar-to-point conversion,
  the platform's trig-angle units, rasterisation) is not modelled: a draw
  command records the angle in degrees, the inset of its frame and its colour.
 */
module Geometry {
  import opened CInt
  import opened Palette

  /** Number of dots on the minute ring, one per minute position. */
  const DOT_COUNT: nat := 60
  /** The dot ring sits on a frame inset 3 from the layer bounds. */
  const DOT_INSET: int := 3
  /** Each dot is a filled circle of radius 2. */
  const DOT_RADIUS: int := 2
  /** The progress arc sits on a frame inset 1 from the layer bounds. */
  const ARC_INSET: int := 1
  /** The progress arc is a radial band of thickness 6. */
  const ARC_THICKNESS: int := 6

  /** The two global integers the tick handler writes and the redraw reads. */
  datatype FaceState = FaceState(hours: int, minutes: int)

  /** One drawing primitive handed to the graphics context. */
  datatype DrawCommand =
    | Dot(angle: int, inset: int, radius: int, color: Color)
    | Radial(inset: int, thickness: int, startAngle: int, endAngle: int, color: Color)

  /** The angle computations multiply a minute by 360 in C `int`; the
      product must not overflow. */
  predicate AngleDefined(minute: int) {
    IsInt32(minute * 360)
  }

  /** `minute - minute % 5`: the start of the 5-minute block holding `minute`. */
  function Bucket(minute: int): (b: int)
    ensures b % 5 == 0
    ensures 0 <= minute ==> 0 <= b <= minute < b + 5
    ensures minute <= 0 ==> minute <= b <= 0 && b < minute + 5
  {
    minute - Rem(minute, 5)
  }

  /** Sweep of the progress arc in degrees: whole 5-minute blocks of the hour,
      scaled to a full turn. */
  function IncrementAngle(minute: int): (a: int)
    requires AngleDefined(minute)
    ensures a == 6 * Bucket(minute)
    ensures a % 30 == 0
    ensures IsInt32(a)
    ensures 0 <= minute <= 59 ==> 0 <= a <= 330 && a == 30 * (minute / 5)
  {
    Div(Bucket(minute) * 360, 60)
  }

  /** Angle in degrees of the ring dot for a minute position. */
  function AngleForMinutes(minute: int): (a: int)
    requires AngleDefined(minute)
    ensures a == 6 * minute
    ensures IsInt32(a)
  {
    Div(minute * 360, 60)
  }

  /** Colour of ring dot `i` at `minute`: accent only inside the current,
      unfinished 5-minute block, transparent everywhere else. */
  function DotColor(i: int, minute: int): (c: Color)
    ensures c == Accent || c == Clear
    ensures 0 <= minute ==> (c == Accent <==> minute - minute % 5 < i <= minute)
  {
    if i <= Bucket(minute) || i > minute then Clear else Accent
  }

  /** Folds the stored hour onto the 12-hour face: an hour past 12 loses 12,
      any other hour is kept. */
  function FoldHour(h: int): (r: int)
    ensures h <= 12 ==> r == h
    ensures h > 12 ==> r == h - 12
  {
    h - (if h > 12 then 12 else 0)
  }

  function DotAt(i: int, minute: int): DrawCommand
    requires AngleDefined(i)
  {
    Dot(AngleForMinutes(i), DOT_INSET, DOT_RADIUS, DotColor(i, minute))
  }

  /** The dots for positions 1..n, in the order they are drawn. */
  function Dots(minute: int, n: nat): (ds: seq<DrawCommand>)
    requires n <= DOT_COUNT
    ensures |ds| == n
  {
    if n == 0 then [] else Dots(minute, n - 1) + [DotAt(n, minute)]
  }

  /** The progress arc for `minute`. */
  function Arc(minute: int): (a: DrawCommand)
    requires AngleDefined(minute)
    ensures a.Radial? && a.color == Main && a.startAngle == 0
    ensures a.endAngle % 30 == 0
    ensures 0 <= minute <= 59 ==> 0 <= a.endAngle <= 330
  {
    Radial(ARC_INSET, ARC_THICKNESS, 0, IncrementAngle(minute), Main)
  }

  /** Reference definition of one redraw's output: 60 dots, then the arc. */
  function FaceCommands(minute: int): (cs: seq<DrawCommand>)
    requires AngleDefined(minute)
    ensures |cs| == DOT_COUNT + 1
    ensures forall k :: 0 <= k < DOT_COUNT ==> cs[k].Dot? && cs[k].angle == 6 * (k + 1)
    ensures cs[DOT_COUNT] == Arc(minute)
  {
    DotsShape(minute, DOT_COUNT);
    Dots(minute, DOT_COUNT) + [Arc(minute)]
  }

  /** Number of commands in `cs` drawn in colour `c`. */
  function CountColor(cs: seq<DrawCommand>, c: Color): (n: nat)
    ensures n <= |cs|
  {
    if |cs| == 0 then 0
    else CountColor(cs[..|cs| - 1], c) + (if cs[|cs| - 1].color == c then 1 else 0)
  }

  /** The canvas update: fold the stored hour, draw dots 1..60 in ascending
      order, then the progress arc. */
  method LayerUpdate(st: FaceState) returns (st': FaceState, cmds: seq<DrawCommand>)
    requires AngleDefined(st.minutes)
    ensures st'.minutes == st.minutes
    ensures st'.hours == FoldHour(st.hours)
    ensures cmds == FaceCommands(st.minutes)
  {
    st' := st.(hours := FoldHour(st.hours));
    cmds := [];
    var i := 1;
    while i <= DOT_COUNT
      invariant 1 <= i <= DOT_COUNT + 1
      invariant cmds == Dots(st.minutes, i - 1)
    {
      var angle := AngleForMinutes(i);
      var color := if i <= Bucket(st.minutes) || i > st.minutes then Clear else Accent;
      cmds := cmds + [Dot(angle, DOT_INSET, DOT_RADIUS, color)];
      i := i + 1;
    }
    var sweep := IncrementAngle(st.minutes);
    cmds := cmds + [Radial(ARC_INSET, ARC_THICKNESS, 0, sweep, Main)];
  }

  /** Over a clock minute the arc sweep never shrinks as the minute grows. */
  lemma IncrementAngleMonotone(m1: int, m2: int)
    requires 0 <= m1 <= m2 <= 59
    ensures IncrementAngle(m1) <= IncrementAngle(m2)
  {
    var b1, b2 := Bucket(m1), Bucket(m2);
    assert b1 / 5 <= b2 / 5 by {
      assert b1 <= m2 < b2 + 5;
    }
  }

  /** Entry k of the first n dots is the dot for position k + 1. */
  lemma {:induction false} DotsShape(minute: int, n: nat)
    requires n <= DOT_COUNT
    ensures forall k :: 0 <= k < n ==> Dots(minute, n)[k] == DotAt(k + 1, minute)
  {
    if n > 0 {
      DotsShape(minute, n - 1);
    }
  }

  /** One redraw emits 60 dots at 6, 12, ..., 360 degrees in strictly
      ascending order, then a single arc. */
  lemma DotRingLayout(minute: int)
    requires AngleDefined(minute)
    ensures |FaceCommands(minute)| == DOT_COUNT + 1
    ensures forall k :: 0 <= k < DOT_COUNT ==>
      FaceCommands(minute)[k].Dot? && FaceCommands(minute)[k].angle == 6 * (k + 1)
    ensures forall j, k :: 0 <= j < k < DOT_COUNT ==>
      FaceCommands(minute)[j].angle < FaceCommands(minute)[k].angle
    ensures forall k :: 0 <= k < DOT_COUNT ==> 6 <= FaceCommands(minute)[k].angle <= 360
    ensures FaceCommands(minute)[DOT_COUNT].Radial?
  {
    DotsShape(minute, DOT_COUNT);
  }

  /** The arc is always the main colour, thickness 6, from 0 degrees to the
      sweep of the current 5-minute block; the dot colours play no part. */
  lemma ArcCommand(minute: int)
    requires 0 <= minute <= 59
    ensures FaceCommands(minute)[DOT_COUNT]
         == Radial(ARC_INSET, ARC_THICKNESS, 0, 30 * (minute / 5), Main)
  {
  }

  /** Accent dots among positions 1..n: those in (bucket, minute]. */
  lemma {:induction false} AccentPrefixCount(minute: int, n: nat)
    requires 0 <= minute <= 59
    requires n <= DOT_COUNT
    ensures CountColor(Dots(minute, n), Accent)
         == (if n <= Bucket(minute) then 0
             else if n <= minute then n - Bucket(minute)
             else minute - Bucket(minute))
  {
    if n > 0 {
      AccentPrefixCount(minute, n - 1);
      var ds := Dots(minute, n);
      assert ds == Dots(minute, n - 1) + [DotAt(n, minute)];
      assert ds[..|ds| - 1] == Dots(minute, n - 1);
      assert CountColor(ds, Accent) == CountColor(Dots(minute, n - 1), Accent)
        + (if DotColor(n, minute) == Accent then 1 else 0);
    }
  }

  /** Exactly `minute % 5` dots are accent (so at most 4, and none on a
      5-minute boundary); every other dot is transparent. */
  lemma AccentDotCount(minute: int)
    requires 0 <= minute <= 59
    ensures CountColor(Dots(minute, DOT_COUNT), Accent) == minute % 5
    ensures CountColor(Dots(minute, DOT_COUNT), Clear) == DOT_COUNT - minute % 5
    ensures CountColor(FaceCommands(minute), Accent) == minute % 5 <= 4
    ensures minute % 5 == 0 ==> CountColor(FaceCommands(minute), Accent) == 0
  {
    AccentPrefixCount(minute, DOT_COUNT);
    ClearComplement(minute, DOT_COUNT);
    var fc := FaceCommands(minute);
    assert fc[..|fc| - 1] == Dots(minute, DOT_COUNT);
  }

  /** Every dot is either accent or transparent. */
  lemma {:induction false} ClearComplement(minute: int, n: nat)
    requires n <= DOT_COUNT
    ensures CountColor(Dots(minute, n), Clear) + CountColor(Dots(minute, n), Accent) == n
  {
    if n > 0 {
      ClearComplement(minute, n - 1);
      var ds := Dots(minute, n);
      assert ds[..|ds| - 1] == Dots(minute, n - 1);
    }
  }

  /** At 23 minutes the block starts at 20: dots 21, 22 and 23 are accent,
      the other 57 are transparent. */
  lemma DotsAtMinute23()
    ensures forall i :: 1 <= i <= 60 ==> (DotColor(i, 23) == Accent <==> 21 <= i <= 23)
  {
  }

  /** For a 24-hour value the fold lands in 0..12: 0..12 are kept and
      13..23 become 1..11. */
  lemma FoldHourRange(h: int)
    requires 0 <= h <= 23
    ensures 0 <= FoldHour(h) <= 12
    ensures h <= 12 ==> FoldHour(h) == h
    ensures 13 <= h ==> 1 <= FoldHour(h) <= 11 && FoldHour(h) + 12 == h
  {
  }

  /** Folding is idempotent on every hour the clock can produce, so repeated
      redraws leave the folded global unchanged; it stops being idempotent
      above 24. */
  lemma FoldHourIdempotent(h: int)
    ensures h <= 24 ==> FoldHour(FoldHour(h)) == FoldHour(h)
    ensures h > 24 ==> FoldHour(FoldHour(h)) != FoldHour(h)
  {
  }
}
