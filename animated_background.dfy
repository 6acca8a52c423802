/**
 * The decorative particle field drawn behind the landing area
 * (src/components/shared/AnimatedBackground.tsx).
 *
 * The component keeps an array of particles, rebuilds it whenever the canvas
 * is resized, and on every animation frame moves each particle, reflects its
 * velocity at the canvas border, draws it, and draws a faint line from it to
 * every LATER particle closer than 150 pixels.
 *
 * `Math.random()` is replaced by draws passed in as parameters in [0, 1);
 * `Math.sqrt` is avoided: a line records the squared distance, and the line
 * opacity is a function of the distance `d` whose square that is.
 */
module AnimatedBackground {
  import Theme
  import opened RandomDraws
  import opened RealMath

  // ---------------------------------------------------------------------------
  // hexToRgb: `/^#?([a-f\d]{2})([a-f\d]{2})([a-f\d]{2})$/i`, then three
  // `parseInt(_, 16)` joined by ", ", or "255, 255, 255" when nothing matches.
  // ---------------------------------------------------------------------------

  /** `[a-f\d]` under the `i` flag: ASCII digits and a-f in either case. */
  predicate IsHexDigit(c: char) {
    ('0' <= c <= '9') || ('a' <= c <= 'f') || ('A' <= c <= 'F')
  }

  predicate AllHexDigits(s: string) {
    forall k :: 0 <= k < |s| ==> IsHexDigit(s[k])
  }

  function HexDigitValue(c: char): (v: nat)
    requires IsHexDigit(c)
    ensures v < 16
  {
    if '0' <= c <= '9' then c as int - '0' as int
    else if 'a' <= c <= 'f' then c as int - 'a' as int + 10
    else c as int - 'A' as int + 10
  }

  /** `parseInt(pair, 16)` for a captured pair of hex digits. */
  function ParseHexByte(hi: char, lo: char): (b: nat)
    requires IsHexDigit(hi) && IsHexDigit(lo)
    ensures b < 256
  {
    16 * HexDigitValue(hi) + HexDigitValue(lo)
  }

  function DigitChar(d: nat): (c: char)
    requires d < 10
    ensures '0' <= c <= '9'
  {
    ('0' as int + d) as char
  }

  predicate IsDecimal(s: string) {
    forall k :: 0 <= k < |s| ==> '0' <= s[k] <= '9'
  }

  /** The template literal `${n}` of a non-negative integer: its decimal digits, no leading zero. */
  function DecimalString(n: nat): (s: string)
    ensures |s| >= 1 && IsDecimal(s)
    ensures n > 0 ==> s[0] != '0'
    ensures n < 10 <==> |s| == 1
    decreases n
  {
    if n < 10 then [DigitChar(n)] else DecimalString(n / 10) + [DigitChar(n % 10)]
  }

  /** Reading a string of decimal digits back as a number. */
  function DecimalValue(s: string): nat
    requires IsDecimal(s)
    decreases |s|
  {
    if s == [] then 0 else 10 * DecimalValue(s[..|s| - 1]) + (s[|s| - 1] as int - '0' as int)
  }

  /** Printing a number in decimal loses nothing: reading the digits back gives the number. */
  lemma {:induction false} DecimalRoundTrip(n: nat)
    ensures DecimalValue(DecimalString(n)) == n
  {
    if n >= 10 {
      DecimalRoundTrip(n / 10);
      var s := DecimalString(n);
      assert s[..|s| - 1] == DecimalString(n / 10);
    }
  }

  function FormatRgb(r: nat, g: nat, b: nat): string {
    DecimalString(r) + ", " + DecimalString(g) + ", " + DecimalString(b)
  }

  const White: string := "255, 255, 255"

  /** Drops the optional leading `#` of the pattern. */
  function StripHash(hex: string): string {
    if |hex| > 0 && hex[0] == '#' then hex[1..] else hex
  }

  function HexToRgb(hex: string): (rgb: string) {
    var d := StripHash(hex);
    if |d| == 6 && AllHexDigits(d) then
      FormatRgb(ParseHexByte(d[0], d[1]), ParseHexByte(d[2], d[3]), ParseHexByte(d[4], d[5]))
    else
      White
  }

  /**
   * The strings the anchored pattern accepts: six hex digits, or `#` and six hex
   * digits. In both cases the three captures are the last six characters.
   */
  predicate MatchesColourPattern(hex: string) {
    || (|hex| == 6 && AllHexDigits(hex))
    || (|hex| == 7 && hex[0] == '#' && AllHexDigits(hex[1..]))
  }

  /** hexToRgb returns the three captured bytes in decimal on a match, and white on anything else. */
  lemma HexToRgbSpec(hex: string)
    ensures MatchesColourPattern(hex) ==>
      var n := |hex|;
      IsHexDigit(hex[n - 6]) && IsHexDigit(hex[n - 5]) && IsHexDigit(hex[n - 4]) &&
      IsHexDigit(hex[n - 3]) && IsHexDigit(hex[n - 2]) && IsHexDigit(hex[n - 1]) &&
      HexToRgb(hex) == FormatRgb(ParseHexByte(hex[n - 6], hex[n - 5]),
                                 ParseHexByte(hex[n - 4], hex[n - 3]),
                                 ParseHexByte(hex[n - 2], hex[n - 1]))
    ensures !MatchesColourPattern(hex) ==> HexToRgb(hex) == White
  {
    if MatchesColourPattern(hex) {
      var n := |hex|;
      var d := StripHash(hex);
      assert forall k :: 0 <= k < 6 ==> d[k] == hex[n - 6 + k];
    }
  }

  /** A hex digit for a value below 16, in lower or upper case. */
  function HexDigit(v: nat, upper: bool): (c: char)
    requires v < 16
    ensures IsHexDigit(c) && HexDigitValue(c) == v
  {
    if v < 10 then ('0' as int + v) as char
    else if upper then ('A' as int + v - 10) as char
    else ('a' as int + v - 10) as char
  }

  /** A CSS colour code for three bytes, with or without `#`, in either case. */
  function ColourCode(r: nat, g: nat, b: nat, upper: bool, hash: bool): string
    requires r < 256 && g < 256 && b < 256
  {
    (if hash then "#" else "") +
    [HexDigit(r / 16, upper), HexDigit(r % 16, upper),
     HexDigit(g / 16, upper), HexDigit(g % 16, upper),
     HexDigit(b / 16, upper), HexDigit(b % 16, upper)]
  }

  /** Every colour code is accepted and decodes to the bytes it was written from. */
  lemma ColourCodeRoundTrip(r: nat, g: nat, b: nat, upper: bool, hash: bool)
    requires r < 256 && g < 256 && b < 256
    ensures MatchesColourPattern(ColourCode(r, g, b, upper, hash))
    ensures HexToRgb(ColourCode(r, g, b, upper, hash)) == FormatRgb(r, g, b)
  {
    var code := ColourCode(r, g, b, upper, hash);
    var d := StripHash(code);
    var six := [HexDigit(r / 16, upper), HexDigit(r % 16, upper),
                HexDigit(g / 16, upper), HexDigit(g % 16, upper),
                HexDigit(b / 16, upper), HexDigit(b % 16, upper)];
    assert d == six;
    assert ParseHexByte(six[0], six[1]) == r;
    assert ParseHexByte(six[2], six[3]) == g;
    assert ParseHexByte(six[4], six[5]) == b;
  }

  /** The default particle colour parses to its three bytes. */
  lemma HighlightColourParses()
    ensures HexToRgb(Theme.Highlight) == "205, 133, 63"
  {
    assert StripHash(Theme.Highlight) == "CD853F";
    assert ParseHexByte('C', 'D') == 205;
    assert ParseHexByte('8', '5') == 133;
    assert ParseHexByte('3', 'F') == 63;
    assert DecimalString(205) == "205";
    assert DecimalString(133) == "133";
    assert DecimalString(63) == "63";
  }

  /** The eight-digit colour with alpha and the three-digit shorthand both fall back to white. */
  lemma ShortAndLongCodesFallBack()
    ensures HexToRgb(Theme.LightText) == White
    ensures HexToRgb("#fff") == White
  {
    assert |StripHash(Theme.LightText)| == 8;
    assert |StripHash("#fff")| == 3;
  }

  // ---------------------------------------------------------------------------
  // Particles
  // ---------------------------------------------------------------------------

  datatype Particle = Particle(x: real, y: real, radius: real, color: string,
                               speedX: real, speedY: real, alpha: real)

  /** The six `Math.random()` results one particle consumes, in the order the source draws them. */
  datatype ParticleDraws = ParticleDraws(x: real, y: real, radius: real,
                                         speedX: real, speedY: real, alpha: real)

  predicate ValidDraws(d: ParticleDraws) {
    IsUnitDraw(d.x) && IsUnitDraw(d.y) && IsUnitDraw(d.radius) &&
    IsUnitDraw(d.speedX) && IsUnitDraw(d.speedY) && IsUnitDraw(d.alpha)
  }

  const DefaultParticleCount: int := 70
  const DefaultParticleColor: string := Theme.Highlight
  /** The canvas' CSS opacity; it does not enter the particle logic. */
  const DefaultOpacity: real := 0.3
  const MaxSpeed: real := 0.25
  const MaxDistance: real := 150.0
  const LineAlphaScale: real := 0.15

  /** The number of iterations of `for (let i = 0; i < particleCount; i++)`. */
  function ParticleTotal(particleCount: int): nat {
    if particleCount < 0 then 0 else particleCount
  }

  function NewParticle(d: ParticleDraws, width: nat, height: nat, color: string): Particle {
    Particle(d.x * (width as real), d.y * (height as real), d.radius * 2.0 + 1.0, color,
             d.speedX * 0.5 - 0.25, d.speedY * 0.5 - 0.25, d.alpha * 0.5 + 0.2)
  }

  /** With draws in [0, 1), a fresh particle starts inside the canvas with speeds and looks in their ranges. */
  lemma NewParticleRanges(d: ParticleDraws, width: nat, height: nat, color: string)
    requires ValidDraws(d)
    ensures var p := NewParticle(d, width, height, color);
      && 0.0 <= p.x <= width as real && (width > 0 ==> p.x < width as real)
      && 0.0 <= p.y <= height as real && (height > 0 ==> p.y < height as real)
      && 1.0 <= p.radius < 3.0
      && -MaxSpeed <= p.speedX < MaxSpeed && -MaxSpeed <= p.speedY < MaxSpeed
      && 0.2 <= p.alpha < 0.7
      && p.color == color
  {
    var p := NewParticle(d, width, height, color);
    assert p.x == d.x * (width as real) && p.y == d.y * (height as real);
    UnitScaleBelow(d.x, width as real, p.x);
    UnitScaleBelow(d.y, height as real, p.y);
  }

  /** One frame of the physics for one particle: move, then flip a speed whose coordinate left the canvas. */
  function Step(p: Particle, width: nat, height: nat): Particle {
    var x := p.x + p.speedX;
    var y := p.y + p.speedY;
    p.(x := x, y := y,
       speedX := if x < 0.0 || x > width as real then -p.speedX else p.speedX,
       speedY := if y < 0.0 || y > height as real then -p.speedY else p.speedY)
  }

  /**
   * A step adds the speed to the position without clamping it, flips a nonzero
   * speed exactly when the new coordinate is outside [0, bound], keeps both
   * speed magnitudes, and leaves radius, alpha and colour alone.
   */
  lemma StepMovesAndReflects(p: Particle, width: nat, height: nat)
    ensures var q := Step(p, width, height);
      && q.x == p.x + p.speedX && q.y == p.y + p.speedY
      && (p.speedX != 0.0 ==> (q.speedX == -p.speedX <==> q.x < 0.0 || q.x > width as real))
      && (p.speedY != 0.0 ==> (q.speedY == -p.speedY <==> q.y < 0.0 || q.y > height as real))
      && Abs(q.speedX) == Abs(p.speedX) && Abs(q.speedY) == Abs(p.speedY)
      && q.radius == p.radius && q.alpha == p.alpha && q.color == p.color
  {
  }

  /**
   * Where a coordinate can be: at most one speed step outside [0, bound], and
   * when it is outside, its speed already points back in. Reflection does not
   * clamp, so this, and not "inside [0, bound]", is what the animation keeps.
   */
  predicate NearAxis(pos: real, speed: real, bound: real) {
    && -Abs(speed) <= pos <= bound + Abs(speed)
    && (pos < 0.0 ==> speed > 0.0)
    && (pos > bound ==> speed < 0.0)
  }

  predicate InField(p: Particle, width: nat, height: nat, color: string) {
    && p.color == color
    && 1.0 <= p.radius < 3.0 && 0.2 <= p.alpha < 0.7
    && -MaxSpeed <= p.speedX <= MaxSpeed && -MaxSpeed <= p.speedY <= MaxSpeed
    && NearAxis(p.x, p.speedX, width as real) && NearAxis(p.y, p.speedY, height as real)
  }

  lemma NearAxisStep(pos: real, speed: real, bound: real)
    requires bound >= 0.0 && NearAxis(pos, speed, bound)
    ensures var next := pos + speed;
      NearAxis(next, if next < 0.0 || next > bound then -speed else speed, bound)
  {
  }

  /** A step keeps every particle near the canvas, with its speeds, radius, alpha and colour in range. */
  lemma StepKeepsInField(p: Particle, width: nat, height: nat, color: string)
    requires InField(p, width, height, color)
    ensures InField(Step(p, width, height), width, height, color)
  {
    NearAxisStep(p.x, p.speedX, width as real);
    NearAxisStep(p.y, p.speedY, height as real);
  }

  lemma NewParticleInField(d: ParticleDraws, width: nat, height: nat, color: string)
    requires ValidDraws(d)
    ensures InField(NewParticle(d, width, height, color), width, height, color)
  {
    NewParticleRanges(d, width, height, color);
  }

  /** The particle can leave the canvas for a frame: x = 0 moving left ends at -0.25 with its speed flipped. */
  lemma OvershootsForOneFrame()
    ensures var a := Particle(0.0, 50.0, 1.0, Theme.Highlight, -0.25, 0.0, 0.5);
      Step(a, 100, 100) == a.(x := -0.25, speedX := 0.25)
    ensures var b := Particle(100.0, 50.0, 1.0, Theme.Highlight, 0.25, 0.0, 0.5);
      Step(b, 100, 100) == b.(x := 100.25, speedX := -0.25)
  {
  }

  // ---------------------------------------------------------------------------
  // Drawing: circles and connection lines
  // ---------------------------------------------------------------------------

  /** A filled circle; its fill style is `rgba(HexToRgb(color), alpha)`. */
  datatype Circle = Circle(x: real, y: real, radius: real, color: string, alpha: real)

  /**
   * A connection from particle `first` to particle `second`, half a pixel wide;
   * its stroke style is `rgba(HexToRgb(color), StrokeAlpha(d))` for the
   * distance `d`, the square root of `distanceSq`.
   */
  datatype Line = Line(first: nat, second: nat, fromX: real, fromY: real,
                       toX: real, toY: real, distanceSq: real, color: string)

  function CircleOf(p: Particle): Circle {
    Circle(p.x, p.y, p.radius, p.color, p.alpha)
  }

  function DistanceSq(p: Particle, q: Particle): real {
    (p.x - q.x) * (p.x - q.x) + (p.y - q.y) * (p.y - q.y)
  }

  /** `distance < maxDistance`, stated on the squared distance. */
  predicate Close(p: Particle, q: Particle) {
    DistanceSq(p, q) < MaxDistance * MaxDistance
  }

  function MakeLine(p: Particle, i: nat, q: Particle, j: nat): Line {
    Line(i, j, p.x, p.y, q.x, q.y, DistanceSq(p, q), p.color)
  }

  /** `(1 - distance / maxDistance) * 0.15` */
  function StrokeAlpha(d: real): real {
    (1.0 - d / MaxDistance) * LineAlphaScale
  }

  /** Comparing squares is comparing distances, and a connected pair gets an alpha in (0, 0.15]. */
  lemma DistanceThreshold(d: real, sq: real)
    requires d >= 0.0 && d * d == sq
    ensures sq < MaxDistance * MaxDistance <==> d < MaxDistance
    ensures d < MaxDistance ==> 0.0 < StrokeAlpha(d) <= LineAlphaScale
  {
    if d >= MaxDistance {
      assert d * d >= MaxDistance * d by { ProductNonNegative(d - MaxDistance, d); }
      assert MaxDistance * d >= MaxDistance * MaxDistance;
    } else {
      assert d * d <= MaxDistance * d by { ProductNonNegative(MaxDistance - d, d); }
      assert MaxDistance * d < MaxDistance * MaxDistance;
      assert 0.0 <= d / MaxDistance < 1.0;
    }
  }

  /** Two particles 100 apart are connected with alpha 0.05. */
  lemma HundredApartAlpha()
    ensures StrokeAlpha(100.0) == 0.05
  {
  }

  /**
   * The lines from particle `p` (index `i`) to the particles `later`, which sit
   * at indices `j`, `j + 1`, ...: the inner `for (let j = index + 1; ...)` loop.
   */
  function Connections(p: Particle, i: nat, later: seq<Particle>, j: nat): seq<Line>
    decreases |later|
  {
    if later == [] then []
    else
      var n := |later| - 1;
      Connections(p, i, later[..n], j) + (if Close(p, later[n]) then [MakeLine(p, i, later[n], j + n)] else [])
  }

  /** Connections draws lines only to close particles of `later`, labelled with their index. */
  lemma {:induction false} ConnectionsSound(p: Particle, i: nat, later: seq<Particle>, j: nat)
    ensures forall l :: l in Connections(p, i, later, j) ==>
      j <= l.second < j + |later| && Close(p, later[l.second - j]) &&
      l == MakeLine(p, i, later[l.second - j], l.second)
    decreases |later|
  {
    if later != [] {
      var n := |later| - 1;
      ConnectionsSound(p, i, later[..n], j);
      forall l | l in Connections(p, i, later, j)
        ensures j <= l.second < j + |later| && Close(p, later[l.second - j])
        ensures l == MakeLine(p, i, later[l.second - j], l.second)
      {
        if l in Connections(p, i, later[..n], j) {
          assert later[..n][l.second - j] == later[l.second - j];
        }
      }
    }
  }

  /** Connections draws a line to every close particle of `later`. */
  lemma {:induction false} ConnectionsComplete(p: Particle, i: nat, later: seq<Particle>, j: nat)
    ensures forall k :: 0 <= k < |later| && Close(p, later[k]) ==>
      MakeLine(p, i, later[k], j + k) in Connections(p, i, later, j)
    decreases |later|
  {
    if later != [] {
      var n := |later| - 1;
      ConnectionsComplete(p, i, later[..n], j);
      forall k | 0 <= k < |later| && Close(p, later[k])
        ensures MakeLine(p, i, later[k], j + k) in Connections(p, i, later, j)
      {
        if k < n {
          assert later[..n][k] == later[k];
        }
      }
    }
  }

  /** Every line of Connections starts at `i` and ends at an index of `later`. */
  lemma {:induction false} ConnectionsLabels(p: Particle, i: nat, later: seq<Particle>, j: nat)
    ensures forall a :: 0 <= a < |Connections(p, i, later, j)| ==>
      Connections(p, i, later, j)[a].first == i && j <= Connections(p, i, later, j)[a].second < j + |later|
    decreases |later|
  {
    if later != [] {
      var n := |later| - 1;
      ConnectionsLabels(p, i, later[..n], j);
      var front := Connections(p, i, later[..n], j);
      var tail := if Close(p, later[n]) then [MakeLine(p, i, later[n], j + n)] else [];
      var ls := Connections(p, i, later, j);
      assert ls == front + tail;
      forall a | 0 <= a < |ls| ensures ls[a].first == i && j <= ls[a].second < j + |later| {
        if a < |front| {
          assert ls[a] == front[a];
        } else {
          assert ls[a] == tail[a - |front|];
        }
      }
    }
  }

  /** Connections lists its lines in strictly increasing index order, so no particle is joined twice. */
  lemma {:induction false} ConnectionsOrdered(p: Particle, i: nat, later: seq<Particle>, j: nat)
    ensures forall a, b :: 0 <= a < b < |Connections(p, i, later, j)| ==>
      Connections(p, i, later, j)[a].second < Connections(p, i, later, j)[b].second
    decreases |later|
  {
    if later != [] {
      var n := |later| - 1;
      ConnectionsOrdered(p, i, later[..n], j);
      ConnectionsLabels(p, i, later[..n], j);
      var front := Connections(p, i, later[..n], j);
      var ls := Connections(p, i, later, j);
      var tail := if Close(p, later[n]) then [MakeLine(p, i, later[n], j + n)] else [];
      assert ls == front + tail;
      forall a, b | 0 <= a < b < |ls| ensures ls[a].second < ls[b].second {
        assert ls[a] == front[a];
        if b < |front| {
          assert ls[b] == front[b];
        } else {
          assert ls[b] == tail[b - |front|];
        }
      }
    }
  }

  /**
   * The lines drawn during the first `n` iterations of one frame: particle i
   * has already been moved when it is compared, the later particles have not.
   */
  function FrameLinesUpTo(before: seq<Particle>, width: nat, height: nat, n: nat): seq<Line>
    requires n <= |before|
    decreases n
  {
    if n == 0 then []
    else FrameLinesUpTo(before, width, height, n - 1) +
         Connections(Step(before[n - 1], width, height), n - 1, before[n..], n)
  }

  function FrameLines(before: seq<Particle>, width: nat, height: nat): seq<Line> {
    FrameLinesUpTo(before, width, height, |before|)
  }

  /**
   * Every line of a frame joins a moved particle i to a close, not yet moved
   * particle j with i < j.
   */
  lemma {:induction false} FrameLinesSound(before: seq<Particle>, width: nat, height: nat, n: nat)
    requires n <= |before|
    ensures forall l :: l in FrameLinesUpTo(before, width, height, n) ==>
      l.first < n && l.first < l.second < |before| &&
      Close(Step(before[l.first], width, height), before[l.second]) &&
      l == MakeLine(Step(before[l.first], width, height), l.first, before[l.second], l.second)
    decreases n
  {
    if n > 0 {
      FrameLinesSound(before, width, height, n - 1);
      var p := Step(before[n - 1], width, height);
      var later := before[n..];
      ConnectionsSound(p, n - 1, later, n);
      var front := FrameLinesUpTo(before, width, height, n - 1);
      forall l | l in FrameLinesUpTo(before, width, height, n)
        ensures l.first < n && l.first < l.second < |before|
        ensures Close(Step(before[l.first], width, height), before[l.second])
        ensures l == MakeLine(Step(before[l.first], width, height), l.first, before[l.second], l.second)
      {
        if l !in front {
          assert l in Connections(p, n - 1, later, n);
          assert later[l.second - n] == before[l.second];
        }
      }
    }
  }

  /** Every pair i < j whose moved i is close to the unmoved j gets its line in the frame. */
  lemma {:induction false} FrameLinesComplete(before: seq<Particle>, width: nat, height: nat, n: nat)
    requires n <= |before|
    ensures forall i, j :: 0 <= i < n && i < j < |before| && Close(Step(before[i], width, height), before[j]) ==>
      MakeLine(Step(before[i], width, height), i, before[j], j) in FrameLinesUpTo(before, width, height, n)
    decreases n
  {
    if n > 0 {
      FrameLinesComplete(before, width, height, n - 1);
      var p := Step(before[n - 1], width, height);
      var later := before[n..];
      ConnectionsComplete(p, n - 1, later, n);
      forall i, j | 0 <= i < n && i < j < |before| && Close(Step(before[i], width, height), before[j])
        ensures MakeLine(Step(before[i], width, height), i, before[j], j) in FrameLinesUpTo(before, width, height, n)
      {
        if i == n - 1 {
          assert later[j - n] == before[j];
        }
      }
    }
  }

  /** Every line among the first `n` iterations starts below `n` and ends at a later particle. */
  lemma {:induction false} FrameLinesLabels(before: seq<Particle>, width: nat, height: nat, n: nat)
    requires n <= |before|
    ensures forall a :: 0 <= a < |FrameLinesUpTo(before, width, height, n)| ==>
      var l := FrameLinesUpTo(before, width, height, n)[a];
      l.first < n && l.first < l.second < |before|
    decreases n
  {
    if n > 0 {
      FrameLinesLabels(before, width, height, n - 1);
      var p := Step(before[n - 1], width, height);
      ConnectionsLabels(p, n - 1, before[n..], n);
      var front := FrameLinesUpTo(before, width, height, n - 1);
      var back := Connections(p, n - 1, before[n..], n);
      var ls := FrameLinesUpTo(before, width, height, n);
      assert ls == front + back;
      forall a | 0 <= a < |ls| ensures ls[a].first < n && ls[a].first < ls[a].second < |before| {
        if a < |front| {
          assert ls[a] == front[a];
        } else {
          assert ls[a] == back[a - |front|];
        }
      }
    }
  }

  /** The lexicographic order on (first, second). */
  predicate LineBefore(l: Line, m: Line) {
    l.first < m.first || (l.first == m.first && l.second < m.second)
  }

  /** A frame lists its lines ordered by (first, second), so each pair is drawn at most once. */
  lemma {:induction false} FrameLinesOrdered(before: seq<Particle>, width: nat, height: nat, n: nat)
    requires n <= |before|
    ensures forall a, b :: 0 <= a < b < |FrameLinesUpTo(before, width, height, n)| ==>
      LineBefore(FrameLinesUpTo(before, width, height, n)[a], FrameLinesUpTo(before, width, height, n)[b])
    decreases n
  {
    if n > 0 {
      FrameLinesOrdered(before, width, height, n - 1);
      FrameLinesLabels(before, width, height, n - 1);
      var p := Step(before[n - 1], width, height);
      var later := before[n..];
      ConnectionsLabels(p, n - 1, later, n);
      ConnectionsOrdered(p, n - 1, later, n);
      var front := FrameLinesUpTo(before, width, height, n - 1);
      var back := Connections(p, n - 1, later, n);
      var ls := FrameLinesUpTo(before, width, height, n);
      assert ls == front + back;
      forall a, b | 0 <= a < b < |ls|
        ensures LineBefore(ls[a], ls[b])
      {
        if b < |front| {
          assert ls[a] == front[a] && ls[b] == front[b];
        } else if a < |front| {
          assert ls[a] == front[a] && ls[b] == back[b - |front|];
        } else {
          assert ls[a] == back[a - |front|] && ls[b] == back[b - |front|];
        }
      }
    }
  }

  /**
   * Two particles 100 apart heading out of a 100 x 100 canvas: the frame joins
   * them with one line, measured from A's NEW position (-0.25, 50) to B's old
   * one (100, 50), so at distance 100.25 and not 100.
   */
  lemma TwoParticleFrame()
    ensures var a := Particle(0.0, 50.0, 1.0, Theme.Highlight, -0.25, 0.0, 0.5);
      var b := Particle(100.0, 50.0, 1.0, Theme.Highlight, 0.25, 0.0, 0.5);
      FrameLines([a, b], 100, 100)
        == [Line(0, 1, -0.25, 50.0, 100.0, 50.0, 100.25 * 100.25, Theme.Highlight)]
  {
    var a := Particle(0.0, 50.0, 1.0, Theme.Highlight, -0.25, 0.0, 0.5);
    var b := Particle(100.0, 50.0, 1.0, Theme.Highlight, 0.25, 0.0, 0.5);
    var before := [a, b];
    var movedA := Step(a, 100, 100);
    assert movedA == a.(x := -0.25, speedX := 0.25);
    assert before[1..] == [b];
    assert [b][..0] == [];
    assert Connections(movedA, 0, [b], 1) == [MakeLine(movedA, 0, b, 1)];
    assert before[2..] == [];
    assert FrameLinesUpTo(before, 100, 100, 1) == [MakeLine(movedA, 0, b, 1)];
  }

  // ---------------------------------------------------------------------------
  // The component: canvas size, configuration and the particle array
  // ---------------------------------------------------------------------------

  class ParticleCanvas {
    var width: nat
    var height: nat
    const particleCount: int
    const particleColor: string
    var particles: seq<Particle>

    /** Every particle is near the canvas, in the configured colour, with speeds, radius and alpha in range. */
    ghost predicate Valid()
      reads this
    {
      forall k :: 0 <= k < |particles| ==> InField(particles[k], width, height, particleColor)
    }

    /** Mounting: the effect sizes the canvas to its element (`handleResize`) and fills it. */
    constructor (particleCount: int, particleColor: string, width: nat, height: nat, draws: seq<ParticleDraws>)
      requires |draws| >= ParticleTotal(particleCount)
      requires forall k :: 0 <= k < |draws| ==> ValidDraws(draws[k])
      ensures Valid()
      ensures this.particleCount == particleCount && this.particleColor == particleColor
      ensures this.width == width && this.height == height
      ensures |particles| == ParticleTotal(particleCount)
      ensures forall k :: 0 <= k < |particles| ==> particles[k] == NewParticle(draws[k], width, height, particleColor)
    {
      this.particleCount := particleCount;
      this.particleColor := particleColor;
      this.width := width;
      this.height := height;
      this.particles := [];
      new;
      InitParticles(draws);
    }

    /** `handleResize`: take the element's new size, then rebuild the whole field. */
    method HandleResize(offsetWidth: nat, offsetHeight: nat, draws: seq<ParticleDraws>)
      requires |draws| >= ParticleTotal(particleCount)
      requires forall k :: 0 <= k < |draws| ==> ValidDraws(draws[k])
      modifies this
      ensures Valid()
      ensures width == offsetWidth && height == offsetHeight
      ensures |particles| == ParticleTotal(particleCount)
      ensures forall k :: 0 <= k < |particles| ==> particles[k] == NewParticle(draws[k], width, height, particleColor)
    {
      width := offsetWidth;
      height := offsetHeight;
      InitParticles(draws);
    }

    /** `initParticles`: discard the old array and push `particleCount` fresh particles (none if it is negative). */
    method InitParticles(draws: seq<ParticleDraws>)
      requires |draws| >= ParticleTotal(particleCount)
      requires forall k :: 0 <= k < |draws| ==> ValidDraws(draws[k])
      modifies this`particles
      ensures Valid()
      ensures |particles| == ParticleTotal(particleCount)
      ensures forall k :: 0 <= k < |particles| ==> particles[k] == NewParticle(draws[k], width, height, particleColor)
    {
      particles := [];
      var i := 0;
      while i < particleCount
        invariant 0 <= i == |particles| <= ParticleTotal(particleCount)
        invariant forall k :: 0 <= k < i ==> particles[k] == NewParticle(draws[k], width, height, particleColor)
        invariant Valid()
      {
        var d := draws[i];
        NewParticleInField(d, width, height, particleColor);
        particles := particles + [Particle(d.x * (width as real), d.y * (height as real), d.radius * 2.0 + 1.0,
                                           particleColor, d.speedX * 0.5 - 0.25, d.speedY * 0.5 - 0.25,
                                           d.alpha * 0.5 + 0.2)];
        i := i + 1;
      }
    }

    /** `connectParticles(particle, index)`: the lines from particle `index` to every later close particle. */
    method ConnectParticles(index: nat) returns (lines: seq<Line>)
      requires index < |particles|
      ensures lines == Connections(particles[index], index, particles[index + 1..], index + 1)
    {
      var particle := particles[index];
      lines := [];
      var j := index + 1;
      while j < |particles|
        invariant index + 1 <= j <= |particles|
        invariant lines == Connections(particle, index, particles[index + 1..j], index + 1)
      {
        var other := particles[j];
        ghost var later := particles[index + 1..j + 1];
        assert later[..|later| - 1] == particles[index + 1..j] && later[|later| - 1] == other;
        assert Connections(particle, index, later, index + 1) ==
          lines + (if Close(particle, other) then [MakeLine(particle, index, other, j)] else []);
        var dx := particle.x - other.x;
        var dy := particle.y - other.y;
        assert dx * dx + dy * dy == DistanceSq(particle, other);
        if dx * dx + dy * dy < MaxDistance * MaxDistance {
          lines := lines + [Line(index, j, particle.x, particle.y, other.x, other.y,
                                 dx * dx + dy * dy, particle.color)];
        }
        j := j + 1;
      }
      assert particles[index + 1..j] == particles[index + 1..];
    }

    /**
     * `drawParticles`: for each particle in order, move it and reflect its
     * speeds, draw it, then draw its connections to the later particles.
     */
    method DrawParticles() returns (circles: seq<Circle>, lines: seq<Line>)
      requires Valid()
      modifies this`particles
      ensures Valid()
      ensures |particles| == |old(particles)|
      ensures forall k :: 0 <= k < |particles| ==> particles[k] == Step(old(particles)[k], width, height)
      ensures |circles| == |particles|
      ensures forall k :: 0 <= k < |circles| ==> circles[k] == CircleOf(particles[k])
      ensures lines == FrameLines(old(particles), width, height)
    {
      ghost var before := particles;
      circles, lines := [], [];
      var index := 0;
      while index < |particles|
        invariant 0 <= index <= |particles| == |before|
        invariant forall k :: 0 <= k < index ==> particles[k] == Step(before[k], width, height)
        invariant forall k :: index <= k < |particles| ==> particles[k] == before[k]
        invariant |circles| == index
        invariant forall k :: 0 <= k < index ==> circles[k] == CircleOf(particles[k])
        invariant lines == FrameLinesUpTo(before, width, height, index)
      {
        var particle := particles[index];
        var x := particle.x + particle.speedX;
        var y := particle.y + particle.speedY;
        var speedX, speedY := particle.speedX, particle.speedY;
        if x < 0.0 || x > width as real {
          speedX := -speedX;
        }
        if y < 0.0 || y > height as real {
          speedY := -speedY;
        }
        particle := particle.(x := x, y := y, speedX := speedX, speedY := speedY);
        assert particle == Step(before[index], width, height);
        particles := particles[index := particle];
        circles := circles + [CircleOf(particle)];
        var connections := ConnectParticles(index);
        assert particles[index + 1..] == before[index + 1..];
        lines := lines + connections;
        index := index + 1;
      }
      forall k | 0 <= k < |particles| ensures InField(particles[k], width, height, particleColor) {
        StepKeepsInField(before[k], width, height, particleColor);
      }
    }
  }
}
