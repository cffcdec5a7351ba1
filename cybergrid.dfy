/**
 * The CyberGrid background: a grid of lines and highlighted intersections
 * drawn from the density and colour props, and a field of drifting motes on
 * top of it, spawned by an accumulated timer and culled when they fade out or
 * fall below the canvas.
 */
module CyberGrid {
  import opened Wrappers
  import opened Draw
  import opened Buffers
  import opened Arith

  datatype GridColor = Blue | Pink | Green | Yellow
  datatype Density = Low | Medium | High

  /** `colorMap`. */
  function ColorHex(c: GridColor): (h: string)
    ensures |h| == 7 && h[0] == '#'
    ensures forall i :: 1 <= i < 7 ==> h[i] in "0123456789ABCDEF"
  {
    match c
    case Blue => "#05D9E8"
    case Pink => "#FF2A6D"
    case Green => "#00FF41"
    case Yellow => "#F9F002"
  }

  /** `densityMap`: the spacing of the grid in canvas pixels. */
  function GridSize(d: Density): (g: nat)
    ensures g > 0
  {
    match d
    case Low => 50
    case Medium => 30
    case High => 20
  }

  /** A denser grid has strictly smaller spacing. */
  lemma DenserIsFiner()
    ensures GridSize(High) < GridSize(Medium) < GridSize(Low)
  {
  }

  // ---------------------------------------------------------------------------
  // Hexadecimal alpha suffixes

  const HexDigits: string := "0123456789abcdef"

  /** One lower-case hexadecimal digit, as `Number.prototype.toString(16)` writes it. */
  function HexDigit(n: nat): (c: char)
    requires n < 16
    ensures c in HexDigits
  {
    if n < 10 then ('0' as int + n) as char else ('a' as int + n - 10) as char
  }

  /** The value of a hexadecimal digit (either case); 0 for any other character. */
  function DigitValue(c: char): (v: nat)
    ensures v < 16
  {
    if '0' <= c <= '9' then c as int - '0' as int
    else if 'a' <= c <= 'f' then c as int - 'a' as int + 10
    else if 'A' <= c <= 'F' then c as int - 'A' as int + 10
    else 0
  }

  /** `n.toString(16)` for a non-negative integer: no leading zeros, "0" for zero. */
  function Hex(n: nat): (s: string)
    ensures 1 <= |s|
    ensures forall c :: c in s ==> c in HexDigits
    ensures n >= 16 ==> s[0] != '0'
  {
    if n < 16 then [HexDigit(n)] else Hex(n / 16) + [HexDigit(n % 16)]
  }

  /** The value of a string of hexadecimal digits, most significant first. */
  function ParseHex(s: string): nat
  {
    if s == [] then 0 else ParseHex(s[..|s| - 1]) * 16 + DigitValue(s[|s| - 1])
  }

  /** `Hex` is inverted by `ParseHex`. */
  lemma {:induction false} HexRoundTrip(n: nat)
    ensures ParseHex(Hex(n)) == n
  {
    if n < 16 {
      assert Hex(n)[..0] == [];
    } else {
      var s := Hex(n);
      assert s[..|s| - 1] == Hex(n / 16);
      HexRoundTrip(n / 16);
    }
  }

  /** `String.prototype.padStart(n, c)`. */
  function PadStart(s: string, n: nat, c: char): (r: string)
    ensures |r| == if |s| >= n then |s| else n
    ensures r[|r| - |s|..] == s
    ensures forall i :: 0 <= i < |r| - |s| ==> r[i] == c
  {
    if |s| >= n then s else seq(n - |s|, _ => c) + s
  }

  /** The two-digit alpha suffix of a mote's colour: `Math.floor(life * 255)` in hex, padded. */
  function AlphaSuffix(life: real): string
    requires 0.0 <= life
  {
    var v := (life * 255.0).Floor;
    PadStart(Hex(v), 2, '0')
  }

  /** A mote's `fillStyle`: the colour followed by its alpha byte. */
  function MoteFill(c: GridColor, life: real): string
    requires 0.0 <= life
  {
    ColorHex(c) + AlphaSuffix(life)
  }

  /** A life in (0, 1] gives an alpha value from 0 to 255. */
  lemma AlphaInRange(life: real)
    requires 0.0 < life <= 1.0
    ensures 0 <= (life * 255.0).Floor <= 255
  {
    var x := life * 255.0;
    FloorLess(x, 256.0);
  }

  /** A byte written in hex and padded to two digits reads back as itself. */
  lemma ByteSuffix(v: nat)
    requires v <= 255
    ensures |PadStart(Hex(v), 2, '0')| == 2
    ensures ParseHex(PadStart(Hex(v), 2, '0')) == v
    ensures forall ch :: ch in PadStart(Hex(v), 2, '0') ==> ch in HexDigits
  {
    if v < 16 {
      assert PadStart(Hex(v), 2, '0') == ['0', HexDigit(v)];
      assert ['0', HexDigit(v)][..1] == ['0'];
      assert ['0'][..0] == [];
    } else {
      var q, r := v / 16, v % 16;
      assert v == q * 16 + r && q < 16;
      assert Hex(v) == Hex(q) + [HexDigit(r)];
      assert Hex(q) == [HexDigit(q)];
      HexRoundTrip(v);
    }
  }

  /**
   * For a live mote (life in (0, 1]) the fill is a nine-character `#rrggbbaa`
   * colour whose alpha byte is `Math.floor(life * 255)`.
   */
  lemma MoteFillIsRgba(c: GridColor, life: real)
    requires 0.0 < life <= 1.0
    ensures |MoteFill(c, life)| == 9
    ensures MoteFill(c, life)[..7] == ColorHex(c)
    ensures ParseHex(MoteFill(c, life)[7..]) == (life * 255.0).Floor <= 255
    ensures forall ch :: ch in MoteFill(c, life)[7..] ==> ch in HexDigits
  {
    AlphaInRange(life);
    ByteSuffix((life * 255.0).Floor);
    var f := MoteFill(c, life);
    assert f[..7] == ColorHex(c) && f[7..] == AlphaSuffix(life);
  }

  /** The stroke colour of the grid lines: the colour with alpha byte 0x33, one fifth of 0xff. */
  function StrokeStyle(c: GridColor): (s: string)
    ensures |s| == 9 && s[..7] == ColorHex(c)
    ensures ParseHex(s[7..]) * 5 == 255
  {
    var s := ColorHex(c) + "33";
    assert s[7..] == "33" && "33"[..1] == "3" && "3"[..0] == [];
    s
  }

  // ---------------------------------------------------------------------------
  // drawGrid

  /** The offsets `0, g, 2g, ...` up to and including `extent`, in drawing order. */
  method GridLines(extent: nat, g: nat) returns (lines: seq<nat>)
    requires g > 0
    ensures |lines| == extent / g + 1
    ensures forall i :: 0 <= i < |lines| ==> lines[i] == i * g
    ensures forall i :: 0 <= i < |lines| ==> lines[i] <= extent
  {
    lines := [];
    var x: nat := 0;
    while x <= extent
      invariant x == |lines| * g
      invariant |lines| <= extent / g + 1
      invariant forall i :: 0 <= i < |lines| ==> lines[i] == i * g && lines[i] <= extent
      decreases extent + 1 - x
    {
      DivBounds(extent, g, |lines|);
      lines := lines + [x];
      x := x + g;
    }
    DivExact(extent, g, |lines|);
  }

  /** A multiple `k * g` at most `extent` has `k <= extent / g`. */
  lemma DivBounds(extent: nat, g: nat, k: nat)
    requires g > 0 && k * g <= extent
    ensures k + 1 <= extent / g + 1
  {
    var q, r := extent / g, extent % g;
    assert extent == q * g + r && r < g;
    assert (q + 1) * g == q * g + g;
    MulCancel(k, q + 1, g);
  }

  /** The loop stops at the first multiple of `g` above `extent`. */
  lemma DivExact(extent: nat, g: nat, n: nat)
    requires g > 0 && n * g > extent && n <= extent / g + 1
    ensures n == extent / g + 1
  {
    var q, r := extent / g, extent % g;
    assert extent == q * g + r && r >= 0;
    MulCancel(q, n, g);
  }

  /** `Math.floor(r * (extent / g)) * g`: a random grid line inside the canvas. */
  function Coordinate(r: Unit, extent: nat, g: nat): (c: int)
    requires g > 0
    ensures 0 <= c && c % g == 0
    ensures extent > 0 ==> c < extent
  {
    var m := extent as real / g as real;
    RealDivPos(extent as real, g as real);
    ScaleBelow(r, m);
    var x := r * m;
    FloorLess(x, m);
    var k := x.Floor;
    CellsFit(k, extent, g);
    k * g
  }

  /** An index below `extent / g` (as reals) stays below `extent` once scaled by `g`. */
  lemma CellsFit(k: int, extent: nat, g: nat)
    requires g > 0 && 0 <= k
    requires extent > 0 ==> (k as real) < extent as real / g as real
    ensures extent > 0 ==> k * g < extent
    ensures (k * g) % g == 0
  {
    ModMultiple(k, g);
    if extent > 0 {
      var m := extent as real / g as real;
      RealDivPos(extent as real, g as real);
      RealMulLess(k as real, m, g as real);
      assert (k * g) as real == (k as real) * (g as real);
    }
  }

  /** `Math.floor((width * height) / (gridSize * gridSize * 10))`. */
  function HighlightCount(width: nat, height: nat, g: nat): (n: nat)
    requires g > 0
    ensures n * (g * g * 10) <= width * height < (n + 1) * (g * g * 10)
    ensures n > 0 ==> width > 0 && height > 0
  {
    var cells := g * g * 10;
    var area := width * height;
    assert cells >= 10 by {
      assert g * g >= 1;
    }
    DivFloor(area, cells);
    assert width == 0 || height == 0 ==> area == 0;
    area / cells
  }

  /** The draws one highlighted point consumes: its two coordinates, the glow test and the glow radius. */
  datatype HighlightDraw = HighlightDraw(rx: Unit, ry: Unit, rglow: Unit, rradius: Unit)

  /** A highlighted intersection, with the radius of its glow when it has one. */
  datatype Highlight = Highlight(x: int, y: int, glow: Option<real>)

  /** One highlighted point: on a grid intersection inside the canvas, glowing three times in ten. */
  function HighlightAt(d: HighlightDraw, width: nat, height: nat, g: nat): (h: Highlight)
    requires g > 0
    ensures 0 <= h.x && h.x % g == 0 && (width > 0 ==> h.x < width)
    ensures 0 <= h.y && h.y % g == 0 && (height > 0 ==> h.y < height)
    ensures h.glow.Some? <==> d.rglow > 0.7
    ensures h.glow.Some? ==> 3.0 <= h.glow.value < 6.0
  {
    Highlight(Coordinate(d.rx, width, g), Coordinate(d.ry, height, g),
              if d.rglow > 0.7 then Some(3.0 + d.rradius * 3.0) else None)
  }

  /** The highlight loop of `drawGrid`. */
  method HighlightPoints(width: nat, height: nat, g: nat, draws: seq<HighlightDraw>) returns (points: seq<Highlight>)
    requires g > 0 && HighlightCount(width, height, g) <= |draws|
    ensures |points| == HighlightCount(width, height, g)
    ensures forall i :: 0 <= i < |points| ==> points[i] == HighlightAt(draws[i], width, height, g)
    ensures forall i :: 0 <= i < |points| ==>
              0 <= points[i].x < width && 0 <= points[i].y < height && points[i].x % g == 0 && points[i].y % g == 0
  {
    var n := HighlightCount(width, height, g);
    points := [];
    for i := 0 to n
      invariant |points| == i
      invariant forall j :: 0 <= j < i ==> points[j] == HighlightAt(draws[j], width, height, g)
    {
      var x := Coordinate(draws[i].rx, width, g);
      var y := Coordinate(draws[i].ry, height, g);
      var glow := None;
      if draws[i].rglow > 0.7 {
        glow := Some(3.0 + draws[i].rradius * 3.0);
      }
      points := points + [Highlight(x, y, glow)];
    }
  }

  /** What one `drawGrid` call puts on the canvas. */
  datatype Grid = Grid(stroke: string, vertical: seq<nat>, horizontal: seq<nat>, points: seq<Highlight>, pointFill: string)

  /** `drawGrid` for a canvas of `width` by `height` pixels. */
  method DrawGrid(width: nat, height: nat, color: GridColor, density: Density, draws: seq<HighlightDraw>)
    returns (grid: Grid)
    requires HighlightCount(width, height, GridSize(density)) <= |draws|
    ensures var g := GridSize(density);
            && grid.stroke == StrokeStyle(color) && grid.pointFill == ColorHex(color)
            && |grid.vertical| == width / g + 1 && |grid.horizontal| == height / g + 1
            && (forall i :: 0 <= i < |grid.vertical| ==> grid.vertical[i] == i * g <= width)
            && (forall i :: 0 <= i < |grid.horizontal| ==> grid.horizontal[i] == i * g <= height)
            && |grid.points| == HighlightCount(width, height, g)
            && (forall i :: 0 <= i < |grid.points| ==> grid.points[i] == HighlightAt(draws[i], width, height, g))
  {
    var g := GridSize(density);
    var vertical := GridLines(width, g);
    var horizontal := GridLines(height, g);
    var points := HighlightPoints(width, height, g, draws);
    grid := Grid(StrokeStyle(color), vertical, horizontal, points, ColorHex(color));
  }

  // ---------------------------------------------------------------------------
  // The effect's lifecycle

  /** The effect's registrations: a scheduled animation frame and the resize listener. */
  datatype Lifecycle = Lifecycle(frameScheduled: bool, resizeListening: bool)

  /**
   * Running the effect. The `animate` prop is accepted but never read: inside
   * the effect the name `animate` denotes the frame callback, so the effect's
   * `if (animate)` guard tests a function and always holds. That guard is
   * therefore not a branch here: a frame loop is scheduled whenever the canvas
   * and its context exist.
   */
  function Mount(canvasPresent: bool, contextPresent: bool, animateProp: bool): (s: Lifecycle)
    ensures s.frameScheduled <==> canvasPresent && contextPresent
    ensures s.resizeListening <==> canvasPresent && contextPresent
  {
    if canvasPresent && contextPresent then Lifecycle(true, true) else Lifecycle(false, false)
  }

  /** Whatever the `animate` prop says, the loop runs: `animate={false}` has no effect. */
  lemma AnimatePropIgnored(canvasPresent: bool, contextPresent: bool)
    ensures Mount(canvasPresent, contextPresent, false) == Mount(canvasPresent, contextPresent, true)
    ensures Mount(true, true, false).frameScheduled
  {
  }

  /** The effect's cleanup: cancels the frame and removes the listener. */
  function Cleanup(s: Lifecycle): (t: Lifecycle)
    ensures !t.frameScheduled && !t.resizeListening
  {
    s.(frameScheduled := false, resizeListening := false)
  }

  // ---------------------------------------------------------------------------
  // Drifting motes

  const MaxMotes: nat := 50
  /** Milliseconds of accumulated frame time between spawns. */
  const SpawnInterval: real := 300.0
  /** Life lost per frame. */
  const Fade: real := 0.005

  datatype Mote = Mote(x: real, y: real, size: real, speed: real, life: real)

  /** The four draws a spawned mote consumes. */
  datatype MoteDraw = MoteDraw(rx: Unit, ry: Unit, rsize: Unit, rspeed: Unit)

  /** A new mote anywhere on the canvas, at full life. */
  function CreateMote(d: MoteDraw, width: nat, height: nat): (q: Mote)
    ensures 0.0 <= q.x && (width > 0 ==> q.x < width as real)
    ensures 0.0 <= q.y && (height > 0 ==> q.y < height as real)
    ensures 1.0 <= q.size < 3.0 && 0.2 <= q.speed < 0.7 && q.life == 1.0
  {
    var w, h := width as real, height as real;
    assert 0.0 <= d.rx * w && (width > 0 ==> d.rx * w < w) by {
      ScaleBelow(d.rx, w);
    }
    assert 0.0 <= d.ry * h && (height > 0 ==> d.ry * h < h) by {
      ScaleBelow(d.ry, h);
    }
    Mote(d.rx * w, d.ry * h, d.rsize * 2.0 + 1.0, d.rspeed * 0.5 + 0.2, 1.0)
  }

  /** One frame's update of a mote: it falls by its speed and fades. */
  function Fall(q: Mote): Mote
  {
    q.(y := q.y + q.speed, life := q.life - Fade)
  }

  /** The keep test of the update loop: not faded out and not below the canvas. */
  function Visible(height: nat): Mote -> bool
  {
    (q: Mote) => !(q.life <= 0.0 || q.y > height as real)
  }

  /** The timer step: whether this frame spawns, and the timer afterwards. */
  function Tick(timer: real, delta: real): (r: (bool, real))
    ensures r.0 <==> timer + delta > SpawnInterval
    ensures r.0 ==> r.1 == 0.0
    ensures !r.0 ==> r.1 == timer + delta && r.1 <= SpawnInterval
  {
    var acc := timer + delta;
    if acc > SpawnInterval then (true, 0.0) else (false, acc)
  }

  /** The motes after one frame, given whether the timer fired. */
  function DriftFrame(ps: seq<Mote>, fires: bool, d: MoteDraw, width: nat, height: nat): seq<Mote>
  {
    var spawned := if fires && |ps| < MaxMotes then ps + [CreateMote(d, width, height)] else ps;
    Kept(Mapped(spawned, Fall), Visible(height))
  }

  /** The mote invariant: at most 50, each with positive life at most 1 and its spawn size and speed. */
  predicate MotesBounded(ps: seq<Mote>)
  {
    |ps| <= MaxMotes &&
    forall q :: q in ps ==> 0.0 < q.life <= 1.0 && 1.0 <= q.size < 3.0 && 0.2 <= q.speed < 0.7
  }

  /**
   * A frame keeps the invariant; every survivor lies on or above the bottom
   * edge, and the timer firing at the cap spawns nothing.
   */
  lemma DriftFramePreserves(ps: seq<Mote>, fires: bool, d: MoteDraw, width: nat, height: nat)
    requires MotesBounded(ps)
    ensures MotesBounded(DriftFrame(ps, fires, d, width, height))
    ensures forall q :: q in DriftFrame(ps, fires, d, width, height) ==> q.y <= height as real
    ensures |ps| == MaxMotes ==> |DriftFrame(ps, fires, d, width, height)| <= |ps|
    ensures !fires ==> |DriftFrame(ps, fires, d, width, height)| <= |ps|
  {
    var spawned := if fires && |ps| < MaxMotes then ps + [CreateMote(d, width, height)] else ps;
    var m := Mapped(spawned, Fall);
    KeptMembers(m, Visible(height));
    forall q | q in DriftFrame(ps, fires, d, width, height)
      ensures 0.0 < q.life <= 1.0 && 1.0 <= q.size < 3.0 && 0.2 <= q.speed < 0.7 && q.y <= height as real
    {
      assert q in m && Visible(height)(q);
      var k :| 0 <= k < |m| && m[k] == q;
      assert spawned[k] in spawned;
    }
  }

  /** A mote after `k` frames. */
  function Fallen(q: Mote, k: nat): Mote
  {
    if k == 0 then q else Fall(Fallen(q, k - 1))
  }

  /** After `k` frames a mote has fallen `k` times its speed and lost `k` times 0.005 of its life. */
  lemma {:induction false} FallenAfter(q: Mote, k: nat)
    ensures Fallen(q, k).life == q.life - k as real * Fade
    ensures Fallen(q, k).y == q.y + k as real * q.speed
    ensures Fallen(q, k).speed == q.speed
  {
    if k > 0 {
      FallenAfter(q, k - 1);
    }
  }

  /** No mote survives 200 updates, wherever it is. */
  lemma GoneWithinTwoHundredFrames(d: MoteDraw, width: nat, height: nat, k: nat)
    requires k >= 200
    ensures !Visible(height)(Fallen(CreateMote(d, width, height), k))
  {
    FallenAfter(CreateMote(d, width, height), k);
  }

  /** The mote field and the timer state of the frame loop. */
  class DriftField {
    var width: nat
    var height: nat
    var motes: seq<Mote>
    var lastTime: real
    var particleTimer: real

    ghost predicate Valid()
      reads this
    {
      MotesBounded(motes)
    }

    /** The state when the effect starts, after the first `resizeCanvas`. */
    constructor (width: nat, height: nat)
      ensures Valid()
      ensures this.width == width && this.height == height
      ensures motes == [] && lastTime == 0.0 && particleTimer == 0.0
    {
      this.width := width;
      this.height := height;
      motes := [];
      lastTime := 0.0;
      particleTimer := 0.0;
    }

    /** `resizeCanvas`: the new backing-store size; the motes are kept. */
    method Resize(width: nat, height: nat)
      modifies this`width, this`height
      ensures this.width == width && this.height == height
    {
      this.width := width;
      this.height := height;
    }

    /** The update loop of a frame: each mote falls and fades, and is spliced out once gone. */
    method UpdateMotes()
      modifies this`motes
      ensures motes == Kept(Mapped(old(motes), Fall), Visible(height))
    {
      ghost var start := motes;
      assert start[..|start|] == start && start[|start|..] == [];
      for i := |motes| downto 0
        invariant motes == start[..i] + Kept(Mapped(start[i..], Fall), Visible(height))
      {
        PassStep(start, i, motes, Fall, Visible(height));
        var p := motes[i];
        p := p.(y := p.y + p.speed, life := p.life - Fade);
        motes := motes[i := p];
        if p.life <= 0.0 || p.y > height as real {
          motes := motes[..i] + motes[i + 1..];
        }
      }
      assert start[0..] == start;
    }

    /** One frame of the loop at timestamp `time`, minus the drawing. */
    method Animate(time: real, d: MoteDraw)
      requires Valid()
      modifies this`motes, this`lastTime, this`particleTimer
      ensures Valid()
      ensures lastTime == time
      ensures var t := Tick(old(particleTimer), time - old(lastTime));
              particleTimer == t.1 && motes == DriftFrame(old(motes), t.0, d, width, height)
    {
      var deltaTime := time - lastTime;
      lastTime := time;
      ghost var t := Tick(particleTimer, deltaTime);
      ghost var before := motes;
      particleTimer := particleTimer + deltaTime;
      if particleTimer > SpawnInterval {
        particleTimer := 0.0;
        if |motes| < MaxMotes {
          motes := motes + [CreateMote(d, width, height)];
        }
      }
      assert particleTimer == t.1;
      assert motes == if t.0 && |before| < MaxMotes then before + [CreateMote(d, width, height)] else before;
      UpdateMotes();
      DriftFramePreserves(before, t.0, d, width, height);
    }
  }
}
