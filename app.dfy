/**
 * The visualiser's shared state and the operations the control panels and
 * the frame loop run on it: the star list, the `mainOptions` settings, the
 * Start/Stop buttons of the "Controller" folder and the mode-specific panel.
 * Physics (forces, integration, initial velocities), rendering and the GUI
 * widgets themselves are outside the model; random draws are parameters.
 */
module App {
  import opened Trail
  import opened Stars
  import opened Modes

  /** One astronomical unit in metres, as the setups and newRandstar use it. */
  const Distance: real := 149000000000.0

  /** The shortest decimal of the double that Math.sqrt(3) returns; products with it are exact here. */
  const Sqrt3: real := 1.7320508075688772

  /**
   * The `mainOptions` settings record (camera speed and text scale are not
   * modelled). starCount is a JS number: the star-count slider has no step,
   * so it need not be whole.
   */
  datatype Options = Options(
    dt: real,
    div: int,
    started: bool,
    stoped: bool,
    currentMode: string,
    gridOn: bool,
    axisOn: bool,
    background: bool,
    starCount: real)

  const InitialOptions: Options :=
    Options(10.0, 1, false, true, SolarSystemName, true, true, true, 500.0)

  /**
   * How many times `for (let i = 0; i < c; i++)` runs for a JS number c:
   * the least natural number that is not below c.
   */
  function Iterations(c: real): (n: nat)
    ensures c <= n as real
    ensures n > 0 ==> (n - 1) as real < c
  {
    if c <= 0.0 then 0
    else if c.Floor as real == c then c.Floor
    else c.Floor + 1
  }

  /** The two ensures of Iterations pin its result down. */
  lemma IterationsLeast(c: real, n: nat)
    requires c <= n as real && (n > 0 ==> (n - 1) as real < c)
    ensures Iterations(c) == n
  {
  }

  /** A whole count runs the loop exactly that many times. */
  lemma IterationsOfWhole(c: real)
    requires 0.0 <= c && c == c.Floor as real
    ensures Iterations(c) == c.Floor
  {
    IterationsLeast(c, c.Floor);
  }

  /** Popping while `i < len - c` leaves the whole part of c on the list. */
  lemma ShrinkCount(len: nat, c: real)
    requires 0.0 <= c < len as real
    ensures 0 <= c.Floor <= len
    ensures Iterations(len as real - c) == len - c.Floor
  {
    IterationsLeast(len as real - c, len - c.Floor);
  }

  /** Adding while `i < c - len` to len stars leaves as many as a fresh loop up to c makes. */
  lemma GrowCount(len: nat, c: real)
    requires len as real <= c
    ensures len + Iterations(c - len as real) == Iterations(c)
  {
    IterationsLeast(c, len + Iterations(c - len as real));
  }

  /** The frame loop runs a simulation step only while the simulation is not stopped. */
  predicate FrameAdvances(o: Options) {
    !o.stoped
  }

  datatype Button = Start | Stop

  /** A button widget added to the "Controller" folder. */
  class Controller {
    const button: Button

    constructor (button: Button)
      ensures this.button == button
    {
      this.button := button;
    }
  }

  /** s with every occurrence of c taken out, as removing a widget from its folder. */
  function Without(s: seq<Controller>, c: Controller): (r: seq<Controller>)
    ensures forall i :: 0 <= i < |r| ==> r[i] in s && r[i] != c
    ensures forall i :: 0 <= i < |s| && s[i] != c ==> s[i] in r
    ensures c !in s ==> r == s
    ensures multiset(r) == multiset(s)[c := 0]
    ensures |r| <= |s|
  {
    if s == [] then []
    else
      assert s == [s[0]] + s[1..];
      var rest := Without(s[1..], c);
      if s[0] == c then rest else [s[0]] + rest
  }

  /** Removing a widget works piecewise, so the widgets that stay keep their order. */
  lemma {:induction false} WithoutAppend(a: seq<Controller>, b: seq<Controller>, c: Controller)
    ensures Without(a + b, c) == Without(a, c) + Without(b, c)
    decreases |a|
  {
    if a == [] {
      assert a + b == b;
    } else {
      assert (a + b)[0] == a[0] && (a + b)[1..] == a[1..] + b;
      WithoutAppend(a[1..], b, c);
    }
  }

  /**
   * The Start/Stop buttons currently in the "Controller" folder and the two
   * module-level handles that remember them (null when absent).
   */
  datatype RunControls = RunControls(buttons: seq<Controller>, start: Controller?, close: Controller?)

  /** The widgets and handles after StartButton adds the fresh Stop button `close` and removes the remembered Start button. */
  function Started(c: RunControls, close: Controller): (r: RunControls)
    ensures r.start == null && r.close == close
    ensures c.start != close ==> close in r.buttons
    ensures c.start != null && c.start != close ==> c.start !in r.buttons
  {
    var added := c.buttons + [close];
    assert added[|c.buttons|] == close;
    RunControls(if c.start == null then added else Without(added, c.start), null, close)
  }

  /** The widgets and handles after StopButton adds the fresh Start button `start` and removes the remembered Stop button. */
  function Stopped(c: RunControls, start: Controller): (r: RunControls)
    ensures r.close == null && r.start == start
    ensures c.close != start ==> start in r.buttons
    ensures c.close != null && c.close != start ==> c.close !in r.buttons
  {
    var added := c.buttons + [start];
    assert added[|c.buttons|] == start;
    RunControls(if c.close == null then added else Without(added, c.close), start, null)
  }

  /** The mode-specific panel initModeGUI builds; the custom panel's controller remembers whether it added a sun. */
  datatype Panel = NoPanel | ThreeBodyPanel | GalaxyPanel | CustomPanel(haveSun: bool)

  function PanelFor(currentMode: string): (p: Panel)
    ensures p == NoPanel <==> !IsModeName(currentMode) || currentMode == SolarSystemName
    ensures currentMode == ThreeBodyName ==> p == ThreeBodyPanel
    ensures currentMode == GalaxyName ==> p == GalaxyPanel
    ensures currentMode == CustomName ==> p == CustomPanel(false)
    ensures p.CustomPanel? ==> !p.haveSun
  {
    if currentMode == ThreeBodyName then ThreeBodyPanel
    else if currentMode == GalaxyName then GalaxyPanel
    else if currentMode == CustomName then CustomPanel(false)
    else NoPanel
  }

  /**
   * What newRandstar draws from Math.random: a position in units of
   * Distance (inside the requested box and outside the minimum distance),
   * a radius and a colour.
   */
  datatype Draw = Draw(x: real, y: real, radius: real, color: int)

  /** One body of the solar-system setup: title, distance from the Sun in AU, radius, colour and mass. */
  datatype Body = Body(title: string, au: real, radius: real, color: int, massCof: real, massExp: real)

  const SolarSystemBodies: seq<Body> := [
    Body("Sun", 0.0, 15.0, 0xffff00, 2.0, 30.0),
    Body("Mercury", 0.387, 1.0, 0xaaaaaa, 3.3, 23.0),
    Body("Venus", 0.723, 1.0, 0xffa500, 4.87, 24.0),
    Body("Earth", 1.0, 3.0, 0x3333ff, 5.97, 24.0),
    Body("Mars", 1.524, 2.0, 0xff0000, 6.42, 23.0),
    Body("Jupiter", 5.2, 7.0, 0xffa500, 1.898, 27.0),
    Body("Saturn", 9.58, 6.0, 0xffd700, 5.683, 26.0),
    Body("Uranus", 19.22, 5.0, 0x00ffff, 8.681, 25.0),
    Body("Neptune", 30.05, 5.0, 0x0000ff, 1.024, 26.0)
  ]

  /** Where a three-body star is placed, in metres in the orbital plane, and its colour. */
  datatype Placement = Placement(x: real, y: real, color: int)

  /** The three equal masses: the corners of an equilateral triangle of side 2 AU. */
  const ThreeBodyPlacements: seq<Placement> := [
    Placement(-Distance, 0.0, 0xff3333),
    Placement(Distance, 0.0, 0x6565ff),
    Placement(0.0, Distance * Sqrt3, 0xffff00)
  ]

  ghost predicate Matches(s: Star, b: Body, sun: bool)
    reads s
  {
    s.displayName == b.title && s.radius == b.radius && s.color == b.color &&
    s.massCof == b.massCof && s.massExp == b.massExp &&
    s.startPosition == Vec3(Distance * b.au / Scale, 0.0, 0.0) &&
    s.isSun == sun && s.emitLight == sun
  }

  /** A star as newRandstar and the three-body setup make it: mass 1 × 10^30, lit, not an anchor, still bearing its generated name. */
  ghost predicate PlainBody(s: Star)
    reads s
  {
    s.massCof == 1.0 && s.massExp == 30.0 && !s.isSun && s.emitLight && s.displayName == s.name
  }

  /** The first n solar-system bodies sit in stars from index `from` on. */
  ghost predicate SolarSystemPrefix(stars: seq<Star>, from: nat, n: nat)
    requires n <= 9
    reads stars
  {
    from + n <= |stars| &&
    forall k :: 0 <= k < n ==> Matches(stars[from + k], SolarSystemBodies[k], k == 0)
  }

  /** The first n three-body stars sit in stars from index `from` on. */
  ghost predicate ThreeBodyPrefix(stars: seq<Star>, from: nat, n: nat)
    requires n <= 3
    reads stars
  {
    from + n <= |stars| &&
    forall k :: 0 <= k < n ==>
      PlainBody(stars[from + k]) && stars[from + k].radius == 6.0 &&
      stars[from + k].color == ThreeBodyPlacements[k].color &&
      stars[from + k].startPosition == Vec3(ThreeBodyPlacements[k].x / Scale, 0.0, ThreeBodyPlacements[k].y / Scale)
  }

  ghost predicate PlainBodiesFrom(stars: seq<Star>, from: nat)
    reads stars
  {
    forall k :: from <= k < |stars| ==> PlainBody(stars[k])
  }

  /** The bodies a setup of mode m placed in stars from index `from` on. */
  ghost predicate Populated(stars: seq<Star>, m: Mode, from: nat)
    reads stars
  {
    match m
    case SolarSystem => SolarSystemPrefix(stars, from, 9)
    case ThreeBody => ThreeBodyPrefix(stars, from, 3)
    case Galaxy => PlainBodiesFrom(stars, from)
    case Custom => true
  }

  /** The settings a setup of mode m leaves: the galaxy also hides grid, axes and background. */
  function SetupOptions(o: Options, m: Mode): (r: Options)
    ensures r.div == Divisor(m)
    ensures r.gridOn == (m != Galaxy && o.gridOn) && r.axisOn == (m != Galaxy && o.axisOn)
    ensures r.background == (m != Galaxy && o.background)
    ensures r.dt == o.dt && r.started == o.started && r.stoped == o.stoped
    ensures r.currentMode == o.currentMode && r.starCount == o.starCount
  {
    if m == Galaxy then o.(div := 1, gridOn := false, axisOn := false, background := false)
    else o.(div := Divisor(m))
  }

  /** The position newStar gives a random star drawn as d. */
  function DrawnPosition(d: Draw): Vec3 {
    Vec3(d.x * Distance / Scale, 0.0, d.y * Distance / Scale)
  }

  class World {
    var stars: seq<Star>
    var options: Options
    var controls: RunControls
    var panel: Panel

    /** Every star's trail object and its coordinate buffer. */
    ghost function Trails(): set<object>
      reads this`stars
    {
      (set i | 0 <= i < |stars| :: stars[i].line as object) +
      (set i | 0 <= i < |stars| :: stars[i].line.positions as object)
    }

    /**
     * The i-th star of the list carries the generated name Star<i+1>, and
     * each star has a trail of its own that keeps the trail invariant.
     */
    ghost predicate Valid()
      reads this`stars, Trails()
    {
      (forall i :: 0 <= i < |stars| ==> stars[i].name == StarName(i + 1)) &&
      (forall i, j :: 0 <= i < j < |stars| ==>
        stars[i].line != stars[j].line && stars[i].line.positions != stars[j].line.positions) &&
      (forall i :: 0 <= i < |stars| ==> stars[i].line.Valid())
    }

    /**
     * Exactly one of the Start and Stop buttons is shown, the one its handle
     * remembers: Start while stopped, Stop while running. A running
     * simulation has been started.
     */
    ghost predicate RunControlsAgree()
      reads this`options, this`controls
    {
      (!options.stoped ==> options.started) &&
      if options.stoped then
        controls.start != null && controls.close == null &&
        controls.buttons == [controls.start] && controls.start.button == Start
      else
        controls.close != null && controls.start == null &&
        controls.buttons == [controls.close] && controls.close.button == Stop
    }

    /** The state when the page loads: default settings, no stars, the Start button shown. */
    constructor ()
      ensures Valid() && RunControlsAgree()
      ensures stars == [] && options == InitialOptions && panel == NoPanel
      ensures !FrameAdvances(options)
    {
      stars := [];
      options := InitialOptions;
      var start := new Controller(Start);
      controls := RunControls([start], start, null);
      panel := NoPanel;
    }

    // ---------------------------------------------------------------- star list

    method NewStar(x: real, y: real, radius: real, color: int, massCof: real, massExp: real) returns (s: Star)
      requires Valid()
      modifies this`stars
      ensures Valid()
      ensures fresh(s) && stars == old(stars) + [s]
      ensures s.name == StarName(|old(stars)| + 1) && s.displayName == s.name
      ensures s.startPosition == Vec3(x / Scale, 0.0, y / Scale) && s.position == s.startPosition
      ensures s.velocity == Origin && s.emitLight && !s.isSun
      ensures s.radius == radius && s.color == color && s.massCof == massCof && s.massExp == massExp
      ensures s.line.points == [s.startPosition]
      ensures s !in Trails()
      ensures options == old(options) && controls == old(controls) && panel == old(panel)
    {
      s := new Star(Vec3(x / Scale, 0.0, y / Scale), radius, color, massCof, massExp, |stars|);
      stars := stars + [s];
    }

    method NewRandStar(d: Draw) returns (s: Star)
      requires Valid()
      modifies this`stars
      ensures Valid()
      ensures fresh(s) && stars == old(stars) + [s]
      ensures PlainBody(s) && s.name == StarName(|old(stars)| + 1) && s !in Trails()
      ensures s.startPosition == DrawnPosition(d) && s.radius == d.radius && s.color == d.color
      ensures options == old(options) && controls == old(controls) && panel == old(panel)
    {
      s := NewStar(d.x * Distance, d.y * Distance, d.radius, d.color, 1.0, 30.0);
    }

    method ClearStars()
      requires Valid()
      modifies this`stars
      ensures Valid() && stars == []
      ensures options == old(options) && controls == old(controls) && panel == old(panel)
    {
      stars := [];
    }

    // ---------------------------------------------------------------- reset and setup

    method Reset()
      requires Valid()
      modifies this`stars, this`options
      ensures Valid() && stars == []
      ensures options == old(options).(dt := 0.0, gridOn := true, axisOn := true, background := true)
      ensures controls == old(controls) && panel == old(panel)
    {
      options := options.(dt := 0.0);
      ClearStars();
      options := options.(gridOn := true, axisOn := true, background := true);
    }

    method Setup(mode: string, draws: nat -> Draw)
      requires Valid()
      modifies this`stars, this`options, this`panel
      ensures Valid()
      ensures |stars| == |old(stars)| + BodyCount(Dispatch(mode), Iterations(old(options.starCount)))
      ensures stars[..|old(stars)|] == old(stars)
      ensures forall k :: |old(stars)| <= k < |stars| ==> fresh(stars[k])
      ensures Populated(stars, Dispatch(mode), |old(stars)|)
      ensures options == SetupOptions(old(options), Dispatch(mode))
      ensures panel == PanelFor(options.currentMode)
      ensures controls == old(controls)
    {
      match Dispatch(mode) {
        case SolarSystem => SetupSolarSystem();
        case ThreeBody => SetupThreeBodyProblem();
        case Galaxy => SetupGalaxy(draws);
        case Custom => SetupCustom();
      }
      InitModeGui();
    }

    method InitModeGui()
      modifies this`panel
      ensures panel == PanelFor(options.currentMode)
      ensures stars == old(stars) && options == old(options) && controls == old(controls)
    {
      panel := PanelFor(options.currentMode);
    }

    /**
     * Adds solar-system body k: the Sun keeps its light and becomes the
     * anchor, the planets stop emitting light.
     */
    method AddBody(from: nat, k: nat) returns (s: Star)
      requires Valid() && k < 9 && |stars| == from + k && SolarSystemPrefix(stars, from, k)
      modifies this`stars
      ensures Valid()
      ensures fresh(s) && stars == old(stars) + [s] && SolarSystemPrefix(stars, from, k + 1)
      ensures options == old(options) && controls == old(controls) && panel == old(panel)
    {
      var b := SolarSystemBodies[k];
      s := NewStar(Distance * b.au, 0.0, b.radius, b.color, b.massCof, b.massExp);
      ApplyBody(s, b, k == 0);
      assert stars[from + k] == s && Matches(stars[from + k], SolarSystemBodies[k], k == 0);
    }

    /** Gives a freshly created body its solar-system name; the Sun becomes the anchor, a planet stops emitting light. */
    static method ApplyBody(s: Star, b: Body, sun: bool)
      requires s.emitLight && !s.isSun && s.radius == b.radius && s.color == b.color
      requires s.massCof == b.massCof && s.massExp == b.massExp
      requires s.startPosition == Vec3(Distance * b.au / Scale, 0.0, 0.0)
      modifies s
      ensures Matches(s, b, sun)
    {
      s.SetName(b.title);
      if sun {
        s.isSun := true;
      } else {
        s.SetEmitLight(false);
      }
    }

    method SetupSolarSystem()
      requires Valid()
      modifies this`stars, this`options
      ensures Valid()
      ensures |stars| == |old(stars)| + BodyCount(SolarSystem, Iterations(old(options.starCount)))
      ensures stars[..|old(stars)|] == old(stars)
      ensures forall k :: |old(stars)| <= k < |stars| ==> fresh(stars[k])
      ensures SolarSystemPrefix(stars, |old(stars)|, 9)
      ensures options == SetupOptions(old(options), SolarSystem)
      ensures controls == old(controls) && panel == old(panel)
    {
      var from := |stars|;
      var k := 0;
      while k < 9
        invariant 0 <= k <= 9 && options == old(options)
        invariant Valid()
        invariant |stars| == from + k && stars[..from] == old(stars)
        invariant forall j :: from <= j < |stars| ==> fresh(stars[j])
        invariant SolarSystemPrefix(stars, from, k)
      {
        var s := AddBody(from, k);
        k := k + 1;
      }
      options := options.(div := 1);
    }

    method SetupThreeBodyProblem()
      requires Valid()
      modifies this`stars, this`options
      ensures Valid()
      ensures |stars| == |old(stars)| + BodyCount(ThreeBody, Iterations(old(options.starCount)))
      ensures stars[..|old(stars)|] == old(stars)
      ensures forall k :: |old(stars)| <= k < |stars| ==> fresh(stars[k])
      ensures ThreeBodyPrefix(stars, |old(stars)|, 3)
      ensures options == SetupOptions(old(options), ThreeBody)
      ensures controls == old(controls) && panel == old(panel)
    {
      var from := |stars|;
      var k := 0;
      while k < 3
        invariant 0 <= k <= 3 && options == old(options)
        invariant Valid()
        invariant |stars| == from + k && stars[..from] == old(stars)
        invariant forall j :: from <= j < |stars| ==> fresh(stars[j])
        invariant ThreeBodyPrefix(stars, from, k)
      {
        AddThreeBody(from, k);
        k := k + 1;
      }
      options := options.(div := 3);
    }

    /** Adds three-body star k: radius 6, mass 1 × 10^30, at its corner of the triangle. */
    method AddThreeBody(from: nat, k: nat)
      requires Valid() && k < 3 && |stars| == from + k && ThreeBodyPrefix(stars, from, k)
      modifies this`stars
      ensures Valid() && |stars| == from + k + 1 && stars[..from + k] == old(stars)
      ensures fresh(stars[from + k]) && ThreeBodyPrefix(stars, from, k + 1)
    {
      var p := ThreeBodyPlacements[k];
      var s := NewStar(p.x, p.y, 6.0, p.color, 1.0, 30.0);
      assert stars[from + k] == s;
    }

    method SetupGalaxy(draws: nat -> Draw)
      requires Valid()
      modifies this`stars, this`options
      ensures Valid()
      ensures |stars| == |old(stars)| + BodyCount(Galaxy, Iterations(old(options.starCount)))
      ensures stars[..|old(stars)|] == old(stars)
      ensures forall k :: |old(stars)| <= k < |stars| ==> fresh(stars[k])
      ensures PlainBodiesFrom(stars, |old(stars)|)
      ensures options == SetupOptions(old(options), Galaxy)
      ensures controls == old(controls) && panel == old(panel)
    {
      AddRandomStars(Iterations(options.starCount), draws);
      options := options.(div := 1, gridOn := false, axisOn := false, background := false);
    }

    /**
     * The loop shared by the galaxy setup and the star-count slider: n calls
     * of newRandstar, the i-th placing its star as draws(i) says.
     */
    method AddRandomStars(n: nat, draws: nat -> Draw)
      requires Valid()
      modifies this`stars
      ensures Valid()
      ensures |stars| == |old(stars)| + n && stars[..|old(stars)|] == old(stars)
      ensures forall k :: |old(stars)| <= k < |stars| ==> fresh(stars[k])
      ensures PlainBodiesFrom(stars, |old(stars)|)
      ensures forall k :: 0 <= k < n ==> stars[|old(stars)| + k].startPosition == DrawnPosition(draws(k))
      ensures options == old(options) && controls == old(controls) && panel == old(panel)
    {
      var from := |stars|;
      var i := 0;
      while i < n
        invariant 0 <= i <= n && |stars| == from + i && stars[..from] == old(stars)
        invariant Valid()
        invariant forall k :: from <= k < |stars| ==> fresh(stars[k])
        invariant PlainBodiesFrom(stars, from)
        invariant forall k :: 0 <= k < i ==> stars[from + k].startPosition == DrawnPosition(draws(k))
      {
        var s := NewRandStar(draws(i));
        i := i + 1;
      }
    }

    /** The slider's other loop: pop n stars off the end of the list. */
    method DropStars(n: nat)
      requires Valid() && n <= |stars|
      modifies this`stars
      ensures Valid() && stars == old(stars)[..|old(stars)| - n]
      ensures options == old(options) && controls == old(controls) && panel == old(panel)
    {
      var i := 0;
      while i < n
        invariant 0 <= i <= n && |stars| == |old(stars)| - i && stars == old(stars)[..|stars|]
        invariant Valid()
      {
        stars := stars[..|stars| - 1];
        i := i + 1;
      }
    }

    method SetupCustom()
      requires Valid()
      modifies this`options
      ensures Valid() && stars == old(stars)
      ensures options == SetupOptions(old(options), Custom)
      ensures controls == old(controls) && panel == old(panel)
    {
      options := options.(div := 1);
    }

    // ---------------------------------------------------------------- run control

    method StartButton()
      modifies this`options, this`controls
      ensures options == old(options).(started := true, stoped := false, dt := 10.0)
      ensures FrameAdvances(options)
      ensures controls.start == null && controls.close != null
      ensures fresh(controls.close) && controls.close.button == Stop
      ensures controls == Started(old(controls), controls.close)
      ensures old(options.stoped) && old(RunControlsAgree()) ==> RunControlsAgree()
      ensures stars == old(stars) && panel == old(panel)
    {
      options := options.(started := true, stoped := false, dt := 10.0);
      var close := new Controller(Stop);
      controls := controls.(buttons := controls.buttons + [close], close := close);
      if controls.start != null {
        assert controls.start != close;
        controls := controls.(buttons := Without(controls.buttons, controls.start), start := null);
      }
    }

    method StopButton()
      modifies this`options, this`controls
      ensures options == old(options).(stoped := true)
      ensures !FrameAdvances(options)
      ensures controls.close == null && controls.start != null
      ensures fresh(controls.start) && controls.start.button == Start
      ensures controls == Stopped(old(controls), controls.start)
      ensures !old(options.stoped) && old(RunControlsAgree()) ==> RunControlsAgree()
      ensures stars == old(stars) && panel == old(panel)
    {
      options := options.(stoped := true);
      var start := new Controller(Start);
      controls := controls.(buttons := controls.buttons + [start], start := start);
      if controls.close != null {
        assert controls.close != start;
        controls := controls.(buttons := Without(controls.buttons, controls.close), close := null);
      }
    }

    method ResetButton(draws: nat -> Draw)
      requires Valid()
      modifies this
      ensures Valid()
      ensures options.stoped && !options.started && options.dt == 0.0 && !FrameAdvances(options)
      ensures options.currentMode == old(options.currentMode) && options.starCount == old(options.starCount)
      ensures options.div == Divisor(Dispatch(options.currentMode))
      ensures options.gridOn == options.axisOn == options.background == (Dispatch(options.currentMode) != Galaxy)
      ensures |stars| == BodyCount(Dispatch(options.currentMode), Iterations(options.starCount))
      ensures Populated(stars, Dispatch(options.currentMode), 0)
      ensures forall k :: 0 <= k < |stars| ==> fresh(stars[k])
      ensures options == SetupOptions(old(options).(started := false, stoped := true, dt := 0.0, gridOn := true, axisOn := true, background := true), Dispatch(old(options.currentMode)))
      ensures panel == PanelFor(options.currentMode)
      ensures old(options.stoped) ==> controls == old(controls)
      ensures !old(options.stoped) ==>
        controls.start != null && controls == Stopped(old(controls), controls.start) && fresh(controls.start) && controls.start.button == Start
      ensures old(RunControlsAgree()) ==> RunControlsAgree()
    {
      if !options.stoped {
        StopButton();
      }
      options := options.(started := false, dt := 0.0);
      Reset();
      Setup(options.currentMode, draws);
    }

    /** The first setup and start when the page loads. */
    method Boot(draws: nat -> Draw)
      requires Valid()
      modifies this
      ensures Valid()
      ensures options.started && FrameAdvances(options) && options.dt == 10.0
      ensures options == SetupOptions(old(options), Dispatch(old(options.currentMode))).(started := true, stoped := false, dt := 10.0)
      ensures |stars| == |old(stars)| + BodyCount(Dispatch(old(options.currentMode)), Iterations(old(options.starCount)))
      ensures stars[..|old(stars)|] == old(stars)
      ensures Populated(stars, Dispatch(old(options.currentMode)), |old(stars)|)
      ensures panel == PanelFor(options.currentMode)
      ensures controls.close != null && controls == Started(old(controls), controls.close) && fresh(controls.close) && controls.close.button == Stop
      ensures old(options.stoped) && old(RunControlsAgree()) ==> RunControlsAgree()
    {
      Setup(options.currentMode, draws);
      StartButton();
    }

    /**
     * One animation frame. The physics step that yields the new positions is
     * outside the model and arrives as `next`; the frame applies it, and
     * offers each new position to the star's trail, only when not stopped.
     */
    method Frame(next: seq<Vec3>) returns (stepped: bool)
      requires Valid() && |next| == |stars|
      modifies stars, Trails()
      ensures Valid()
      ensures stepped == FrameAdvances(options)
      ensures forall i :: 0 <= i < |stars| ==>
        stars[i].position == (if stepped then next[i] else old(stars[i].position))
      ensures forall i :: 0 <= i < |stars| ==>
        stars[i].line.points ==
          if stepped then NextTrail(old(stars[i].line.points), next[i], options.currentMode, stars[i].line.maxPoints)
          else old(stars[i].line.points)
    {
      stepped := !options.stoped;
      if !stepped {
        return;
      }
      forall i, j | 0 <= i < j < |stars|
        ensures stars[i] != stars[j]
      {
        StarNameInjective(i + 1, j + 1);
      }
      var i := 0;
      while i < |stars|
        invariant 0 <= i <= |stars|
        invariant Valid()
        invariant forall k :: 0 <= k < i ==>
          stars[k].position == next[k] &&
          stars[k].line.points == NextTrail(old(stars[k].line.points), next[k], options.currentMode, stars[k].line.maxPoints)
        invariant forall k :: i <= k < |stars| ==>
          stars[k].position == old(stars[k].position) && stars[k].line.points == old(stars[k].line.points)
      {
        Advance(i, next[i]);
        i := i + 1;
      }
    }

    /** Frame's work on star i: move it to p and offer p to its trail; no other star and no other trail changes. */
    method Advance(i: nat, p: Vec3)
      requires Valid() && i < |stars|
      requires forall a, b :: 0 <= a < b < |stars| ==> stars[a] != stars[b]
      modifies stars[i], stars[i].line, stars[i].line.positions
      ensures Valid()
      ensures stars[i].position == p
      ensures stars[i].line.points == NextTrail(old(stars[i].line.points), p, options.currentMode, stars[i].line.maxPoints)
      ensures forall k :: 0 <= k < |stars| && k != i ==>
        stars[k].position == old(stars[k].position) && stars[k].line.points == old(stars[k].line.points)
    {
      Move(i, p);
      Offer(i, p);
    }

    method Move(i: nat, p: Vec3)
      requires Valid() && i < |stars|
      requires forall a, b :: 0 <= a < b < |stars| ==> stars[a] != stars[b]
      modifies stars[i]
      ensures Valid()
      ensures stars[i].position == p
      ensures forall k :: 0 <= k < |stars| ==> stars[k].line.points == old(stars[k].line.points)
      ensures forall k :: 0 <= k < |stars| && k != i ==> stars[k].position == old(stars[k].position)
    {
      stars[i].position := p;
    }

    method Offer(i: nat, p: Vec3)
      requires Valid() && i < |stars|
      modifies stars[i].line, stars[i].line.positions
      ensures Valid()
      ensures stars[i].line.points == NextTrail(old(stars[i].line.points), p, options.currentMode, stars[i].line.maxPoints)
      ensures forall k :: 0 <= k < |stars| ==> stars[k].position == old(stars[k].position)
      ensures forall k :: 0 <= k < |stars| && k != i ==> stars[k].line.points == old(stars[k].line.points)
    {
      stars[i].line.AddPoint(p, options.currentMode);
      forall k | 0 <= k < |stars| && k != i
        ensures stars[k].line.Valid()
      {
        assert stars[k].line != stars[i].line && stars[k].line.positions != stars[i].line.positions;
      }
    }

    // ---------------------------------------------------------------- mode panels

    /** The mode drop-down: switching mode stops a started run, clears the world and sets the new mode up. */
    method SelectMode(mode: string, draws: nat -> Draw)
      requires Valid() && IsModeName(mode)
      modifies this
      ensures Valid()
      ensures options.currentMode == mode && options.starCount == old(options.starCount)
      ensures !options.started && options.dt == 0.0
      ensures old(RunControlsAgree()) ==> RunControlsAgree() && options.stoped
      ensures options.div == Divisor(Dispatch(mode))
      ensures options.gridOn == options.axisOn == options.background == (Dispatch(mode) != Galaxy)
      ensures |stars| == BodyCount(Dispatch(mode), Iterations(options.starCount)) && Populated(stars, Dispatch(mode), 0)
      ensures options == SetupOptions(old(options).(currentMode := mode, started := false,
        stoped := old(options.started) || old(options.stoped), dt := 0.0,
        gridOn := true, axisOn := true, background := true), Dispatch(mode))
      ensures panel == PanelFor(mode)
      ensures !(old(options.started) && !old(options.stoped)) ==> controls == old(controls)
      ensures old(options.started) && !old(options.stoped) ==>
        controls.start != null && controls == Stopped(old(controls), controls.start) && fresh(controls.start) && controls.start.button == Start
    {
      options := options.(currentMode := mode);
      if options.started {
        ResetButton(draws);
      }
      Reset();
      Setup(options.currentMode, draws);
    }

    /**
     * The galaxy panel's star-count slider: pop stars while `i < diff` or add
     * random ones while `i < -diff`, where diff is the list length minus the
     * new count. A fractional count leaves its whole part when shrinking and
     * rounds up when growing. The slider clamps its value to [100, 1000]; a
     * negative count would pop past the empty list.
     */
    method StarCountChanged(starCount: real, draws: nat -> Draw)
      requires Valid() && 0.0 <= starCount
      modifies this`stars, this`options
      ensures Valid()
      ensures options == old(options).(starCount := starCount)
      ensures starCount < |old(stars)| as real ==> stars == old(stars)[..starCount.Floor]
      ensures |old(stars)| as real <= starCount ==>
        |stars| == Iterations(starCount) && stars[..|old(stars)|] == old(stars) && PlainBodiesFrom(stars, |old(stars)|)
      ensures starCount == starCount.Floor as real ==> |stars| == starCount.Floor
      ensures forall k :: |old(stars)| <= k < |stars| ==> fresh(stars[k])
      ensures controls == old(controls) && panel == old(panel)
    {
      options := options.(starCount := starCount);
      var diff := |stars| as real - starCount;
      if starCount == starCount.Floor as real {
        IterationsOfWhole(starCount);
      }
      if diff > 0.0 {
        ShrinkCount(|stars|, starCount);
        DropStars(Iterations(diff));
      } else {
        GrowCount(|stars|, starCount);
        AddRandomStars(Iterations(-diff), draws);
      }
    }

    /** The three-body panel's Random action: three random equal masses replace the bodies. */
    method Random(draws: nat -> Draw)
      requires Valid()
      modifies this
      ensures Valid()
      ensures |stars| == 3 && PlainBodiesFrom(stars, 0)
      ensures forall k :: 0 <= k < 3 ==> fresh(stars[k]) && stars[k].name == StarName(k + 1)
      ensures !options.started && options.dt == 0.0
      ensures options.gridOn && options.axisOn && options.background
      ensures options.currentMode == old(options.currentMode) && options.starCount == old(options.starCount)
      ensures old(RunControlsAgree()) ==> RunControlsAgree() && options.stoped
      ensures !old(options.started) ==>
        options == old(options).(dt := 0.0, gridOn := true, axisOn := true, background := true) &&
        panel == old(panel) && controls == old(controls)
      ensures old(options.started) ==>
        options == old(options).(started := false, stoped := true, dt := 0.0, div := Divisor(Dispatch(old(options.currentMode))),
          gridOn := true, axisOn := true, background := true) &&
        panel == PanelFor(old(options.currentMode))
      ensures old(options.started) && old(options.stoped) ==> controls == old(controls)
      ensures old(options.started) && !old(options.stoped) ==>
        controls.start != null && controls == Stopped(old(controls), controls.start) && fresh(controls.start) && controls.start.button == Start
    {
      if options.started {
        ResetButton(draws);
      }
      Reset();
      AddRandomStars(3, draws);
    }

    /** The custom panel's Add Star action. */
    method AddStar(d: Draw) returns (s: Star)
      requires Valid()
      modifies this`stars
      ensures Valid()
      ensures fresh(s) && stars == old(stars) + [s] && PlainBody(s)
      ensures s.startPosition == DrawnPosition(d)
      ensures options == old(options) && controls == old(controls) && panel == old(panel)
    {
      s := NewRandStar(d);
    }

    /** The custom panel's Add Sun action: adds the one central anchor, and does nothing after that. */
    method AddCenter()
      requires Valid() && panel.CustomPanel?
      modifies this`stars, this`panel
      ensures Valid()
      ensures panel == CustomPanel(true)
      ensures options == old(options) && controls == old(controls)
      ensures old(panel.haveSun) ==> stars == old(stars)
      ensures !old(panel.haveSun) ==>
        |stars| == |old(stars)| + 1 && stars[..|old(stars)|] == old(stars) &&
        fresh(stars[|old(stars)|]) && stars[|old(stars)|].isSun &&
        stars[|old(stars)|].massCof == 1.0 && stars[|old(stars)|].massExp == 33.0 &&
        stars[|old(stars)|].startPosition == Origin
    {
      if panel.haveSun {
        return;
      }
      panel := CustomPanel(true);
      var sun := NewStar(0.0, 0.0, 15.0, 0xffff00, 1.0, 33.0);
      sun.isSun := true;
    }
  }
}
