/** The InteractiveTile wrapper: a focusable tile showing a title and a
    value, which lifts on hover, sinks while pressed, follows the pointer
    with a glow and, when it has a click callback, can be activated with
    Space or Enter.

    The event handlers are the methods of class `Tile`; each is proved
    against `Step`, the transition function of the tile's state machine.
    The style and accessibility rules are pure functions of the props and
    the state. */
module InteractiveTile {
  import opened Surface

  /** The props the model uses. `hasOnClick` stands for
      `typeof onClick === "function"`. */
  datatype TileProps = TileProps(
    title: string,
    value: string,
    hasOnClick: bool,
    variant: string,
    align: string,
    showColon: bool)

  /** The props a tile gets when the caller passes none. */
  const DefaultProps := TileProps("", "", false, "solid", "start", true)

  /** What the component keeps between events: its three state hooks, the
      glow position written into the element's style, whether the element
      ref is set, and how many times the key-up handler called `onClick`. */
  datatype TileState = TileState(
    hovered: bool,
    pressed: bool,
    motionOK: bool,
    glow: Option<GlowPos>,
    hasElement: bool,
    activations: nat)

  /** The state right after the first render: motion allowed, nothing
      hovered or pressed, no glow written, the ref not yet attached. */
  const Initial := TileState(false, false, true, None, false, 0)

  // ---------------------------------------------------------------------
  // The state machine

  /** How one event changes the tile. Only the mouse-leave handler touches
      both hover and press; the press handlers touch only `pressed`; the
      move handler writes the glow only when motion is allowed and the
      element exists; Space/Enter key-up releases the press and calls the
      callback when there is one. */
  function Step(s: TileState, e: Event, p: TileProps): (r: TileState)
    ensures e.MouseLeave? ==> !r.hovered && !r.pressed
    ensures e.MouseEnter? ==> r.hovered
    ensures !e.MouseEnter? && !e.MouseLeave? ==> r.hovered == s.hovered
    ensures IsPress(e) ==> r.pressed
    ensures e.MouseUp? || e.TouchEnd? || IsActivation(e) ==> !r.pressed
    ensures r.pressed != s.pressed ==> IsPress(e) || e.MouseUp? || e.TouchEnd? || e.MouseLeave? || IsActivation(e)
    ensures e.MediaChange? ==> r.motionOK == !e.matches
    ensures !e.MediaChange? ==> r.motionOK == s.motionOK
    ensures e.MouseMove? && s.motionOK && s.hasElement ==> r.glow == Some(e.pos)
    ensures r.glow != s.glow ==> e.MouseMove? && s.motionOK && s.hasElement
    ensures r.hasElement == s.hasElement
    ensures r.activations == s.activations + (if p.hasOnClick && IsActivation(e) then 1 else 0)
  {
    match e
    case MouseEnter => s.(hovered := true)
    case MouseLeave => s.(hovered := false, pressed := false)
    case MouseMove(pos) =>
      if !s.motionOK then s
      else if !s.hasElement then s
      else s.(glow := Some(pos))
    case MouseDown => s.(pressed := true)
    case MouseUp => s.(pressed := false)
    case TouchStart => s.(pressed := true)
    case TouchEnd => s.(pressed := false)
    case KeyDown(key) =>
      if IsActivationKey(key) then s.(pressed := true) else s
    case KeyUp(key) =>
      if IsActivationKey(key) then
        s.(pressed := false, activations := s.activations + (if p.hasOnClick then 1 else 0))
      else s
    case MediaChange(matches) => s.(motionOK := !matches)
  }

  /** Whether the tile's handler for `e` calls `preventDefault()`. */
  function PreventsDefault(e: Event): (b: bool)
    ensures b <==> (e.KeyDown? || e.KeyUp?) && IsActivationKey(e.key)
  {
    match e
    case KeyDown(key) => IsActivationKey(key)
    case KeyUp(key) => IsActivationKey(key)
    case _ => false
  }

  /** The state after a sequence of events, one at a time. */
  function Run(s: TileState, es: seq<Event>, p: TileProps): TileState
    decreases |es|
  {
    if es == [] then s else Run(Step(s, es[0], p), es[1..], p)
  }

  // ---------------------------------------------------------------------
  // The component's handlers, updating its state in place

  class Tile {
    /** The props of the latest render. */
    var props: TileProps
    var isHover: bool
    var isPressed: bool
    var motionOK: bool
    /** The `--mx` / `--my` properties on the element's style, if written. */
    var glow: Option<GlowPos>
    /** Whether `ref.current` is set. */
    var hasElement: bool
    /** Calls of `onClick` made by the key-up handler. */
    var activations: nat

    function State(): TileState
      reads this
    {
      TileState(isHover, isPressed, motionOK, glow, hasElement, activations)
    }

    /** What the tile renders now. */
    function View(): TileView
      reads this
    {
      Render(props, State())
    }

    constructor (p: TileProps)
      ensures props == p && State() == Initial
    {
      props := p;
      isHover, isPressed, motionOK := false, false, true;
      glow, hasElement, activations := None, false, 0;
    }

    /** A re-render with new props: the state hooks, the element and its
        style survive, and later handlers read the new props. */
    method SetProps(p: TileProps)
      modifies this
      ensures props == p && State() == old(State())
    {
      props := p;
    }

    /** React sets or clears `ref.current`. */
    method AttachRef(present: bool)
      modifies this
      ensures props == old(props)
      ensures State() == old(State()).(hasElement := present)
    {
      hasElement := present;
    }

    /** The mount effect. `query` is None when there is no `window` or no
        `window.matchMedia`; otherwise it holds whether
        `(prefers-reduced-motion: reduce)` matches. */
    method MountEffect(query: Option<bool>)
      modifies this
      ensures props == old(props)
      ensures query.None? ==> State() == old(State())
      ensures query.Some? ==> State() == Step(old(State()), MediaChange(query.value), props)
    {
      if query.Some? {
        motionOK := !query.value;
      }
    }

    /** The media query's change listener. */
    method OnMediaChange(matches: bool)
      modifies this
      ensures props == old(props)
      ensures State() == Step(old(State()), MediaChange(matches), props)
      ensures motionOK == !matches
    {
      motionOK := !matches;
    }

    method OnMouseEnter()
      modifies this
      ensures props == old(props)
      ensures State() == Step(old(State()), MouseEnter, props)
      ensures isHover && isPressed == old(isPressed)
    {
      isHover := true;
    }

    method OnMouseLeave()
      modifies this
      ensures props == old(props)
      ensures State() == Step(old(State()), MouseLeave, props)
      ensures !isHover && !isPressed
    {
      isHover := false;
      isPressed := false;
    }

    /** `updateGlow`: a no-op unless motion is allowed and the element exists. */
    method UpdateGlow(pos: GlowPos)
      modifies this
      ensures props == old(props)
      ensures State() == Step(old(State()), MouseMove(pos), props)
      ensures glow == if old(motionOK) && old(hasElement) then Some(pos) else old(glow)
    {
      if !motionOK {
        return;
      }
      if !hasElement {
        return;
      }
      glow := Some(pos);
    }

    /** `pressDown`, bound to mouse-down and touch-start. */
    method PressDown()
      modifies this
      ensures props == old(props)
      ensures State() == Step(old(State()), MouseDown, props)
      ensures State() == Step(old(State()), TouchStart, props)
      ensures isPressed && isHover == old(isHover)
    {
      isPressed := true;
    }

    /** `pressUp`, bound to mouse-up and touch-end. */
    method PressUp()
      modifies this
      ensures props == old(props)
      ensures State() == Step(old(State()), MouseUp, props)
      ensures State() == Step(old(State()), TouchEnd, props)
      ensures !isPressed && isHover == old(isHover)
    {
      isPressed := false;
    }

    method HandleKeyDown(key: string) returns (prevented: bool)
      modifies this
      ensures props == old(props)
      ensures State() == Step(old(State()), KeyDown(key), props)
      ensures prevented == PreventsDefault(KeyDown(key))
      ensures prevented <==> IsActivationKey(key)
    {
      prevented := false;
      if key == " " || key == "Enter" {
        prevented := true;
        isPressed := true;
      }
    }

    method HandleKeyUp(key: string) returns (prevented: bool)
      modifies this
      ensures props == old(props)
      ensures State() == Step(old(State()), KeyUp(key), props)
      ensures prevented == PreventsDefault(KeyUp(key))
      ensures prevented <==> IsActivationKey(key)
    {
      prevented := false;
      if key == " " || key == "Enter" {
        prevented := true;
        isPressed := false;
        if props.hasOnClick {
          activations := activations + 1;
        }
      }
    }

    /** The element's event bindings: each event goes to its handler. */
    method Dispatch(e: Event) returns (prevented: bool)
      modifies this
      ensures props == old(props)
      ensures State() == Step(old(State()), e, props)
      ensures prevented == PreventsDefault(e)
    {
      prevented := false;
      match e
      case MouseEnter => OnMouseEnter();
      case MouseLeave => OnMouseLeave();
      case MouseMove(pos) => UpdateGlow(pos);
      case MouseDown => PressDown();
      case MouseUp => PressUp();
      case TouchStart => PressDown();
      case TouchEnd => PressUp();
      case KeyDown(key) => prevented := HandleKeyDown(key);
      case KeyUp(key) => prevented := HandleKeyUp(key);
      case MediaChange(matches) => OnMediaChange(matches);
    }
  }

  // ---------------------------------------------------------------------
  // Style presets

  datatype Variant = Solid | Dashed

  /** Every variant other than "dashed" draws the solid look. */
  function VariantOf(variant: string): (v: Variant)
    ensures v == Dashed <==> variant == "dashed"
  {
    if variant == "dashed" then Dashed else Solid
  }

  function BaseShadow(v: Variant): Shadow {
    if v == Dashed then Shadow(10, 24, NoInset) else Shadow(8, 20, Highlight)
  }

  function HoverShadow(v: Variant): Shadow {
    if v == Dashed then Shadow(14, 30, NoInset) else Shadow(12, 28, Highlight)
  }

  function ActiveShadow(v: Variant): Shadow {
    if v == Dashed then Shadow(8, 18, NoInset) else Shadow(6, 14, Shade)
  }

  /** The shadow preset of a tier. */
  function PresetShadow(t: Tier, v: Variant): Shadow {
    match t
    case Base => BaseShadow(v)
    case Hover => HoverShadow(v)
    case Active => ActiveShadow(v)
  }

  /** The element's transform: it sinks exactly while pressed, lifts
      exactly while hovered and not pressed, and rests otherwise. */
  function TransformValue(pressed: bool, hover: bool): (r: Transform)
    ensures r.scalePermille < 1000 <==> pressed
    ensures r.translateY < 0 <==> !pressed && hover
    ensures r == Transform(0, 1000) <==> !pressed && !hover
  {
    if pressed then Transform(0, 985)
    else if hover then Transform(-2, 1030)
    else Transform(0, 1000)
  }

  /** The element's box shadow: the preset of the tier the state resolves to. */
  function BoxShadowValue(pressed: bool, hover: bool, v: Variant): (r: Shadow)
    ensures r == PresetShadow(ResolveTier(pressed, hover), v)
  {
    if pressed then ActiveShadow(v) else if hover then HoverShadow(v) else BaseShadow(v)
  }

  /** The look of the tile's face. */
  datatype Face = DashedAmber | SolidWhite

  function BgStyle(v: Variant): (f: Face)
    ensures f == DashedAmber <==> v == Dashed
  {
    if v == Dashed then DashedAmber else SolidWhite
  }

  // ---------------------------------------------------------------------
  // Accessibility and text

  function Role(p: TileProps): (role: string)
    ensures role == "button" <==> p.hasOnClick
    ensures role == "button" || role == "group"
  {
    if p.hasOnClick then "button" else "group"
  }

  /** "Tile " in the tile's language, the prefix of every label. */
  const LabelPrefix: string := "بلاطة "

  /** The label used when the tile has no title: "information tile". */
  const FallbackLabel: string := "بلاطة معلومات"

  /** The aria-label: never empty, always starting with the tile prefix,
      naming the title when there is one and the fallback otherwise. */
  function AriaLabel(title: string): (aria: string)
    ensures |aria| > |LabelPrefix| && aria[..|LabelPrefix|] == LabelPrefix
    ensures title != "" ==> aria[|LabelPrefix|..] == title
    ensures title == "" ==> aria == FallbackLabel
  {
    if title != "" then LabelPrefix + title else FallbackLabel
  }

  /** The title line: shown iff there is a title, ending in ":" iff
      `showColon`. */
  function TitleLine(p: TileProps): (line: Option<string>)
    ensures line.Some? <==> p.title != ""
    ensures line.Some? ==> |line.value| == |p.title| + (if p.showColon then 1 else 0)
    ensures line.Some? ==> line.value[..|p.title|] == p.title
    ensures line.Some? && p.showColon ==> line.value[|line.value| - 1] == ':'
  {
    if p.title != "" then Some(p.title + (if p.showColon then ":" else "")) else None
  }

  /** The value line: shown iff there is a value, as given. */
  function ValueLine(p: TileProps): (line: Option<string>)
    ensures line.Some? <==> p.value != ""
    ensures line.Some? ==> line.value == p.value
  {
    if p.value != "" then Some(p.value) else None
  }

  // ---------------------------------------------------------------------
  // Rendering

  datatype TileView = TileView(
    role: string,
    tabIndex: int,
    ariaLabel: string,
    transform: Transform,
    boxShadow: Shadow,
    face: Face,
    glowCentre: GlowPos,
    glowVisible: bool,
    title: Option<string>,
    value: Option<string>,
    centered: bool)

  /** The rendered tile. It is always focusable; transform and shadow come
      from the same tier; the glow shows exactly while hovered. */
  function Render(p: TileProps, s: TileState): (v: TileView)
    ensures v.tabIndex == 0
    ensures v.role == Role(p) && v.ariaLabel == AriaLabel(p.title)
    ensures v.boxShadow == PresetShadow(ResolveTier(s.pressed, s.hovered), VariantOf(p.variant))
    ensures v.transform.scalePermille < 1000 <==> v.boxShadow == ActiveShadow(VariantOf(p.variant))
    ensures v.transform.translateY < 0 <==> v.boxShadow == HoverShadow(VariantOf(p.variant))
    ensures v.transform == Transform(0, 1000) <==> v.boxShadow == BaseShadow(VariantOf(p.variant))
    ensures v.face == BgStyle(VariantOf(p.variant))
    ensures v.glowCentre == GlowCentre(s.glow)
    ensures v.glowVisible == s.hovered
    ensures v.title == TitleLine(p) && v.value == ValueLine(p)
    ensures v.centered <==> p.align == "center"
  {
    var variant := VariantOf(p.variant);
    TileView(
      Role(p), 0, AriaLabel(p.title),
      TransformValue(s.pressed, s.hovered),
      BoxShadowValue(s.pressed, s.hovered, variant),
      BgStyle(variant),
      GlowCentre(s.glow),
      s.hovered,
      TitleLine(p), ValueLine(p),
      p.align == "center")
  }

  // ---------------------------------------------------------------------
  // Properties of the presets

  /** Pressing gives the tightest, lowest shadow; hovering the largest. */
  lemma ShadowOrdering(v: Variant)
    ensures ActiveShadow(v).offsetY < BaseShadow(v).offsetY < HoverShadow(v).offsetY
    ensures ActiveShadow(v).blur < BaseShadow(v).blur < HoverShadow(v).blur
  {
  }

  /** Transform and shadow agree on one tier: the sinking transform comes
      with the active shadow, the lifting one with the hover shadow, the
      resting one with the base shadow. */
  lemma TransformAndShadowAgree(pressed: bool, hover: bool, v: Variant)
    ensures TransformValue(pressed, hover).scalePermille < 1000 <==> BoxShadowValue(pressed, hover, v) == ActiveShadow(v)
    ensures TransformValue(pressed, hover).translateY < 0 <==> BoxShadowValue(pressed, hover, v) == HoverShadow(v)
    ensures TransformValue(pressed, hover) == Transform(0, 1000) <==> BoxShadowValue(pressed, hover, v) == BaseShadow(v)
  {
  }

  // ---------------------------------------------------------------------
  // Properties of event sequences

  lemma {:induction false} RunAppend(s: TileState, a: seq<Event>, b: seq<Event>, p: TileProps)
    ensures Run(s, a + b, p) == Run(Run(s, a, p), b, p)
    decreases |a|
  {
    if a == [] {
      assert a + b == b;
    } else {
      assert (a + b)[0] == a[0] && (a + b)[1..] == a[1..] + b;
      RunAppend(Step(s, a[0], p), a[1..], b, p);
    }
  }

  /** DOM events never change `motionOK`; only the media query does. */
  lemma {:induction false} MotionOnlyFromMediaQuery(s: TileState, es: seq<Event>, p: TileProps)
    requires NoMediaChange(es)
    ensures Run(s, es, p).motionOK == s.motionOK
    decreases |es|
  {
    if es != [] {
      assert !es[0].MediaChange?;
      assert NoMediaChange(es[1..]) by {
        forall i | 0 <= i < |es[1..]| ensures !es[1..][i].MediaChange? {
          assert es[1..][i] == es[i + 1];
        }
      }
      MotionOnlyFromMediaQuery(Step(s, es[0], p), es[1..], p);
    }
  }

  /** The ref is never changed by an event. */
  lemma {:induction false} ElementUnchanged(s: TileState, es: seq<Event>, p: TileProps)
    ensures Run(s, es, p).hasElement == s.hasElement
    decreases |es|
  {
    if es != [] {
      ElementUnchanged(Step(s, es[0], p), es[1..], p);
    }
  }

  /** While motion is reduced (and stays so), or while there is no element,
      no number of pointer moves changes the published glow position. */
  lemma {:induction false} GlowFrozen(s: TileState, es: seq<Event>, p: TileProps)
    requires (!s.motionOK && NoMediaChange(es)) || !s.hasElement
    ensures Run(s, es, p).glow == s.glow
    decreases |es|
  {
    if es != [] {
      var s' := Step(s, es[0], p);
      assert NoMediaChange(es) ==> NoMediaChange(es[1..]) by {
        if NoMediaChange(es) {
          forall i | 0 <= i < |es[1..]| ensures !es[1..][i].MediaChange? {
            assert es[1..][i] == es[i + 1];
          }
        }
      }
      assert NoMediaChange(es) ==> !es[0].MediaChange?;
      GlowFrozen(s', es[1..], p);
    }
  }

  /** Once the media query starts to match, later DOM events leave the
      glow where it was. */
  lemma ReducedMotionStopsGlow(s: TileState, es: seq<Event>, p: TileProps)
    requires NoMediaChange(es)
    ensures Run(s, [MediaChange(true)] + es, p).glow == s.glow
    ensures !Run(s, [MediaChange(true)] + es, p).motionOK
  {
    RunAppend(s, [MediaChange(true)], es, p);
    var s' := Step(s, MediaChange(true), p);
    assert Run(s, [MediaChange(true)], p) == s';
    GlowFrozen(s', es, p);
    MotionOnlyFromMediaQuery(s', es, p);
  }

  /** `onClick` is called exactly once per Space/Enter key-up, and never
      without a callback. */
  lemma {:induction false} ActivationCount(s: TileState, es: seq<Event>, p: TileProps)
    ensures Run(s, es, p).activations == s.activations + (if p.hasOnClick then Activations(es) else 0)
    decreases |es|
  {
    if es != [] {
      ActivationCount(Step(s, es[0], p), es[1..], p);
    }
  }

  /** A released tile stays released until something presses it. */
  lemma {:induction false} StaysReleased(s: TileState, es: seq<Event>, p: TileProps)
    requires !s.pressed && NoPress(es)
    ensures !Run(s, es, p).pressed
    decreases |es|
  {
    if es != [] {
      assert !IsPress(es[0]);
      assert NoPress(es[1..]) by {
        forall i | 0 <= i < |es[1..]| ensures !IsPress(es[1..][i]) {
          assert es[1..][i] == es[i + 1];
        }
      }
      StaysReleased(Step(s, es[0], p), es[1..], p);
    }
  }

  /** Leaving clears the press for good: a press held while the pointer
      drags off does not come back until a new press. */
  lemma LeaveNeverLeavesPressStuck(s: TileState, es: seq<Event>, p: TileProps)
    requires NoPress(es)
    ensures !Run(s, [MouseLeave] + es, p).pressed
  {
    RunAppend(s, [MouseLeave], es, p);
    assert Run(s, [MouseLeave], p) == Step(s, MouseLeave, p);
    StaysReleased(Step(s, MouseLeave, p), es, p);
  }

  /** With a real mouse, `hovered` tracks exactly whether the pointer is
      over the tile, and the tile is never pressed without being hovered. */
  lemma {:induction false} MousePressImpliesHover(s: TileState, inside: bool, es: seq<Event>, p: TileProps)
    requires s.hovered == inside && (s.pressed ==> s.hovered)
    requires MouseTrace(inside, es)
    ensures Run(s, es, p).hovered == InsideAfterAll(inside, es)
    ensures Run(s, es, p).pressed ==> Run(s, es, p).hovered
    decreases |es|
  {
    if es != [] {
      MousePressImpliesHover(Step(s, es[0], p), InsideAfter(inside, es[0]), es[1..], p);
    }
  }

  // ---------------------------------------------------------------------
  // Scenarios

  /** Touch has no hover: a touch press from rest is pressed but not hovered. */
  lemma TouchPressesWithoutHover(p: TileProps)
    ensures Run(Initial, [TouchStart], p).pressed
    ensures !Run(Initial, [TouchStart], p).hovered
  {
  }

  /** Keys other than Space and Enter do nothing. */
  lemma OtherKeysInert(s: TileState, key: string, p: TileProps)
    requires !IsActivationKey(key)
    ensures Step(s, KeyDown(key), p) == s && Step(s, KeyUp(key), p) == s
    ensures !PreventsDefault(KeyDown(key)) && !PreventsDefault(KeyUp(key))
  {
  }

  /** Enter down then Enter up: pressed in between, released after, and
      exactly one activation when there is a callback. */
  lemma EnterActivatesOnce(s: TileState, p: TileProps)
    ensures Run(s, [KeyDown("Enter")], p).pressed
    ensures !Run(s, [KeyDown("Enter"), KeyUp("Enter")], p).pressed
    ensures Run(s, [KeyDown("Enter"), KeyUp("Enter")], p).activations
            == s.activations + (if p.hasOnClick then 1 else 0)
  {
  }

  /** The key-up handler reads the callback of the latest render: if
      `onClick` is gone by the time Enter comes back up, nothing is called,
      and if it arrived meanwhile, it is called once. */
  lemma CallbackReadAtKeyUp(s: TileState, p: TileProps, q: TileProps)
    ensures var down := Step(s, KeyDown("Enter"), p);
            Step(down, KeyUp("Enter"), q).activations == s.activations + (if q.hasOnClick then 1 else 0)
  {
  }

  /** A dashed tile that is entered, moved over, clicked and left ends
      released, unhovered, in the dashed base look, with no activation. */
  lemma DashedClickScenario(pos: GlowPos)
    ensures var p := DefaultProps.(variant := "dashed");
            var s := Run(Initial.(hasElement := true), [MouseEnter, MouseMove(pos), MouseDown, MouseUp, MouseLeave], p);
            !s.hovered && !s.pressed && s.activations == 0 && s.glow == Some(pos) &&
            Render(p, s).boxShadow == BaseShadow(Dashed) &&
            Render(p, s).transform == Transform(0, 1000)
  {
    var p := DefaultProps.(variant := "dashed");
    var s0 := Initial.(hasElement := true);
    var es := [MouseEnter, MouseMove(pos), MouseDown, MouseUp, MouseLeave];
    var s1 := Step(s0, MouseEnter, p);
    var s2 := Step(s1, MouseMove(pos), p);
    var s3 := Step(s2, MouseDown, p);
    var s4 := Step(s3, MouseUp, p);
    var s5 := Step(s4, MouseLeave, p);
    assert Run(s4, es[4..], p) == s5;
    assert Run(s3, es[3..], p) == s5;
    assert Run(s2, es[2..], p) == s5;
    assert Run(s1, es[1..], p) == s5;
    assert Run(s0, es, p) == s5;
  }
}
