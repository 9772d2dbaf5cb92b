/** The InteractiveContainer wrapper: a panel around arbitrary children
    with the same hover / press state machine as the tile, but with no
    keyboard handling and no callback, a single set of presets, and a glow
    layer that the `glow` prop switches on and off.

    The handlers are the methods of class `Container`, each proved against
    `Step`; the style and glow-layer rules are pure functions. */
module InteractiveContainer {
  import opened Surface

  /** The props the model uses; the children are passed through untouched. */
  datatype ContainerProps = ContainerProps(glow: bool)

  const DefaultProps := ContainerProps(true)

  /** The container's three state hooks, the glow position written into
      its style, and whether its element ref is set. */
  datatype ContainerState = ContainerState(
    hovered: bool,
    pressed: bool,
    motionOK: bool,
    glowPos: Option<GlowPos>,
    hasElement: bool)

  const Initial := ContainerState(false, false, true, None, false)

  // ---------------------------------------------------------------------
  // The state machine

  /** How one event changes the container. Key events reach no handler;
      the move handler writes the glow only when motion is allowed, the
      glow is on and the element exists. */
  function Step(s: ContainerState, e: Event, p: ContainerProps): (r: ContainerState)
    ensures e.MouseLeave? ==> !r.hovered && !r.pressed
    ensures e.MouseEnter? ==> r.hovered && r.pressed == s.pressed
    ensures !e.MouseEnter? && !e.MouseLeave? ==> r.hovered == s.hovered
    ensures e.MouseDown? || e.TouchStart? ==> r.pressed && r.hovered == s.hovered
    ensures e.MouseUp? || e.TouchEnd? ==> !r.pressed && r.hovered == s.hovered
    ensures r.pressed != s.pressed ==> e.MouseDown? || e.TouchStart? || e.MouseUp? || e.TouchEnd? || e.MouseLeave?
    ensures e.KeyDown? || e.KeyUp? ==> r == s
    ensures e.MediaChange? ==> r.motionOK == !e.matches
    ensures !e.MediaChange? ==> r.motionOK == s.motionOK
    ensures e.MouseMove? && s.motionOK && p.glow && s.hasElement ==> r.glowPos == Some(e.pos)
    ensures r.glowPos != s.glowPos ==> e.MouseMove? && s.motionOK && p.glow && s.hasElement
    ensures r.hasElement == s.hasElement
  {
    match e
    case MouseEnter => s.(hovered := true)
    case MouseLeave => s.(hovered := false, pressed := false)
    case MouseMove(pos) =>
      if !s.motionOK || !p.glow then s
      else if !s.hasElement then s
      else s.(glowPos := Some(pos))
    case MouseDown => s.(pressed := true)
    case MouseUp => s.(pressed := false)
    case TouchStart => s.(pressed := true)
    case TouchEnd => s.(pressed := false)
    case KeyDown(_) => s
    case KeyUp(_) => s
    case MediaChange(matches) => s.(motionOK := !matches)
  }

  /** The state after a sequence of events, one at a time. */
  function Run(s: ContainerState, es: seq<Event>, p: ContainerProps): ContainerState
    decreases |es|
  {
    if es == [] then s else Run(Step(s, es[0], p), es[1..], p)
  }

  // ---------------------------------------------------------------------
  // The component's handlers, updating its state in place

  class Container {
    /** The props of the latest render. */
    var props: ContainerProps
    var isHover: bool
    var isPressed: bool
    var motionOK: bool
    /** The `--mx` / `--my` properties on the element's style, if written. */
    var glowPos: Option<GlowPos>
    /** Whether `ref.current` is set. */
    var hasElement: bool

    function State(): ContainerState
      reads this
    {
      ContainerState(isHover, isPressed, motionOK, glowPos, hasElement)
    }

    /** What the container renders now. */
    function View(): ContainerView
      reads this
    {
      Render(props, State())
    }

    constructor (p: ContainerProps)
      ensures props == p && State() == Initial
    {
      props := p;
      isHover, isPressed, motionOK := false, false, true;
      glowPos, hasElement := None, false;
    }

    /** A re-render with new props: the state hooks, the element and its
        style survive, and later handlers read the new props. */
    method SetProps(p: ContainerProps)
      modifies this
      ensures props == p && State() == old(State())
    {
      props := p;
    }

    /** React sets or clears `ref.current`. */
    method AttachRef(present: bool)
      modifies this
      ensures props == old(props)
      ensures State() == old(State()).(hasElement := present)
    {
      hasElement := present;
    }

    /** The mount effect. `query` is None when there is no `window` or no
        `window.matchMedia`; otherwise it holds whether
        `(prefers-reduced-motion: reduce)` matches. */
    method MountEffect(query: Option<bool>)
      modifies this
      ensures props == old(props)
      ensures query.None? ==> State() == old(State())
      ensures query.Some? ==> State() == Step(old(State()), MediaChange(query.value), props)
    {
      if query.Some? {
        motionOK := !query.value;
      }
    }

    /** The media query's change listener. */
    method OnMediaChange(matches: bool)
      modifies this
      ensures props == old(props)
      ensures State() == Step(old(State()), MediaChange(matches), props)
      ensures motionOK == !matches
    {
      motionOK := !matches;
    }

    method OnMouseEnter()
      modifies this
      ensures props == old(props)
      ensures State() == Step(old(State()), MouseEnter, props)
      ensures isHover && isPressed == old(isPressed)
    {
      isHover := true;
    }

    method OnMouseLeave()
      modifies this
      ensures props == old(props)
      ensures State() == Step(old(State()), MouseLeave, props)
      ensures !isHover && !isPressed
    {
      isHover := false;
      isPressed := false;
    }

    /** `updateGlow`: a no-op unless motion is allowed, the glow is on and
        the element exists. */
    method UpdateGlow(pos: GlowPos)
      modifies this
      ensures props == old(props)
      ensures State() == Step(old(State()), MouseMove(pos), props)
      ensures glowPos == if old(motionOK) && props.glow && old(hasElement) then Some(pos) else old(glowPos)
    {
      if !motionOK || !props.glow {
        return;
      }
      if !hasElement {
        return;
      }
      glowPos := Some(pos);
    }

    /** Bound to mouse-down and touch-start. */
    method PressDown()
      modifies this
      ensures props == old(props)
      ensures State() == Step(old(State()), MouseDown, props)
      ensures State() == Step(old(State()), TouchStart, props)
      ensures isPressed && isHover == old(isHover)
    {
      isPressed := true;
    }

    /** Bound to mouse-up and touch-end. */
    method PressUp()
      modifies this
      ensures props == old(props)
      ensures State() == Step(old(State()), MouseUp, props)
      ensures State() == Step(old(State()), TouchEnd, props)
      ensures !isPressed && isHover == old(isHover)
    {
      isPressed := false;
    }

    /** The element's event bindings: each event goes to its handler; key
        events have none. */
    method Dispatch(e: Event)
      modifies this
      ensures props == old(props)
      ensures State() == Step(old(State()), e, props)
    {
      match e
      case MouseEnter => OnMouseEnter();
      case MouseLeave => OnMouseLeave();
      case MouseMove(pos) => UpdateGlow(pos);
      case MouseDown => PressDown();
      case MouseUp => PressUp();
      case TouchStart => PressDown();
      case TouchEnd => PressUp();
      case KeyDown(_) =>
      case KeyUp(_) =>
      case MediaChange(matches) => OnMediaChange(matches);
    }
  }

  // ---------------------------------------------------------------------
  // Style presets and the glow layer

  function BaseShadow(): Shadow { Shadow(10, 28, NoInset) }
  function HoverShadow(): Shadow { Shadow(16, 38, NoInset) }
  function ActiveShadow(): Shadow { Shadow(8, 20, NoInset) }

  /** The shadow preset of a tier. */
  function PresetShadow(t: Tier): Shadow {
    match t
    case Base => BaseShadow()
    case Hover => HoverShadow()
    case Active => ActiveShadow()
  }

  /** The container's transform: it sinks exactly while pressed, lifts
      exactly while hovered and not pressed, and rests otherwise. */
  function TransformValue(pressed: bool, hover: bool): (r: Transform)
    ensures r.scalePermille < 1000 <==> pressed
    ensures r.translateY < 0 <==> !pressed && hover
    ensures r == Transform(0, 1000) <==> !pressed && !hover
  {
    if pressed then Transform(0, 988)
    else if hover then Transform(-3, 1020)
    else Transform(0, 1000)
  }

  /** The container's shadow: the preset of the tier the state resolves to. */
  function ShadowValue(pressed: bool, hover: bool): (r: Shadow)
    ensures r == PresetShadow(ResolveTier(pressed, hover))
  {
    if pressed then ActiveShadow() else if hover then HoverShadow() else BaseShadow()
  }

  /** What the glow layer paints: a radial gradient centred at the glow
      position, or nothing. */
  datatype GlowFill = Gradient(centre: GlowPos) | Transparent

  datatype GlowLayer = GlowLayer(fill: GlowFill, visible: bool)

  /** The glow layer: present iff the glow is on; transparent iff motion
      is reduced; visible iff hovered. */
  function GlowLayerOf(p: ContainerProps, s: ContainerState): (r: Option<GlowLayer>)
    ensures r.Some? <==> p.glow
    ensures r.Some? ==> (r.value.fill.Transparent? <==> !s.motionOK)
    ensures r.Some? && s.motionOK ==> r.value.fill.centre == GlowCentre(s.glowPos)
    ensures r.Some? ==> (r.value.visible <==> s.hovered)
  {
    if p.glow then
      Some(GlowLayer(if s.motionOK then Gradient(GlowCentre(s.glowPos)) else Transparent, s.hovered))
    else None
  }

  datatype ContainerView = ContainerView(transform: Transform, shadow: Shadow, glowLayer: Option<GlowLayer>)

  /** The rendered container: transform and shadow come from one tier. */
  function Render(p: ContainerProps, s: ContainerState): (v: ContainerView)
    ensures v.shadow == PresetShadow(ResolveTier(s.pressed, s.hovered))
    ensures v.transform.scalePermille < 1000 <==> v.shadow == ActiveShadow()
    ensures v.transform.translateY < 0 <==> v.shadow == HoverShadow()
    ensures v.transform == Transform(0, 1000) <==> v.shadow == BaseShadow()
    ensures v.glowLayer == GlowLayerOf(p, s)
    ensures v.glowLayer.Some? <==> p.glow
  {
    ContainerView(TransformValue(s.pressed, s.hovered), ShadowValue(s.pressed, s.hovered), GlowLayerOf(p, s))
  }

  // ---------------------------------------------------------------------
  // Properties of the presets

  /** Pressing gives the tightest, lowest shadow; hovering the largest. */
  lemma ShadowOrdering()
    ensures ActiveShadow().offsetY < BaseShadow().offsetY < HoverShadow().offsetY
    ensures ActiveShadow().blur < BaseShadow().blur < HoverShadow().blur
  {
  }

  /** Transform and shadow agree on one tier. */
  lemma TransformAndShadowAgree(pressed: bool, hover: bool)
    ensures TransformValue(pressed, hover).scalePermille < 1000 <==> ShadowValue(pressed, hover) == ActiveShadow()
    ensures TransformValue(pressed, hover).translateY < 0 <==> ShadowValue(pressed, hover) == HoverShadow()
    ensures TransformValue(pressed, hover) == Transform(0, 1000) <==> ShadowValue(pressed, hover) == BaseShadow()
  {
  }

  // ---------------------------------------------------------------------
  // Properties of event sequences

  lemma {:induction false} RunAppend(s: ContainerState, a: seq<Event>, b: seq<Event>, p: ContainerProps)
    ensures Run(s, a + b, p) == Run(Run(s, a, p), b, p)
    decreases |a|
  {
    if a == [] {
      assert a + b == b;
    } else {
      assert (a + b)[0] == a[0] && (a + b)[1..] == a[1..] + b;
      RunAppend(Step(s, a[0], p), a[1..], b, p);
    }
  }

  /** DOM events never change `motionOK`; only the media query does. */
  lemma {:induction false} MotionOnlyFromMediaQuery(s: ContainerState, es: seq<Event>, p: ContainerProps)
    requires NoMediaChange(es)
    ensures Run(s, es, p).motionOK == s.motionOK
    decreases |es|
  {
    if es != [] {
      assert !es[0].MediaChange?;
      assert NoMediaChange(es[1..]) by {
        forall i | 0 <= i < |es[1..]| ensures !es[1..][i].MediaChange? {
          assert es[1..][i] == es[i + 1];
        }
      }
      MotionOnlyFromMediaQuery(Step(s, es[0], p), es[1..], p);
    }
  }

  /** With the glow off, with no element, or while motion is reduced (and
      stays so), no number of pointer moves changes the glow position. */
  lemma {:induction false} GlowFrozen(s: ContainerState, es: seq<Event>, p: ContainerProps)
    requires !p.glow || !s.hasElement || (!s.motionOK && NoMediaChange(es))
    ensures Run(s, es, p).glowPos == s.glowPos
    decreases |es|
  {
    if es != [] {
      assert NoMediaChange(es) ==> NoMediaChange(es[1..]) by {
        if NoMediaChange(es) {
          forall i | 0 <= i < |es[1..]| ensures !es[1..][i].MediaChange? {
            assert es[1..][i] == es[i + 1];
          }
        }
      }
      assert NoMediaChange(es) ==> !es[0].MediaChange?;
      GlowFrozen(Step(s, es[0], p), es[1..], p);
    }
  }

  /** Once the media query starts to match, later DOM events leave the
      glow where it was, and the glow layer (if any) turns transparent. */
  lemma ReducedMotionStopsGlow(s: ContainerState, es: seq<Event>, p: ContainerProps)
    requires NoMediaChange(es)
    ensures Run(s, [MediaChange(true)] + es, p).glowPos == s.glowPos
    ensures var v := Render(p, Run(s, [MediaChange(true)] + es, p));
            v.glowLayer.Some? ==> v.glowLayer.value.fill == Transparent
  {
    RunAppend(s, [MediaChange(true)], es, p);
    var s' := Step(s, MediaChange(true), p);
    assert Run(s, [MediaChange(true)], p) == s';
    GlowFrozen(s', es, p);
    MotionOnlyFromMediaQuery(s', es, p);
  }

  /** Keys reach no handler: a sequence of key events changes nothing. */
  lemma {:induction false} KeysIgnored(s: ContainerState, es: seq<Event>, p: ContainerProps)
    requires forall i :: 0 <= i < |es| ==> es[i].KeyDown? || es[i].KeyUp?
    ensures Run(s, es, p) == s
    decreases |es|
  {
    if es != [] {
      assert es[0].KeyDown? || es[0].KeyUp?;
      assert forall i :: 0 <= i < |es[1..]| ==> es[1..][i].KeyDown? || es[1..][i].KeyUp? by {
        forall i | 0 <= i < |es[1..]| ensures es[1..][i].KeyDown? || es[1..][i].KeyUp? {
          assert es[1..][i] == es[i + 1];
        }
      }
      KeysIgnored(Step(s, es[0], p), es[1..], p);
    }
  }

  /** The sequence holds neither of the two events the container binds to
      a press: mouse-down and touch-start. Key events may occur. */
  predicate NoPointerPress(es: seq<Event>) {
    forall i :: 0 <= i < |es| ==> !es[i].MouseDown? && !es[i].TouchStart?
  }

  /** A released container stays released until something presses it;
      key events, which it ignores, may come in between. */
  lemma {:induction false} StaysReleased(s: ContainerState, es: seq<Event>, p: ContainerProps)
    requires !s.pressed && NoPointerPress(es)
    ensures !Run(s, es, p).pressed
    decreases |es|
  {
    if es != [] {
      assert !es[0].MouseDown? && !es[0].TouchStart?;
      assert NoPointerPress(es[1..]) by {
        forall i | 0 <= i < |es[1..]| ensures !es[1..][i].MouseDown? && !es[1..][i].TouchStart? {
          assert es[1..][i] == es[i + 1];
        }
      }
      StaysReleased(Step(s, es[0], p), es[1..], p);
    }
  }

  /** Leaving clears the press for good, until a new press. */
  lemma LeaveNeverLeavesPressStuck(s: ContainerState, es: seq<Event>, p: ContainerProps)
    requires NoPointerPress(es)
    ensures !Run(s, [MouseLeave] + es, p).pressed
  {
    RunAppend(s, [MouseLeave], es, p);
    assert Run(s, [MouseLeave], p) == Step(s, MouseLeave, p);
    StaysReleased(Step(s, MouseLeave, p), es, p);
  }

  /** With a real mouse, `hovered` tracks exactly whether the pointer is
      over the container, and it is never pressed without being hovered. */
  lemma {:induction false} MousePressImpliesHover(s: ContainerState, inside: bool, es: seq<Event>, p: ContainerProps)
    requires s.hovered == inside && (s.pressed ==> s.hovered)
    requires MouseTrace(inside, es)
    ensures Run(s, es, p).hovered == InsideAfterAll(inside, es)
    ensures Run(s, es, p).pressed ==> Run(s, es, p).hovered
    decreases |es|
  {
    if es != [] {
      MousePressImpliesHover(Step(s, es[0], p), InsideAfter(inside, es[0]), es[1..], p);
    }
  }

  /** Touch has no hover: a touch press from rest is pressed but not hovered. */
  lemma TouchPressesWithoutHover(p: ContainerProps)
    ensures Run(Initial, [TouchStart], p).pressed
    ensures !Run(Initial, [TouchStart], p).hovered
  {
  }
}
