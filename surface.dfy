/** Vocabulary shared by the two interactive wrappers (InteractiveTile and
    InteractiveContainer): the events their elements receive, the three
    visual tiers a surface can be in, the structured form of the transform
    and shadow presets, and predicates over event sequences used to state
    properties of whole interactions. */
module Surface {

  datatype Option<+T> = None | Some(value: T)

  /** The position published to the glow layer as the `--mx` / `--my`
      style properties. How it is derived from the pointer and the
      element's bounding box is not part of this model; only whether it is
      written matters. */
  datatype GlowPos = GlowPos(mx: real, my: real)

  /** Everything a surface element can be told: DOM pointer, touch and
      keyboard events, and a change of the reduced-motion media query
      (`matches` is true when the user asks for reduced motion). */
  datatype Event =
    | MouseEnter
    | MouseLeave
    | MouseMove(pos: GlowPos)
    | MouseDown
    | MouseUp
    | TouchStart
    | TouchEnd
    | KeyDown(key: string)
    | KeyUp(key: string)
    | MediaChange(matches: bool)

  /** The keys that activate a focused tile: Space and Enter. */
  predicate IsActivationKey(key: string) {
    key == " " || key == "Enter"
  }

  /** The visual tier a surface is drawn in. */
  datatype Tier = Base | Hover | Active

  /** Reference definition of the style table: pressing dominates hovering. */
  function ResolveTier(pressed: bool, hovered: bool): (t: Tier)
    ensures t == Active <==> pressed
    ensures t == Hover <==> !pressed && hovered
    ensures t == Base <==> !pressed && !hovered
  {
    if pressed then Active else if hovered then Hover else Base
  }

  /** A `translateY(..px) scale(..)` transform, the scale in thousandths. */
  datatype Transform = Transform(translateY: int, scalePermille: nat)

  /** The inset layer a shadow preset may carry: none, a one-pixel white
      highlight at the top, or a two-pixel faint dark shade. */
  datatype Inset = NoInset | Highlight | Shade

  /** A drop-shadow preset: vertical offset and blur radius in pixels, plus
      its inset layer. Colours are not modelled. */
  datatype Shadow = Shadow(offsetY: nat, blur: nat, inset: Inset)

  /** Where the glow is centred: the written position, or the middle of the
      element (the CSS fallback 0.5) when none was written. */
  function GlowCentre(g: Option<GlowPos>): (c: GlowPos)
    ensures g.Some? ==> c == g.value
    ensures g.None? ==> c == GlowPos(0.5, 0.5)
  {
    match g
    case None => GlowPos(0.5, 0.5)
    case Some(pos) => pos
  }

  /** Events that can only come from a mouse. */
  predicate IsMouse(e: Event) {
    e.MouseEnter? || e.MouseLeave? || e.MouseMove? || e.MouseDown? || e.MouseUp?
  }

  /** Events that set `pressed`. */
  predicate IsPress(e: Event) {
    e.MouseDown? || e.TouchStart? || (e.KeyDown? && IsActivationKey(e.key))
  }

  /** Key-up events that release a tile and fire its callback. */
  predicate IsActivation(e: Event) {
    e.KeyUp? && IsActivationKey(e.key)
  }

  /** The sequence holds only DOM events: no change of the media query. */
  predicate NoMediaChange(es: seq<Event>) {
    forall i :: 0 <= i < |es| ==> !es[i].MediaChange?
  }

  /** The sequence holds no event that sets `pressed`. */
  predicate NoPress(es: seq<Event>) {
    forall i :: 0 <= i < |es| ==> !IsPress(es[i])
  }

  /** Number of activating key-ups in a sequence. */
  function Activations(es: seq<Event>): (n: nat)
    ensures n <= |es|
    ensures (forall i :: 0 <= i < |es| ==> !IsActivation(es[i])) ==> n == 0
  {
    if es == [] then 0
    else (if IsActivation(es[0]) then 1 else 0) + Activations(es[1..])
  }

  /** Whether the mouse pointer is over the element after `e`, given
      whether it was before. */
  function InsideAfter(inside: bool, e: Event): bool {
    if e.MouseEnter? then true else if e.MouseLeave? then false else inside
  }

  /** Whether the mouse pointer is over the element after all of `es`. */
  function InsideAfterAll(inside: bool, es: seq<Event>): bool
    decreases |es|
  {
    if es == [] then inside else InsideAfterAll(InsideAfter(inside, es[0]), es[1..])
  }

  /** A sequence a real mouse can produce: only mouse events, and a button
      goes down on the element only while the pointer is over it. */
  predicate MouseTrace(inside: bool, es: seq<Event>)
    decreases |es|
  {
    es == [] ||
    (IsMouse(es[0]) && (es[0].MouseDown? ==> inside) &&
     MouseTrace(InsideAfter(inside, es[0]), es[1..]))
  }
}
