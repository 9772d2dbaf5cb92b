# Interactive tile and container: a verified model

This project models the two reusable interactive wrappers of a React
front end that draws decorative "service cards":

- **InteractiveTile** is a focusable tile with a title and a value. It lifts
  when hovered and sinks while pressed. While motion is allowed it draws a
  glow that follows the pointer. Space or Enter presses it, and releasing
  the key releases it; when the tile has an `onClick` function, the release
  also calls it.
- **InteractiveContainer** is a panel around arbitrary children. It has the
  same hover/press state machine, but no keyboard handling and no callback.
  It has one fixed set of presets, and its `glow` prop switches the glow
  layer on or off.

Both components hold three state hooks: `isHover`, `isPressed` and
`motionOK`. The hover, press, key and media-query handlers change them.
The pointer-move handler changes none of them: it writes the glow position
into the element's style as `--mx` / `--my`. What is drawn is a pure
function of the props, the three hooks and that written glow position.

The project has three modules:

- `Surface` (`surface.dfy`) holds what the two components share: the
  events an element receives, the three visual tiers (`Base`, `Hover`,
  `Active`), the reference rule `ResolveTier`, the structured transform and
  shadow presets, and predicates over event sequences.
- `InteractiveTile` (`tile.dfy`) holds `Step`, the tile's transition
  function, and its closure `Run` over a sequence of events. The class
  `Tile` has the component's state as fields; its handler methods update
  them in place and are each proved to agree with `Step`. The module also
  holds the style and accessibility rules as functions, and lemmas over
  arbitrary event sequences.
- `InteractiveContainer` (`container.dfy`) does the same for the container,
  including the glow-layer rule.

Modelling choices:

- A preset is a value: a transform `translateY(px) scale(permille)` and a
  shadow given by its vertical offset, blur radius and inset layer.
  Colours are not modelled.
- The glow position written to `--mx` / `--my` is an opaque `GlowPos`. The
  model only records whether and when it is written.
- `ref.current` is the boolean `hasElement`. React sets it with
  `AttachRef`, and no event changes it.
- The reduced-motion preference enters in two ways: as the answer of the
  media query at mount (`MountEffect`, where `None` means `matchMedia` is
  unavailable) and as a `MediaChange` event from the change listener.
- `onClick` is modelled by the boolean `hasOnClick`, which stands for
  `typeof onClick === "function"`. The field `activations` counts the calls
  that the key-up handler makes.
- The container has no key handler, so a key event that reaches it
  changes nothing.
- The props are a field of each class. `SetProps` models a re-render with
  new props: the state survives, and later handlers read the new props.

## Model

| member | source | states |
|---|---|---|
| `Surface.ResolveTier` | frontend/src/components/tiles/InteractiveTile.jsx:77-83 | the reference style table: the tier is Active iff pressed, Hover iff hovered and not pressed, Base iff neither |
| `Surface.GlowCentre` | frontend/src/components/tiles/InteractiveTile.jsx:131 | the glow is centred at the written position, or at the CSS fallback (0.5, 0.5) when none was written |
| `InteractiveTile.Step` | frontend/src/components/tiles/InteractiveTile.jsx:49-123 | one event's effect: leave clears hover and press; enter sets only hover; the press events set and the release events clear only `pressed`; only the media query changes `motionOK`, to the negation of its match; the glow changes only on a move while motion is allowed and the element exists, and then to the move's position; the ref never changes; the activation count rises by exactly one on a Space/Enter key-up with a callback and is otherwise unchanged |
| `InteractiveTile.PreventsDefault` | frontend/src/components/tiles/InteractiveTile.jsx:49-61 | the default action is suppressed exactly for key-down and key-up of Space or Enter |
| `InteractiveTile.Tile.constructor` | frontend/src/components/tiles/InteractiveTile.jsx:18-21 | a new tile is unhovered, unpressed, with motion allowed, no glow written, no element and no activation |
| `InteractiveTile.Tile.SetProps` | frontend/src/components/tiles/InteractiveTile.jsx:7-21 | a re-render replaces the props and keeps every state hook, the ref and the written glow |
| `InteractiveTile.Tile.AttachRef` | frontend/src/components/tiles/InteractiveTile.jsx:100 | setting the ref changes only `hasElement` |
| `InteractiveTile.Tile.MountEffect` | frontend/src/components/tiles/InteractiveTile.jsx:23-27 | without `matchMedia` nothing changes; otherwise `motionOK` becomes the negation of the query's match |
| `InteractiveTile.Tile.OnMediaChange` | frontend/src/components/tiles/InteractiveTile.jsx:28 | the change listener sets `motionOK` to the negation of the match and changes nothing else |
| `InteractiveTile.Tile.OnMouseEnter` | frontend/src/components/tiles/InteractiveTile.jsx:112 | sets hover, leaves press and everything else alone |
| `InteractiveTile.Tile.OnMouseLeave` | frontend/src/components/tiles/InteractiveTile.jsx:113-116 | clears hover and press, whatever the state was |
| `InteractiveTile.Tile.UpdateGlow` | frontend/src/components/tiles/InteractiveTile.jsx:38-47 | writes the glow position iff motion is allowed and the element exists; otherwise the state is unchanged |
| `InteractiveTile.Tile.PressDown` | frontend/src/components/tiles/InteractiveTile.jsx:63 | sets only `pressed`, as both the mouse-down and the touch-start transition |
| `InteractiveTile.Tile.PressUp` | frontend/src/components/tiles/InteractiveTile.jsx:64 | clears only `pressed`, as both the mouse-up and the touch-end transition |
| `InteractiveTile.Tile.HandleKeyDown` | frontend/src/components/tiles/InteractiveTile.jsx:49-54 | Space/Enter sets `pressed` and prevents the default; any other key changes nothing and prevents nothing |
| `InteractiveTile.Tile.HandleKeyUp` | frontend/src/components/tiles/InteractiveTile.jsx:55-61 | Space/Enter clears `pressed`, prevents the default and calls the callback once iff there is one; any other key changes nothing |
| `InteractiveTile.Tile.Dispatch` | frontend/src/components/tiles/InteractiveTile.jsx:112-123 | the element routes every event to its handler, and the resulting state is the one `Step` gives |
| `InteractiveTile.VariantOf` | frontend/src/components/tiles/InteractiveTile.jsx:66 | the dashed look is used exactly when the variant is "dashed"; any other string gives the solid look |
| `InteractiveTile.TransformValue` | frontend/src/components/tiles/InteractiveTile.jsx:77-81 | the tile sinks (scale below one) iff pressed, lifts iff hovered and not pressed, and rests at the identity otherwise |
| `InteractiveTile.BoxShadowValue` | frontend/src/components/tiles/InteractiveTile.jsx:67-83 | the shadow is the variant's preset for the tier `ResolveTier` gives, so pressing dominates hovering |
| `InteractiveTile.BgStyle` | frontend/src/components/tiles/InteractiveTile.jsx:85-93 | the dashed amber face is drawn iff the variant is dashed |
| `InteractiveTile.Role` | frontend/src/components/tiles/InteractiveTile.jsx:102 | the role is "button" iff `onClick` is a function, and "group" otherwise |
| `InteractiveTile.AriaLabel` | frontend/src/components/tiles/InteractiveTile.jsx:104 | the label is never just the prefix and always starts with "بلاطة "; what follows the prefix is the title when there is one, and the label is the fixed fallback when there is none |
| `InteractiveTile.TitleLine` | frontend/src/components/tiles/InteractiveTile.jsx:138-146 | the title line appears iff the title is non-empty; it starts with the title and is one character longer, ending in ":", exactly when `showColon` |
| `InteractiveTile.ValueLine` | frontend/src/components/tiles/InteractiveTile.jsx:147-155 | the value line appears iff the value is non-empty, and shows it unchanged |
| `InteractiveTile.Render` | frontend/src/components/tiles/InteractiveTile.jsx:97-136 | the tile is always focusable; it shows the role, label, face, title line and value line of the rules above; transform and shadow come from the same tier, in all three tiers; the glow is centred at the written position or the fallback and is visible iff hovered; text is centred iff the alignment is "center" |
| `InteractiveTile.ShadowOrdering` | frontend/src/components/tiles/InteractiveTile.jsx:67-75 | for either variant the active shadow is lower and tighter than the base one, and the base one lower and tighter than the hover one |
| `InteractiveTile.TransformAndShadowAgree` | frontend/src/components/tiles/InteractiveTile.jsx:77-83 | the sinking transform comes with the active shadow, the lifting one with the hover shadow, and the resting one with the base shadow, in both directions |
| `InteractiveTile.RunAppend` | frontend/src/components/tiles/InteractiveTile.jsx:112-123 | handling two event sequences one after the other equals handling their concatenation |
| `InteractiveTile.MotionOnlyFromMediaQuery` | frontend/src/components/tiles/InteractiveTile.jsx:21-36 | no sequence of DOM events changes `motionOK` |
| `InteractiveTile.ElementUnchanged` | frontend/src/components/tiles/InteractiveTile.jsx:18 | no sequence of events changes whether the element ref is set |
| `InteractiveTile.GlowFrozen` | frontend/src/components/tiles/InteractiveTile.jsx:38-41 | while motion stays reduced, or while there is no element, no sequence of events changes the glow position |
| `InteractiveTile.ReducedMotionStopsGlow` | frontend/src/components/tiles/InteractiveTile.jsx:28-41 | after the media query starts to match, later DOM events leave the glow position as it was and motion stays disallowed |
| `InteractiveTile.ActivationCount` | frontend/src/components/tiles/InteractiveTile.jsx:55-61 | over any sequence, the key-up handler calls the callback exactly once per Space/Enter key-up when there is a callback, and makes no call when there is none |
| `InteractiveTile.StaysReleased` | frontend/src/components/tiles/InteractiveTile.jsx:63-64 | a released tile stays released through any sequence without a press event |
| `InteractiveTile.LeaveNeverLeavesPressStuck` | frontend/src/components/tiles/InteractiveTile.jsx:113-116 | after a mouse-leave the tile stays released until the next press event, whatever state it was in |
| `InteractiveTile.MousePressImpliesHover` | frontend/src/components/tiles/InteractiveTile.jsx:112-119 | with mouse events only, and the button going down only over the tile, `hovered` equals "the pointer is over the tile" and the tile is never pressed and unhovered |
| `InteractiveTile.TouchPressesWithoutHover` | frontend/src/components/tiles/InteractiveTile.jsx:120-121 | one touch-start from rest gives a pressed tile that is not hovered |
| `InteractiveTile.OtherKeysInert` | frontend/src/components/tiles/InteractiveTile.jsx:49-61 | a key other than Space or Enter changes nothing and prevents nothing, going down or up |
| `InteractiveTile.EnterActivatesOnce` | frontend/src/components/tiles/InteractiveTile.jsx:49-61 | Enter down presses the tile; Enter down then up leaves it released, with exactly one more activation iff there is a callback |
| `InteractiveTile.CallbackReadAtKeyUp` | frontend/src/components/tiles/InteractiveTile.jsx:55-61 | the key-up handler checks the `onClick` of the latest render: an Enter press whose callback is removed before key-up calls nothing, and one whose callback arrives meanwhile calls it once |
| `InteractiveTile.DashedClickScenario` | frontend/src/components/tiles/InteractiveTile.jsx:66-121 | a dashed tile that is entered, moved over, pressed, released and left ends unhovered and released, in the dashed base look at rest, with no activation |
| `InteractiveContainer.Step` | frontend/src/components/tiles/InteractiveContainer.jsx:35-75 | one event's effect: leave clears hover and press; enter sets only hover; down/touch-start set and up/touch-end clear only `pressed`; key events change nothing; only the media query changes `motionOK`; the glow changes only on a move while motion is allowed, the glow is on and the element exists |
| `InteractiveContainer.Container.constructor` | frontend/src/components/tiles/InteractiveContainer.jsx:17-20 | a new container is unhovered, unpressed, with motion allowed, no glow written and no element |
| `InteractiveContainer.Container.SetProps` | frontend/src/components/tiles/InteractiveContainer.jsx:10-20 | a re-render replaces the props and keeps every state hook, the ref and the written glow |
| `InteractiveContainer.Container.AttachRef` | frontend/src/components/tiles/InteractiveContainer.jsx:60 | setting the ref changes only `hasElement` |
| `InteractiveContainer.Container.MountEffect` | frontend/src/components/tiles/InteractiveContainer.jsx:22-26 | without `matchMedia` nothing changes; otherwise `motionOK` becomes the negation of the query's match |
| `InteractiveContainer.Container.OnMediaChange` | frontend/src/components/tiles/InteractiveContainer.jsx:27 | the change listener sets `motionOK` to the negation of the match and changes nothing else |
| `InteractiveContainer.Container.OnMouseEnter` | frontend/src/components/tiles/InteractiveContainer.jsx:69 | sets hover, leaves press and everything else alone |
| `InteractiveContainer.Container.OnMouseLeave` | frontend/src/components/tiles/InteractiveContainer.jsx:70 | clears hover and press, whatever the state was |
| `InteractiveContainer.Container.UpdateGlow` | frontend/src/components/tiles/InteractiveContainer.jsx:35-44 | writes the glow position iff motion is allowed, the glow is on and the element exists; otherwise the state is unchanged |
| `InteractiveContainer.Container.PressDown` | frontend/src/components/tiles/InteractiveContainer.jsx:72-74 | sets only `pressed`, as both the mouse-down and the touch-start transition |
| `InteractiveContainer.Container.PressUp` | frontend/src/components/tiles/InteractiveContainer.jsx:73-75 | clears only `pressed`, as both the mouse-up and the touch-end transition |
| `InteractiveContainer.Container.Dispatch` | frontend/src/components/tiles/InteractiveContainer.jsx:69-75 | the element routes every event to its handler (key events to none), and the resulting state is the one `Step` gives |
| `InteractiveContainer.TransformValue` | frontend/src/components/tiles/InteractiveContainer.jsx:50-54 | the container sinks iff pressed, lifts iff hovered and not pressed, and rests at the identity otherwise |
| `InteractiveContainer.ShadowValue` | frontend/src/components/tiles/InteractiveContainer.jsx:46-56 | the shadow is the preset for the tier `ResolveTier` gives |
| `InteractiveContainer.GlowLayerOf` | frontend/src/components/tiles/InteractiveContainer.jsx:78-92 | the glow layer exists iff `glow`; it is transparent iff motion is reduced, and otherwise a gradient centred at the glow position; it is visible iff hovered |
| `InteractiveContainer.Render` | frontend/src/components/tiles/InteractiveContainer.jsx:58-92 | transform and shadow come from the same tier, in all three tiers, and the glow layer is the one `GlowLayerOf` gives, drawn iff the glow is on |
| `InteractiveContainer.ShadowOrdering` | frontend/src/components/tiles/InteractiveContainer.jsx:46-48 | the active shadow is lower and tighter than the base one, and the base one lower and tighter than the hover one |
| `InteractiveContainer.TransformAndShadowAgree` | frontend/src/components/tiles/InteractiveContainer.jsx:50-56 | sinking goes with the active shadow, lifting with the hover shadow, and rest with the base shadow, in both directions |
| `InteractiveContainer.RunAppend` | frontend/src/components/tiles/InteractiveContainer.jsx:69-75 | handling two event sequences one after the other equals handling their concatenation |
| `InteractiveContainer.MotionOnlyFromMediaQuery` | frontend/src/components/tiles/InteractiveContainer.jsx:20-27 | no sequence of DOM events changes `motionOK` |
| `InteractiveContainer.GlowFrozen` | frontend/src/components/tiles/InteractiveContainer.jsx:35-38 | with the glow off, with no element, or while motion stays reduced, no sequence of events changes the glow position |
| `InteractiveContainer.ReducedMotionStopsGlow` | frontend/src/components/tiles/InteractiveContainer.jsx:27-85 | after the media query starts to match, later DOM events leave the glow position as it was, and any glow layer is transparent |
| `InteractiveContainer.KeysIgnored` | frontend/src/components/tiles/InteractiveContainer.jsx:69-75 | a sequence of key events changes nothing, since the container binds no key handler |
| `InteractiveContainer.StaysReleased` | frontend/src/components/tiles/InteractiveContainer.jsx:72-75 | a released container stays released through any sequence without a mouse-down or touch-start, key events included |
| `InteractiveContainer.LeaveNeverLeavesPressStuck` | frontend/src/components/tiles/InteractiveContainer.jsx:70 | after a mouse-leave the container stays released until the next mouse-down or touch-start, whatever key events come between |
| `InteractiveContainer.MousePressImpliesHover` | frontend/src/components/tiles/InteractiveContainer.jsx:69-73 | with mouse events only, and the button going down only over the container, `hovered` equals "the pointer is over it" and it is never pressed and unhovered |
| `InteractiveContainer.TouchPressesWithoutHover` | frontend/src/components/tiles/InteractiveContainer.jsx:74 | one touch-start from rest gives a pressed container that is not hovered |

## Left out

- `ServiceCardA.jsx`: static markup that only composes the two wrappers. It has no state and no logic.
- Computing the glow position: the code derives it as `(clientX - rect.left) / rect.width` and formats it with `toFixed(4)`. That is floating-point DOM geometry. The model takes the written position as an opaque value.
- Subscribing to the media query: register and unregister the listener, and catch errors. That is a browser API and the React effect lifecycle. The model keeps only what the mount effect and the listener do to `motionOK`.
- The native `onClick` binding on the tile element, and an Enter key-up that is also followed by a synthesized click. Both belong to the browser's event dispatch. `activations` counts only the calls made by the key-up handler.
- Shadow colours, transition timings, blend modes, class names, `testId`, `className`, `style` and the container's children.
- Re-rendering inside a sequence: `Run` and the lemmas over event sequences use one set of props for the whole sequence. A props change between two events is modelled only by `SetProps` on the classes and by `CallbackReadAtKeyUp`.
- React's deferral of state updates: a state setter takes effect at the next render. The model applies each handler's updates at once, in event order.
