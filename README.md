# Tooltip directive: a verified model

This project models the decision logic of the PrimeVue `v-tooltip` directive
(`src/components/tooltip/Tooltip.js`), apart from the DOM. It covers:

- **Modifier normalisation** (`getModifiers`), in module `Modifiers`. A
  non-empty modifier object is used as it is. Otherwise an object argument
  turns the values it stores under `event` and `position` into flags set to
  true. In every other case there are no flags.
- **Placement**, in module `Placement`. This covers the geometry of the four
  sides, the viewport test `isOutOfBounds`, and a specification of where the
  fallback chain of `align` ends up. `Preferred` gives the side the flags
  ask for (top, then left, then bottom, then right by default). `Attempts`
  gives the order of sides that `align` tries. `FirstFit` finds the first of
  those that fits, and `Chosen` is that side, or the preferred side when none
  fits.
- **Directive state**, in module `Directive`. `HostElement` is a class that
  holds the `$_ptooltip*` properties: modifiers, value, disabled, escape and
  id. `Document` is a class that holds the tooltip containers attached to
  the body, keyed by id, each with its `style.left`, `style.top` and
  `className`. `Bind`, `Update`, `Create`, `Show`, `Remove`, `PreAlign`,
  `AlignTop/Bottom/Left/Right` and `Align` are methods that update these
  fields step by step, as the source does. `Align` keeps the source's nested
  conditionals. Its postcondition says that the document ends up holding
  exactly `Placed(Chosen(...))` for the element's tooltip.

Measurements from the DOM are parameters, in `Placement.Layout`:

- the host's bounding client rectangle and outer size;
- the window scroll;
- the viewport size;
- the tooltip's outer size under each class it can carry.

The side classes give the tooltip different padding, so its measured size
depends on the class that `preAlign` has just set. For one class the size is
taken to be the same wherever the tooltip stands (see "## Left out").
`UniqueComponentId` is replaced by a `uid` parameter that is assumed fresh.
Coordinates are `real`.

The model assumes that the tooltip container is absolutely positioned in the
document body. Its bounding client rectangle is then its style position minus
the window scroll, which is what `Placement.ClientRect` computes. Under that
assumption `FitsGeometry` shows that fitting on a side means there is room
between the host and that edge of the viewport. `ChosenIgnoresScroll` shows
that, for a given position of the host in the viewport, the window scroll
plays no part: the scroll that `getHostOffset` adds is taken off again when
the tooltip's client rectangle is measured. Scrolling the page does move the
host within the viewport, and that can change the outcome.

Behaviour of the code that the lemmas make explicit:

- `update` always clears `escape`, and it copies `disabled` without
  defaulting it (`BindUpdateAgree`). This does not change whether `show`
  goes ahead (`BindUpdateSameGuard`).
- A string argument such as `v-tooltip:top` yields no flags
  (`ScalarArgIgnored`). Only an object argument such as
  `{position: 'top'}` selects a side (`PositionArgPrefers`).

## Model

| member | source | states |
|---|---|---|
| Modifiers.CollectFlags | src/components/tooltip/Tooltip.js:272-275 | the reduce over `Object.entries(arg)` produces exactly the keys already in the accumulator plus the values stored under `event` or `position`; those values map to true and other keys keep their values |
| Modifiers.GetModifiers | src/components/tooltip/Tooltip.js:264-279 | a modifier object with at least one key is returned unchanged; otherwise an object argument gives exactly its `event`/`position` values as true flags; otherwise the result is empty |
| Modifiers.OtherKeysIgnored | src/components/tooltip/Tooltip.js:271-275 | an object argument with no `event` or `position` key yields no flags |
| Modifiers.ScalarArgIgnored | src/components/tooltip/Tooltip.js:270-278 | without modifiers, an argument that is not an object yields no flags |
| Placement.SideClassInjective | src/components/tooltip/Tooltip.js:245-250 | the class names `p-tooltip p-component p-tooltip-<side>` of different sides differ, so the class identifies the side |
| Placement.HostOffset | src/components/tooltip/Tooltip.js:197-203 | the host's document position is its bounding client position moved by the window scroll: taking the scroll off again gives back the client position |
| Placement.Position | src/components/tooltip/Tooltip.js:197-243 | top: the tooltip's bottom edge is at the host's top edge; bottom: its top edge is at the host's bottom edge; left: its right edge is at the host's left edge; right: its left edge is at the host's right edge; the cross axis is centred on the host; all in document coordinates (client position plus scroll) |
| Placement.IsOutOfBounds | src/components/tooltip/Tooltip.js:252-261 | true exactly when the tooltip's client rectangle is not contained in [0, viewport width] x [0, viewport height] |
| Directive.OutOfBounds | src/components/tooltip/Tooltip.js:252-261 | `isOutOfBounds(el)` on the element's tooltip as it currently stands in the document: true exactly when its client rectangle is not inside the viewport |
| Placement.FitsGeometry | src/components/tooltip/Tooltip.js:205-261 | a side fits exactly when the tooltip fits between the host and that viewport edge and, centred on the host, fits across |
| Placement.FitsIgnoresScroll | src/components/tooltip/Tooltip.js:197-261 | for a fixed host client rectangle, whether a side fits does not depend on the window scroll |
| Placement.ChosenIgnoresScroll | src/components/tooltip/Tooltip.js:136-261 | for a fixed host client rectangle, the side align ends on does not depend on the window scroll |
| Placement.FirstFit | src/components/tooltip/Tooltip.js:136-195 | the result is none exactly when no side in the list fits; otherwise it fits, it is in the list, and every side before it does not fit |
| Placement.PreferredPrecedence | src/components/tooltip/Tooltip.js:139-177 | `top` beats `left`, `left` beats `bottom`, and with none of the three the side is right |
| Placement.PreferredReadsThreeFlags | src/components/tooltip/Tooltip.js:136-177 | changing any flag other than `top`, `left` and `bottom` (for example `right`) does not change the preferred side |
| Placement.ChosenVertical | src/components/tooltip/Tooltip.js:139-176 | for top and bottom: the preferred side if it fits, else the opposite side if it fits, else the preferred side |
| Placement.ChosenSideways | src/components/tooltip/Tooltip.js:149-194 | for left and the default right: the first that fits of preferred, opposite, top, bottom, else the preferred side |
| Placement.ChosenIsFirstFit | src/components/tooltip/Tooltip.js:136-195 | the chosen side is one of the attempts; if any attempt fits, the chosen one fits and no earlier attempt does; if none fits, it is the preferred side |
| Placement.VerticalStaysVertical | src/components/tooltip/Tooltip.js:139-176 | a tooltip that prefers top or bottom never ends up left or right |
| Placement.PositionArgPrefers | src/components/tooltip/Tooltip.js:264-279 | without modifiers, the argument `{position: s}` makes `s` the preferred side |
| Directive.Bind | src/components/tooltip/Tooltip.js:282-295 | sets modifiers to `getModifiers(options)`; a string value is stored with disabled and escape false; an object's `value` is copied and its `disabled`/`escape` default to false; the id is untouched |
| Directive.Update | src/components/tooltip/Tooltip.js:305-318 | recomputes modifiers; a string value as in bind; for an object, copies `value` and `disabled` (undefined stays undefined) and sets escape to false; the id is untouched |
| Directive.BindUpdateAgree | src/components/tooltip/Tooltip.js:282-318 | bind and update store the same settings exactly when the value is a string, or an object with `disabled` defined and `escape` not truthy |
| Directive.BindUpdateSameGuard | src/components/tooltip/Tooltip.js:282-318 | after bind and after update with the same value, the disabled guard of show gives the same answer |
| Directive.Create | src/components/tooltip/Tooltip.js:96-124 | for a fresh uid, the element's id becomes `uid + "_tooltip"` and a container with that id, no position and no class is attached; nothing else changes |
| Directive.PreAlign | src/components/tooltip/Tooltip.js:245-250 | the element's tooltip moves to (-999, -999) and gets class `p-tooltip p-component p-tooltip-<position>`; no other container changes |
| Directive.AlignRight | src/components/tooltip/Tooltip.js:205-213 | the element's tooltip ends with the right-side class and the right-side position |
| Directive.AlignLeft | src/components/tooltip/Tooltip.js:215-223 | the element's tooltip ends with the left-side class and the left-side position |
| Directive.AlignTop | src/components/tooltip/Tooltip.js:225-233 | the element's tooltip ends with the top-side class and the top-side position |
| Directive.AlignBottom | src/components/tooltip/Tooltip.js:235-243 | the element's tooltip ends with the bottom-side class and the bottom-side position |
| Directive.Align | src/components/tooltip/Tooltip.js:136-195 | after the fallback chain the element's tooltip carries exactly the class and position of the `Chosen` side, and no other container changes |
| Directive.Show | src/components/tooltip/Tooltip.js:67-85 | with `disabled` truthy nothing changes; otherwise the element gets the fresh id and the document gains exactly that tooltip, placed on the `Chosen` side; the settings and modifiers stay as they were |
| Directive.Remove | src/components/tooltip/Tooltip.js:126-134 | for a non-null element the id is cleared and its tooltip, if attached, is detached; no other container changes; a null element changes nothing |
| Directive.HoverAndLeave | src/components/tooltip/Tooltip.js:47-53 | for an enabled tooltip, show followed by hide's remove leaves the document as it was, the element without an id, and its modifiers and settings unchanged |

## Left out

- Event wiring is not modelled: `bindEvents`, `unbindEvents`, the `onMouseEnter`/`onFocus`/`onMouseLeave`/`onBlur`/`onClick` handlers, the window `resize` listener, and the scroll handler of `bindScrollListener`/`unbindScrollListener`. These are listener plumbing on objects outside this model. On the modelled state, `hide` and `unbind` do only what `Remove` does.
- Three effects of `show` are left out: `DomHandler.fadeIn`, the `zIndex` increment and the listeners added after `align`. They are rendering and a global counter.
- The DOM construction in `create` is left out: the arrow and text nodes, and the choice between `innerHTML` and a text node depending on `escape`. `Create` models only the id and the attached container.
- `DomHandler` measurements, `UniqueComponentId` and `ConnectedOverlayScrollHandler` are not part of this model. Their results enter as the `Layout` and `uid` parameters.
- The model assumes the freshness of `uid`, a guarantee of `UniqueComponentId`. `Show` therefore requires that `uid + "_tooltip"` is not already attached.
- IEEE floating point and the `'px'` strings are not modelled. Coordinates are exact reals stored as numbers.
- `document.getElementById(null)` after the id is cleared is treated as finding nothing. Every tooltip id ends in `_tooltip`, so no container has the id `"null"`.
- A directive value that is `null` or `undefined` (the source then throws a TypeError) is not modelled, and neither is a non-string primitive value. The object value's `value` is taken to be a string or undefined.
- Modifiers.GetModifiers: a modifier object's values are kept only as their truthiness, which is all the directive reads of them. Argument values are kept in their property-key string form.
- Directive.Update: `disabled` and `escape` are modelled as possibly undefined booleans, so a non-boolean truthy `disabled` copied by `update` is represented by its truthiness.
- src/components/confirmationservice/ConfirmationService.js is not part of this model: its `install` hook only forwards to an event bus defined in another module.
- src/components/utils/Utils.js is not part of this model: it only re-exports other modules.
- The tooltip's measured size is modelled as depending only on its class, not on where it stands. The `alignTop/Bottom/Left/Right` functions measure the tooltip while `preAlign` has it parked at (-999, -999). `isOutOfBounds` measures it again at its final position. An auto-width box near the viewport's right edge can wrap and get narrower, so in a browser the two measurements can differ. `FitsGeometry`, `Chosen` and `Align` rely on them being equal.
