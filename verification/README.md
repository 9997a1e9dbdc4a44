# Spinelli name wheel — a Dafny model

Spinelli is a web page with a prize wheel. Visitors type names into a field, and each name becomes a coloured segment of the wheel. Pressing "spin" makes the Winwheel engine turn the wheel and stop on a winner. This project models the state the page script keeps beside the engine, and the five event handlers that change it:

- the spin button's click handler;
- `alertPrize`, which the engine calls when the wheel stops;
- the add button's click handler;
- the name field's Enter-key handler;
- the remove button's click handler.

The state (`Wheel.State`) has four parts:

- the ordered segments, each a label and a fill;
- the colour cursor `colorIndex`;
- a `spinning` flag, which is `spinButton.disabled`;
- what the result area shows.

Each handler is a pure function. It returns the next state and the `alert` it raised, if any. An alert is modelled as an abstract `Warning`, and the state does not change when one is raised.

Winwheel is seen only through what the script relies on:

- `numSegments` is the length of the segment list;
- `addSegment` adds at the end, as the comment at `css/js/script.js:90` says;
- `deleteSegment` removes the last segment, as the comment at `css/js/script.js:113` says.

The model takes those two comments as the definition of append and remove-last.

The JavaScript semantics the handlers depend on are spelled out in `JsSemantics`:

- `String.prototype.trim` strips the ECMAScript WhiteSpace and LineTerminator code points.
- A string is truthy exactly when it is non-empty.
- `%` truncates toward zero, so the result takes the sign of the dividend.
- Reading an array outside its bounds gives `undefined`, modelled as `Fill.Undefined`.

So `segmentColors[colorIndex % 6]` is modelled exactly as written. The invariant `colorIndex == |segments| >= 1` is what shows that it always yields a real palette colour.

`Wheel.Handle` delivers one event and `Wheel.Run` delivers a sequence of events. A disabled button receives no clicks, so `Handle` ignores a spin click while `spinning` is set. The spin handler itself (`Wheel.SpinClick`) is modelled without that guard, as the script writes it. Add and remove are allowed while the wheel spins, because the script does not block them.

Files:

- `wrappers.dfy`: the `Option` type.
- `js_semantics.dfy`: trimming, truthiness and the remainder operator.
- `wheel.dfy`: the state, the handlers and the event loop.
- `wheel_invariants.dfy`: the reachable-state invariants and the add/remove round trips.
- `wheel_scenarios.dfy`: concrete runs from the starting page.

Repeated removals can never drive the cursor negative. The remove handler refuses to remove the last segment, so from the starting state the cursor always equals the segment count. This is proved as `WheelInvariants.Reachable`.

## Model

| member | source | states |
|---|---|---|
| `JsSemantics.Trim` | css/js/script.js:84 | the trimmed name is a slice of the input with only white space cut from either end and none left at its ends; it is empty exactly when the input is all white space |
| `JsSemantics.TrimOfUnique` | css/js/script.js:84 | trimming has exactly one possible result, so the slice characterisation `IsTrimOf` is an independent definition of `trim` |
| `JsSemantics.TrimTrimmed` | css/js/script.js:84 | a string with no white space at its ends trims to itself |
| `JsSemantics.TrimIdempotent` | css/js/script.js:84 | trimming a trimmed name changes nothing |
| `JsSemantics.JsRem` | css/js/script.js:89 | JavaScript's `%` for a positive divisor: its magnitude is below the divisor, it has the sign of the dividend, and its magnitude is the dividend's magnitude modulo the divisor |
| `JsSemantics.JsRemNonNegative` | css/js/script.js:89 | for a non-negative cursor, JavaScript's `%` and the mathematical remainder agree |
| `Wheel.Init` | css/js/script.js:6-22 | the page starts with the names Alice, Bob and Charlie, the cursor equal to the segment count (3), and the spin button enabled |
| `Wheel.PaletteAt` | css/js/script.js:5 | reading `segmentColors[i]` gives palette entry `i` for an index in [0, 6), and `undefined` otherwise |
| `Wheel.NextFill` | css/js/script.js:89 | for a non-negative cursor the new segment's fill is palette entry `colorIndex mod 6` |
| `Wheel.SpinClick` | css/js/script.js:63-73 | a spin starts exactly when there are at least 2 segments; it then shows "Spinning..." and disables the button; otherwise it raises the "add at least two names" warning and changes nothing; the segments and the cursor never change |
| `Wheel.SpinFinished` | css/js/script.js:76-80 | the display shows the winner's label and fill, and the button is re-enabled unconditionally; the segments and the cursor are untouched. The label goes into `innerHTML` unescaped, so a name containing markup is rendered as HTML rather than shown as typed; `Winner(name, fill)` records the label, not the literal text on the page |
| `Wheel.AddClick` | css/js/script.js:83-99 | the input is rejected with a warning, leaving the state unchanged, exactly when it is all white space; otherwise exactly one segment is appended, with the trimmed non-empty name and fill `segmentColors[colorIndex % 6]`; no earlier segment changes, and the cursor rises by exactly 1 |
| `Wheel.KeyPress` | css/js/script.js:102-107 | Enter does exactly what the add click does with the field's value; any other key changes nothing and raises no warning |
| `Wheel.RemoveClick` | css/js/script.js:110-119 | removal succeeds exactly when there is more than one segment; it then drops only the last segment and lowers the cursor by 1; otherwise it warns and changes nothing; so a non-empty wheel never becomes empty |
| `Wheel.Handle` | css/js/script.js:63-68 | a disabled button receives no clicks, so a spin click while `spinning` (= `spinButton.disabled`) changes nothing and raises no warning; every other event reaches its own handler |
| `WheelInvariants.InitInv` | css/js/script.js:6-11 | the starting state satisfies the invariant: at least one segment, cursor equal to the segment count, "Spinning..." shown while spinning, and every label non-empty and trimmed |
| `WheelInvariants.AddInv` | css/js/script.js:84-92 | the add handler keeps the invariant: an accepted name is trimmed and non-empty, and the earlier segments are untouched |
| `WheelInvariants.RemoveInv` | css/js/script.js:112-115 | the remove handler keeps the invariant: the remaining segments are untouched and the cursor follows the count |
| `WheelInvariants.HandleInv` | css/js/script.js:63-119 | every event (spin click, spin stop, add, keypress, remove) preserves the invariant |
| `WheelInvariants.RunInv` | css/js/script.js:63-119 | any sequence of events preserves the invariant |
| `WheelInvariants.CursorSafe` | css/js/script.js:89-92 | under the invariant the palette index `colorIndex % 6` lies in [0, 6), and the next fill is palette entry (segment count) mod 6 |
| `WheelInvariants.NegativeCursorUndefined` | css/js/script.js:89 | a negative cursor would read `undefined` from the palette exactly when it is not a multiple of 6; this is what the invariant rules out |
| `WheelInvariants.Reachable` | css/js/script.js:6-119 | after any events from page load, at least one segment remains, the cursor equals the segment count, the next fill is a real palette colour, and every label is non-empty and trimmed |
| `WheelInvariants.AddColourByPosition` | css/js/script.js:87-92 | under the invariant, an accepted name lands at position `k`, the old segment count, in palette colour `k mod 6`, keeps all earlier segments, and preserves the invariant |
| `WheelInvariants.HandleColoured` | css/js/script.js:87-115 | every event keeps each segment either the preset at its position or painted in the palette colour of its position |
| `WheelInvariants.RunColoured` | css/js/script.js:87-115 | any sequence of events keeps that colouring property |
| `WheelInvariants.ReachableColoured` | css/js/script.js:6-115 | in every reachable state, a segment that is not a surviving preset has colour `segmentColors[k % 6]`, where `k` is its position |
| `WheelInvariants.AddThenRemove` | css/js/script.js:87-115 | on a non-empty wheel, a successful add followed by a remove restores the exact prior state, with no warning |
| `WheelInvariants.RemoveThenAdd` | css/js/script.js:87-115 | in a state satisfying the invariant, removing the last segment and re-adding its name restores the state, when that segment wore the colour the cursor gives back |
| `WheelInvariants.InertInputsChangeNothing` | css/js/script.js:83-107 | any number of blank adds, blank Enter presses or non-Enter keys leave the state exactly as it was |
| `WheelScenarios.AddPlainName` | css/js/script.js:84-92 | adding a non-empty name with no surrounding white space appends that very name in the cursor's colour and raises the cursor |
| `WheelScenarios.AddFourthName` | css/js/script.js:83-92 | any non-empty trimmed name added to the starting wheel becomes its fourth segment, in palette colour 3, with the cursor at 4 |
| `WheelScenarios.AddDave` | css/js/script.js:83-92 | adding "Dave" to the starting wheel gives Alice, Bob, Charlie, Dave, with Dave in palette colour 3 and the cursor at 4 |
| `WheelScenarios.EnterAddsTrimmedName` | css/js/script.js:84-105 | Enter with any value that trims to a non-empty name adds that trimmed name, not the raw value, to the starting wheel |
| `WheelScenarios.AddTrimsByEnter` | css/js/script.js:84-105 | Enter with " Eve" plus a tab adds the name "Eve" |
| `WheelScenarios.ColourCycle` | css/js/script.js:87-92 | whatever the names, the 4th, 5th and 6th segments take palette colours 3, 4 and 5, and the 7th wraps round to 0 |
| `WheelScenarios.RemoveStopsAtOne` | css/js/script.js:110-119 | from Alice and Bob, one remove leaves Alice; a second remove warns and changes nothing, the cursor included |
| `WheelScenarios.SpinScenarios` | css/js/script.js:63-80 | a spin with one name is refused; with three names it shows "Spinning..." and disables the button; stopping on Bob names him winner and re-enables the button |

## Left out

- DOM access is not modelled: `getElementById`, clearing the name field, `focus()` and `preventDefault()`. These are UI side effects. The field's value is a parameter of the add and keypress events.
- The `alert` pop-ups are modelled only as an abstract `Warning`, each with its message text.
- The winner message is modelled as the winner's label and fill. Its HTML markup and styling are not modelled.
- Winwheel itself is not modelled. This covers construction, `draw()`, geometry, pins, text styling and the `spinToStop` animation with its duration, spin count and GSAP easing. It is a foreign library with timing and floating-point geometry.
- How the engine picks the winning segment is not modelled. `SpinFinished` accepts any segment as the winner.
- The engine calling `alertPrize` exactly once per spin is not enforced. A `SpinStopped` event may arrive at any time.
- Wheel.Init: the preset fills are not modelled. The code for them at `css/js/script.js:20-22` does not parse, so the fills are parameters.
- The script as written never runs: the syntax error at `css/js/script.js:20` (`'segments' :, …`) stops the whole file from loading, so no handler is ever registered. The model describes the script with the `segments` array repaired.
- `colorIndex` is a JavaScript Number, modelled as an unbounded integer. The two agree for any cursor below 2^53, far beyond any number of names a page can hold.
- The commented-out tick sound and GSAP loading code is not modelled.
- Strings are sequences of Unicode scalar values, not UTF-16 code units. No code unit that trim strips is a surrogate, so this does not change what trimming does.
