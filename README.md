# Ext.ux.Test — synthetic input events, modelled in Dafny

Ext.ux.Test is a singleton of testing helpers for Ext JS 4.1. It fakes user input. It builds mouse-click and keyboard event objects, normalised for the browser engine, and dispatches them at DOM elements. On top of that it types strings into form fields, presses special keys in components, clicks buttons, checkboxes and radio buttons, and drives the topmost message box.

This project models the decision logic of `Test.js`. It covers what each event looks like, which errors are thrown, in what order events go out, and how element values and scheduled callbacks change. It proves the rules the code promises.

- `host.dfy` (module `Host`) holds the environment as values:
  - the probed platform (`isIE`, `hasCreateEvent`, `hasCreateEventObject`);
  - JavaScript option values (absent, boolean, other with its truthiness);
  - numeric fields that may be `undefined`;
  - the error taxonomy;
  - the event descriptors;
  - widgets as records of capability flags.
  
  The DOM element is a class with a `value` (UTF-16 code units) and a `trace` of dispatched events. Dispatching an event appends it to `trace`. Callbacks scheduled through `Ext.callback` are counted in a `Scheduler` object.
- `synthesizer.dfy` (module `Synthesizer`) covers `injectMouseClick` and `injectKeyEvent`:
  - the button-code table;
  - event-type validation;
  - modifier defaulting;
  - the keyCode/charCode split;
  - the choice between `createEvent` and `createEventObject`.
- `keynames.dfy` (module `KeyNames`) covers `keyNameToCode`: upper-casing, the alias table and the lookup in Ext's key-code constants. That constant table is a parameter.
- `facade.dfy` (module `Facade`) covers:
  - `simulateKey` and `typeText` (with its loop);
  - `enterSpecialKey`, `pressEnter`, `pressEscape` and `pressSpecialKey`;
  - `clickButton`, `clickCheckbox` and `clickRadioButton`.
- `dialogs.dfy` (module `Dialogs`) covers the selection rules of `getMsgBox`, `clickMsgBoxButton` and `typeInMsgBoxPrompt`. The `.x-message-box` query result (element ids, in document order) and the component registry (`Ext.getCmp`) are parameters.

Where the documented behaviour and the code disagree, the model follows the code:
- `getMsgBox` takes an `order` argument but always returns the last box (Test.js:403-417).
- `typeInMsgBoxPrompt` takes a `box` argument but always uses the topmost box (Test.js:532-542).

## Model

| member | source | states |
|---|---|---|
| `Host.FromCharCode` | Test.js:239 | `String.fromCharCode` is ToUint16: a code unit maps to itself, any integer maps to a congruent value modulo 2^16, and `undefined` maps to 0 |
| `Synthesizer.ButtonCode` | Test.js:43-49 | the button code is always 0, 1 or 4, and it decodes back to the requested button on its own engine |
| `Synthesizer.ButtonCodeTable` | Test.js:44-49 | right+IE is 4, right+other is 1, left+IE is 1, left+other is 0 |
| `Synthesizer.ButtonCodeDependsOnEngine` | Test.js:44-49 | code 1 means the right button on standard engines and the left button on IE, so the table cannot be one constant |
| `Synthesizer.MouseClickEvent` | Test.js:51-57 | the type is `click` or `dblclick`, and `dblclick` exactly when the option is truthy; the button decodes to the `right` option; the modifiers are passed through |
| `Synthesizer.InjectMouseClick` | Test.js:32-60 | a missing target throws `TargetRequired`; otherwise exactly one click event is appended to the target's trace and its value is untouched |
| `Synthesizer.ParseKeyType` | Test.js:82-84 | a type is accepted exactly when it is `keydown`, `keyup` or `keypress`, and the parsed type names the same string |
| `Synthesizer.KeyTypeNameRoundTrip` | Test.js:82-84 | every key type's name is accepted and parses back to that type |
| `Synthesizer.ModifierFlag` | Test.js:98-101 | a modifier is on exactly when its option is the boolean `true`; absent and non-boolean values give false |
| `Synthesizer.CodeChannels` | Test.js:103-110 | IE: keyCode = code and charCode unset; other engines: the channel chosen by `isKeyCode` carries the code and the other is 0 |
| `Synthesizer.KeyDescriptor` | Test.js:96-156 | bubbles and cancelable; modifiers as `ModifierFlag`; standards path iff `createEvent`; otherwise `fireEvent('on'+type)` with keyCode = code and charCode unset; code split per engine and `isKeyCode` |
| `Synthesizer.KeyDescriptorCarriesCode` | Test.js:103-154 | on every engine and path, the channel a handler reads (keyCode on IE, on the legacy path or with `isKeyCode`, else charCode) holds the caller's code |
| `Synthesizer.KeyEventFor` | Test.js:82-160 | fails exactly for a bad type or a platform with neither API; the type error is reported first; a success is exactly the `KeyDescriptor` of the parsed type, so it carries the requested type |
| `Synthesizer.InjectKeyEvent` | Test.js:77-161 | a missing target, a bad type or no API throws with the element unchanged; otherwise exactly one event, the one `KeyEventFor` builds, is appended |
| `KeyNames.UpperChar` | Test.js:369 | a lower-case ASCII letter becomes its capital (code minus 32), the result is never a lower-case letter, and other characters are kept |
| `KeyNames.Upper` | Test.js:369 | upper-casing keeps the length and upper-cases each character |
| `KeyNames.UpperOfUpper` | Test.js:369 | upper-casing leaves a name without lower-case letters unchanged |
| `KeyNames.UpperIdempotent` | Test.js:369 | upper-casing twice is upper-casing once |
| `KeyNames.CanonicalNames` | Test.js:360-367 | every alias is upper-case and stands for a canonical name; every canonical name is upper-case and is not itself an alias |
| `KeyNames.Normalize` | Test.js:360-371 | the looked-up name is upper-case and never an alias; a name whose upper-case form is an alias becomes that alias's canonical name; any other name is only upper-cased |
| `KeyNames.NormalizeIdempotent` | Test.js:360-371 | normalising twice is normalising once |
| `KeyNames.KeyConstant` | Test.js:371-372 | the constant is present exactly when the table has the name, with the table's value; otherwise `undefined` |
| `KeyNames.KeyNameToCode` | Test.js:359-374 | the code is defined exactly when the normalised name is in the table, and it is that entry |
| `KeyNames.KeyNameIgnoresCase` | Test.js:369 | names that upper-case alike give the same code |
| `KeyNames.AliasSameCode` | Test.js:360-373 | an alias, in any case, gives the same code as its canonical name |
| `KeyNames.EscEqualsEscape` | Test.js:361 | "Esc" and "Escape" give the same code |
| `KeyNames.NamedEnterAndEscape` | Test.js:334-374 | `pressSpecialKey` with "Enter" or "Esc" uses the same constant as `pressEnter` or `pressEscape` |
| `Facade.SimulateKey` | Test.js:225-245 | a missing target throws; with key support, keydown, keypress and keyup are appended, then the character, and the callback is scheduled once if given; without key support, nothing changes |
| `Facade.TypedLength` | Test.js:282-286 | typing n code units dispatches exactly 3n events |
| `Facade.TypedAt` | Test.js:236-238 | event 3k+j is phase j (down, press, up) of the k-th code unit, and it carries that code unit where a handler reads it |
| `Facade.TypedAppend` | Test.js:282-286 | typing a + b dispatches the events of a, then those of b (left-to-right order) |
| `Facade.TypedAb` | Test.js:282-286 | "ab" gives six events, a-down, a-press, a-up, b-down, b-press, b-up, with codes a, a, a, b, b, b |
| `Facade.TypedIgnoresCallback` | Test.js:236-238 | the callback option does not change the dispatched keystrokes |
| `Facade.Guard` | Test.js:169-175 | passes exactly for a present, capable, rendered widget; the capability is checked before `rendered`, so each gives its own error |
| `Facade.TypeCodeUnits` | Test.js:282-286 | with key support (or empty text), the trace grows by the typed events, the value by exactly the text, and a callback is scheduled once per code unit; without key support, non-empty text throws `NoEventSimulation` with nothing changed |
| `Facade.TypeText` | Test.js:269-292 | a bad or unrendered field throws with nothing changed; without key support, non-empty text throws with nothing changed; otherwise the trace grows by the typed events, the value by the text, and the callback is scheduled n+1 times |
| `Facade.TypeTextSingleCallback` | Test.js:254-258 | the same events and value as `TypeText`, with the callback scheduled once after typing |
| `Facade.CallbackCountAsWritten` | Test.js:282-291 | typing "ab" with a callback through `typeText` as written schedules the callback 3 times |
| `Facade.CallbackCountCorrected` | Test.js:255 | the same call through the corrected version schedules it once |
| `Facade.ClickButton` | Test.js:168-178 | an invalid or unrendered button throws with no dispatch; otherwise one plain left click is dispatched at its element |
| `Facade.ClickCheckbox` | Test.js:185-195 | as `ClickButton`, for a checkbox, clicking its input element |
| `Facade.ClickRadioButton` | Test.js:202-212 | as `ClickButton`, for a radio button, clicking its input element |
| `Facade.EnterSpecialKey` | Test.js:309-317 | a target that is not a rendered component gives no error and changes nothing; otherwise it behaves as `SimulateKey` on the component's element |
| `Facade.SilentExactlyWhenGuardFails` | Test.js:309-317 | with key support, `enterSpecialKey` completes without dispatching anything at its target exactly when the target is not a rendered component |
| `Facade.PressEnter` | Test.js:334-336 | `enterSpecialKey` with the ENTER constant |
| `Facade.PressEscape` | Test.js:352-354 | `enterSpecialKey` with the ESC constant |
| `Facade.PressSpecialKey` | Test.js:391-395 | `enterSpecialKey` with the code `keyNameToCode` resolves, `undefined` included |
| `Dialogs.GetMsgBox` | Test.js:403-417 | nothing when no box element exists; otherwise the component of the last element, if the registry resolves it |
| `Dialogs.TopmostDecides` | Test.js:406-416 | the boxes below the topmost one, and the `order` argument, do not change the result |
| `Dialogs.ChosenButton` | Test.js:464-473 | the named button of the given box, or else of the topmost box; nothing when there is no box or no button of that name |
| `Dialogs.ClickMsgBoxButton` | Test.js:464-474 | with no box or no such button, no error and no dispatch; otherwise `clickButton` on that button |
| `Dialogs.PromptField` | Test.js:532-539 | present exactly when a topmost box exists: its text area when multi-line, else its text field |
| `Dialogs.TypeInMsgBoxPrompt` | Test.js:532-542 | with no topmost box, nothing happens; otherwise the prompt field is typed into as `TypeText` does, so a callback is scheduled once per code unit and once more |

## Left out

- Wrapping targets in `Ext.Element` (Test.js:37-39, 86-88, 230-232) is left out: targets are opaque element objects.
- `Ext.EventObjectImpl.injectEvent`, `dispatchEvent` and `fireEvent` are foreign code. The model records the descriptor that would be dispatched. `Ext.EventObjectImpl` is not part of this model, so the mouse modifiers are kept as the raw option values the code passes in.
- The choice between the `Events` and `UIEvents` event classes (Test.js:120-125) has no effect on the descriptor. The `view: window` field is dropped as well.
- `Ext.callback`'s delay, scope and arguments are timer-based. Only the number of scheduled calls is modelled.
- The key-code constants of `Ext.EventObject` are not visible. They are the `keys` parameter, and a missing name gives `undefined`.
- `getMsgBoxTitle`, `getMsgBoxMessage` and `closeMsgBox` are projections over, or calls into, Ext's message box. Only the box selection they share is modelled (`Dialogs.GetMsgBox`).
- `clickOkMsgBox`, `clickCancelMsgBox`, `clickYesMsgBox` and `clickNoMsgBox` each call `clickMsgBoxButton` with the fixed name `ok`, `cancel`, `yes` or `no`. They are covered by `Dialogs.ClickMsgBoxButton` with that name.
- `getMsgBox`'s second emptiness test (`if (!el) return`, Test.js:412) is not modelled separately. The elements of a query result are never falsy, so it cannot fire.
- `Ext.query` and `Ext.getCmp` are parameters: the ids of the box elements in document order, and a registry map.
- KeyNames.Upper: upper-cases ASCII letters only. JavaScript's full Unicode `toUpperCase` (for example `ß` to `SS`) is not modelled. All alias and constant names are ASCII.
- A widget is present or absent. "Not an object" and "falsy" are the same absent case, as both throw the same error. A widget's `getEl()` and `inputEl` elements are always present, so the missing-target error of `injectMouseClick`/`simulateKey` is modelled at those operations but cannot be reached through the widget helpers.
- Plain JavaScript objects inherit properties such as `toString`. Those inherited properties are not modelled when the alias table or `msgButtons` is looked up by name.
- Non-integer numeric codes are not modelled. Neither is the value of an element that has no `value` property (`undefined` followed by text).

## Findings

| source | as written | input that shows it | evidently intended | confidence | as-written member | corrected member |
|---|---|---|---|---|---|---|
| Test.js:282-291 | `typeText` passes its whole `options`, `fn` included, to every `simulateKey` call (Test.js:285), and `simulateKey` schedules `fn` itself (Test.js:241-244). So `fn` is scheduled once per character plus once at the end. | `typeText(field, "ab", {fn: f})` on a rendered field schedules `f` three times | `fn` is the "function to call when typing is finished" (Test.js:255), so it is scheduled once | high; not executed | `Facade.TypeText`, `Facade.CallbackCountAsWritten` | `Facade.TypeTextSingleCallback`, `Facade.CallbackCountCorrected` |

`Dialogs.TypeInMsgBoxPrompt` calls `typeText` as written (Test.js:541), so it inherits the extra callbacks.
