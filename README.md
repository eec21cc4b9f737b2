# Keyboard tester: key normalizer and pressed-key tracker

A model of the logic inside the keyboard tester's `App` component
(`src/App.tsx`). The component draws a six-row on-screen keyboard and lights
each key while the user holds it down. Two pieces carry the behaviour:

- **the key normalizer** (`normalizeKey`), which maps the `key` identifier a
  browser reports in a keyboard event to the label the layout uses
  (`" "` becomes `Space`, `Control` becomes `Ctrl`, `OS` becomes `Meta`,
  `ContextMenu` becomes `Menu`, the arrow keys lose their `Arrow` prefix,
  any other single character is uppercased, and any other name passes
  through unchanged);
- **the pressed-key tracker**, the keydown and keyup handlers that add the
  normalized label to, or delete it from, the set of held labels, together
  with the rendering rule that a cell is drawn "pressed" exactly when its
  label is in that set and "wide" exactly when its label is longer than one
  character.

Files:

- `js_string.dfy` (module `JsString`): the two JavaScript string operations
  the normalizer uses. `toUpperCase` is modelled on ASCII letters;
  `replace` with a string pattern and a replacement without `$` patterns
  replaces the first occurrence only, as in JavaScript, and is modelled on
  top of a first-occurrence `IndexOf`.
- `key_names.dfy` (module `KeyNames`): `NormalizeKey` and its properties,
  branch by branch, its output shapes and its idempotence.
- `keyboard_layout.dfy` (module `KeyboardLayout`): the `KEYBOARD_LAYOUT`
  table, the per-cell drawing rule and the labels no cell carries.
- `layout_coverage.dfy` (module `LayoutCoverage`): every label in the layout
  is a fixed point of the normalizer.
- `pressed_keys.dfy` (module `PressedKeyTracker`): the state update as a
  function on sets (`Step`), a stream of events (`Replay`) with the theorem
  saying what the held set means, the algebra of keydown and keyup
  (idempotence, round trip, commutation), what an event does to the drawn
  keyboard, and the `PressedKeys` class whose `HandleKeyDown` and
  `HandleKeyUp` methods update its `keys` field in place.

The mismatches in the original are kept as written, not fixed. Browsers
report the escape key as `"Escape"`, which the normalizer passes through
unchanged, while the layout's cell says `Esc`. The arrow keys normalize to
`Up`, `Down`, `Left` and `Right`, which no row of the layout holds. Pressing
any of these keys changes nothing on screen; `EscapeAndArrowsNeverHighlight`
proves it. Nothing in the code maps `"Escape"` to `Esc`, and the model
follows the code rather than the layout's intent.

## Model

| member | source | states |
|---|---|---|
| JsString.UpperChar | src/App.tsx:33 | the upper-case form of a character is never a lower-case ASCII letter; a lower-case letter moves 32 code points down, and every other character is unchanged |
| JsString.ToUpperCase | src/App.tsx:33 | uppercasing keeps the length and maps each character independently through `UpperChar` |
| JsString.IndexOf | src/App.tsx:31 | a found index is an occurrence of the pattern with no earlier occurrence; no result means the pattern occurs nowhere |
| JsString.ReplaceFirst | src/App.tsx:31 | `replace` with a string pattern returns the string unchanged when the pattern occurs nowhere, and otherwise splices the replacement in at the earliest occurrence, keeping everything before and after it |
| JsString.RemovePrefix | src/App.tsx:31 | removing a pattern that starts the string leaves exactly the rest of the string |
| KeyNames.NormalizeKey | src/App.tsx:16-35 | the label is empty exactly when the identifier is empty; a one-character identifier other than a space gives a one-character label that is not a lower-case letter |
| KeyNames.NormalizeNamedKeys | src/App.tsx:17-26 | `" "` gives `Space`, `Control` gives `Ctrl`, `Meta` and `OS` both give `Meta`, `ContextMenu` gives `Menu` |
| KeyNames.NormalizeArrow | src/App.tsx:27-31 | each arrow identifier starts with `Arrow`, and its label is the identifier with that 5-character prefix removed, one of `Up`, `Down`, `Left`, `Right` |
| KeyNames.NormalizeSingleChar | src/App.tsx:32-33 | any single character other than a space becomes its ASCII upper-case form, still one character and never a lower-case letter |
| KeyNames.NormalizePassThrough | src/App.tsx:32-33 | an identifier that is not renamed and is not one character long is returned unchanged |
| KeyNames.NormalizeOutputShape | src/App.tsx:16-35 | every label is a fixed multi-character name, a single character that is not a lower-case letter, or the unchanged identifier when that is neither renamed nor one character |
| KeyNames.FixedLabelsAreFixedPoints | src/App.tsx:18-31 | each fixed label the switch returns normalizes to itself |
| KeyNames.NormalizeIdempotent | src/App.tsx:16-35 | normalizing a label again leaves it unchanged |
| KeyboardLayout.RenderCell | src/App.tsx:96 | a cell is drawn pressed exactly when its label is held, and wide exactly when its label is longer than one character |
| KeyboardLayout.Render | src/App.tsx:91-105 | the drawn keyboard has the layout's shape and each position is the cell for the layout label at that position |
| KeyboardLayout.RenderDependsOnLayoutLabelsOnly | src/App.tsx:91-96 | two held sets that agree on every layout label draw the same keyboard |
| KeyboardLayout.MissingFromLayout | src/App.tsx:7-14 | `Escape`, `Up`, `Down`, `Left` and `Right` are the labels of no cell |
| LayoutCoverage.SelfLabelFixed | src/App.tsx:16-35 | a single non-space character with no lower-case letter, a longer name that is not renamed, and `Meta` each normalize to themselves |
| LayoutCoverage.LayoutLabelsAreFixedPoints | src/App.tsx:7-35 | every label in the layout normalizes to itself |
| PressedKeyTracker.Step | src/App.tsx:52-64 | after an event its label is held exactly when the event is a keydown, and every other label is held exactly when it was before |
| PressedKeyTracker.ReplaySnoc | src/App.tsx:52-64 | handling one more event applies one more step to the set left by the earlier events |
| PressedKeyTracker.ReplayMeaning | src/App.tsx:52-64 | after a stream of events a label is held exactly when a keydown for it came after every keyup for it, or it was held at the start and no event mentions it |
| PressedKeyTracker.HeldFromStart | src/App.tsx:48-64 | from the empty initial set, a label is held exactly when a keydown for it came after every keyup for it |
| PressedKeyTracker.KeyDownIdempotent | src/App.tsx:52-55 | a keydown for a label already held, such as an auto-repeat, leaves the set unchanged; two keydowns equal one |
| PressedKeyTracker.KeyUpAbsent | src/App.tsx:57-64 | a keyup for a label that is not held leaves the set unchanged |
| PressedKeyTracker.DownUpRoundTrip | src/App.tsx:52-64 | keydown then keyup of one key removes its label and nothing else; if the label was absent before, the original set comes back |
| PressedKeyTracker.StepsCommute | src/App.tsx:52-64 | events about different labels give the same set in either order |
| PressedKeyTracker.PressReleaseOrderIndependent | src/App.tsx:52-64 | pressing A, B and releasing A, B ends where pressing B, A and releasing B, A ends, with both labels released |
| PressedKeyTracker.LetterAndSpaceScenario | src/App.tsx:52-64 | keydown `a` holds `{A}`, then keydown space holds `{A, Space}`, then keyup `a` holds `{Space}` |
| PressedKeyTracker.ArrowUpScenario | src/App.tsx:52-55 | keydown `ArrowUp` from nothing held holds exactly `{Up}` |
| PressedKeyTracker.StepRender | src/App.tsx:52-96 | after an event, the cells carrying its label are pressed exactly when it is a keydown, and every other cell is drawn as before |
| PressedKeyTracker.UnmappedKeyInvisible | src/App.tsx:52-96 | an event whose label no cell carries changes nothing on screen |
| PressedKeyTracker.EveryCellCanLight | src/App.tsx:7-96 | every cell is drawn pressed after a keydown whose identifier spells its label |
| PressedKeyTracker.DrawnFromTracker | src/App.tsx:96 | a cell drawn for the tracker's state is pressed exactly when `pressedKeys.has` holds of its label, and wide exactly when its label is longer than one character |
| PressedKeyTracker.EscapeAndArrowsNeverHighlight | src/App.tsx:7-96 | a keydown of `Escape` or of an arrow key changes nothing on screen |
| PressedKeyTracker.PressedKeys.constructor | src/App.tsx:48 | the tracker starts with no label held |
| PressedKeyTracker.PressedKeys.HandleKeyDown | src/App.tsx:52-55 | the new set is the old one plus the normalized label, which is one step of `Step`; the label is then held |
| PressedKeyTracker.PressedKeys.HandleKeyUp | src/App.tsx:57-64 | the new set is the old one minus the normalized label, which is one step of `Step`; the label is then not held |

## Left out

- React machinery (`useState`, `useEffect`, `createRoot`): the state is a field of the `PressedKeys` object. The functional `setPressedKeys` update is modelled as a direct assignment, so React's batching and re-render scheduling are not modelled.
- Attaching and detaching the `keydown`/`keyup` listeners on `window`: this is browser I/O. Events arrive as method calls or as a `KeyEvent` sequence.
- The settings toggle and `SettingsPage`: UI-only boolean flipping with nothing to state.
- JSX markup, the `key-backspace` and `key-capslock` CSS classes, `Header`, the icon import and the style sheet: presentation only.
- Click sound and stored preferences (sound, volume, theme): `src/App.tsx` has no code for them, so there is nothing to model.
- JsString.ReplaceFirst: inserts the replacement literally. JavaScript expands `$$`, `$&`, `` $` `` and `$'` in a replacement string, which is not modelled; the only call, at src/App.tsx:31, passes the empty string, so the key normalizer is unaffected.
- JsString.UpperChar: models ASCII case mapping only. JavaScript's `toUpperCase` is Unicode-aware (`"ß"` becomes `"SS"`, so a one-character key can yield a longer label); that is not captured, and `NormalizeIdempotent` relies on the ASCII model.
- Keys reported in both left and right variants share one label, so the duplicated `Shift`, `Ctrl`, `Alt` and `Meta` cells light together. That follows from the model, but no lemma states it separately.
