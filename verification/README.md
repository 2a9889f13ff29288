# Ingredient page: control-state persistence and report export

This project models the script of the ingredient stock page (`ingredientes.js`). It has two parts.

- **Control-state store.** Every button except the save button is a toggle. A toggle shows an inline green style when it is on.
  - A click flips the toggle.
  - Turning it on stores `button_<label>` = `"green"`. Turning it off removes that key.
  - Every input box stores its content under `input_<id>` on each edit.
  - When the page loads, toggles and inputs are hydrated from `localStorage`. A toggle is painted green or reset to the default style. A field is overwritten only when its key is present.
- **Report export.** Clicking the save button shows "Saving PDF..." and disables the button, then starts an asynchronous PDF render. When the render succeeds, the button shows the 💾 icon again. When it fails, the button shows "Error! Try Again". Either way the button is enabled again.

Layout:

- `Wrappers.dfy`: `Option`, which stands for a value that may be `null`.
- `Storage.dfy`: `LocalStorage`, a class holding a `map<string, string>` with `GetItem`, `SetItem` and `RemoveItem`.
- `Persistence.dfy`: the pure part.
  - The two key namespaces.
  - What a toggle commit and a field commit do to the store.
  - What hydration reads out of the store.
  - The lemmas: round trips, namespace isolation, "only one key changes", idempotence, and agreement between store and toggles.
- `Controls.dfy`: the live controls.
  - `ToggleButton` has an inline `backgroundColor` and `color`. `InputBox` has a `value`.
  - The hydration loops, the click listener, `saveButtonState`, `saveInputValue` and the input listener are methods that change these fields in place.
  - Each method is proved against the functions of `Persistence`.
- `Export.dfy`: the save button's state machine.
  - Pure transition functions over `SaveState`, with the invariant `Sound`: at most one render is outstanding, and the button is disabled exactly while a started render has not settled.
  - A lemma that every run of clicks and settlements keeps that invariant.
  - The `SaveButton` class, whose `Click` and `Complete` methods are proved against the transition functions.
- `Page.dfy`: the `DOMContentLoaded` wiring, plus client methods for the page's scenarios. The scenarios are a "Wheat" toggle across two reloads, a "qty1" field, and an export that fails and is then retried.

Naming: `label` is a Dafny keyword. So a toggle's `textContent` is the field `caption`, and a save button's displayed text is also called `caption`.

The source selects controls with `querySelectorAll('button:not(.savebutton)')` and `querySelectorAll('.inputbox')`. The model replaces those with explicit sequences of `ToggleButton` and `InputBox` objects. The save button is a separate `SaveButton?` value, so the toggle registry can never contain it.

## Model

| member | source | states |
|---|---|---|
| Storage.LocalStorage.GetItem | ingredientes.js:13 | Returns the stored value when the key is present and `None` (null) when it is absent; reads only. |
| Storage.LocalStorage.SetItem | ingredientes.js:29 | Binds exactly one key to the value; every other entry stays as it was. |
| Storage.LocalStorage.RemoveItem | ingredientes.js:31 | Deletes exactly one key (no effect if absent); every other entry stays as it was. |
| Persistence.ClickedStyle | ingredientes.js:38-48 | The style a click leaves is green exactly when the toggle was not green before. |
| Persistence.ToggleCommit | ingredientes.js:26-33 | After `saveButtonState` the toggle's key is present (holding the sentinel) iff the state is "green", and is absent for any other state; no other key changes. |
| Persistence.FieldCommit | ingredientes.js:65-67 | After `saveInputValue` the field's key holds exactly the committed content; no other key changes. |
| Persistence.ToggleKeyInjective | ingredientes.js:29-31 | Two labels get the same `button_` key iff they are the same label. |
| Persistence.FieldKeyInjective | ingredientes.js:57-66 | Two ids get the same `input_` key iff they are the same id. |
| Persistence.NamespacesDisjoint | ingredientes.js:29-66 | No `button_<label>` key equals any `input_<id>` key, even when label and id are the same text. |
| Persistence.HydratedGreenIffStored | ingredientes.js:12-21 | Hydration paints a toggle green exactly when the store maps its key to "green"; a missing key or any other value gives the default style. |
| Persistence.ClickThenReload | ingredientes.js:38-48 | After a click, hydrating from the committed store gives exactly the style the click left; turning a toggle off leaves no key behind. |
| Persistence.ToggleCommitKeepsOtherToggles | ingredientes.js:26-33 | Committing one toggle leaves the hydrated style of every differently labelled toggle unchanged. |
| Persistence.ToggleCommitKeepsFields | ingredientes.js:26-33 | A toggle commit leaves what hydration gives every field unchanged, for every id and current content. |
| Persistence.FieldRoundTrip | ingredientes.js:55-67 | Committing value V, then hydrating, gives exactly V, including the empty string. |
| Persistence.UncommittedFieldKeepsValue | ingredientes.js:57-60 | A field with no `input_<id>` key keeps its current content under hydration. |
| Persistence.FieldCommitKeepsOtherFields | ingredientes.js:65-67 | Committing one field leaves what hydration gives every other field unchanged. |
| Persistence.FieldCommitKeepsToggles | ingredientes.js:65-67 | A field commit leaves every toggle's hydrated style unchanged, for every label. |
| Persistence.HydratedValueIdempotent | ingredientes.js:55-62 | Hydrating a field a second time gives the same content as hydrating it once. |
| Persistence.ClickKeepsAgreement | ingredientes.js:35-49 | When labels are distinct and every toggle agrees with the store, clicking any one toggle keeps every toggle in agreement with the new store. |
| Persistence.DuplicateLabelsDisagree | ingredientes.js:27-48 | With two toggles both labelled "Wheat", clicking one leaves the other disagreeing with the store; this is why distinct labels are required. |
| Controls.ToggleButton.Click | ingredientes.js:36-49 | The on/off test reads the inline background. The click flips it and sets the green or default style. The store becomes the toggle commit of the new state, and nothing else changes. |
| Controls.SaveButtonState | ingredientes.js:26-33 | The store becomes `ToggleCommit` of the button's label and the given state. |
| Controls.LoadButtonStates | ingredientes.js:10-23 | Every toggle ends with the style that hydration gives, and is green iff the store holds "green" for it; the store is unchanged. |
| Controls.LoadInputValues | ingredientes.js:55-62 | Every field ends with the stored value if its key is present, and otherwise with its previous content; the store is unchanged. |
| Controls.SaveInputValue | ingredientes.js:65-67 | The store becomes the field commit of the field's current content. |
| Controls.OnInput | ingredientes.js:69-73 | After an edit, the field holds the typed text and the store holds that text under `input_<id>`; nothing else changes. |
| Export.ClickStep | ingredientes.js:82-84 | A click on a disabled button changes nothing. On an enabled button it shows "Saving PDF...", disables the button and starts one render. It preserves `Sound`, leaving exactly one render outstanding. |
| Export.CompleteStep | ingredientes.js:100-109 | When the render settles, success shows the 💾 icon and failure shows "Error! Try Again". Either way the button is enabled, no render is outstanding, and `Sound` is preserved. |
| Export.RunStaysSound | ingredientes.js:78-110 | From a sound state, any sequence of clicks and settlements stays sound, so at most one render is ever outstanding. |
| Export.RetryAfterFailure | ingredientes.js:105-108 | After a failed render, the next click starts a new render. |
| Export.SaveButton.Click | ingredientes.js:78-99 | The button's new state is `ClickStep` of its old state, and the renderer is invoked iff the button was enabled. |
| Export.SaveButton.Complete | ingredientes.js:100-109 | The button's new state is `CompleteStep` of its old state and the outcome. |
| Page.ContentLoaded | ingredientes.js:1-117 | Export behaviour is attached iff a save button exists; attaching it leaves the save button's caption, `disabled` flag and outstanding renders as they were. Every toggle and field is hydrated; the store is unchanged. |
| Page.HydrateTwice | ingredientes.js:114-116 | Hydrating twice leaves every toggle and field as a single hydration would; the store is unchanged. |

## Left out

- The call to `html2pdf` and its option object (lines 87-99) are left out. The options are margin, filename `stock_report.pdf`, JPEG quality, capture scale and size, and A4 portrait. This is a foreign library with floating-point settings and DOM metrics. Only its outcome is modelled: the `success` argument of `Complete`.
- `Export.SaveButton.Click`: a throw from the `html2pdf` call itself (line 87) is not modelled, for instance when the library script failed to load. The caption and `disabled` flag are set before that call (lines 83-84), and nothing catches such a throw, so the source then leaves the button disabled showing "Saving PDF..." with no render outstanding and never recovers. The model has no such state: every enabled click counts as a started render that later settles.
- The promise and the event loop are left out. A settlement is a separate call to `SaveButton.Complete`. That call requires a render to be outstanding, because the `then`/`catch` callbacks exist only for a started render. In the pure `Step`, a settlement with nothing outstanding is a non-event.
- DOM querying, `addEventListener` and `DOMContentLoaded` are left out. They become explicit sequences of controls and direct method calls. The scenario methods reset a field to its default by hand to stand for a page reload.
- The browser's refusal to dispatch clicks to a disabled button is not modelled as browser behaviour. `SaveButton.Click` being a no-op while disabled stands in for it.
- `console.log` and `console.error` (lines 101 and 106) are left out.
- CSS is kept only as the two inline properties the code writes, `backgroundColor` and `color`. Stylesheet rules and how a browser normalises colour strings are not modelled.
- `localStorage` quota and availability failures are left out: the source does not handle them.
- Duplicate toggle labels: `ClickKeepsAgreement` requires distinct labels, and `DuplicateLabelsDisagree` shows why. The hydration methods need no such precondition, and neither do `Click` or the commit functions.
- `innerHTML` is modelled as the text it renders. The markup `&#x1F4BE;` becomes the one character U+1F4BE. HTML parsing is not modelled.
- The button's markup is not part of this model, so its initial caption is a constructor argument and the save button starts enabled. The source sets 💾 on success whatever the caption was before the first click. So "reverts to the original icon" holds only when the page starts with that icon.
