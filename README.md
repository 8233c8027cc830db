# zi runtime core — a Dafny model

This project models four pieces of the zi terminal UI runtime and proves
properties of them:

- **Key model** (`key_input.dfy`, module `KeyInput`). A `KeyEvent` is a key code plus a
  `u8` modifier bitset. `normalize_case` puts an event in normal form. Equality and hashing
  are both defined through the normal form.
- **Erasure and identity layer** (`template.dfy`, module `Template`).
  - `ComponentId` identity ignores the diagnostic type name.
  - Erased message and property payloads carry an explicit type tag, and a downcast checks it.
  - `ComponentDef` is a one-shot carrier of a component's properties.
  - `generate_id` builds the identity.
- **Counter example** (`counter.dfy`, module `CounterExample`). A saturating `usize`
  counter. It asks to be drawn again exactly when its value changes, and it fills its
  binding table once.
- **Input component** (`input_component.dfy`, module `InputComponent`). It covers:
  - when the text input asks to be drawn again;
  - the `InputChange` it reports to its owner;
  - the bindings it registers, with focus refreshed on every call;
  - the pure insert-character handler.

Two support modules hold what these files use but do not define:

- `component.dfy` (module `Component`) holds shared types: `ShouldRender`, `Rect`,
  fixed-width integers, `TypeTag` and `Outcome`.
- `bindings.dfy` (module `Bindings`) holds the binding-table surface the components call:
  a focus flag, `is_empty`, `command(..).with(..)` and `add(..)`.

Modelling choices:

- **Panics.** A panic raised through `expect` is an `Outcome.Panic` that carries the
  source's own message. Examples are a second extraction of properties, or a downcast at
  the wrong type.
- **Type identity.** `TypeId` is replaced by `TypeTag`, which holds the type's path.
  An erased payload is `Dynamic(tag, value)`, boxed at the tag of its concrete type.
  A payload boxed at another type is represented only by its differing tag.
- **Generic `create`.** `Template::create` is written once per component, as
  `Counter.Create` and `Input.Create`. The Rust compiler monomorphises it the same way.
- **Hashing.** A hasher is seen as the sequence of words written into it. Any
  `Hasher::finish` is a function of that sequence, so equal word sequences mean equal
  hashes.

Three behaviours of the code are worth knowing:

- Normalising a lowercase letter held with SHIFT keeps SHIFT set
  (`zi/src/terminal/input.rs:89-90`, `KeyInput.NormalizeShiftedKeepsShift`).
- For a non-letter, SHIFT is part of identity: `'1'` with SHIFT and `'1'` without it are
  different events (`KeyInput.ShiftDistinguishesNonLetters`).
- `generate_id` ignores the explicit key and uses only the component type and the
  position hash (`zi/src/component/template.rs:216-219`, `Template.GenerateIdIgnoresKey`).

## Model

| member | source | states |
|---|---|---|
| `KeyInput.New` | zi/src/terminal/input.rs:74-76 | the event holds exactly the given code and modifiers |
| `KeyInput.FromCode` | zi/src/terminal/input.rs:96-103 | an event built from a bare code has that code and no modifier: neither SHIFT, CONTROL nor ALT |
| `KeyInput.NormalizeCase` | zi/src/terminal/input.rs:81-93 | the model of `normalize_case`: a key is a character after normalisation exactly when it was before, a character keeps its letter up to case, an event already holding SHIFT keeps its modifiers exactly, and CONTROL and ALT are never touched |
| `KeyInput.NormalizeNonCharUnchanged` | zi/src/terminal/input.rs:82-85 | a non-character event is returned unchanged, modifiers included |
| `KeyInput.NormalizeUppercaseAddsShift` | zi/src/terminal/input.rs:87-88 | an ASCII uppercase character keeps its code and gains SHIFT; CONTROL and ALT are as they were |
| `KeyInput.NormalizeShiftedKeepsShift` | zi/src/terminal/input.rs:89-90 | a non-uppercase character held with SHIFT becomes its ASCII uppercase with the same modifiers, SHIFT still set; a non-letter is unchanged |
| `KeyInput.NormalizeUnshiftedUnchanged` | zi/src/terminal/input.rs:87-92 | a non-uppercase character without SHIFT is unchanged |
| `KeyInput.NormalizeCaseIsNormal` | zi/src/terminal/input.rs:78-93 | the result is in normal form: an uppercase letter holds SHIFT, and a character holding SHIFT is its own ASCII uppercase |
| `KeyInput.NormalFormIsFixedPoint` | zi/src/terminal/input.rs:81-93 | an event is in normal form if and only if normalisation leaves it unchanged |
| `KeyInput.NormalizeCaseIdempotent` | zi/src/terminal/input.rs:81-93 | normalising twice is the same as normalising once |
| `KeyInput.NormalizedLetterShiftIffUppercase` | zi/src/terminal/input.rs:78-80 | after normalisation of an ASCII-letter event, the code is uppercase exactly when SHIFT is held |
| `KeyInput.Eq` | zi/src/terminal/input.rs:105-117 | the model of `eq`: identical events are equal; a key other than a character equals only itself; equal events agree on CONTROL and ALT |
| `KeyInput.EqReflexive` | zi/src/terminal/input.rs:105-119 | every event equals itself |
| `KeyInput.EqSymmetric` | zi/src/terminal/input.rs:105-117 | equality is symmetric |
| `KeyInput.EqTransitive` | zi/src/terminal/input.rs:105-117 | equality is transitive |
| `KeyInput.EqIffSameNormalForm` | zi/src/terminal/input.rs:105-117 | two events are equal exactly when their normal forms are identical |
| `KeyInput.EqNormalized` | zi/src/terminal/input.rs:105-117 | every event equals its own normal form |
| `KeyInput.ShiftedLowercaseEqualsUppercase` | zi/src/terminal/input.rs:81-117 | a lowercase letter with SHIFT equals the uppercase letter with the other modifiers, whether SHIFT is held or not |
| `KeyInput.ShiftedAEqualsUppercaseA` | zi/src/terminal/input.rs:81-117 | `Char('a')` with SHIFT equals `Char('A')` with no modifiers |
| `KeyInput.UnshiftedCaseDistinguishes` | zi/src/terminal/input.rs:81-117 | `Char('a')` does not equal `Char('A')` when neither holds SHIFT |
| `KeyInput.ShiftDistinguishesNonLetters` | zi/src/terminal/input.rs:81-117 | `Char('1')` with SHIFT does not equal `Char('1')` |
| `KeyInput.Hash` | zi/src/terminal/input.rs:121-127 | hashing appends exactly two words to the hasher state and keeps what was there |
| `KeyInput.HashAgreesWithEq` | zi/src/terminal/input.rs:121-127 | equal events write the same words into any hasher state |
| `KeyInput.HashDeterminesEq` | zi/src/terminal/input.rs:121-127 | events that write the same words are equal, so hashing sees exactly the normal form |
| `Template.NewId` | zi/src/component/template.rs:43-50 | the identity holds the given type tag, id and type name |
| `Template.IdEq` | zi/src/component/template.rs:27-31 | the model of `eq` for identities: two identities are equal exactly when they agree as values once the type name is set aside |
| `Template.IdEqIgnoresTypeName` | zi/src/component/template.rs:25-31 | identities are equal exactly when their type tags and ids are; replacing the type name never changes the answer |
| `Template.IdEqIsEquivalence` | zi/src/component/template.rs:27-33 | identity equality is reflexive, symmetric and transitive |
| `Template.IdHash` | zi/src/component/template.rs:35-40 | hashing appends exactly two words to the hasher state and keeps what was there |
| `Template.IdHashAgreesWithEq` | zi/src/component/template.rs:27-40 | two identities write the same words into a hasher exactly when they are equal |
| `Template.Erase` | zi/src/component/template.rs:68-69 | a boxed payload carries the tag of the type it was boxed at and the value itself |
| `Template.Downcast` | zi/src/component/template.rs:111-131 | a downcast returns the payload exactly when the tags match; otherwise it panics with the given message |
| `Template.DowncastErase` | zi/src/component/template.rs:111-131 | boxing and then downcasting at the same type gives back the original value |
| `Template.DowncastMismatchPanics` | zi/src/component/template.rs:111-131 | downcasting at any other type panics |
| `Template.Tick` | zi/src/component/template.rs:162-165 | no message maps to no message; a message is boxed at the `Message` tag and unboxes there to itself |
| `Template.ComponentDef.constructor` | zi/src/component/template.rs:191-196 | the definition stores the key and `Some(properties)` |
| `Template.ComponentDef.PropertiesUnwrap` | zi/src/component/template.rs:198-202 | the first call returns the stored properties; every call leaves the field `None`; a call on a taken definition panics with the source's message |
| `Template.ComponentDef.Key` | zi/src/component/template.rs:206-209 | returns the stored key |
| `Template.ComponentDef.ComponentTypeId` | zi/src/component/template.rs:211-214 | returns the tag of the component's own type |
| `Template.ComponentDef.GenerateId` | zi/src/component/template.rs:216-219 | the identity has the component's type tag and the position hash as its id |
| `Template.ComponentDef.DynamicProperties` | zi/src/component/template.rs:235-238 | takes the properties once and boxes them at the `Properties` tag; panics on a taken definition |
| `Template.GenerateIdIgnoresKey` | zi/src/component/template.rs:216-219 | for one component type, identities are equal exactly when the position hashes are, whatever the keys |
| `Template.GenerateIdSeparatesTypes` | zi/src/component/template.rs:211-219 | definitions of different component types never produce equal identities |
| `Template.DynamicPropertiesTwice` | zi/src/component/template.rs:198-238 | the first extraction succeeds and the second panics |
| `Bindings.BindingTable.constructor` | zi/src/component/template.rs:231 | a new table is tagged with its component type and holds no command |
| `Bindings.BindingTable.IsEmpty` | examples/counter.rs:93 | true exactly when the table holds no command |
| `Bindings.BindingTable.SetFocus` | examples/counter.rs:98 | sets the focus flag and leaves the commands alone |
| `Bindings.BindingTable.Command` | examples/counter.rs:101-102 | appends one named command with no rule yet and returns its position |
| `Bindings.BindingTable.With` | examples/counter.rs:103-104 | appends one key-sequence rule to that command and changes no other command |
| `Bindings.BindingTable.Add` | examples/counter.rs:107-109 | appends one named command with exactly the given rule |
| `CounterExample.SaturatingAdd` | examples/counter.rs:74 | `usize::saturating_add`: the sum below the bound, `usize::MAX` above it |
| `CounterExample.SaturatingSub` | examples/counter.rs:75 | `usize::saturating_sub`: the difference when non-negative, otherwise 0 |
| `CounterExample.NextCount` | examples/counter.rs:73-76 | the count `update` computes: Increment moves up by at most one and Decrement down by at most one, never the other way |
| `CounterExample.Render` | examples/counter.rs:77-82 | the answer `update` gives: Yes exactly when the counter is not at the bound it moves toward |
| `CounterExample.NextCountSaturates` | examples/counter.rs:73-76 | Increment adds one below `usize::MAX` and stays at it; Decrement subtracts one above 0 and stays at 0 |
| `CounterExample.IncrementDecrementInverse` | examples/counter.rs:73-76 | away from the bounds, Decrement undoes Increment and Increment undoes Decrement |
| `CounterExample.RunIncrements` | examples/counter.rs:72-83 | below the bound, k increments add k and each asks for a render |
| `CounterExample.RunDecrementsAtZero` | examples/counter.rs:72-83 | at 0, any number of decrements leave the counter at 0 and never ask for a render |
| `CounterExample.RunMovesAtMostOnePerRender` | examples/counter.rs:72-83 | over any sequence of messages, the counter moves by at most the number of renders asked for |
| `CounterExample.CounterScenario` | examples/counter.rs:72-83 | from 0, three increments reach 3 with a render each; a decrement at 0 reports no render |
| `CounterExample.BindingsEffect` | examples/counter.rs:90-116 | a non-empty table is left as it is, focus included; an empty one gets focus and the counter's commands |
| `CounterExample.BindingsIdempotent` | examples/counter.rs:90-95 | populating the bindings a second time changes nothing |
| `CounterExample.CounterKeysDistinct` | examples/counter.rs:100-115 | `+`, `=` and `-` are distinct keys; Ctrl-c differs from plain `c` and from Ctrl-C |
| `CounterExample.CounterLiteralRulesDistinct` | examples/counter.rs:100-115 | no two of the counter's literal key rules match the same key sequence under key equality |
| `CounterExample.Counter.constructor` | examples/counter.rs:46-51 | the count starts at `initial_count` |
| `CounterExample.Counter.Update` | examples/counter.rs:72-83 | the count becomes the saturated step; the result is Yes exactly when the count changed |
| `CounterExample.Counter.UpdateDynamic` | zi/src/component/template.rs:111-120 | a payload with the `Message` tag is applied; any other payload panics and leaves the count alone |
| `CounterExample.Counter.Bindings` | examples/counter.rs:90-116 | the table becomes `BindingsEffect` of its old state: increment on `+`/`=`, decrement on `-`, exit on Ctrl-c/Esc, focus true, all only when the table was empty |
| `CounterExample.Counter.Create` | zi/src/component/template.rs:221-233 | takes the properties once and returns a fresh counter at `initial_count` with a fresh, empty table for the counter type; a taken definition panics |
| `CounterExample.BindTwice` | examples/counter.rs:91-95 | calling bindings twice leaves the table as one call left it |
| `InputComponent.UpdateChange` | zi/src/components/input.rs:76-108 | the change `update` computes: it carries new content exactly for InsertChar, DeleteBackward and DeleteForward, and none for the four cursor motions |
| `InputComponent.UpdateChangeFromCurrent` | zi/src/components/input.rs:89-107 | each edit reports the content and cursor it produced from the current ones; an insertion then moves the cursor right; EndOfLine moves to the end of the buffer |
| `InputComponent.UpdateChangeDependsOnContentAndCursor` | zi/src/components/input.rs:76-108 | the reported change depends only on the current content and cursor |
| `InputComponent.InsertCharacter` | zi/src/components/input.rs:194-202 | returns `Some(InsertChar(c))` exactly when the keys are one event with code `Char(c)` and `c` is not newline, carriage return or tab; otherwise `None` |
| `InputComponent.InsertCharacterIgnoresModifiers` | zi/src/components/input.rs:195-198 | the modifiers of the single key never change the result |
| `InputComponent.InsertCharacterUsesRawKeys` | zi/src/components/input.rs:191-203 | the handler reads the raw code: `a`+SHIFT equals `A` as a key yet inserts `a`, and given Ctrl-b the handler returns `InsertChar('b')` |
| `InputComponent.InputLiteralRulesDistinct` | zi/src/components/input.rs:166-190 | no two of the input's eleven literal key rules match the same key sequence under key equality; the any-character rule is not compared; its handler returns `InsertChar('b')` for Ctrl-b, which "left" also binds; whether the rule matches Ctrl-b is not modelled |
| `InputComponent.BindingsEffect` | zi/src/components/input.rs:160-204 | focus always follows the properties; the input's commands are registered only on an empty table |
| `InputComponent.BindingsLatestFocusWins` | zi/src/components/input.rs:160-164 | repeated calls keep the first-registered rules and take their focus from the latest call |
| `InputComponent.CommandWithTwo` | zi/src/components/input.rs:166-185 | `command(..).with(..).with(..)` appends one command holding exactly those two single-key rules |
| `InputComponent.Input.constructor` | zi/src/components/input.rs:56-60 | the properties and frame are stored exactly as given |
| `InputComponent.Input.Change` | zi/src/components/input.rs:62-69 | the new properties are stored; the result is Yes exactly when they differ from the old ones |
| `InputComponent.Input.ChangeDynamic` | zi/src/component/template.rs:122-131 | properties with the `Properties` tag are applied; any other payload panics and leaves the properties alone |
| `InputComponent.Input.Resize` | zi/src/components/input.rs:71-74 | the frame is replaced and a render is always asked for |
| `InputComponent.Input.Update` | zi/src/components/input.rs:76-118 | nothing in the input changes; the result is always Yes; the computed change is emitted exactly when `on_change` is set |
| `InputComponent.Input.UpdateDynamic` | zi/src/component/template.rs:111-120 | a payload with the `Message` tag is applied as `update`; any other payload panics |
| `InputComponent.Input.Bindings` | zi/src/components/input.rs:160-204 | the table becomes `BindingsEffect` of the focus in the properties and its old state |
| `InputComponent.ChangeFromDefinition` | zi/src/component/template.rs:122-131 | a new input definition taken through `dynamic_properties` (template.rs:235-238) and handed to the erased `change` never panics: the input holds the new properties, and the answer is Yes exactly when they differ from the old ones |
| `InputComponent.Input.Create` | zi/src/component/template.rs:221-233 | takes the properties once and returns a fresh input holding them and the frame, with a fresh, empty table for the input type; a taken definition panics |

## Left out

- `view()` of both components is not modelled. It covers canvas drawing, grapheme
  iteration, display width, string formatting and styles.
- The cursor and rope operations of `text::cursor` are not part of this model. They are
  passed in as the function values of `TextOps`. The model proves nothing about what they
  compute. `Cursor` and `Style` are abstract types.
- `ComponentLink`, `MessageSender`, `link.exit()` and `Callback::emit` are not modelled.
  Running the exit command is the handler `Exit`. The value `Input.Update` hands to
  `on_change` is returned as `emitted`.
- The binding table's internals are not modelled: `typed`, `execute_command`,
  `NamedBindingQuery`, and the resolution of pending keys to a command with focus gating.
  Their file is not part of this model. So `Renderable::bindings`, `notify_binding_queries`
  and `run_command` are left out. The any-character rule is recorded, but what it matches
  is not.
- `Bindings.BindingTable.constructor`: does not state the focus flag of a new table,
  because the file that defines the table is not part of this model.
- `is_empty` is taken to mean "no command registered", since its definition is not
  part of this model.
- `Renderable::view`, `Renderable::resize` and the `Deref` impls of `DynamicTemplate` are
  pure pass-throughs and are not modelled separately.
- The counter's `change`, `resize` and `tick` and the input's `tick` are the `Component`
  trait's defaults, which are not part of this model. `Template.Tick` models only the
  erasing wrapper, for any optional message.
- The derived `PartialOrd` of `KeyEvent` is not modelled. It does not normalise and plays
  no part in identity.
- `Display` for `ComponentId` and `type_name()` are diagnostics and are not modelled. The
  type name is kept as a field that identity ignores.
- The `Event` enum, `main`, the event loop and the logger are not modelled.
- `usize` is taken to be 64 bits wide. `TypeId` is a `TypeTag` holding the type's path, so
  tags of distinct types differ by construction.
- `Counter.Create` and `Input.Create` require the definition's properties tag to be the
  component's `Properties` type. In Rust, `ComponentDef<C>` always boxes at `C::Properties`.
  The model carries the tag as a field, so the precondition restates that typing fact.
- The `ComponentId` passed to `create` only builds the component's link, which is not
  modelled. The parameter is kept but unused.
- The EndOfLine message moves the cursor with `move_to_end_of_buffer`
  (`zi/src/components/input.rs:89-90`). It is modelled as written.
- `Input::create` applies the trailing-newline fix to a copy of the content and then
  drops the copy (`zi/src/components/input.rs:57-59`). It is modelled as written, so the
  stored properties are exactly the given ones.
