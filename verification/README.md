# Atelier des formes — a Dafny model of the game rules and the classroom storage

Atelier des formes is a drag-and-drop activity for young children. A child
builds houses from a square body and a triangular roof, each in one of three
colours (red, blue, yellow). Every house must use a new (body colour, roof
colour) pair, and the game is complete after the nine possible houses.
Classrooms, their children and each child's list of built houses are kept in
the browser's localStorage.

This project models the two parts of the code that hold real logic:

- **Classroom persistence** (`storage.ts`). The whole classroom list is stored
  as one JSON string under the key `atelier:classrooms:v1`. `safeParse` turns
  the stored string into a list and never fails. Each mutator loads a fresh
  list, edits it and writes it all back. `getChild` only reads. A classroom
  or child that is not found is a silent outcome: nothing is returned and
  nothing is written.
- **The house-building state machine** (`App.tsx` with `types.ts` and
  `constants.ts`). This is the component's state without React:
  - the shapes on the playground
  - the two house slots
  - the pending placement waiting for its snap animation
  - the history of built houses and the keys recorded for them
  - the completion flag, the confetti flag and the message kind

  Each event handler, the effect that checks a finished house, and each
  timer callback is one method.

Modules, one per file:

- `Optional` (`optional.dfy`): the `Option` type used for the source's `null`.
- `Decimal` (`decimal.dfy`): decimal text of a natural number, the way a
  template string renders `${n}`, and its inverse.
- `Shapes` (`shapes.dfy`): shape kinds, colours, `ShapeConfig`, `PlacedShape`
  and `House`.
- `Storage` (`storage.dfy`):
  - pure lookup and edit functions over a loaded list, with lemmas about them
  - class `LocalStore`, whose state is the map of localStorage entries
- `HouseRules` (`house_rules.dfy`): the pure rules of the game. It covers
  colour combinations and their keys, the bound of nine distinct houses, and
  the filter, move and clamp edits of the playground.
- `Atelier` (`atelier.dfy`): the class `App`.
  - It has one field per piece of component state and one method per
    handler.
  - Its `Valid()` invariant says four things:
    - Slots and built houses hold the right kind of shape.
    - A pending placement targets an empty slot.
    - The colour pairs in the history are pairwise distinct, so there are at most nine.
    - The recorded keys are exactly those of the history, and the completion
      flag is raised only once nine houses are built.

JSON text is not modelled. A stored string is either empty or described by
what `JSON.parse` makes of it: an array, some other value, or a syntax error.
`Stringify(cs)` is the string that parses back to `cs`.

## Model

| member | source | states |
|---|---|---|
| Storage.SafeParse | storage.ts:20-30 | A missing or empty string, a non-array JSON value and a parse error all give `[]`, and the function never fails. A stored array comes back unchanged. A non-empty result is exactly the stored array. |
| Storage.Stringify | storage.ts:37-39 | What `saveClassrooms` writes parses back to the same list: the save/load round trip. |
| Storage.IndexOf | storage.ts:55 | `find` by id gives nothing exactly when no element has the id. Otherwise it gives the first position that has it. |
| Storage.ChildPosition | storage.ts:65-67 | The child's position is the first classroom with the id, then the first child with the id inside it. It is absent exactly when that classroom is missing or has no such child. |
| Storage.LookupChild | storage.ts:73-79 | `getChild` gives null exactly when the classroom is missing or has no such child. Otherwise it gives the first matching child of the first matching classroom, and that child has the requested id. |
| Storage.DefaultName | storage.ts:47 | A non-empty name is kept. An empty one becomes the prefix followed by the decimal text of count + 1: only digits, no leading zero, reading back as count + 1. The same default gives `Enfant k+1` at storage.ts:57. |
| Decimal.FromNat | storage.ts:47 | The interpolated number is rendered as at least one digit with no leading zero. The same rendering makes the shape id at App.tsx:106. |
| Decimal.RoundTrip | storage.ts:47 | Reading the rendered digits back gives the number. |
| Decimal.FromNatInjective | storage.ts:47 | Different numbers render to different texts. |
| Storage.ChildAdded | storage.ts:58 | Pushing a child onto classroom `i` appends exactly that child to it. The classroom's name, every other classroom, the list length and all classroom ids are unchanged. |
| Storage.HistoryReplaced | storage.ts:69 | Setting the history of child `j` in classroom `i` changes only that child's history. Every other child, every other classroom, the list length and all ids are unchanged. |
| Storage.LookupAfterHistoryReplaced | storage.ts:63-71 | After a history update, `getChild` on the same ids returns the child with the new history. Every other lookup returns what it returned before. |
| Storage.LookupAfterChildAdded | storage.ts:53-61 | After a child is added, it can be looked up by its id if no child of that classroom had the id before. Every child found before is still found, unchanged. |
| Storage.LocalStore.Load | storage.ts:32-35 | `loadClassrooms` gives `[]` when the key is absent. A stored array comes back as it is, and a non-empty result is exactly what the entry holds. |
| Storage.LocalStore.Save | storage.ts:37-39 | `saveClassrooms` replaces only the entry under the key. Loading afterwards gives the saved list. |
| Storage.LocalStore.AddClassroom | storage.ts:45-51 | One classroom with the fresh id, the defaulted name "Classe n+1" and no children is appended at the end. Earlier classrooms are unchanged and the list is written back. |
| Storage.LocalStore.AddChildToClassroom | storage.ts:53-61 | An unknown classroom gives null and nothing is written. Otherwise one child with the fresh id, the defaulted name "Enfant k+1" and an empty history is appended to the first matching classroom, and the list is written back. |
| Storage.LocalStore.UpdateChildHistory | storage.ts:63-71 | A missing classroom or child means nothing is written. Otherwise only that child's history is replaced, the list is written back, and a later lookup sees the new history. |
| Storage.LocalStore.GetChild | storage.ts:73-79 | It reads the entry, writes nothing, and returns the lookup on the loaded list. |
| HouseRules.HasCombo | App.tsx:163 | It is true exactly when some house in the history has the given body colour and roof colour. Ids and positions are ignored. |
| HouseRules.ColorNameInitial | constants.ts:2 | The three colour names start with different letters. |
| HouseRules.ComboKey | App.tsx:160 | The key `${body}|${roof}`. It has no contract of its own: ComboKeySplit and ComboKeyInjective state what it is. |
| HouseRules.ComboKeySplit | App.tsx:160 | A key splits, at the bar right after the body's colour name, back into the body's and the roof's colour names. |
| HouseRules.ComboKeyInjective | App.tsx:160 | The key `body|roof` identifies exactly one colour pair. |
| HouseRules.AppendNewCombo | App.tsx:179-182 | Appending a house whose colour pair is new keeps the pairs in the history pairwise distinct. |
| HouseRules.Keys | App.tsx:183 | The keys in `builtCombos` (declared at App.tsx:24), one added per new house. It has no contract of its own: KeysAppend, KeysHold and KeyRecordedIffBuilt state what it holds. |
| HouseRules.KeysAppend | App.tsx:183 | Recording the new house's key adds exactly that key to the recorded set. |
| HouseRules.KeysHold | App.tsx:183 | A key is recorded exactly when some house in the history has it. |
| HouseRules.KeyRecordedIffBuilt | App.tsx:160-183 | A pair's key is in `builtCombos` exactly when the history has that pair. So the recorded keys and the duplicate check agree. |
| HouseRules.AllCombosCount | constants.ts:2 | There are exactly nine colour combinations. |
| HouseRules.InAllCombos | constants.ts:2 | Every (body, roof) colour pair is one of those nine. |
| HouseRules.Combos | App.tsx:163 | The set of pairs of a history holds exactly the pairs of its houses. |
| HouseRules.DistinctCombosCount | App.tsx:163-183 | A history with pairwise distinct pairs has as many pairs as houses. |
| HouseRules.HistoryBound | App.tsx:197-205 | A history with pairwise distinct pairs has at most nine houses. |
| HouseRules.FullHistoryHasEveryCombo | App.tsx:197-205 | With nine distinct houses built, every pair is taken, so any further house is a duplicate. |
| HouseRules.Clamp | App.tsx:109-110 | The clamped coordinate is never negative and stays within `extent - 64` when the shape fits. It is unchanged when already inside, `extent - 64` when beyond that edge, and 0 when negative or when the playground is narrower than a shape. |
| HouseRules.NewShapeId | App.tsx:106 | A palette shape's id is `shape-` followed by the decimal text of the time: only digits, no leading zero except for 0, reading back as the time. |
| HouseRules.NewShapeIdsDiffer | App.tsx:106 | Shapes added at different milliseconds get different ids. |
| HouseRules.Without | App.tsx:79 | The filter removes every shape with the dragged id and keeps every other shape. If no shape has that id, the list is unchanged. A single shape is kept or dropped by its id. |
| HouseRules.WithoutConcat | App.tsx:79 | Filtering a concatenation filters each part and keeps their order. With the single-shape case this fixes the order and the number of kept shapes. |
| HouseRules.Moved | App.tsx:114-124 | Only the shapes with the dragged id move, each by the delta and clamped inside the playground. Every other shape and the list length are unchanged. |
| Atelier.DroppedPart | App.tsx:75 | The pending part is the dragged shape, with its id, kind and colour, at (0, 0). The roof branch builds it the same way at App.tsx:85. |
| Atelier.AcceptsDrop | App.tsx:74-84 | A slot takes a drop exactly when the slot is empty, no placement is pending, and the slot is the body for a square or the roof for a triangle. |
| Atelier.AcceptedDropKeepsSlots | App.tsx:74-86 | A drop the slot accepts leaves a pending part of the slot's kind aimed at an empty slot, as the slot invariant requires. |
| Atelier.PaletteShape | App.tsx:98-111 | A palette drop adds a shape with the new id and the dragged kind and colour. Its position is never negative, stays inside the playground when a shape fits, and is the drop position relative to the playground when that is inside. Past the far edge it is `extent - 64`. Before the near edge, or when the playground is narrower than a shape, it is 0. So each coordinate is clamped on both edges. |
| Atelier.AppendKeepsHistoryInvariant | App.tsx:179-205 | Appending a new pair, recording its key and raising the flag at nine keep the invariant: shapes of the right kind, distinct pairs, at most nine houses, keys matching the history, and the flag only with nine. A new pair is only possible while the flag is down. |
| Atelier.App.constructor | App.tsx:16-33 | Every field starts empty, null or false. |
| Atelier.App.HandleDragStart | App.tsx:47-50 | Only the dragged shape's kind and colour are recorded. |
| Atelier.App.HandleDragEnd | App.tsx:61-127 | See the list below the table. |
| Atelier.App.FinalizePlacement | App.tsx:144-154 | Nothing happens unless a placement is pending for this slot. Otherwise only that slot receives the pending part, and the pending placement is cleared. |
| Atelier.App.HouseEffect | App.tsx:157-227 | See the list below the table. |
| Atelier.App.ClearDuplicate | App.tsx:170-174 | The duplicate timer empties both slots and clears the message. Nothing else changes. |
| Atelier.App.ClearMessage | App.tsx:192-195 | The success timer clears the message only. |
| Atelier.App.ResetCurrentHouse | App.tsx:129-132 | Only the two slots are emptied and the confetti hidden. The history and the playground are kept. |
| Atelier.App.ResetAll | App.tsx:134-142 | The playground, both slots, the history and the recorded keys are emptied. The confetti, the completion flag and the message are cleared. A pending placement is kept, as in the source. |
| Atelier.App.HandleStartNewHouse | App.tsx:54-59 | The two slots are emptied, the confetti hidden and the message cleared. Nothing else changes. The source defines this handler but wires it to no element, so nothing in the app calls it. |
| Atelier.App.Continue | App.tsx:305 | The completion flag goes down, the message is cleared and the confetti hidden. The history is kept. |

`Atelier.App.HandleDragEnd` (App.tsx:61-127):

- While the confetti shows, nothing changes.
- Without a drop target, only the drag indicator is cleared.
- A drop on the body slot is accepted only when the shape is a square, the
  slot is empty and no placement is pending. The roof slot is the same with a
  triangle.
- An accepted drop makes the dragged shape, at (0, 0), the pending part.
- If the accepted shape came from the playground, every shape with its id is
  filtered out. A palette shape leaves the playground unchanged.
- A drop on the playground appends the clamped palette shape, or moves only
  the dragged shape.
- No other field changes.

`Atelier.App.HouseEffect` (App.tsx:157-227):

- Until both slots are filled, nothing changes.
- If the colour pair is already in the history, only the warning is raised and
  the confetti hidden.
- Otherwise the house is appended at the end of the history and its key
  recorded. The confetti and the success message are shown.
- When the new length is at least nine, the completion flag is raised. Every
  method keeps `Valid()`.

## Left out

- localStorage, `JSON.parse` and `JSON.stringify`: a stored string is
  abstracted to "empty" or its parse outcome. `Stringify` is described by the
  array it parses back to.
- Storage.LocalStore.Load / Save: `getItem` and `setItem` are taken never to
  throw. In the source they can: `getItem` (storage.ts:33) sits outside
  `safeParse`'s try and can raise a `SecurityError` when storage is blocked,
  and `setItem` (storage.ts:38) raises `QuotaExceededError` when the store is
  full. Neither is caught, so `loadClassrooms`, `getChild` and the three
  mutators then throw, and the entry stays unchanged. The model has no such
  exceptional path.
- Storage.SafeParse: the elements of a parsed array are taken to be
  well-formed classrooms. The source casts them with `as Classroom[]` and does
  not check them.
- `makeId` (storage.ts:41-43) uses the clock and `Math.random`. Its result is
  taken as a method parameter. Nothing is claimed about its uniqueness,
  because the source does not guarantee it.
- `console.warn` in `safeParse` is left out: it is logging only.
- The migration, IndexedDB, export and reset functions that
  components/MigrateStorage.tsx imports (`migrateIdbToLocalStorage`,
  `needsIdbToLocalMigration`, `buildIdbExportPayload`, `hasIdbData`,
  `hasNonEmptyIdbData`, `clearAllDataAndStartFresh`) are not part of this model. They do
  not appear in the storage.ts modelled here. The rest of that component (file
  download, page reload) is user interface.
- Atelier.App.HandleDragEnd: in the source the handler is memoized with
  `useCallback` on `[houseState, showConfetti]`. It can therefore read a
  pending placement that is older than the current one. The model reads the
  current pending placement.
- Atelier.App.HandleDragEnd: pixel geometry (`getBoundingClientRect`,
  `clientWidth`, the drag delta) is floating point in the browser. It is
  modelled with integers and passed in as parameters. Which element measures
  what is not modelled.
- Timers (1200, 1500 and 1700 ms) are not modelled as time. Their callbacks
  are modelled as methods the environment may call: `ClearDuplicate`,
  `ClearMessage` and `ResetCurrentHouse`. `ResetCurrentHouse` performs
  the same update as the 1700 ms auto-advance. Their ordering, cancellation
  (`clearTimeout`, the effect's cleanup) and the message texts are not
  modelled. The message type is implied by the message kind.
- React scheduling is not modelled: setter batching, re-rendering, and the
  effect running after each change of the body or the roof. The effect is a
  method that the environment calls after the slots change.
- The child-name text input is not modelled, nor the drag overlay rendering.
  Rendering and dnd-kit wiring (components/Playground.tsx,
  components/DraggableShape.tsx, components/Palette.tsx) are not modelled,
  nor the SVG drawing (components/Shape.tsx). Confetti, the modals,
  components/History.tsx, components/PWAUpdatePrompt.tsx and vite.config.ts
  are user interface and build configuration.
