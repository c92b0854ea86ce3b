# glift board points and key mappings, in Dafny

This project models two self-contained pieces of glift, a JavaScript library
for displaying Go boards, and proves what they compute.

- **Board points** (`glift.displays.boardPoints` and `glift.displays.BoardPoints`).
  The builder scans a line box's grid row by row. For every grid position it
  derives an integer intersection, a pixel coordinate and a square bounding
  box of radius `spacing / 2`. With board coordinates switched on, the
  outermost ring of positions is a phantom ring:
  - its four corners produce nothing;
  - its top and bottom rows produce column labels from the alphabet
    `ABCDEFGHJKLMNOPQRSTUVWXYZ`, which has no `I`;
  - its left and right columns produce row numbers counted from the bottom;
  - interior intersections are stored shifted by (-1, -1).

  The resulting object answers `getCoord` and `hasCoord`. Its `data()`
  flattens the stored points once and caches them. Its `starPoints()` expands
  a per-size table of coordinate sets and keeps the stored points.
- **Key mappings** (`glift.keyMappings`). A fixed key-name to key-code
  table, the lookup `nameToCode`, and the lookup `codeToName`, which builds
  its reverse table lazily, once. On top of these sits a per-instance
  registry of key bindings.

Files:
- `wrappers.dfy`: `Option`, which stands for JavaScript's `null`/`undefined` answers.
- `key_mappings.dfy`: module `KeyMappings`.
  - The table is a sequence of (name, code) entries in source order. A
    later duplicate would win, as in an object literal.
  - `NameToCode` and `CodeToNameOf` are the lookups.
  - `ReverseTable` is the loop that builds the reverse table.
  - `Register`, `Unregister` and `FuncOrIcon` give the registry's
    semantics on values.
  - Class `KeyMappingsState` holds the two mutable fields of the singleton:
    the reverse-table cache and the binding map.
- `board_points.dfy`: module `Displays`.
  - Reference functions say where each grid position goes: `OnBoard`,
    `ExpectedPoint` and `ExpectedEdgeLabels`.
  - `ScanLineBox` (with `ScanRow`, its inner loop, and `ScanPosition`, one
    loop body) is the builder's nested loop, proved against those functions.
  - Class `BoardPoints` has `GetCoord`, `HasCoord`, `Data` and
    `StarPoints`; `BuildBoardPoints` wraps the scan in a `BoardPoints`.

JavaScript truthiness is modelled explicitly:
- a code of 0, an empty name and an empty icon path are falsy;
- a function binding is always truthy;
- `charAt` out of range gives `""`.

Pixel arithmetic is exact (`real`).

## Model

| member | source | states |
|---|---|---|
| `KeyMappings.TableWellFormed` | src/util/key_mappings.js:2-32 | every table entry has a non-empty name and a positive code; the code is the code `CodeOfName` gives: the character code of a one-character name, 13 for the newline, and the standard code for BACKSPACE, ESCAPE and the arrows; outside the codes 37-40 the name is the one `NameOfCode` gives for the code |
| `KeyMappings.NameToCode` | src/util/key_mappings.js:35-40 | `nameToCode` returns the code of the last table entry with that name; every code is positive, so the truthiness test never drops a known name |
| `KeyMappings.NameToCodeMissing` | src/util/key_mappings.js:35-40 | `nameToCode` returns null exactly when no entry has the name |
| `KeyMappings.EmptyNameUnknown` | src/util/key_mappings.js:76-85 | the empty name is not in the table, so `registerKeyAction`'s own `keyName` test is implied by the `nameToCode` guard |
| `KeyMappings.KnownName` | src/util/key_mappings.js:2-40 | a name that occurs in the table is found, with the code `CodeOfName` gives: the character code of a one-character name, 13 for the newline, and the standard code for BACKSPACE, ESCAPE and the arrows |
| `KeyMappings.LastCodeOfFound` | src/util/key_mappings.js:36-37 | a forward lookup finds nothing exactly when no entry has the name, and what it finds is an entry's code |
| `KeyMappings.LastNameOfFound` | src/util/key_mappings.js:48-54 | a reverse lookup finds nothing exactly when no entry has the code, and what it finds is an entry's name |
| `KeyMappings.LastCodeOfAppend` | src/util/key_mappings.js:2-32 | in a table split in two, an entry in the later part overrides the earlier part |
| `KeyMappings.LastNameOfAppend` | src/util/key_mappings.js:48-50 | in the reverse loop, a name written in the later part of the table overrides the earlier part |
| `KeyMappings.LastNameOfWinner` | src/util/key_mappings.js:48-50 | the reverse table keeps the last entry written for a code |
| `KeyMappings.ReverseTable` | src/util/key_mappings.js:46-50 | the loop's map holds exactly the codes some entry has, each mapped to the name of the last entry with that code |
| `KeyMappings.CodeToNameOf` | src/util/key_mappings.js:53-56 | once the reverse table exists, the answer is the last entry with the code; that name is non-empty and has that code, and it is the name the code denotes unless the code is shared (37-40) |
| `KeyMappings.CodeToNameMissing` | src/util/key_mappings.js:53-56 | `codeToName` returns null exactly for codes no entry has |
| `KeyMappings.NameCodeRoundTrip` | src/util/key_mappings.js:2-57 | `codeToName(nameToCode(n)) == n` for every known name whose code is not shared |
| `KeyMappings.CodeNameRoundTrip` | src/util/key_mappings.js:2-57 | `nameToCode(codeToName(c)) == c` for every known code |
| `KeyMappings.ArrowCodesToNames` | src/util/key_mappings.js:28-31 | `codeToName` of 37, 38, 39 and 40 gives ARROW_LEFT, ARROW_UP, ARROW_RIGHT and ARROW_DOWN |
| `KeyMappings.ArrowKeysShadowSymbols` | src/util/key_mappings.js:17-31 | `%`, `&`, `'` and `(` have the same codes as the four arrow keys, and the reverse table maps those codes to the arrow keys: the table is not injective |
| `KeyMappings.NamedKeysDecideCodes` | src/util/key_mappings.js:26-31 | the named keys come last in the literal, so they decide `nameToCode` for every name they hold |
| `KeyMappings.KeyMappingsState.CodeToName` | src/util/key_mappings.js:45-57 | builds the reverse table only when none exists and leaves an existing one unchanged; the answer is `CodeToNameOf` |
| `KeyMappings.KeyMappingsState.CodeToNameTwice` | src/util/key_mappings.js:45-57 | two calls answer the same and the second leaves the cache as the first left it (idempotence) |
| `KeyMappings.FuncOrIcon` | src/util/key_mappings.js:103-109 | a binding is returned exactly when id and key name are non-empty, both are present and the stored binding is truthy; it is the stored one |
| `KeyMappings.KeyMappingsState.GetFuncOrIcon` | src/util/key_mappings.js:103-109 | `getFuncOrIcon` over the live registry answers as `FuncOrIcon` does on it |
| `KeyMappings.Register` | src/util/key_mappings.js:74-88 | an unknown name leaves the registry unchanged; for a known name a new `id` gets an empty map, which then holds just the binding when a truthy binding is stored under a non-empty id; an existing `id` gains or overwrites only that binding; no other key of `id` and no other id changes |
| `KeyMappings.RegisterLookup` | src/util/key_mappings.js:74-109 | after registering, `getFuncOrIcon(id, keyName)` returns the stored binding, or what it returned before when nothing was stored; every other key of `id` and every key of every other id answers as before; the registry stays well formed |
| `KeyMappings.Unregister` | src/util/key_mappings.js:91-95 | removes `id`, after which `getFuncOrIcon(id, k)` is null for every `k`; other ids are unchanged |
| `KeyMappings.RegisterThenUnregister` | src/util/key_mappings.js:74-95 | unregistering after registering gives the same registry as unregistering alone |
| `KeyMappings.KeyMappingsState.RegisterKeyAction` | src/util/key_mappings.js:74-88 | the in-place update leaves exactly `Register` of the old registry and keeps the state valid; afterwards `getFuncOrIcon(id, keyName)` returns the stored binding (or what it returned before when nothing was stored) and every other key of `id` answers as before |
| `KeyMappings.KeyMappingsState.UnregisterInstance` | src/util/key_mappings.js:91-95 | the in-place delete leaves exactly `Unregister` of the old registry and keeps the state valid; afterwards `getFuncOrIcon(id, k)` is null for every `k` |
| `KeyMappings.KeyMappingsState.constructor` | src/util/key_mappings.js:42-65 | the singleton starts with no reverse table (`_codeToName` undefined) and an empty registry (`_keyBindingMap` is `{}`) |
| `Displays.CharAt` | src/displays/board_points.js:81 | `charAt` gives the one-character string at an index in range and `""` outside it |
| `Displays.DigitChar` | src/displays/board_points.js:93 | the digit character for `d` denotes `d` |
| `Displays.NatToDecimal` | src/displays/board_points.js:93 | the row label is a non-empty string of decimal digits; a number below 10 is one digit, and a longer label never starts with `0` |
| `Displays.DecimalRoundTrip` | src/displays/board_points.js:93 | the row label reads back as the number it was made from |
| `Displays.MakeBoardPt` | src/displays/board_points.js:98-104 | the stored point's bounding box is centred on its pixel coordinate and is `2 * radius` wide and high |
| `Displays.KeyAt` | src/displays/board_points.js:64-97 | the key a position stores under leads back to that position's row and column |
| `Displays.ScanPosition` | src/displays/board_points.js:62-115 | one loop body: stores the expected point under the position's key when the position stores one, and pushes exactly the position's label when coordinates are drawn |
| `Displays.StoredStep` | src/displays/board_points.js:60-117 | after visiting a position, the points stored are those of every position visited so far |
| `Displays.LabelsStep` | src/displays/board_points.js:60-117 | after visiting a position, the labels pushed are those of every position visited so far, in order |
| `Displays.SideRowPrefix` | src/displays/board_points.js:70-83 | for n <= xPoints, along the top or bottom row the columns before `n` label columns 1 .. n-1 |
| `Displays.MiddleRowPrefix` | src/displays/board_points.js:84-95 | for 1 <= n <= xPoints, along any row other than the top and bottom the columns before `n` label only column 0 |
| `Displays.RowLabelsComplete` | src/displays/board_points.js:70-95 | a whole row pushes exactly the expected row labels; corners push none |
| `Displays.RowStep` | src/displays/board_points.js:60-61 | finishing a row is starting the next |
| `Displays.ScanRow` | src/displays/board_points.js:61-116 | the inner loop over one row extends the points stored and the labels pushed from those before the row to those before the next row |
| `Displays.ScanLineBox` | src/displays/board_points.js:60-117 | the keys stored are exactly the intersections of the grid (the interior, shifted by (-1,-1), when coordinates are drawn), each with its expected point, and the labels pushed are exactly the expected edge labels in scan order |
| `Displays.ScanComplete` | src/displays/board_points.js:60-117 | once every row is scanned, the stored keys are exactly the OnBoard ones with their expected points, and the labels pushed are exactly the expected edge labels |
| `Displays.KeysDistinct` | src/displays/board_points.js:96-98 | two positions that store under the same key are the same position: no stored point overwrites another |
| `Displays.KeyedByIntPt` | src/displays/board_points.js:96-109 | every point is stored under its own integer intersection |
| `Displays.ExpectedPointGeometry` | src/displays/board_points.js:41-113 | a stored point's pixel is (left + j * spacing, top + i * spacing) with left and top offset by the extensions, and its box runs from the pixel minus `spacing/2` to the pixel plus `spacing/2` |
| `Displays.DrawShiftsKeys` | src/displays/board_points.js:96-104 | with coordinates drawn, key p holds the pixel that key p + (1,1) holds without them |
| `Displays.EdgeRowsCount` | src/displays/board_points.js:70-95 | for 1 <= n <= yPoints on a grid with xPoints >= 1, the first n rows push (xPoints - 1) + 2(n - 1) labels |
| `Displays.EdgeLabelCount` | src/displays/board_points.js:70-95 | on a grid with at least one step along each axis, drawing coordinates pushes 2(xPoints - 1) + 2(yPoints - 1) labels |
| `Displays.ColumnAlphabet` | src/displays/board_points.js:55-56 | the column alphabet has 25 upper-case letters and no `I` |
| `Displays.StandardBoardLabels` | src/displays/board_points.js:73-95 | on a 19x19 board drawn with coordinates the columns read A, H, J, T at positions 1, 8, 9 and 19, and the rows read 19 at the top and 1 at the bottom |
| `Displays.BuildBoardPoints` | src/displays/board_points.js:39-120 | the board points object holds exactly the scanned points and labels, `spacing`, `radius = spacing/2` and `maxIntersects`, and an empty data cache |
| `Displays.BoardPoints.constructor` | src/displays/board_points.js:143-158 | the fields are the arguments, `radius` is half the spacing and the data cache is empty |
| `Displays.BoardPoints.GetCoord` | src/displays/board_points.js:168-170 | returns a point exactly when one is stored under the key, and it is that point |
| `Displays.BoardPoints.HasCoord` | src/displays/board_points.js:193-195 | holds exactly when `getCoord` finds a point |
| `Displays.ValuesInOrder` | src/displays/board_points.js:180-183 | the flattened list has one element per key, each the value stored under it |
| `Displays.DistinctCard` | src/displays/board_points.js:181-183 | a list without repetitions has as many elements as the set of its elements |
| `Displays.KeyOrderLength` | src/displays/board_points.js:181-183 | a list of every key of the map once has as many elements as the map |
| `Displays.ValuesOfKeyOrder` | src/displays/board_points.js:180-183 | flattening the map along a key order gives one element per key, contains every stored value and nothing else |
| `Displays.BoardPoints.Data` | src/displays/board_points.js:176-186 | a second call returns the cached list unchanged; the list has one element per stored point, contains every stored value and nothing else |
| `Displays.StoredValueKeyedByIntPt` | src/displays/board_points.js:98-114 | every value the builder stores is stored under its own intersection, so looking it up by `intPt` finds it again |
| `Displays.BuildAndFlatten` | src/displays/board_points.js:168-186 | for every point `data()` returns after building, `getCoord` of its intersection returns that same point |
| `Displays.KeepPresentSnoc` | src/displays/board_points.js:220-223 | pushing one candidate keeps it exactly when it is stored |
| `Displays.KeepPresentMembers` | src/displays/board_points.js:220-223 | the kept candidates are exactly the candidates that are stored |
| `Displays.KeepPresentAppend` | src/displays/board_points.js:216-226 | filtering two candidate lists one after the other is filtering their concatenation |
| `Displays.PairStep` | src/displays/board_points.js:219-223 | one step of the innermost loop appends the pair when it is stored |
| `Displays.RowStart` | src/displays/board_points.js:218-219 | a finished row of pairs is the start of the next |
| `Displays.ExpandStep` | src/displays/board_points.js:216-217 | pairing one more set of the table appends its kept pairs |
| `Displays.PushPairs` | src/displays/board_points.js:217-225 | the two inner loops push, in order, every stored pair (s[i], s[j]) of the set with itself |
| `Displays.PairEachSet` | src/displays/board_points.js:214-227 | the triple loop returns, in visiting order, the stored pairs of every set of the table |
| `Displays.StarCandidatesNine` | src/displays/board_points.js:209-210 | size 9 pairs {2,6} with itself and then (4,4): (2,2), (2,6), (6,2), (6,6), (4,4) |
| `Displays.StarCandidatesThirteen` | src/displays/board_points.js:209-211 | size 13 gives (3,3), (3,9), (9,3), (9,9), (6,6) |
| `Displays.StarCandidatesNineteen` | src/displays/board_points.js:209-212 | size 19 gives the nine points of {3,9,15} x {3,9,15} |
| `Displays.StarCandidatesAreStarSet` | src/displays/board_points.js:209-214 | the candidates are exactly the star points of sizes 9, 13 and 19, and there are none for any other size |
| `Displays.StarPointsMembers` | src/displays/board_points.js:204-228 | the points kept are exactly the star points of the size that are stored |
| `Displays.BoardPoints.StarPoints` | src/displays/board_points.js:204-228 | returns the stored candidates in the order the loops visit them; a point is returned exactly when it is a star point of the board's size and `hasCoord` holds for it |
| `Displays.StandardBoardHasStarPoints` | src/displays/board_points.js:209-212 | on a 19x19 grid from (0,0) without coordinates, every star point is stored |

## Left out

- `initKeybindingListener` and `_keyHandlerFunc` (src/util/key_mappings.js:111-159) are left out. They attach a DOM listener, read the global instance registry and dispatch into widget objects that are not part of this model.
- src/widgets/basic_problem.js (DOM and jQuery wiring) and src/controllers/board_editor.js (a stub that only logs) are not part of this model.
- Function bindings are opaque: a `Func(handler)` value is always truthy, and its behaviour is not modelled.
- Ids, key names and codes of other JavaScript types are not modelled. The model covers strings and integers only, so `undefined` and non-integer numbers are left out.
- Names inherited from `Object.prototype` (such as `toString`) are left out. JavaScript lookups on `_nameToCode` and `_keyBindingMap` treat those names as present; the model treats all three maps as plain dictionaries.
- Floating-point rounding of pixel coordinates is left out: pixels are exact reals.
- `glift.util.point`, `Point.toString` and `translate`, `glift.orientation.bbox.fromPts` and `LineBox` are not part of this model. They are records here:
  - a point is an integer pair, used directly as the map key;
  - a box is a (topLeft, botRight) pair, whose `left()` and `top()` are the top-left corner's coordinates;
  - a line box holds the fields the builder reads.
- `Displays.BoardPoints.Data`: the order in which JavaScript enumerates object keys is not modelled. The loop takes the keys in an arbitrary order, and the contract states contents and length but no order.
- `Displays.BoardPoints.Data`: JavaScript returns the cached array object itself, so a caller that pushes onto the result changes what later calls return. The model returns a value, so this aliasing is not captured.
- JavaScript numbers are doubles. The model uses unbounded `int` for intersections, codes and labels. It does not capture the loss of exactness beyond 2^53, nor the exponent form that `n + ''` prints from 1e21 on.
- `Displays.BoardPoints.StarPoints`: the triple loop is split into `PairEachSet` (the outer loop) and `PushPairs` (the two inner loops). It runs over the stored map rather than through calls to `hasCoord`.
- `Displays.BoardPoints.constructor` places no requirement on its arguments. The guarantee that every point is keyed by its own intersection comes from the builder (`KeyedByIntPt`), not from the class.
