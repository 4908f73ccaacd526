# FullControl lattice toolpath, modelled in Dafny

FullControlLattice's `app.py` turns a handful of design parameters into a 3D-printing toolpath. The parameters are the lattice family `M1`–`M4`, the star-polygon angle alpha, the strut length, the unit counts in x and y, the layer height `EH`, the layer count and the start position. The toolpath is one ordered list of `Point`s and `Extruder(on=…)` markers. Markers turn extrusion off for travel moves and back on for printing.

The script works in five stages:

1. It builds a unit cell append by append. Each new Point is one strut length from the list's `[-1]` or `[-2]` entry.
2. It reads tiling offsets off fixed unit indices.
3. It tiles the unit into a forward row 1 and a backward row 2.
4. It stacks the rows by family-specific rules.
5. It finishes the layer: three closing lines, an optional Points-only preview, layer stacking in z, and a global placement offset.

The Dafny modules follow those stages:

- `Geometry`: Points with optional coordinates, and `fc.move` with and without copies.
  - `fc.polar_to_point` is modelled on top of the supplied trig functions. `reflectXYpolar_list` is a supplied per-point reflection applied to the list read backwards. `move_polar` is a supplied per-point map.
  - Also here: the marker sequence and `points_only`.
  - Trig, the deviation-angle formulas and the two foreign maps are fields of a `Lib` value passed in.
  - `cos² + sin² = 1` (`Pythagorean`) and the rigidity of `move_polar` (`Rigid`) are hypotheses of the lemmas that need them.
- `Units`: a unit is a table of steps. A step is a strut read from `[-1]` or `[-2]`, or a marker. `Chain` says what a table means: every strut starts at the most recent Point. `BuildUnit` runs the appends literally, reading `unit[-back]`.
- `Tables`: the six `.append` sequences of the script, transcribed, with the facts the other modules use about them. Those facts are: every read names the most recent Point, the markers alternate, and the indices read later are Points.
- `Rows`: offsets, row tiling (`fc.move` with copies along x) and row-pair stacking along y.
- `FamilyM1` … `FamilyM4`: each family's branch, as a function `Generate` and a method `Build` proved equal to it.
- `Toolpath`: family dispatch, closing lines, preview, layers and placement. `Generate` (method) is proved equal to `Steps` (function).

Where the script would stop with a Python error, the model returns `None`:
- an unknown family name (`NameError`);
- an M3 unit whose Points 1 and 15 share an x (`ZeroDivisionError` at app.py:171);
- an M4 row with no tiles (`IndexError` on `row_1[-2]` at app.py:237).

## Model

| member | source | states |
|---|---|---|
| Geometry.Translate | app.py:79 | moving a Point keeps which of its coordinates are present |
| Geometry.TranslateKeeps | app.py:79 | a coordinate that the Vector or the Point leaves out is not changed by the move |
| Geometry.MoveEntry | app.py:194-201 | moving an entry keeps its kind; a marker is left as it is |
| Geometry.Move | app.py:202 | `fc.move` without copies keeps the length, each entry's kind and every marker |
| Geometry.Scale | app.py:71 | the displacement of copy `i` is `i` times the Vector on each component it has; `ScaleAxes` states it for the axis vectors |
| Geometry.Copies | app.py:71 | `n` copies of a list have `n·|list|` entries, none when `n ≤ 0` |
| Geometry.CopiesAt | app.py:71 | entry `i·|s|+k` of the copies is `s[k]` moved by the shift of copy `i` |
| Geometry.CopyMove | app.py:71 | `fc.move` with `copy=True, copy_quantity=n`: copies of the list, copy `i` moved by `i·v`; `CopyMoveAt` states its length and entries |
| Geometry.CopyMoveAt | app.py:71 | with `copy=True, copy_quantity=n`, entry `i·|s|+k` is `s[k]` moved by `i·v`, and there are `n·|s|` entries |
| Geometry.ScaleAxes | app.py:71 | the `i`-th multiple of an axis vector is the axis vector of `i` times the length |
| Geometry.PolarToPoint | app.py:61 | a polar step gives a Point with x and y, at the height of the Point it starts from |
| Geometry.PolarDistance | app.py:61 | given cos²+sin²=1, a polar step of radius `r` lands at squared distance `r²` |
| Geometry.MapPoints | app.py:72 | a per-point map keeps the list's length, the kind of each entry and every marker |
| Geometry.Reversed | app.py:72 | the reversed list has the same length, and its entry `k` is entry `|s|−1−k` of the original |
| Geometry.ReflectList | app.py:72 | the reflected row has the row's length; its entry `k` is the reflection of the row's entry `|s|−1−k`, so it starts at the reflection of the row's last entry |
| Geometry.MovePolar | app.py:172 | the rotation keeps the length, kinds, markers, and x and y on every Point |
| Geometry.MovePolarDist | app.py:172 | a rigid rotation keeps the distance between any two Points |
| Geometry.PointsOnly | app.py:266 | the preview filter never adds entries and leaves only Points |
| Geometry.PointsOnlyKeepsPoints | app.py:266 | a list of Points passes the filter unchanged |
| Geometry.PointsOnlyNoMarkers | app.py:266 | nothing the filter returns is a marker |
| Geometry.PointsOnlyMarker | app.py:266 | a marker on its own is dropped; with `PointsOnlyAppend` and `PointsOnlyKeepsPoints` this fixes the filter entry by entry |
| Geometry.PointsOnlyAppend | app.py:266 | filtering a concatenation is concatenating the filtered parts |
| Geometry.PointsOnlyMove | app.py:266-275 | filtering and moving commute |
| Geometry.PointsOnlyCopies | app.py:266-269 | filtering and copying commute |
| Geometry.TogglesAppend | app.py:79 | the markers of a concatenation are the markers of the parts, in order |
| Geometry.TogglesKeptByMarkerPreservingMap | app.py:72 | a map that keeps kinds and markers keeps the marker sequence |
| Geometry.TogglesMove | app.py:202 | moving keeps the marker sequence |
| Geometry.TogglesNone | app.py:58-72 | a list has no markers exactly when every entry is a Point |
| Geometry.TogglesCopiesNone | app.py:71-79 | copies of a list without markers have no markers |
| Geometry.AlternatesAppend | app.py:146 | two off/on-alternating marker sequences concatenate to one |
| Geometry.TogglesCopies | app.py:269 | copies of a list with alternating markers have alternating markers |
| Geometry.AlternatesEndsOn | app.py:262-275 | alternating markers leave extrusion on at the end |
| Units.ChainFrom | app.py:84-106 | each step of a table adds exactly one entry to the unit |
| Units.Chain | app.py:84-106 | a unit has one entry more than its table, and entry 0 is the start |
| Units.ChainFromKinds | app.py:84-106 | a strut adds a Point with x and y at the height of the most recent Point, and a marker adds the marker it names |
| Units.ChainKinds | app.py:84-106 | entry `j` of a unit is a Point exactly when step `j-1` is a strut; every Point has x and y and the start's z; marker entries are the markers the table names |
| Units.BuildUnit | app.py:84-106 | appending step by step, each strut read from `unit[-back]`, builds exactly the chain, provided every read names the most recent Point |
| Units.ChainStep | app.py:84-106 | each Point of a unit after the first is the end of a strut drawn from the Point before it, markers skipped, at the angle of the step that drew it |
| Units.StrutLengths | app.py:84-106 | in every unit, consecutive Points, with markers skipped, are exactly one strut length apart |
| Units.ChainToggles | app.py:90-106 | a unit's markers are its table's markers, in order |
| Units.ChainAlternates | app.py:90-106 | a table whose markers alternate off/on gives a unit whose markers alternate |
| Units.ChainPointXY | app.py:109-111 | an index that the table marks as a Point is a Point with x and y |
| Tables.M1Reads | app.py:58-63 | every M1 step reads the most recent Point |
| Tables.M2Reads | app.py:84-106 | every M2 row-1 step reads the most recent Point, including each `[-2]` after a marker |
| Tables.M2BackReads | app.py:121-142 | every M2 row-2 step reads the most recent Point |
| Tables.M3Reads | app.py:149-169 | every M3 step reads the most recent Point |
| Tables.M4Reads | app.py:212-227 | every M4 row-1 step reads the most recent Point |
| Tables.M4BackReads | app.py:240-253 | every M4 row-2 step reads the most recent Point |
| Tables.M1Alternates | app.py:58-63 | the M1 unit has no markers, which trivially alternate |
| Tables.M2Alternates | app.py:89-106 | the M2 row-1 markers alternate off, on, ending on |
| Tables.M2BackAlternates | app.py:125-142 | the M2 row-2 markers alternate off, on, ending on |
| Tables.M3Alternates | app.py:155-169 | the M3 markers alternate off, on, ending on |
| Tables.M4Alternates | app.py:218-227 | the M4 row-1 markers alternate off, on, ending on |
| Tables.M4BackAlternates | app.py:246-253 | the M4 row-2 markers alternate off, on, ending on |
| Tables.M2Points | app.py:109-119 | the M2 indices 1, 3, 8, 9, 16 and 19 read for offsets are Points |
| Tables.M3Points | app.py:171-201 | the M3 indices read for rotation, offsets and the return unit are Points |
| Tables.M4Points | app.py:230-238 | the M4 indices 1, 3, 5, 7, 8 and 12 read for offsets are Points |
| Rows.Row | app.py:114 | row 1: `fc.move` of the unit by the repeat offset along x with `units_x` copies; `RowAt` states its entries |
| Rows.TileRows | app.py:145-146 | the row pair stacked with `copy_quantity` copies, copy `i` raised by `i·2·row_offset_y`; `TileRowsAt` states its entries |
| Rows.PairLattice | app.py:114-146 | the lattice of M2, M3 and M4: a forward row, a return row, the pair stacked; `PairAt` and `PairLatticeAlternates` state its contents and markers |
| Rows.RowAt | app.py:114 | tile `i` of a row is the unit moved `i` repeat offsets along x; the row has `n·|unit|` entries |
| Rows.RowTilesAbut | app.py:114 | where the repeat offset is the unit's x extent, each tile ends at the x where the next begins |
| Rows.RowTilesJoin | app.py:194-205 | where the unit's last entry is its first moved one repeat offset along x, each tile of the row ends exactly at the entry where the next begins |
| Rows.TileRowsAt | app.py:146 | copy `i` of the row pair is raised by `i·2·row_offset_y` |
| Rows.RowAlternates | app.py:114 | a row of a unit with alternating markers has alternating markers |
| Rows.TileRowsAlternates | app.py:146 | the stacked row pairs keep alternating markers |
| Rows.PairAt | app.py:114-146 | a row pair of `n1` forward and `n2` return tiles has `n1·|unit| + n2·|back|` entries; the lattice is `pairs` copies, and entry `k` of copy `i` is entry `k` of the pair raised by `2·i` row heights |
| Rows.PairLatticeAlternates | app.py:114-146 | when both units' markers alternate, so do the lattice's |
| FamilyM1.UnitShape | app.py:58-68 | the M1 unit has four Points, each with x and y, as the offset reads need |
| FamilyM1.Unit | app.py:58-63 | the M1 unit is four Points with x and y, starting at the origin |
| FamilyM1.ReadOffsets | app.py:66-68 | reads `repeat_offset_x` from Point 3, `row_offset_x` from Points 1 and 2, `row_offset_y` from their y; `TilesAbut` states what the repeat offset achieves |
| FamilyM1.Strip | app.py:71-72 | row 1 followed by row 2, the reflection of row 1 read backwards; `StripAt` and `RowTurn` state its entries |
| FamilyM1.ShiftAt | app.py:77-79 | strip `i` is moved by `row_offset_x` in x when `i` is odd and by `i·row_offset_y` in y; `LatticeAt` states the result |
| FamilyM1.LatticeOf | app.py:75-79 | `2·units_y−1` shifted copies of the strip, with the repeat offset; `LatticeAt` states its entries |
| FamilyM1.Generate | app.py:57-79 | the M1 lattice; `Build` is proved equal to it |
| FamilyM1.RowLoop | app.py:75-79 | the row loop appends strip `i`, shifted by `(row_offset_x if i odd else 0, row_offset_y·i)`, for `i` in `range(rows)` |
| FamilyM1.Build | app.py:57-79 | the M1 branch computes exactly the M1 lattice |
| FamilyM1.StripAt | app.py:71-72 | the strip is `8·units_x` entries: tile `i` of row 1 is the unit moved `i` repeat offsets, and the entry at the mirrored position, counted back from the strip's end, is its reflection |
| FamilyM1.RowTurn | app.py:70-72 | row 2 begins at the reflection of row 1's last Point and ends at the reflection of row 1's first |
| FamilyM1.LatticeAt | app.py:75-79 | the lattice is `2·units_y−1` strips; strip `i` is shifted by the row offset in x when `i` is odd, and by `i` row heights in y |
| FamilyM1.TilesAbut | app.py:66-71 | the repeat offset makes consecutive tiles of row 1 meet in x, at Point 3; only x is compared |
| FamilyM1.UnitMarkers | app.py:58-63 | the M1 unit has no markers |
| FamilyM1.LatticeMarkers | app.py:71-79 | a lattice built from a unit of four Points has no markers: the reflection and the copies add none |
| FamilyM1.GenerateMarkers | app.py:57-79 | the M1 lattice has no markers, so they trivially alternate |
| FamilyM1.GenerateLength | app.py:71-79 | the M1 lattice has `2·units_y−1` strips of `8·units_x` entries, and none when either count is below one |
| FamilyM2.UnitShape | app.py:84-119 | the M2 unit has 21 entries, and the entries read for offsets and the row-2 start are Points with x and y |
| FamilyM2.Unit | app.py:84-106 | the M2 unit has 21 entries; entries 0, 1, 3, 8, 9, 16 and 19 are Points |
| FamilyM2.ReadOffsets | app.py:109-111 | reads `repeat_offset_x` from Point 19, `row_offset_x` from Points 16 and 8, `row_offset_y` from Points 3 and 9; `TilesAbut` states what the repeat offset achieves |
| FamilyM2.BackStart | app.py:118-122 | row 2 starts at a Point with x and y and no z |
| FamilyM2.BackStartAfterRow | app.py:114-119 | that start is Point 1 of the tile that would follow row 1's last tile, moved `row_offset_x` along x and `row_offset_y` up |
| FamilyM2.Back | app.py:121-142 | the return unit has 21 entries and starts at that start |
| FamilyM2.BackHasNoZ | app.py:122-142 | no Point of the return unit has a z: the start has none and every strut keeps its start's height |
| FamilyM2.BuildUnits | app.py:84-142 | the two append passes build exactly the M2 unit and return unit |
| FamilyM2.Generate | app.py:81-146 | the M2 lattice; `Build` is proved equal to it |
| FamilyM2.Build | app.py:81-146 | the M2 branch computes exactly the M2 lattice |
| FamilyM2.LatticeAt | app.py:114-146 | with the offsets read from the unit, the row pair is `42·units_x` entries, stacked `units_y` times; copy `i` is raised by `2·i` row heights |
| FamilyM2.TilesAbut | app.py:109-114 | the repeat offset makes consecutive tiles of row 1 meet in x, at Point 19; only x is compared |
| FamilyM2.UnitMarkers | app.py:89-142 | both M2 units' markers alternate |
| FamilyM2.GenerateMarkers | app.py:84-146 | the M2 lattice's markers alternate |
| FamilyM3.UnitShape | app.py:149-177 | the drawn M3 unit has 19 entries, and the entries read for the rotation, the offsets and the return unit are Points with x and y |
| FamilyM3.Draft | app.py:149-169 | the drawn M3 unit has 19 entries; the indices read later are Points |
| FamilyM3.Rotatable | app.py:171 | the slope from Point 1 to Point 15 is defined: their x differ |
| FamilyM3.RotationAngle | app.py:171 | minus the supplied `atan` of that slope; `Rotate` uses it about Point 1 |
| FamilyM3.Rotate | app.py:171-172 | the rotation keeps every marker and the kind of every entry |
| FamilyM3.ReadOffsets | app.py:175-177 | reads the repeat offset from Points 17 and 0 and the row offsets from Points 3 and 9 of the rotated unit; `TilesAbut` states what the repeat offset achieves |
| FamilyM3.RotateKeepsDistances | app.py:172 | a rigid rotation keeps the distance between consecutive Points |
| FamilyM3.RotatedStruts | app.py:149-172 | after the rotation, consecutive Points of the unit are still one strut length apart |
| FamilyM3.ChainRotatedStruts | app.py:149-172 | the same, for a unit drawn from any table that gives the M3 shape |
| FamilyM3.RotateKeepsMarkers | app.py:172 | the rotation keeps the marker sequence |
| FamilyM3.BackDraft | app.py:182-201 | the return unit has 19 entries |
| FamilyM3.BackPlace | app.py:202 | the return unit is moved in x by the x of Point 3 minus the x of Point 9 of the rotated unit, plus `(units_x+1)·repeat_offset_x`, and `row_offset_y` in y; `BackRowContinuous` states what that placement achieves |
| FamilyM3.Back | app.py:202 | the placed return unit has 19 entries |
| FamilyM3.BackDraftKinds | app.py:182-201 | the return unit has markers off/on at entries 3 and 5, 8 and 10, 13 and 15, and Points everywhere else |
| FamilyM3.SixMarkers | app.py:182-201 | a 19-entry list with exactly that layout has the marker sequence off, on three times |
| FamilyM3.BackMarkers | app.py:182-202 | the return unit's markers are off, on three times |
| FamilyM3.BackRowContinuous | app.py:194-205 | in row 2, each return tile ends exactly at the entry where the next tile begins |
| FamilyM3.Generate | app.py:148-206 | the M3 lattice, or none where the slope is undefined; `Build` is proved equal to it |
| FamilyM3.Build | app.py:148-206 | the M3 branch computes exactly the M3 lattice, and fails exactly when Points 15 and 1 share an x |
| FamilyM3.LatticeAt | app.py:180-206 | with the offsets read from the rotated unit, row 1 has `units_x` tiles and row 2 has `units_x+1`, so a row pair has `38·units_x+19` entries, stacked `units_y` times |
| FamilyM3.TilesAbut | app.py:175-180 | the repeat offset makes consecutive tiles of row 1 meet in x, at Point 17; only x is compared |
| FamilyM3.UnitMarkers | app.py:155-172 | the rotated M3 unit's markers alternate |
| FamilyM3.GenerateMarkers | app.py:149-206 | where the M3 lattice exists, its markers alternate |
| FamilyM4.NormalAlpha | app.py:209 | alpha becomes 120 exactly when it is 150 or 120; otherwise it is unchanged |
| FamilyM4.AlphaAlias | app.py:209 | an alpha of 150 gives the same lattice as 120 |
| FamilyM4.RowPairs | app.py:257-258 | `units_y` rounded up to even, halved; `RowPairsCover` states what it covers |
| FamilyM4.RowPairsCover | app.py:257-258 | the row pairs cover `units_y` rows with at most one to spare; there is at least one pair for positive `units_y`, and exactly `units_y` rows when it is even |
| FamilyM4.UnitShape | app.py:212-238 | the M4 unit has 14 entries, and the entries read for offsets and the row-2 start are Points with x and y |
| FamilyM4.Unit | app.py:212-227 | the M4 unit has 14 entries; entries 0, 1, 3, 5, 7, 8 and 12 are Points |
| FamilyM4.ReadOffsets | app.py:230-231 | reads the repeat offset from Points 12 and 0 and the row offsets from Points 1, 0, 3 and 8; `TilesAbut` states what the repeat offset achieves |
| FamilyM4.BackStart | app.py:237-240 | the row-2 start read from `row_1[-2]` is a Point with x and y and no z |
| FamilyM4.BackStartX | app.py:237 | row 2 starts `units_x` repeat offsets along, at the x of unit Point 1 |
| FamilyM4.Back | app.py:240-253 | the return unit has 14 entries and starts at that start |
| FamilyM4.BackHasNoZ | app.py:240-253 | no Point of the return unit has a z: the start has none and every strut keeps its start's height |
| FamilyM4.BuildUnits | app.py:212-253 | the two append passes build exactly the M4 unit and return unit |
| FamilyM4.Generate | app.py:208-259 | the M4 lattice, or none where row 1 has no tile; `Build` is proved equal to it |
| FamilyM4.Build | app.py:208-259 | the M4 branch, with alpha and `units_y` reassigned in place, computes exactly the M4 lattice, and fails exactly when `units_x < 1` |
| FamilyM4.LatticeAt | app.py:234-259 | with the offsets read from the unit, the row pair is `28·units_x` entries, stacked once per row pair; copy `i` is raised by `2·i` row heights |
| FamilyM4.TilesAbut | app.py:230-234 | the repeat offset makes consecutive tiles of row 1 meet in x, at Point 12; only x is compared |
| FamilyM4.UnitMarkers | app.py:218-253 | both M4 units' markers alternate |
| FamilyM4.GenerateMarkers | app.py:209-259 | where the M4 lattice exists, its markers alternate |
| Toolpath.Closure | app.py:262 | the closing lines are three Points without z: x = −repeat offset, then y = 0, then x = 0 |
| Toolpath.FamilyLattice | app.py:57-259 | the lattice of the named family, or none on an unknown name or a family's error; `Defined` states when it exists |
| Toolpath.Layer | app.py:262-266 | the lattice with the closing lines appended, reduced to its Points when the preview is asked for |
| Toolpath.Place | app.py:269-275 | `layers` copies raised by `EH` each, moved by `(start_x, start_y, 0.8·EH)`; `PlaceAt` states its entries |
| Toolpath.Finish | app.py:262-275 | layer, stack, place; `FinishLayers` is proved equal to it |
| Toolpath.Steps | app.py:57-275 | the whole toolpath, or none where the script stops with an error; `Generate` is proved equal to it |
| Toolpath.FinishLayers | app.py:262-275 | the closing lines are appended, the preview filter is applied, the layers are stacked and the stack is placed, in that order |
| Toolpath.Generate | app.py:57-275 | the script computes exactly the modelled toolpath |
| Toolpath.Defined | app.py:57-259 | a toolpath exists exactly for M1, M2, M3 with a defined rotation slope, and M4 with at least one tile |
| Toolpath.StepsLength | app.py:262-269 | the toolpath is `layers` copies of a layer, and an exported layer is the lattice plus three lines |
| Toolpath.PlaceAt | app.py:269-275 | entry `k` of layer `i` is raised by `i·EH` and moved by `(start_x, start_y, 0.8·EH)`; a Point with a z ends at `z + i·EH + 0.8·EH` |
| Toolpath.FinishPreview | app.py:264-275 | with the model's filter, which drops markers and fills in no coordinates, filtering one layer before stacking and placing gives the filtered export, and the result has no markers |
| Toolpath.PreviewIsPointsOnly | app.py:264-275 | with the model's filter, the preview of a design is its export with the markers removed |
| Toolpath.FamilyMarkers | app.py:57-259 | every family's lattice has alternating markers |
| Toolpath.FinishMarkers | app.py:262-275 | the closing lines, stacking and placement keep markers alternating, and extrusion is on at the end |
| Toolpath.ExportMarkers | app.py:57-275 | in the export, markers alternate over the whole print and extrusion is on at the end |
| Toolpath.M1ExportLength | app.py:57-275 | an exported M1 design has `layers·((2·units_y−1)·8·units_x + 3)` entries, counting nothing for counts below one |

## Left out

- Floating point: coordinates are exact reals. Rounding in `cos`, `sin`, `atan`, `acos`, `sqrt`, `radians` and `pi` is not modelled.
- The numeric values of `cos`, `sin`, `atan` and of the two deviation-angle formulas (app.py:82, 210). They are supplied functions; `Pythagorean` is the only property assumed of the first two.
- `fclab.reflectXYpolar_list` and `fc.move_polar` are library code that is not part of this model. The per-point effect of each is a supplied map. The rotation keeps z, kinds and markers. Where distances matter, the rotation is assumed rigid (`Rigid`).
- Geometry.ReflectList: the reflection returns the row read backwards. The library text is not part of this model. The order is inferred from the script: app.py:70 prints "to the end and back", and the M1 rows have no markers, so only a reversed row 2 continues from where row 1 ends.
- Geometry.PointsOnly: keeps the Points in order and drops the markers. It does not model how `fc.points_only` fills in coordinates a Point leaves unset.
- Toolpath.FinishPreview: holds for the model's filter only. The closing Points (app.py:262) and every Point of the M2 and M4 return rows (app.py:122, 240; see `FamilyM2.BackHasNoZ` and `FamilyM4.BackHasNoZ`) leave coordinates unset, and `fc.points_only` fills those in, so the program's preview differs from the export in those Points' coordinates too.
- Toolpath.PreviewIsPointsOnly: the same: the program's preview is the export without markers and with the unset coordinates of the closing Points and of the M2 and M4 return-row Points filled in; the model states the first part only.
- FamilyM1.TilesAbut, FamilyM2.TilesAbut, FamilyM3.TilesAbut, FamilyM4.TilesAbut: compare x only. That a tile joint also meets in y, and that row 1 ends within `seg_length` of where row 2 starts, depend on the values of the supplied trig functions, which the model leaves abstract, so neither is stated.
- Units.BuildUnit: requires that each read names the most recent Point. `Tables.*Reads` proves this for all six tables, but other tables are not covered.
- FamilyM3.BackDraft: the M3 return unit copies Points of the rotated unit, so the strut-length property is not stated for it.
- Annotations, plot and G-code settings, and the `fc.transform` call (app.py:278-329): these are output.
- Parameter defaults and guideline ranges (app.py:6-53): the parameters are inputs. `layers` is taken as an integer, as `int(layers)` makes it.
