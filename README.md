# FontCharmaps in Dafny

A model of `src/FontCharmaps.cpp`, the font-mapping helper of a bitmap-font
renderer. A bitmap font's glyph sheet is a grid of cells. A *charmap* says,
cell by cell, which Unicode code point each cell draws. It is a C array of
`wchar_t`:
- slot `i` holds the code point of cell `i`, row-major, 16 cells per row (5 for the numbers sheet);
- the skip marker `M_SKIP` (0xFEFF) marks a cell that keeps the sheet aligned but draws nothing;
- a final `0` ends the array.

The file defines seven such arrays. It also keeps a process-wide name-to-array
map, filled on first use by `Init()`. `get_char_map(name)` lowercases the name,
looks it up exactly, and returns the array or `NULL`.

The model has four modules:

- `Charmap` (`charmap.dfy`) covers the array format: the skip marker, the
  terminator, Unicode scalar values, well-formedness, and the first-zero scan
  (`SlotCount`) a consumer uses to find the end. Each array is written as its
  glyph sheet, one row per line of the C initialiser. The array is
  `Flatten(sheet) + [Terminator]`, and generic lemmas relate a sheet cell
  `(r, c)` to array slot `width * r + c`.
- `CharmapTables` (`tables.dfy`) holds the seven arrays with their values
  copied from the source, unchanged. Beside them are reference layouts:
  ASCII, ISO/IEC 8859-1, ISO/IEC 8859-2 given as the bytes where it departs
  from ISO/IEC 8859-1, and the Unicode blocks U+3000 and U+1100. Lemmas
  prove every array against its reference, slot for slot, except the C1
  range 0x80-0x9F of code page 1252. There they prove U+20AC at 0x80, a skip
  exactly at the five slots map_cp1252 skips (0x81, 0x8D, 0x8F, 0x90, 0x9E;
  the published code page leaves 0x9D unassigned instead), and a code point
  above 0xFF in every other slot, without a per-slot reference. Lemmas also
  prove each array well formed with the slot count the source implies.
- `CaseFold` (`casefold.dfy`) models the lowercasing of the requested name. It
  is ASCII A-Z to a-z folding, related to an independent "equal up to case"
  relation.
- `FontCharmaps` (`registry.dfy`) models the registry as a class `Registry`:
  - its one field is the name-to-table map;
  - `Init` is the guarded sequence of seven insertions;
  - `GetCharMap` calls `Init`, folds the name and looks it up;
  - lemmas state what a lookup finds.

  The source stores a pointer to one of the seven static arrays. The model
  stores a `TableId` naming that array, and `TableOf` gives its contents.
  `None` stands for `NULL`.

The constants of the model and the source they copy (the layout lemmas in
the table below state their contents):

- `Charmap.Skip` is `M_SKIP` (src/FontCharmaps.cpp:6);
- `CharmapTables.AsciiSheet` and `CharmapTables.MapAscii` are `map_ascii` (src/FontCharmaps.cpp:30-40);
- `CharmapTables.Iso8859_1Sheet` and `CharmapTables.MapIso8859_1` are `map_iso_8859_1` (src/FontCharmaps.cpp:56-74);
- `CharmapTables.Cp1252Sheet` and `CharmapTables.MapCp1252` are `map_cp1252` (src/FontCharmaps.cpp:90-108);
- `CharmapTables.Iso8859_2Sheet` and `CharmapTables.MapIso8859_2` are `map_iso_8859_2` (src/FontCharmaps.cpp:122-132);
- `CharmapTables.BasicJapaneseSheet` and `CharmapTables.MapBasicJapanese` are `map_basic_japanese` (src/FontCharmaps.cpp:155-174);
- `CharmapTables.KoreanJamoSheet` and `CharmapTables.MapKoreanJamo` are `map_korean_jamo` (src/FontCharmaps.cpp:177-196);
- `CharmapTables.NumbersSheet` and `CharmapTables.MapNumbers` are `map_numbers` (src/FontCharmaps.cpp:198-204);
- `FontCharmaps.Builtin` is the map as `Init()` leaves it, and `FontCharmaps.Names` its keys (src/FontCharmaps.cpp:212-218).

A note on the data. In row 0x90 of `map_cp1252`
(src/FontCharmaps.cpp:100), 0x017E (ž) is slot 0x9D and the skip marker is
slot 0x9E. The glyph picture in the comment above the array puts ž one cell
later, at 0x9E, and so does the published Windows-1252 code page. The model
keeps the array as written: `Cp1252Skipped` lists 0x9E and not 0x9D, and
`Cp1252ZCaronAsWritten` states where U+017E and the skip sit.

The comments above the Latin-1 and code page 1252 arrays say the no-break
space and the soft hyphen are not used. Both arrays do contain 0x00A0 and
0x00AD, and the model follows the arrays.

## Model

| member | source | states |
|---|---|---|
| Charmap.SlotCount | src/FontCharmaps.cpp:30-204 | the first-zero scan never runs past the array. Every slot it passes is non-zero, and when it stops inside the array it stops on the 0 terminator |
| Charmap.TerminatedIffScanReachesEnd | src/FontCharmaps.cpp:30-204 | an array has exactly one 0, at its end, if and only if the scan stops on its last element |
| Charmap.SkipIsNotTerminator | src/FontCharmaps.cpp:6 | M_SKIP (0xFEFF) is a Unicode scalar value and is not the terminator |
| CharmapTables.AsciiSheetLayout | src/FontCharmaps.cpp:31-38 | the eight rows of map_ascii hold, cell by cell, the ASCII reference layout |
| CharmapTables.Iso8859_1SheetRows0To7 | src/FontCharmaps.cpp:57-64 | rows 0-7 of map_iso_8859_1 follow the Latin-1 reference layout |
| CharmapTables.Iso8859_1SheetRows8To15 | src/FontCharmaps.cpp:65-72 | rows 8-15 of map_iso_8859_1 follow the Latin-1 reference layout |
| CharmapTables.Iso8859_1SheetLayout | src/FontCharmaps.cpp:57-72 | all 16 rows of map_iso_8859_1 follow the Latin-1 reference layout |
| CharmapTables.Cp1252SheetRows0To7 | src/FontCharmaps.cpp:91-98 | rows 0-7 of map_cp1252 are the ASCII layout |
| CharmapTables.Cp1252SheetRows8To15 | src/FontCharmaps.cpp:99-106 | rows 10-15 of map_cp1252 are the identity. In rows 8-9 the first cell is U+20AC, a cell is skipped exactly at the five slots map_cp1252 skips (0x81, 0x8D, 0x8F, 0x90, 0x9E; the published code page leaves 0x9D unassigned instead), and every other cell is a code point above 0xFF |
| CharmapTables.Iso8859_2SheetRows0To3 | src/FontCharmaps.cpp:123-126 | rows 0-3 of map_iso_8859_2 follow the ISO/IEC 8859-2 layout: 32 skips, then bytes 0xA0-0xBF |
| CharmapTables.Iso8859_2SheetRow4 | src/FontCharmaps.cpp:127 | row 4 of map_iso_8859_2 holds the ISO/IEC 8859-2 code points of bytes 0xC0-0xCF |
| CharmapTables.Iso8859_2SheetRow5 | src/FontCharmaps.cpp:128 | row 5 holds the ISO/IEC 8859-2 code points of bytes 0xD0-0xDF |
| CharmapTables.Iso8859_2SheetRow6 | src/FontCharmaps.cpp:129 | row 6 holds the ISO/IEC 8859-2 code points of bytes 0xE0-0xEF |
| CharmapTables.Iso8859_2SheetRow7 | src/FontCharmaps.cpp:130 | row 7 holds the ISO/IEC 8859-2 code points of bytes 0xF0-0xFF |
| CharmapTables.Iso8859_2SheetLayout | src/FontCharmaps.cpp:123-130 | all eight rows of map_iso_8859_2 follow the ISO/IEC 8859-2 layout |
| CharmapTables.BasicJapaneseSheetRows0To7 | src/FontCharmaps.cpp:157-164 | rows 0-7 of map_basic_japanese hold U+3000 + slot |
| CharmapTables.BasicJapaneseSheetRows8To15 | src/FontCharmaps.cpp:165-172 | rows 8-15 of map_basic_japanese hold U+3000 + slot |
| CharmapTables.BasicJapaneseSheetLayout | src/FontCharmaps.cpp:157-172 | every cell of map_basic_japanese holds U+3000 + slot |
| CharmapTables.KoreanJamoSheetRows0To7 | src/FontCharmaps.cpp:179-186 | in rows 0-7 of map_korean_jamo, cell (r, c) holds U+1100 + 16c + r |
| CharmapTables.KoreanJamoSheetRows8To15 | src/FontCharmaps.cpp:187-194 | in rows 8-15 of map_korean_jamo, cell (r, c) holds U+1100 + 16c + r |
| CharmapTables.KoreanJamoSheetLayout | src/FontCharmaps.cpp:179-194 | every cell (r, c) of map_korean_jamo holds U+1100 + 16c + r: the block transposed |
| CharmapTables.NumbersSheetLayout | src/FontCharmaps.cpp:200-202 | the three five-cell rows of map_numbers spell "01234", "56789", "%. :x" |
| CharmapTables.AsciiLayout | src/FontCharmaps.cpp:30-40 | map_ascii has 128 slots and a terminator. A slot is skipped if and only if it is a control code or DEL, and every printable slot maps to its own code point |
| CharmapTables.Iso8859_1Layout | src/FontCharmaps.cpp:56-74 | map_iso_8859_1 has 256 slots and a terminator. A slot is skipped if and only if it is in C0 or C1, and every other slot maps to its own code point |
| CharmapTables.Iso8859_1ExtendsAscii | src/FontCharmaps.cpp:30-74 | Latin-1 agrees with ASCII below 0x7F. At 0x7F ASCII skips and Latin-1 maps DEL |
| CharmapTables.Cp1252LowerHalf | src/FontCharmaps.cpp:91-98 | below 0x80 map_cp1252 equals map_ascii slot for slot |
| CharmapTables.Cp1252C1Range | src/FontCharmaps.cpp:99-100 | slot 0x80 is U+20AC. In 0x80-0x9F a slot is skipped if and only if it is 0x81, 0x8D, 0x8F, 0x90 or 0x9E, and every other slot is a code point above 0xFF |
| CharmapTables.Cp1252ZCaronAsWritten | src/FontCharmaps.cpp:100 | as written, slot 0x9D holds U+017E (z with caron) and slot 0x9E is skipped, the reverse of the published code page |
| CharmapTables.Cp1252UpperRange | src/FontCharmaps.cpp:101-106 | from 0xA0 to 0xFF map_cp1252 maps every slot to its own code point |
| CharmapTables.Cp1252Layout | src/FontCharmaps.cpp:90-108 | the whole cp1252 layout: 256 slots and a terminator, ASCII below 0x80, the C1 range as above, identity from 0xA0 |
| CharmapTables.Cp1252AgreesWithLatin1 | src/FontCharmaps.cpp:56-108 | cp1252 equals Latin-1 outside DEL and C1. Where Latin-1 skips the C1 range, cp1252 skips or maps beyond Latin-1 |
| CharmapTables.Iso8859_2CodeMapped | src/FontCharmaps.cpp:125-130 | every byte 0xA0-0xFF of ISO/IEC 8859-2 has a mapped code point, either its Latin-1 one or one above 0xFF |
| CharmapTables.Iso8859_2Slots | src/FontCharmaps.cpp:122-132 | map_iso_8859_2 has 128 slots and a terminator, and slot i is the reference layout Iso8859_2Slot(i) |
| CharmapTables.Iso8859_2Layout | src/FontCharmaps.cpp:122-132 | slots 0-31 are skipped. Slot i in 32-127 is mapped and holds the ISO/IEC 8859-2 code point of byte i + 0x80 |
| CharmapTables.Iso8859_2FollowsLatin1 | src/FontCharmaps.cpp:122-132 | each slot of 32-127 holds the Latin-1 code point of byte i + 0x80, or a code point beyond Latin-1 |
| CharmapTables.BasicJapaneseLayout | src/FontCharmaps.cpp:155-174 | map_basic_japanese has 256 slots and a terminator, and slot i is U+3000 + i |
| CharmapTables.KoreanJamoCell | src/FontCharmaps.cpp:177-196 | slot 16r + c of map_korean_jamo is U+1100 + 16c + r |
| CharmapTables.KoreanJamoHoldsEachCodePointOnce | src/FontCharmaps.cpp:177-196 | code point U+1100 + 16hi + lo is in slot 16r + c if and only if r = lo and c = hi, so each Jamo code point is in exactly one slot |
| CharmapTables.KoreanJamoLayout | src/FontCharmaps.cpp:177-196 | map_korean_jamo has 256 slots and a terminator, all inside the Hangul Jamo block U+1100-U+11FF |
| CharmapTables.NumbersLayout | src/FontCharmaps.cpp:198-204 | map_numbers has 15 slots and none is skipped. They are '0'..'9' in order, then '%', '.', ' ', ':', 'x' |
| CharmapTables.AsciiWellFormed | src/FontCharmaps.cpp:30-40 | map_ascii is well formed, and the scan finds 128 slots |
| CharmapTables.Iso8859_1WellFormed | src/FontCharmaps.cpp:56-74 | map_iso_8859_1 is well formed, and the scan finds 256 slots |
| CharmapTables.Cp1252WellFormed | src/FontCharmaps.cpp:90-108 | map_cp1252 is well formed, and the scan finds 256 slots |
| CharmapTables.Iso8859_2WellFormed | src/FontCharmaps.cpp:122-132 | map_iso_8859_2 is well formed, and the scan finds 128 slots |
| CharmapTables.BasicJapaneseWellFormed | src/FontCharmaps.cpp:155-174 | map_basic_japanese is well formed, and the scan finds 256 slots |
| CharmapTables.KoreanJamoWellFormed | src/FontCharmaps.cpp:177-196 | map_korean_jamo is well formed, and the scan finds 256 slots |
| CharmapTables.NumbersWellFormed | src/FontCharmaps.cpp:199-204 | map_numbers is well formed, and the scan finds 15 slots |
| CharmapTables.TablesWellFormed | src/FontCharmaps.cpp:30-204 | all seven arrays are well formed, with slot counts 128, 256, 256, 128, 256, 256 and 15 |
| CaseFold.LowerChar | src/FontCharmaps.cpp:225 | the folded character is never a capital. A capital moves to its lowercase letter, and anything else is unchanged |
| CaseFold.Lower | src/FontCharmaps.cpp:225 | lowercasing keeps the length and folds each character in place |
| CaseFold.LowerHasNoUpper | src/FontCharmaps.cpp:225 | a folded name contains no capital letter |
| CaseFold.LowerIdempotent | src/FontCharmaps.cpp:225 | folding twice is folding once |
| CaseFold.LowerFixesNoUpper | src/FontCharmaps.cpp:225 | folding leaves a name unchanged if and only if it has no capital letter |
| CaseFold.LowerCharEqualIff | src/FontCharmaps.cpp:225 | two characters fold alike if and only if they are the same letter up to case |
| CaseFold.LowerEqualIff | src/FontCharmaps.cpp:225 | two names fold alike if and only if they are equal up to case |
| CaseFold.EqualIgnoringCaseToLower | src/FontCharmaps.cpp:225 | every name is equal up to case to its own fold |
| FontCharmaps.Registry.constructor | src/FontCharmaps.cpp:8 | the registry starts empty |
| FontCharmaps.Registry.Init | src/FontCharmaps.cpp:207-219 | a filled registry is left unchanged. An empty one ends up holding exactly the seven registrations |
| FontCharmaps.Registry.GetCharMap | src/FontCharmaps.cpp:221-232 | it fills the registry as Init does, then returns the entry under the folded name, or None when there is none |
| FontCharmaps.InitTwice | src/FontCharmaps.cpp:207-219 | calling Init twice has the effect of calling it once |
| FontCharmaps.LookupTwice | src/FontCharmaps.cpp:221-232 | two requests for names equal up to case return the same answer, and the registry stays filled |
| FontCharmaps.BuiltinKeys | src/FontCharmaps.cpp:212-218 | the filled registry's keys are exactly the seven names of the source, no more and no fewer |
| FontCharmaps.BuiltinInjective | src/FontCharmaps.cpp:212-218 | no two names are bound to the same table |
| FontCharmaps.NamesAreLowercase | src/FontCharmaps.cpp:212-218 | no registered name contains a capital letter |
| FontCharmaps.TableOf | src/FontCharmaps.cpp:212-218 | every table a registry entry can point at is well formed |
| FontCharmaps.Find | src/FontCharmaps.cpp:225-231 | a lookup that finds an entry finds the entry of a registered name equal to the request up to case |
| FontCharmaps.FindIgnoresCase | src/FontCharmaps.cpp:225-227 | names equal up to case find the same entry, and a name finds what its fold finds |
| FontCharmaps.FindBuiltin | src/FontCharmaps.cpp:221-232 | in the filled registry, a name finds a table if and only if it equals a registered name up to case, and then it finds that name's table. Prefixes, extensions and other names find nothing |
| FontCharmaps.FindRegistered | src/FontCharmaps.cpp:227-231 | a name equal up to case to registered name k finds k's table |
| FontCharmaps.FindUnregistered | src/FontCharmaps.cpp:227-229 | a name equal up to case to no registered name finds nothing |
| FontCharmaps.FindExamplesFound | src/FontCharmaps.cpp:221-232 | "ASCII", "ascii" and "AsCiI" all find the ASCII table |
| FontCharmaps.FindExamplesMissing | src/FontCharmaps.cpp:221-232 | "asci", "latin1" and the empty name find nothing |
| FontCharmaps.FindNonAsciiLetterMissing | src/FontCharmaps.cpp:225-229 | "korean-jamo" spelled with U+212A KELVIN SIGN for 'k' finds nothing, since only A-Z are folded |

## Left out

- Thread safety: the registry is a process-wide map that `Init()` fills without a lock. The model is single-threaded.
- Pointer identity and C storage: the model does not have the arrays as `wchar_t` buffers in static storage. A registry entry is a `TableId` and the array is a `seq<int>`. The width of `wchar_t` is not modelled.
- `RString::MakeLower`: that string routine is not part of this model. It is modelled as ASCII A-Z folding. Every registered name is lowercase ASCII, so a fold that maps non-ASCII characters only to non-ASCII characters finds the same names. A fold that sends some non-ASCII letters to ASCII ones (Unicode's simple lowercase mapping sends U+212A KELVIN SIGN to 'k' and U+0130 to 'i') would let such spellings find a table. The model does not capture that: those names find nothing.
- Byte-string names: the requested name is modelled as a `string`, a sequence of Unicode scalar values, while `RString` holds bytes. A name that is not valid UTF-8 cannot be expressed. Under the ASCII fold this changes no lookup, since every registered name is ASCII.
- The rest of the font system that reads these arrays (font loading, glyph rendering) is not part of this model.
- Conformance with the published code pages is not claimed beyond what the lemmas state. ISO/IEC 8859-2 is checked against a reference written into the model. For code page 1252 only the structure is proved: the assigned bytes (including 0x9D, as written) map beyond Latin-1.
- The glyph pictures in the source comments are documentation. They are not modelled, apart from the numbers sheet's picture.
- The remark in the comments that the no-break space and the soft hyphen are not used is not modelled. The arrays map both, and the lemmas state the arrays.
- Build-order independence of the seven insertions is not stated as a lemma. `Init` ends with the exact map that lists the seven entries.
