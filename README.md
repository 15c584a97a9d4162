# Funkin' asset converter, modelled in Dafny

This project models the converters that move rhythm-game assets between two
engine formats. "V Slice" is the flat format. "Psych Engine" is the sectioned
format. The model covers the browser tool `script.js` and the stand-alone
Python chart converter `tools/converter.py`.

- **Charts** (`Chart`, `NoteDirection`, `ChartProperties`)
  - The splitter cuts a flat, time-stamped note list into four-beat sections.
  - A section with an odd index belongs to the player (`mustHitSection`).
  - A stored direction is relative to its section's flag: the high bit means
    "the other side".
  - The flattener undoes the sectioning. It re-derives each note's owner from
    its section's flag, then stably sorts all notes by time.
- **Stages** (`Stage`, `StageProperties`)
  - A V Slice stage becomes a Psych Engine stage document plus a Lua script:
    one block of calls per prop, with the props stably sorted by `zIndex`.
  - The reverse direction reads the script back line by line. A
    "current sprite" cursor receives the recognised statements.
- **Characters** (`Character`)
  - Animation names are translated through two fixed maps.
  - The health-bar colour is a hexadecimal string. It is stored as a signed
    32-bit integer and read back as unsigned.
- **Weeks and file names** (`Naming`)
  - Song ids become display titles and back.
  - Every download name is the lower-cased name with each run of white space
    turned into one hyphen.
- **Chart generator** (`Generator`)
  - It builds sections that alternate between the two sides, with the same
    constants as the splitter.
  - In sample mode each section holds one note per beat.
- **Python converter** (`PyConverter`, `PyConverterProperties`)
  - It buckets notes into a dictionary keyed by `floor(time / section_time)`.
  - A section is created by the first note that lands in it, and that note
    fixes the section's flag.
  - The output lists the sections in ascending key order.

The imperative parts are `method`s with loops. Each loop is proved against a
specification function:

- the splitter's section loop;
- the flattener's nested loops;
- the Lua writer;
- the line parser;
- the sample-note loop and the generator loop;
- the Python bucketing loop over a `map`.

The pure mappings are functions. Stable `Array.prototype.sort` is modelled by
a stable insertion sort (`Sorting.SortBy`).

Several properties of the source are proved as lemmas:

- **A boundary note can be dropped.** The splitter counts sections with
  `Math.ceil(maxEnd / msPerSection) || 1` but fills half-open windows. A
  zero-length note whose time is exactly a multiple of the section length,
  and is the latest note, falls into no section (`BoundaryNoteDropped`).
  Notes are conserved only below `numSections * msPerSection`
  (`SplitConservesNotes`).
- **Split then flatten keeps a note only if its owner matches the section.**
  Every note comes back with its lane, time and sustain. Its owner becomes the
  parity of its section, and its modifier tags become empty
  (`SplitThenFlatten`). The round trip is exact precisely when each note's
  owner already matches its section's parity (`SplitThenFlattenExact`).
- **The generator and the splitter store must-hit notes differently.** The
  generator stores the player's notes in must-hit sections as lanes 4-7. The
  splitter stores the same flat note with the high bit clear. The flattener
  reads both back to the same absolute lane (`SampleDirections`). So a
  generated must-hit section, flattened and split again, comes back with
  its notes on lanes 0-3 (`GeneratedResplit`).
- **The unsigned health colour goes nowhere.** `psychCharToVSlice` computes
  it, but no field of the V Slice character it returns holds it
  (`HealthColour`).
- **The Python converter offsets lanes per note.** It adds 4 to the lane of
  each note whose own `mustHit` is false, while the section flag comes from
  the section's first note. When `script.js`'s flattener reads that output,
  a note whose `mustHit` differs from its section's first note reads back
  with the opposite owner (`LaneIgnoresSectionFlag`).
- **The thirty-first prop behind the characters moves in front.** The reverse stage conversion stacks the props behind the characters at `10 + 10·i`, while the boyfriend stands at 300. From place 30 on, such a prop lands at 310 or more, so a script generated from the result adds it in front (`ThirtyFirstBehindMovesFront`). With at most thirty props behind, a generated script survives the trip back and forth unchanged (`RegenerateStable`).
- **A doubled hyphen does not survive the week round trip.** A song id with
  two adjacent hyphens after its first character comes back with a single
  hyphen (`DoubleHyphenLost`, `WeekSongsRoundTrip`).

## Model

| member | source | states |
|---|---|---|
| NoteDirection.ToSectionRelative | script.js:179-185 | For a non-negative direction, the stored value lies in 0-7 and keeps the lane `d mod 4`. Its high bit is set exactly when the note's owner differs from the section's. |
| NoteDirection.ToAbsolute | script.js:227-232 | The decoded direction keeps the stored lane. It is 4 or more exactly when the section is a must-hit section, and lies in 0-7. |
| NoteDirection.RoundTrip | script.js:179-185 | Encoding then decoding against the same flag keeps the lane and replaces the owner with the section's. The direction survives iff its owner already matched the flag. |
| Chart.MaxEnd | script.js:170 | The result bounds the end `t + l` of every note and is reached by some note. It is 0 for no notes. |
| Chart.Ceil | script.js:171 | `Math.ceil`: the least integer not below `x`. |
| Chart.EncodeWindow | script.js:176-186 | Every kept note lies in the half-open window of its section, and no more notes are kept than given. |
| Chart.VSliceToPsychEngine | script.js:158-212 | Fails exactly when there is no time change. Otherwise the song has the split sections of the chosen difficulty's notes, falling back to `normal`, and the form defaults. |
| Chart.PsychToVSlice | script.js:214-271 | The output notes are the flattened sections stably sorted by time, under the chosen difficulty. The scroll speed falls back field by field. The metadata takes its defaults from the song. |
| ChartProperties.SectionCountValue | script.js:168-171 | The split makes `max(1, ceil(maxEnd / msPerSection))` sections, and exactly one when no note ends after 0. |
| ChartProperties.SectionCountReaches | script.js:170-171 | Every note ends at or before the end of the last section. |
| ChartProperties.SectionCountTight | script.js:170-171 | With more than one section, the last section starts before the latest note end. |
| ChartProperties.SectionFields | script.js:187-196 | Each section has 4 beats and 16 steps, the input bpm and no bpm change. It is must-hit exactly at odd indices. |
| ChartProperties.NoNotesOneSection | script.js:170-171 | With no notes the split is one empty opponent section. |
| ChartProperties.WindowIndex | script.js:174-177 | A time lies in window `i` iff `i` is `floor(t / msPerSection)`. |
| ChartProperties.WindowMembers | script.js:176-177 | Section `i` holds the encoded copy of every note in its window, and nothing else. |
| ChartProperties.EncodedNote | script.js:178-185 | A stored note keeps its time and sustain, lies in 0-7 and keeps its lane. Its high bit marks an owner that differs from the section's. |
| ChartProperties.SplitConservesNotes | script.js:170-186 | When every note starts before the end of the last section, the sections hold exactly as many notes as the input. |
| ChartProperties.BoundaryNoteDropped | script.js:170-177 | At 100 bpm, a single note at 2400 ms gives one empty section: the note is lost. |
| ChartProperties.SingleNoteScenario | script.js:173-233 | At 100 bpm, one note at time 0 gives one opponent section holding it. Flattening returns the note. |
| ChartProperties.FlattenCount | script.js:222-235 | The flattener emits one flat note per section note. |
| ChartProperties.FlattenAt | script.js:222-233 | Each section note lands right after the notes before it. It keeps its time, sustain and lane, has no tags, and its owner is the section's. |
| ChartProperties.SplitThenFlatten | script.js:173-236 | For time-ordered notes inside the sections, split then flatten returns every note in place. Only its owner is re-derived from the section parity and its tags dropped. |
| ChartProperties.SplitThenFlattenExact | script.js:173-236 | The split-flatten round trip is the identity iff every note is untagged and owned by the side of its section's parity. |
| Sorting.SortBy | script.js:236 | The sorted copy has the same length and multiset of elements, and is ordered by the key. |
| Sorting.SortStable | script.js:236 | Elements with equal keys keep their input order. |
| Sorting.SortSorted | script.js:236 | Sorting an ordered sequence leaves it unchanged. |
| Text.SplitLines | script.js:589 | `split('\n')` gives at least one line, and no line holds a line feed. |
| Text.JoinSplit | script.js:589 | Joining the split lines with line feeds gives the text back. |
| Text.SplitJoin | script.js:589 | Splitting joined feed-free lines gives the lines back. |
| Text.IntToString | script.js:514 | A rendered integer is non-empty and starts with no white space. |
| Text.IntTokenOfString | script.js:593 | Reading the number token of a rendered integer gives the integer back. |
| Text.LowerIdempotent | script.js:363 | ASCII lower case: lowering twice is lowering once, and text comes out unchanged iff it holds no ASCII upper-case letter. |
| Stage.StageJson | script.js:487-499 | The stage document keeps the directory, has no pixel flag and camera speed 1. A non-zero zoom is copied and a zero one becomes 0.9. For each of bf, gf and dad, a given position and camera offset are copied and a missing one takes its default ((770,100), (400,130), (100,100); offsets (0,0)). |
| Stage.SortedProps | script.js:503 | The props are a permutation of the input, ordered by `zIndex`, with a missing one read as 0. |
| Stage.PropLines | script.js:505-529 | A prop's block starts with a blank line and has at least two lines. |
| Stage.PropBlock | script.js:505-529 | The loop body writes exactly the block of the prop. |
| Stage.WriteScript | script.js:502-531 | The script is `function onCreate()`, the blocks of the sorted props, then `end`, each line ended by a line feed. |
| Stage.VSliceStageToPsychEngine | script.js:485-536 | Gives the stage document and, when generation is on and props are present, the script. Otherwise it gives the placeholder text. |
| Stage.ApplyStatements | script.js:608-626 | Each recognised statement updates its field of the open sprite. |
| Stage.ParseLine | script.js:592-626 | One line either flushes the cursor and opens a sprite, updates the open sprite, or changes nothing. |
| Stage.ParseLines | script.js:590-629 | The line loop gives the sprites of the line-by-line specification, flushing the last open sprite. |
| Stage.ParseLuaSprites | script.js:587-630 | The parser equals the line-by-line specification over the lines of the script. |
| Stage.PropsOf | script.js:544-559 | There is one prop per parsed sprite, at the same place, with its asset path, position, scale, scroll, alpha and pixel flag, and a non-empty name that is the sprite's own when it has one. Its `zIndex` is 400 in front and `10 + 10·i` otherwise, so it is above 300 iff the sprite is in front or at place 30 or later. |
| Stage.PsychStageToVSlice | script.js:538-585 | The V Slice stage is the form's names, the field defaults, and one prop per parsed sprite when a script is given. |
| StageProperties.ReadCreate | script.js:593 | The create recogniser reads back the name, asset path and position the generator wrote. |
| StageProperties.ReadPair | script.js:608-619 | The scale and scroll-factor recognisers read back the pair written. |
| StageProperties.ReadAlpha | script.js:612-615 | The alpha recogniser reads back the alpha written. |
| StageProperties.ReadAdd | script.js:620-623 | The add recogniser reads back the in-front flag written. |
| StageProperties.SkipAntialiasing | script.js:593-626 | The antialiasing statement matches none of the five patterns. |
| StageProperties.UnrecognisedLine | script.js:592-627 | A line that matches no pattern and does not mention antialiasing leaves the parser state unchanged. |
| StageProperties.NoCreateNoSprite | script.js:607 | Lines before the first create statement have no effect. |
| StageProperties.SpritePerCreate | script.js:593-606 | The parser returns one sprite per create statement, and none for the empty script. |
| StageProperties.ParsedNeverPixel | script.js:603-626 | No parsed sprite is marked as pixel art. |
| StageProperties.StepReadsStatements | script.js:592-626 | One parser step does the right thing for each line the generator writes. A blank line is skipped, a create line flushes and opens, and each statement sets its field of the open sprite. |
| StageProperties.GenerateThenParse | script.js:500-630 | For props with plain names and asset paths, parsing the generated script gives one sprite per prop, in sorted order. Each has its name, path, position, scale, alpha and scroll, is in front iff its `zIndex` is above the threshold, and is not pixel art. |
| StageProperties.PixelBackgroundBlock | script.js:514-529 | A pixel-art prop with default scale, alpha and scroll gets only the create and add statements. |
| Character.ColorSigned | script.js:352-353 | Values in [0, 2^32) map into [-2^31, 2^31), congruent modulo 2^32. |
| Character.ColorUnsigned | script.js:396-399 | Values in [-2^31, 2^32) map into [0, 2^32), congruent modulo 2^32. |
| Character.ColorRoundTrip | script.js:352-353 | The signed and unsigned readings undo each other on their ranges. |
| Character.ParseHex | script.js:352 | `parseInt(..., 16)` fails exactly when the text does not start with a hex digit. |
| Character.PickedColour | script.js:351-352 | A `#rrggbb` colour reads as its hex value, in [0, 2^24). |
| Character.PsychAnimName | script.js:354-363 | A mapped V Slice name becomes a key of the reverse map. Any other name is lower-cased. |
| Character.VSliceAnimName | script.js:386-391 | A Psych Engine animation in the reverse map becomes a V Slice name that the forward map sends back to it. Any other animation keeps its frame name when there is one. |
| Character.AnimationNameRoundTrip | script.js:354-391 | A name survives the trip to Psych Engine and back iff its ASCII lower case is neither `idle` nor `idle-alt`. So `Idle` and `idle` come back as `Idle0`, and `idle-alt` as `Idle ALT`. |
| Character.VSliceCharToPsychEngine | script.js:346-382 | Gives one animation per input animation, each keeping its name. The health bar holds the signed colour of the picked value. |
| Character.HealthColourRoundTrip | script.js:351-399 | The colour stored by the forward conversion reads back, unsigned, as the value parsed from the colour field whenever it fits in 32 bits. An unparsable field reads back as no colour. |
| Character.PickedColourRoundTrip | script.js:351-399 | A colour picked as `#rrggbb` reads back from the converted character as its hex value. |
| Character.Capitalized | script.js:402 | The first character is upper-cased (ASCII) and the rest is unchanged. So the result has the same length and the same ASCII lower case as the input, and does not start with an ASCII lower-case letter. |
| Character.PsychCharToVSlice | script.js:384-411 | Gives one animation per input animation. The character is named after its icon, which is never empty. |
| Character.CharacterRoundTrip | script.js:346-411 | A character taken to Psych Engine and back keeps its asset, positions, scale, flip, icon and every animation's fps, loop flag and offsets, with defaults filled in. |
| Naming.SlugShape | script.js:1432 | A slug holds no white space and no ASCII upper-case letter. |
| Naming.SlugIdempotent | script.js:280 | Slugging a slug changes nothing. |
| Naming.FileNameShape | script.js:285 | A download name has no white space, ends in its extension, and is the slug of the given name when that name is not empty. |
| Naming.RunsNoLonger | script.js:743 | Merging white-space runs never lengthens the text, and shortens it when two white-space characters are adjacent. |
| Naming.TitleRoundTrip | script.js:712-744 | Under ASCII case mapping, a song id turned into its title and back is the id iff the id has no ASCII upper-case letter, no white space and no doubled hyphen after its first character. |
| Naming.DoubleHyphenLost | script.js:712-744 | An id with two adjacent hyphens does not come back. |
| Naming.PsychWeekSongs | script.js:712-718 | One song entry per id, each with icon `bf` and the fixed colour. |
| Naming.VSliceWeekSongs | script.js:742-744 | One song id per entry. |
| Naming.WeekSongsRoundTrip | script.js:712-744 | Under ASCII case mapping, a week's song list survives the round trip iff every id is recoverable from its title. |
| Naming.SongIdShape | script.js:742-744 | Every song id is free of white space and of ASCII upper-case letters. |
| Generator.GenerateSampleNotes | script.js:857-866 | The loop pushes the four sample notes: one per beat from the section start, lanes 0-3, plus 4 for the player. |
| Generator.SampleNotesShape | script.js:857-866 | At a positive tempo, each sample note lies inside the splitter's window for its section, on its own lane, with the owner bit set exactly in a must-hit section. Times strictly increase. |
| Generator.SampleDirections | script.js:857-866 | A sample note decodes to its own direction and would be stored by the splitter with the owner bit clear. |
| Generator.GenerateChart | script.js:800-846 | The chart has the chosen number of sections (none when it is negative). Each is the generated section of its index, and the song fields fall back to their defaults. |
| Generator.SampleSectionResplit | script.js:173-186 | The four sample notes of section `i`, flattened with its flag and split again, all fall in window `i` and are stored as the same notes with the owner bit clear. |
| Generator.GeneratedResplit | script.js:812-832 | A generated sample section, flattened and split again at its tempo, comes back with the same fixed fields, flag and notes, each note with its owner bit clear. It comes back unchanged exactly when it is an opponent (even) section. |
| PyConverter.SectionTime | tools/converter.py:16-22 | The section length is `4 * 60000 / bpm`, and is never 0. |
| PyConverter.Converted | tools/converter.py:27-55 | A note keeps its time, length and type, with defaults. Its lane is offset by 4 exactly when its own `mustHit` is false. |
| PyConverter.AddNoteKeys | tools/converter.py:35-57 | Adding a note adds its section index to the keys and nothing else. |
| PyConverter.SectionsGrouped | tools/converter.py:26-57 | After the first `n` notes, the dictionary maps each index that received a note to its notes in input order, with the flag of its first note. |
| PyConverter.SortedKeys | tools/converter.py:69 | The keys come out strictly ascending, and each exactly once. |
| PyConverter.PlaceNote | tools/converter.py:27-57 | One loop pass updates the dictionary as one step of the bucketing specification. The note's key joins the key order exactly when its section is new. |
| PyConverter.BucketNotes | tools/converter.py:24-57 | After the loop, the dictionary and its key order are those of the bucketing specification over all notes. |
| PyConverter.SortedSections | tools/converter.py:69 | The sections taken in sorted key order are the specified output list. |
| PyConverter.ConvertVSliceToPsych | tools/converter.py:12-72 | Fails exactly when the tempo (default 120) is 0. Otherwise the song lists the grouped sections in ascending key order, with the field defaults. |
| PyConverterProperties.NotesInMember | tools/converter.py:33-57 | A section holds a note iff some input note with that section index converts to it. |
| PyConverterProperties.NotesInAppend | tools/converter.py:57 | Notes are appended in input order. |
| PyConverterProperties.FirstNoteDecides | tools/converter.py:35-43 | A section's flag is the `mustHit` of the first note with that index. |
| PyConverterProperties.LaterNotesKeepFlag | tools/converter.py:35-43 | Later notes never change an existing section's flag. |
| PyConverterProperties.SectionListEntries | tools/converter.py:59-69 | Output entry `m` is the section of the `m`-th smallest index, with its notes and its first note's flag. No entry is empty. |
| PyConverterProperties.NotePlaced | tools/converter.py:26-57 | Every input note appears, converted, in the output entry for its section index. |
| PyConverterProperties.ConvertConservesNotes | tools/converter.py:26-69 | The output sections hold exactly as many notes as the input. |
| PyConverterProperties.LaneIgnoresSectionFlag | tools/converter.py:35-48 | At 120 bpm, a must-hit note at 0 ms and a non-must-hit note at 500 ms share a must-hit section. The second note's lane still moves to 4-7, and the flattener of `script.js` reads both notes as the same player lane 5. |
| StageRoundTrip.StageJsonThenBack | script.js:487-499 | Converting the stage document back keeps the zoom and every character position and camera offset the V Slice stage gave. |
| StageRoundTrip.BlocksAgree | script.js:505-529 | Two prop lists whose props write the same lines, place by place, write the same script body. |
| StageRoundTrip.PropReparsed | script.js:505-559 | A non-pixel prop read back from its own lines writes those lines again against the characters' layer 300, if it is in front or among the first thirty. |
| StageRoundTrip.ReparsedSorted | script.js:503-559 | The props read back from a sorted script are already in `zIndex` order when every prop behind the characters is among the first thirty. |
| StageRoundTrip.RegenerateStable | script.js:485-585 | Generating a script, reading it back into a V Slice stage and generating again gives the same script, for non-pixel props with plain names and paths and at most thirty of them at or behind the boyfriend's layer. |
| StageRoundTrip.ThirtyFirstBehindMovesFront | script.js:538-585 | The thirty-first sprite read from a script, even one added behind the characters, gets layer 310, above the boyfriend's 300, so a script generated from the result adds it in front. |

## Left out

- Page I/O is not modelled: reading form fields, status messages, downloads, `JSON.parse`/`JSON.stringify`, and the file reading, writing, printing and command line of `tools/converter.py`. Every form field is an explicit parameter, with 0 or "" standing for a blank field.
- JSON is not modelled: documents are Dafny datatypes, and the output indentation is not modelled.
- Numbers are not IEEE doubles. Chart times, lengths, tempos and speeds are exact reals. NaN, infinities, rounding and JS number formatting (such as exponent notation) are not modelled. `x || d` on a number treats 0 as the only falsy value.
- Stage script numbers are integers. The regular expression `[-\d.]+` followed by `parseFloat` is modelled as an optional minus sign and decimal digits.
- The Lua recognisers are not the source's unanchored regular-expression searches. Each matches at the start of the trimmed line, with white space allowed where `\s*` stands. The `antialiasing` test is a true substring search.
- Chart.VSliceToPsychEngine: requires the first time change's bpm to be positive. The source divides by it, and the infinite results of a zero tempo are not modelled. A negative tempo, which the source accepts (a negative section length, `Math.ceil` of a non-positive quotient, then `|| 1` for a zero count), is excluded too.
- ChartProperties.SplitConservesNotes: holds only for notes that start before the end of the last section. A note at exactly that time is dropped by the source (`BoundaryNoteDropped`).
- Text.Lower: case mapping is ASCII only, and strings are sequences of characters rather than UTF-16 code units. JavaScript's `toLowerCase`/`toUpperCase` map all of Unicode and can change the length ('ß' upper-cases to "SS", 'İ' lower-cases to two units). So `Naming.Slug`, `Naming.SongTitle`, `Character.Capitalized` and `Character.PsychAnimName` agree with the source only on ASCII letters.
- Naming.SlugShape: promises no ASCII upper-case letter only. The source's slug has no upper-case letter in all of Unicode.
- Naming.TitleRoundTrip: the condition is stated for ASCII case mapping. A non-ASCII letter such as 'É' is recoverable in the model but not in the source.
- Naming.WeekSongsRoundTrip: inherits the ASCII case mapping of `Naming.TitleRoundTrip`.
- Naming.SongIdShape: promises no ASCII upper-case letter only, as `Naming.SlugShape` does.
- Character.ParseHex: does not model `parseInt`'s leading white space, sign or `0x` prefix.
- Character.VSliceCharToPsychEngine: treats an absent animation name as the empty string. The source throws on `toLowerCase` of a missing name.
- Character.PsychAnimName: does not model inherited object keys such as `constructor` being found in the animation maps.
- PyConverter.Converted: does not model Python truthiness of a non-boolean `mustHit`, or the `float()`/`int()` coercion of string fields. Fields are typed values or absent.
- PyConverter.ConvertVSliceToPsych: computes the section length with `SectionTime(bpm)` in one step rather than through the two intermediate values. The loop, its body and the final list are separate methods (`BucketNotes`, `PlaceNote`, `SortedSections`). The `events` list, always empty in the source, is not a field of the model.
- `generateRandomNotes` is not modelled because it draws on `Math.random`. The random generator mode is an opaque note-producing parameter of `Generator.GenMode`.
- The week conversions are modelled only for their song lists. The other week fields are copies of form values.
- The Lua template generators are not modelled because they are constant strings.
- `generateStage` and `generateCharacter` are not modelled because they are form-to-object copies.
- Every UI handler (tab and mode switching, clearing, the animation list editor) is left out.
