/** The chart converter (script.js:158-271). The flat format ("V Slice") keeps
    one list of notes per difficulty, times in milliseconds, plus a separate
    metadata document; the sectioned format ("Psych Engine") cuts the song
    into sections of four beats, each with a `mustHitSection` flag that the
    stored note directions are relative to. */
module Chart {
  import opened Wrappers
  import opened Text
  import opened Sorting
  import opened NoteDirection

  // ---------------------------------------------------------------- flat format

  /** `{t, d, l, p}`: time, direction 0-7, sustain length, modifier tags. */
  datatype FlatNote = FlatNote(t: real, d: int, l: real, p: seq<string>)

  datatype TimeChange = TimeChange(t: real, b: real, bpm: real, n: int, d: int, bt: seq<int>)

  datatype VSliceChart = VSliceChart(
    version: string,
    scrollSpeed: map<string, real>,
    notes: map<string, seq<FlatNote>>)

  datatype Offsets = Offsets(
    instrumental: real,
    altInstrumentals: map<string, real>,
    vocals: map<string, real>,
    altVocals: map<string, real>)

  datatype PlayCharacters = PlayCharacters(
    player: string,
    girlfriend: string,
    opponent: string,
    instrumental: string,
    opponentVocals: seq<string>,
    playerVocals: seq<string>)

  datatype PlayData = PlayData(
    songVariations: seq<string>,
    difficulties: seq<string>,
    characters: PlayCharacters,
    stage: string,
    noteStyle: string,
    ratings: map<string, int>,
    previewStart: real,
    previewEnd: real)

  datatype VSliceMetadata = VSliceMetadata(
    version: string,
    songName: string,
    artist: string,
    charter: string,
    looped: bool,
    offsets: Offsets,
    playData: PlayData,
    generatedBy: string,
    timeFormat: string,
    timeChanges: seq<TimeChange>)

  // ---------------------------------------------------------------- sectioned format

  /** `[time, direction, sustain]`. */
  datatype SectionNote = SectionNote(time: real, dir: int, len: real)

  datatype Section = Section(
    sectionNotes: seq<SectionNote>,
    sectionBeats: int,
    lengthInSteps: int,
    mustHitSection: bool,
    bpm: real,
    changeBPM: bool,
    altAnim: bool,
    gfSection: bool)

  /** The `song` object of a sectioned chart. A missing string field is the
      empty string and a missing number is 0, both falsy for `||`. */
  datatype PsychSong = PsychSong(
    song: string,
    notes: seq<Section>,
    bpm: real,
    needsVoices: bool,
    player1: string,
    player2: string,
    gfVersion: string,
    speed: real,
    stage: string,
    validScore: bool)

  datatype PsychChart = PsychChart(song: PsychSong)

  /** `x || d` for a number: 0 (standing for 0, NaN and a missing field) is
      falsy. */
  function OrReal(x: real, d: real): real {
    if x != 0.0 then x else d
  }

  // ---------------------------------------------------------------- splitter (flat to sectioned)

  /** Form fields read by the splitter; the empty string is a blank field. */
  datatype SplitOptions = SplitOptions(
    difficulty: string,
    player1: string,
    player2: string,
    gfVersion: string,
    stage: string)

  /** `notes?.[difficulty] || notes?.normal || []`: a present list, even an
      empty one, is truthy. */
  function DifficultyNotes(chart: VSliceChart, difficulty: string): seq<FlatNote> {
    if difficulty in chart.notes then chart.notes[difficulty]
    else if "normal" in chart.notes then chart.notes["normal"]
    else []
  }

  /** `scrollSpeed?.[difficulty] || scrollSpeed?.normal || 1`. */
  function ScrollSpeedFor(chart: VSliceChart, difficulty: string): real {
    var own := if difficulty in chart.scrollSpeed then chart.scrollSpeed[difficulty] else 0.0;
    var normal := if "normal" in chart.scrollSpeed then chart.scrollSpeed["normal"] else 0.0;
    OrReal(own, OrReal(normal, 1.0))
  }

  /** `4 * 60000 / bpm`: the length of one four-beat section. */
  function MsPerSection(bpm: real): real
    requires bpm > 0.0
  {
    60000.0 / bpm * 4.0
  }

  /** `Math.ceil`. */
  function Ceil(x: real): (c: int)
    ensures (c - 1) as real < x <= c as real
  {
    -((-x).Floor)
  }

  function NoteEnd(n: FlatNote): real {
    n.t + n.l
  }

  /** `Math.max(...notes.map(n => n.t + (n.l || 0)))`, or 0 without notes. */
  function MaxEnd(notes: seq<FlatNote>): (m: real)
    ensures forall k :: 0 <= k < |notes| ==> NoteEnd(notes[k]) <= m
    ensures notes == [] ==> m == 0.0
    ensures notes != [] ==> exists k :: 0 <= k < |notes| && NoteEnd(notes[k]) == m
  {
    if |notes| <= 1 then (if notes == [] then 0.0 else NoteEnd(notes[0]))
    else
      var rest := MaxEnd(notes[1..]);
      assert forall k :: 1 <= k < |notes| ==> notes[k] == notes[1..][k - 1];
      if NoteEnd(notes[0]) >= rest then NoteEnd(notes[0]) else rest
  }

  /** `Math.ceil(maxTime / msPerSection) || 1`: zero becomes one. */
  function SectionsFor(m: real, ms: real): int
    requires ms > 0.0
  {
    var c := Ceil(m / ms);
    if c == 0 then 1 else c
  }

  /** The number of sections the splitter makes for `notes`. */
  function SectionCount(notes: seq<FlatNote>, ms: real): int
    requires ms > 0.0
  {
    SectionsFor(MaxEnd(notes), ms)
  }

  /** How many times the section loop runs. */
  function LoopCount(count: int): nat {
    if count < 0 then 0 else count
  }

  /** The half-open window `[i * ms, (i + 1) * ms)` of section `i`. */
  predicate InWindow(t: real, i: int, ms: real) {
    i as real * ms <= t < (i + 1) as real * ms
  }

  function EncodeNote(n: FlatNote, mustHitSection: bool): SectionNote {
    SectionNote(n.t, ToSectionRelative(n.d, mustHitSection), n.l)
  }

  /** The `filter(...).map(...)` of section `i`: the notes inside its window,
      in input order, with directions made relative to its flag. */
  function EncodeWindow(notes: seq<FlatNote>, i: int, ms: real): (r: seq<SectionNote>)
    ensures |r| <= |notes|
    ensures forall k :: 0 <= k < |r| ==> InWindow(r[k].time, i, ms)
  {
    if notes == [] then []
    else
      var rest := EncodeWindow(notes[1..], i, ms);
      if InWindow(notes[0].t, i, ms) then [EncodeNote(notes[0], i % 2 == 1)] + rest else rest
  }

  /** Section `i` for sections `ms` long at tempo `bpm`. */
  function SplitSection(notes: seq<FlatNote>, i: int, ms: real, bpm: real): Section {
    Section(EncodeWindow(notes, i, ms), 4, 16, i % 2 == 1, bpm, false, false, false)
  }

  /** The first `count` sections. */
  function SectionsOver(notes: seq<FlatNote>, ms: real, bpm: real, count: nat): (r: seq<Section>)
    ensures |r| == count
  {
    seq(count, i requires 0 <= i => SplitSection(notes, i, ms, bpm))
  }

  /** The sections the splitter's loop pushes. */
  function SplitSections(notes: seq<FlatNote>, ms: real, bpm: real): seq<Section>
    requires ms > 0.0
  {
    SectionsOver(notes, ms, bpm, LoopCount(SectionCount(notes, ms)))
  }

  /** vSliceToPsychEngine. Reading `timeChanges[0].bpm` of an empty list
      throws, which the caller reports as a conversion error. */
  method VSliceToPsychEngine(chart: VSliceChart, meta: VSliceMetadata, opts: SplitOptions)
    returns (r: Result<PsychChart>)
    requires meta.timeChanges != [] ==> meta.timeChanges[0].bpm > 0.0
    ensures r.Err? <==> meta.timeChanges == []
    ensures r.Ok? ==>
      var difficulty := OrString(opts.difficulty, "normal");
      var bpm := meta.timeChanges[0].bpm;
      r.value.song == PsychSong(
        OrString(meta.songName, "Unknown"),
        SplitSections(DifficultyNotes(chart, difficulty), MsPerSection(bpm), bpm),
        bpm,
        true,
        OrString(opts.player1, "bf"),
        OrString(opts.player2, "dad"),
        OrString(opts.gfVersion, "gf"),
        ScrollSpeedFor(chart, difficulty),
        OrString(opts.stage, "stage"),
        true)
  {
    if meta.timeChanges == [] {
      return Err("Cannot read properties of undefined (reading 'bpm')");
    }
    var bpm := meta.timeChanges[0].bpm;
    var songName := OrString(meta.songName, "Unknown");
    var difficulty := OrString(opts.difficulty, "normal");
    var scrollSpeed := ScrollSpeedFor(chart, difficulty);
    var notes := DifficultyNotes(chart, difficulty);
    var msPerBeat := 60000.0 / bpm;
    var msPerSection := msPerBeat * 4.0;
    var maxTime := MaxEnd(notes);
    var numSections := Ceil(maxTime / msPerSection);
    if numSections == 0 {
      numSections := 1;
    }
    var sections: seq<Section> := [];
    var i := 0;
    while i < numSections
      invariant 0 <= i <= LoopCount(numSections)
      invariant |sections| == i
      invariant forall k :: 0 <= k < i ==> sections[k] == SplitSection(notes, k, msPerSection, bpm)
    {
      var sectionNotes := EncodeWindow(notes, i, msPerSection);
      sections := sections + [Section(sectionNotes, 4, 16, i % 2 == 1, bpm, false, false, false)];
      i := i + 1;
    }
    assert sections == SplitSections(notes, msPerSection, bpm);
    r := Ok(PsychChart(PsychSong(songName, sections, bpm, true,
      OrString(opts.player1, "bf"), OrString(opts.player2, "dad"),
      OrString(opts.gfVersion, "gf"), scrollSpeed, OrString(opts.stage, "stage"), true)));
  }

  // ---------------------------------------------------------------- flattener (sectioned to flat)

  /** Form fields read by the flattener; the empty string is a blank field and
      a scroll speed of 0 a blank or unparsable one. */
  datatype FlattenOptions = FlattenOptions(
    difficulty: string,
    scrollSpeed: real,
    artist: string,
    charter: string)

  function DecodeNote(n: SectionNote, mustHitSection: bool): FlatNote {
    FlatNote(n.time, ToAbsolute(n.dir, mustHitSection), n.len, [])
  }

  function DecodeSection(notes: seq<SectionNote>, mustHitSection: bool): (r: seq<FlatNote>)
    ensures |r| == |notes|
  {
    seq(|notes|, k requires 0 <= k < |notes| => DecodeNote(notes[k], mustHitSection))
  }

  /** What the nested `forEach` pushes: every note of every section, in
      section order. */
  function FlattenSections(sections: seq<Section>): seq<FlatNote> {
    if sections == [] then []
    else
      var last := sections[|sections| - 1];
      FlattenSections(sections[..|sections| - 1]) + DecodeSection(last.sectionNotes, last.mustHitSection)
  }

  /** The number of notes over all sections. */
  function TotalNotes(sections: seq<Section>): nat {
    if sections == [] then 0 else |sections[0].sectionNotes| + TotalNotes(sections[1..])
  }

  function NoteTime(n: FlatNote): real {
    n.t
  }

  /** The metadata document psychToVSlice assembles from defaults. */
  function FlatMetadata(song: PsychSong, difficulty: string, opts: FlattenOptions): VSliceMetadata {
    var player := OrString(song.player1, "bf");
    var opponent := OrString(song.player2, "dad");
    VSliceMetadata(
      "2.2.4",
      OrString(song.song, "Unknown"),
      OrString(opts.artist, "Unknown"),
      OrString(opts.charter, "Converter"),
      false,
      Offsets(0.0, map[], map[], map[]),
      PlayData([], [difficulty],
        PlayCharacters(player, OrString(song.gfVersion, "gf"), opponent, "", [opponent], [player]),
        OrString(song.stage, "stage"), "funkin",
        map["easy" := 1, "normal" := 3, "hard" := 5], 0.0, 0.0),
      "Funkin' Modding",
      "ms",
      [TimeChange(0.0, 0.0, OrReal(song.bpm, 100.0), 4, 4, [4, 4, 4, 4])])
  }

  /** psychToVSlice: flatten every section, then one stable sort by time. */
  method PsychToVSlice(chart: PsychChart, opts: FlattenOptions) returns (out: VSliceChart, meta: VSliceMetadata)
    ensures var difficulty := OrString(opts.difficulty, "normal");
      && out.version == "2.0.0"
      && out.scrollSpeed == map[difficulty := OrReal(opts.scrollSpeed, OrReal(chart.song.speed, 1.0))]
      && out.notes == map[difficulty := SortBy(FlattenSections(chart.song.notes), NoteTime)]
      && meta == FlatMetadata(chart.song, difficulty, opts)
  {
    var song := chart.song;
    var difficulty := OrString(opts.difficulty, "normal");
    var scrollSpeed := OrReal(opts.scrollSpeed, OrReal(song.speed, 1.0));
    var notes: seq<FlatNote> := [];
    var i := 0;
    while i < |song.notes|
      invariant 0 <= i <= |song.notes|
      invariant notes == FlattenSections(song.notes[..i])
    {
      var section := song.notes[i];
      var j := 0;
      ghost var before := notes;
      while j < |section.sectionNotes|
        invariant 0 <= j <= |section.sectionNotes|
        invariant notes == before + DecodeSection(section.sectionNotes[..j], section.mustHitSection)
      {
        var note := section.sectionNotes[j];
        var time := note.time;
        var direction := note.dir;
        var length := note.len;
        if direction >= 4 {
          direction := direction % 4;
        }
        if section.mustHitSection {
          direction := direction + 4;
        }
        notes := notes + [FlatNote(time, direction, length, [])];
        j := j + 1;
      }
      assert section.sectionNotes[..j] == section.sectionNotes;
      assert song.notes[..i + 1][..i] == song.notes[..i];
      i := i + 1;
    }
    assert song.notes[..i] == song.notes;
    notes := SortBy(notes, NoteTime);
    out := VSliceChart("2.0.0", map[difficulty := scrollSpeed], map[difficulty := notes]);
    meta := FlatMetadata(song, difficulty, opts);
  }
}
