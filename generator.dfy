/** The chart generator (script.js:800-866): a sectioned chart of a chosen
    length whose sections alternate between the opponent (even index) and
    the player (odd index, `mustHitSection`). In "sample" mode every section
    holds one note per beat on lanes 0-3 in order, shifted to 4-7 in
    must-hit sections. */
module Generator {
  import opened Text
  import opened NoteDirection
  import opened Chart

  /** The four notes generateSampleNotes pushes. */
  function SampleNotes(startTime: real, msPerBeat: real, isPlayer: bool): (r: seq<SectionNote>)
    ensures |r| == 4
  {
    seq(4, i requires 0 <= i < 4 =>
      SectionNote(startTime + i as real * msPerBeat, i + (if isPlayer then 4 else 0), 0.0))
  }

  /** generateSampleNotes (script.js:857-866). */
  method GenerateSampleNotes(startTime: real, msPerBeat: real, isPlayer: bool) returns (notes: seq<SectionNote>)
    ensures notes == SampleNotes(startTime, msPerBeat, isPlayer)
  {
    notes := [];
    var baseOffset := if isPlayer then 4 else 0;
    var i := 0;
    while i < 4
      invariant 0 <= i <= 4
      invariant notes == SampleNotes(startTime, msPerBeat, isPlayer)[..i]
    {
      var time := startTime + i as real * msPerBeat;
      var direction := i % 4 + baseOffset;
      assert SampleNotes(startTime, msPerBeat, isPlayer)[i] == SectionNote(time, direction, 0.0);
      notes := notes + [SectionNote(time, direction, 0.0)];
      assert SampleNotes(startTime, msPerBeat, isPlayer)[..i + 1]
          == SampleNotes(startTime, msPerBeat, isPlayer)[..i] + [SampleNotes(startTime, msPerBeat, isPlayer)[i]];
      i := i + 1;
    }
    assert SampleNotes(startTime, msPerBeat, isPlayer)[..4] == SampleNotes(startTime, msPerBeat, isPlayer);
  }

  /** At a positive tempo the sample notes of a section lie on its first four
      beats, strictly increasing in time, inside the splitter's window for
      that section, each on its own lane with the owner bit set exactly in a
      must-hit section. */
  lemma SampleNotesShape(i: nat, msPerBeat: real, k: nat)
    requires msPerBeat > 0.0 && k < 4
    ensures var n := SampleNotes(i as real * (msPerBeat * 4.0), msPerBeat, i % 2 == 1)[k];
      && InWindow(n.time, i, msPerBeat * 4.0)
      && n.dir % 4 == k
      && (n.dir >= 4 <==> i % 2 == 1)
      && n.len == 0.0
    ensures k < 3 ==>
      SampleNotes(i as real * (msPerBeat * 4.0), msPerBeat, i % 2 == 1)[k].time
      < SampleNotes(i as real * (msPerBeat * 4.0), msPerBeat, i % 2 == 1)[k + 1].time
  {
    var ms := msPerBeat * 4.0;
    assert (i + 1) as real * ms == i as real * ms + ms;
    assert k as real * msPerBeat < ms;
  }

  /** A generated note decodes to its own direction when the chart is
      flattened, while the splitter stores that flat note with the owner bit
      clear: the two sides agree only on even (opponent) sections. */
  lemma SampleDirections(i: nat, msPerBeat: real, k: nat)
    requires k < 4
    ensures var n := SampleNotes(i as real * (msPerBeat * 4.0), msPerBeat, i % 2 == 1)[k];
      && ToAbsolute(n.dir, i % 2 == 1) == n.dir
      && ToSectionRelative(ToAbsolute(n.dir, i % 2 == 1), i % 2 == 1) == k
  {
    DecodeOwnLane(k, i % 2 == 1);
  }

  /** Where the notes of a section come from. The random generator draws on
      `Math.random`, so its output is an opaque parameter; any other mode
      value leaves every section empty. */
  datatype GenMode =
    | Sample
    | Random(notesFor: (real, real, bool) -> seq<SectionNote>)
    | Unlisted

  /** Form fields of the generator page; 0 stands for a blank or unparsable
      number field and "" for a blank text field. */
  datatype GenOptions = GenOptions(
    songName: string,
    bpm: real,
    speed: real,
    numSections: int,
    player1: string,
    player2: string,
    gfVersion: string,
    stage: string,
    mode: GenMode)

  function ModeNotes(mode: GenMode, startTime: real, msPerBeat: real, isPlayer: bool): seq<SectionNote> {
    match mode
    case Sample => SampleNotes(startTime, msPerBeat, isPlayer)
    case Random(notesFor) => notesFor(startTime, msPerBeat, isPlayer)
    case Unlisted => []
  }

  /** Section `i` of a generated chart. */
  function GeneratedSection(mode: GenMode, bpm: real, i: int): Section
    requires bpm != 0.0
  {
    var msPerBeat := 60000.0 / bpm;
    Section(ModeNotes(mode, i as real * (msPerBeat * 4.0), msPerBeat, i % 2 == 1),
      4, 16, i % 2 == 1, bpm, false, false, false)
  }

  lemma GeneratedSectionNotes(mode: GenMode, bpm: real, i: int)
    requires bpm != 0.0
    ensures GeneratedSection(mode, bpm, i)
         == Section(ModeNotes(mode, i as real * (60000.0 / bpm * 4.0), 60000.0 / bpm, i % 2 == 1),
              4, 16, i % 2 == 1, bpm, false, false, false)
  {}

  /** The effective tempo: `parseFloat(...) || 150`. */
  function GenBpm(opts: GenOptions): (bpm: real)
    ensures bpm != 0.0
  {
    OrReal(opts.bpm, 150.0)
  }

  /** The effective section count: `parseInt(...) || 8`. */
  function GenSections(opts: GenOptions): int {
    if opts.numSections != 0 then opts.numSections else 8
  }

  /** generateChart (script.js:800-846), without the page output. */
  method GenerateChart(opts: GenOptions) returns (chart: PsychChart)
    ensures |chart.song.notes| == LoopCount(GenSections(opts))
    ensures forall i :: 0 <= i < |chart.song.notes| ==>
      chart.song.notes[i] == GeneratedSection(opts.mode, GenBpm(opts), i)
    ensures chart.song == PsychSong(
      OrString(opts.songName, "New Song"), chart.song.notes, GenBpm(opts), true,
      OrString(opts.player1, "bf"), OrString(opts.player2, "dad"), OrString(opts.gfVersion, "gf"),
      OrReal(opts.speed, 2.5), OrString(opts.stage, "stage"), true)
  {
    var songName := OrString(opts.songName, "New Song");
    var bpm := OrReal(opts.bpm, 150.0);
    var speed := OrReal(opts.speed, 2.5);
    var numSections := GenSections(opts);
    var sections: seq<Section> := [];
    var msPerBeat := 60000.0 / bpm;
    var msPerSection := msPerBeat * 4.0;
    var i := 0;
    while i < numSections
      invariant 0 <= i <= LoopCount(numSections)
      invariant |sections| == i
      invariant forall k :: 0 <= k < i ==> sections[k] == GeneratedSection(opts.mode, bpm, k)
    {
      ghost var expected := GeneratedSection(opts.mode, bpm, i);
      GeneratedSectionNotes(opts.mode, bpm, i);
      var sectionStartTime := i as real * msPerSection;
      assert msPerBeat == 60000.0 / bpm && sectionStartTime == i as real * (60000.0 / bpm * 4.0);
      var sectionNotes: seq<SectionNote>;
      if opts.mode.Sample? {
        sectionNotes := GenerateSampleNotes(sectionStartTime, msPerBeat, i % 2 == 1);
      } else if opts.mode.Random? {
        sectionNotes := opts.mode.notesFor(sectionStartTime, msPerBeat, i % 2 == 1);
      } else {
        sectionNotes := [];
      }
      assert sectionNotes == expected.sectionNotes;
      sections := sections + [Section(sectionNotes, 4, 16, i % 2 == 1, bpm, false, false, false)];
      i := i + 1;
    }
    chart := PsychChart(PsychSong(songName, sections, bpm, true,
      OrString(opts.player1, "bf"), OrString(opts.player2, "dad"), OrString(opts.gfVersion, "gf"),
      speed, OrString(opts.stage, "stage"), true));
  }

  /** Every note in the window of section `i` is kept, in order, by the
      splitter's filter. */
  lemma {:induction false} EncodeAllInWindow(notes: seq<FlatNote>, i: int, ms: real)
    requires forall k :: 0 <= k < |notes| ==> InWindow(notes[k].t, i, ms)
    ensures EncodeWindow(notes, i, ms)
         == seq(|notes|, k requires 0 <= k < |notes| => EncodeNote(notes[k], i % 2 == 1))
  {
    if notes != [] {
      EncodeAllInWindow(notes[1..], i, ms);
    }
  }

  /** One sample note, decoded with its section's flag, lies in the
      section's window and is stored by the splitter as the same note with
      the owner bit clear. */
  lemma SampleNoteResplit(i: nat, msPerBeat: real, k: nat)
    requires msPerBeat > 0.0 && k < 4
    ensures var n := DecodeNote(SampleNotes(i as real * (msPerBeat * 4.0), msPerBeat, i % 2 == 1)[k], i % 2 == 1);
      && InWindow(n.t, i, msPerBeat * 4.0)
      && EncodeNote(n, i % 2 == 1) == SampleNotes(i as real * (msPerBeat * 4.0), msPerBeat, false)[k]
  {
    SampleNotesShape(i, msPerBeat, k);
    SampleDirections(i, msPerBeat, k);
  }

  /** Where section `i` starts, for sections `ms` long. */
  function WindowStart(i: nat, ms: real): real {
    i as real * ms
  }

  /** The sample notes of section `i`, flattened and split again, for
      sections `ms` long. */
  lemma SampleSectionResplit(i: nat, msPerBeat: real, ms: real)
    requires msPerBeat > 0.0 && ms == msPerBeat * 4.0
    ensures EncodeWindow(DecodeSection(SampleNotes(WindowStart(i, ms), msPerBeat, i % 2 == 1), i % 2 == 1), i, ms)
         == SampleNotes(WindowStart(i, ms), msPerBeat, false)
  {
    var flag := i % 2 == 1;
    assert WindowStart(i, ms) == i as real * (msPerBeat * 4.0);
    var flat := DecodeSection(SampleNotes(i as real * (msPerBeat * 4.0), msPerBeat, flag), flag);
    forall k | 0 <= k < 4 ensures InWindow(flat[k].t, i, ms) {
      SampleNoteResplit(i, msPerBeat, k);
    }
    EncodeAllInWindow(flat, i, ms);
    forall k | 0 <= k < 4
      ensures EncodeNote(flat[k], flag) == SampleNotes(i as real * (msPerBeat * 4.0), msPerBeat, false)[k]
    {
      SampleNoteResplit(i, msPerBeat, k);
    }
  }

  /** A sample section, with its start written as the splitter's window
      start. */
  lemma GeneratedSampleSection(bpm: real, i: nat)
    requires bpm > 0.0
    ensures GeneratedSection(Sample, bpm, i)
         == Section(SampleNotes(WindowStart(i, MsPerSection(bpm)), 60000.0 / bpm, i % 2 == 1),
              4, 16, i % 2 == 1, bpm, false, false, false)
  {
    GeneratedSectionNotes(Sample, bpm, i);
    var start := i as real * (60000.0 / bpm * 4.0);
    assert start == WindowStart(i, MsPerSection(bpm));
    assert ModeNotes(Sample, start, 60000.0 / bpm, i % 2 == 1) == SampleNotes(start, 60000.0 / bpm, i % 2 == 1);
  }

  /** The owner bit tells a player section's sample notes from an
      opponent section's. */
  lemma SampleOwnerBit(startTime: real, msPerBeat: real)
    ensures SampleNotes(startTime, msPerBeat, true) != SampleNotes(startTime, msPerBeat, false)
  {
    assert SampleNotes(startTime, msPerBeat, true)[0].dir == 4;
  }

  /** A generated sample section, flattened and split again at the same
      tempo, comes back as the section the splitter makes at that index:
      same fixed fields and must-hit flag, and every note in it again with
      its time, lane and length. The splitter stores the notes with the
      owner bit clear, so the section comes back unchanged exactly when it
      is an opponent (even) section. */
  lemma GeneratedResplit(bpm: real, i: nat)
    requires bpm > 0.0
    ensures var g := GeneratedSection(Sample, bpm, i);
      var back := SplitSection(DecodeSection(g.sectionNotes, g.mustHitSection), i, MsPerSection(bpm), bpm);
      && back == g.(sectionNotes := SampleNotes(WindowStart(i, MsPerSection(bpm)), 60000.0 / bpm, false))
      && (back == g <==> i % 2 == 0)
  {
    GeneratedSampleSection(bpm, i);
    assert 60000.0 / bpm > 0.0 && MsPerSection(bpm) == 60000.0 / bpm * 4.0;
    SampleSectionResplit(i, 60000.0 / bpm, MsPerSection(bpm));
    SampleOwnerBit(WindowStart(i, MsPerSection(bpm)), 60000.0 / bpm);
  }
}
