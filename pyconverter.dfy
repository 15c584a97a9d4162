/** The stand-alone chart converter of tools/converter.py (lines 12-72): it
    buckets flat notes into four-beat sections keyed by
    `floor(time / section_time)`, creating a section when its first note
    arrives, and emits the non-empty sections in ascending key order. */
module PyConverter {
  import opened Wrappers
  import opened Sorting

  /** `d.get(key, default)`. */
  function Get<T>(o: Option<T>, default: T): T {
    if o.Some? then o.value else default
  }

  /** A flat note as read field by field; `None` is a missing key. */
  datatype RawNote = RawNote(
    time: Option<real>,
    lane: Option<int>,
    length: Option<real>,
    mustHit: Option<bool>,
    kind: Option<string>)

  /** The `song` object of the input; a missing `song` has every field
      missing. */
  datatype RawSong = RawSong(
    bpm: Option<real>,
    speed: Option<real>,
    notes: Option<seq<RawNote>>,
    player1: Option<string>,
    player2: Option<string>,
    gfVersion: Option<string>,
    stage: Option<string>)

  /** `[time, psych_lane, length, note_type]`. */
  datatype PsychNote = PsychNote(time: real, lane: int, length: real, kind: string)

  datatype Section = Section(
    sectionNotes: seq<PsychNote>,
    mustHitSection: bool,
    lengthInSteps: int,
    sectionBeats: int,
    changeBPM: bool,
    bpm: real)

  /** The `song` object of the output; its `events` list is always empty. */
  datatype PsychSong = PsychSong(
    song: string,
    bpm: real,
    speed: real,
    needsVoices: bool,
    player1: string,
    player2: string,
    gfVersion: string,
    stage: string,
    notes: seq<Section>)

  // ---------------------------------------------------------------- one note

  /** `step_crochet * 16` with `step_crochet = (60000 / bpm) / 4`. */
  function SectionTime(bpm: real): (st: real)
    requires bpm != 0.0
    ensures st != 0.0
    ensures st == 4.0 * 60000.0 / bpm
  {
    60000.0 / bpm / 4.0 * 16.0
  }

  function MustHit(n: RawNote): bool {
    Get(n.mustHit, true)
  }

  /** `int(time // section_time)`. */
  function SectionIndex(n: RawNote, st: real): int
    requires st != 0.0
  {
    (Get(n.time, 0.0) / st).Floor
  }

  /** The note appended to its section: the lane moves to 4-7 when the note
      itself is not a must-hit note, whatever its section says. */
  function Converted(n: RawNote): (p: PsychNote)
    ensures p.lane == Get(n.lane, 0) + (if MustHit(n) then 0 else 4)
    ensures p.time == Get(n.time, 0.0) && p.length == Get(n.length, 0.0) && p.kind == Get(n.kind, "")
  {
    var lane := Get(n.lane, 0);
    PsychNote(Get(n.time, 0.0), if MustHit(n) then lane else lane + 4, Get(n.length, 0.0), Get(n.kind, ""))
  }

  /** A section when its first note arrives, before that note is appended. */
  function NewSection(n: RawNote, bpm: real): Section {
    Section([], MustHit(n), 16, 4, false, bpm)
  }

  /** One pass of the loop body on the dictionary of sections. */
  function AddNote(sections: map<int, Section>, n: RawNote, st: real, bpm: real): map<int, Section>
    requires st != 0.0
  {
    var k := SectionIndex(n, st);
    var s := if k in sections then sections[k] else NewSection(n, bpm);
    sections[k := s.(sectionNotes := s.sectionNotes + [Converted(n)])]
  }

  /** Adding a note adds its section index to the keys and nothing else. */
  lemma AddNoteKeys(sections: map<int, Section>, n: RawNote, st: real, bpm: real)
    requires st != 0.0
    ensures AddNote(sections, n, st, bpm).Keys == sections.Keys + {SectionIndex(n, st)}
  {
  }

  // ---------------------------------------------------------------- the dictionary after a prefix

  /** The keys present after the notes `ns`: the section index of each. */
  function Keys(ns: seq<RawNote>, st: real): set<int>
    requires st != 0.0
  {
    set j | 0 <= j < |ns| :: SectionIndex(ns[j], st)
  }

  /** The notes of section `k`, converted, in input order. */
  function NotesIn(ns: seq<RawNote>, k: int, st: real): seq<PsychNote>
    requires st != 0.0
  {
    if ns == [] then []
    else
      var last := ns[|ns| - 1];
      NotesIn(ns[..|ns| - 1], k, st) + (if SectionIndex(last, st) == k then [Converted(last)] else [])
  }

  /** The flag of section `k`: set by the note that created it. */
  function FirstMustHit(ns: seq<RawNote>, k: int, st: real): bool
    requires st != 0.0
  {
    if ns == [] then true
    else if k in Keys(ns[..|ns| - 1], st) then FirstMustHit(ns[..|ns| - 1], k, st)
    else MustHit(ns[|ns| - 1])
  }

  /** The dictionary `sections` after the loop has read the first `n` notes
      of `ns`. */
  function Sections(ns: seq<RawNote>, n: nat, st: real, bpm: real): map<int, Section>
    requires st != 0.0 && n <= |ns|
  {
    if n == 0 then map[]
    else AddNote(Sections(ns, n - 1, st, bpm), ns[n - 1], st, bpm)
  }

  /** The dictionary described section by section: one entry per key that
      some note falls in, holding that key's notes in input order and the
      flag of the first of them. */
  function Grouped(ns: seq<RawNote>, st: real, bpm: real): map<int, Section>
    requires st != 0.0
  {
    map k | k in Keys(ns, st) :: Section(NotesIn(ns, k, st), FirstMustHit(ns, k, st), 16, 4, false, bpm)
  }

  /** The key order of the dictionary after the first `n` notes: a key
      joins the end when its first note arrives. */
  function KeyOrder(ns: seq<RawNote>, n: nat, st: real): seq<int>
    requires st != 0.0 && n <= |ns|
  {
    if n == 0 then []
    else
      var order := KeyOrder(ns, n - 1, st);
      var k := SectionIndex(ns[n - 1], st);
      order + (if k in order then [] else [k])
  }

  lemma KeysAppend(ns: seq<RawNote>, n: RawNote, st: real)
    requires st != 0.0
    ensures Keys(ns + [n], st) == Keys(ns, st) + {SectionIndex(n, st)}
  {
    var all := ns + [n];
    forall k | k in Keys(all, st) ensures k in Keys(ns, st) + {SectionIndex(n, st)} {
      var j :| 0 <= j < |all| && SectionIndex(all[j], st) == k;
      if j < |ns| {
        assert all[j] == ns[j];
      }
    }
    forall k | k in Keys(ns, st) ensures k in Keys(all, st) {
      var j :| 0 <= j < |ns| && SectionIndex(ns[j], st) == k;
      assert all[j] == ns[j];
    }
    assert all[|ns|] == n;
  }

  lemma {:induction false} NotesInAbsent(ns: seq<RawNote>, k: int, st: real)
    requires st != 0.0 && k !in Keys(ns, st)
    ensures NotesIn(ns, k, st) == []
  {
    if ns != [] {
      var init := ns[..|ns| - 1];
      KeysAppend(init, ns[|ns| - 1], st);
      assert ns == init + [ns[|ns| - 1]];
      NotesInAbsent(init, k, st);
    }
  }

  /** Reading one more note turns the grouped dictionary for a prefix into
      the grouped dictionary for the longer prefix. */
  lemma GroupedStep(ns: seq<RawNote>, n: RawNote, st: real, bpm: real)
    requires st != 0.0
    ensures Grouped(ns + [n], st, bpm) == AddNote(Grouped(ns, st, bpm), n, st, bpm)
  {
    var all := ns + [n];
    assert all[..|ns|] == ns;
    KeysAppend(ns, n, st);
    var lhs, rhs := Grouped(all, st, bpm), AddNote(Grouped(ns, st, bpm), n, st, bpm);
    assert lhs.Keys == rhs.Keys;
    forall k | k in lhs.Keys ensures lhs[k] == rhs[k] {
      assert NotesIn(all, k, st) == NotesIn(ns, k, st) + (if SectionIndex(n, st) == k then [Converted(n)] else []);
      assert FirstMustHit(all, k, st) == if k in Keys(ns, st) then FirstMustHit(ns, k, st) else MustHit(n);
      if k !in Keys(ns, st) {
        NotesInAbsent(ns, k, st);
      }
    }
  }

  /** The dictionary has a key for every section index that occurs. */
  lemma {:induction false} SectionsKeys(ns: seq<RawNote>, n: nat, st: real, bpm: real)
    requires st != 0.0 && n <= |ns|
    ensures Sections(ns, n, st, bpm).Keys == Keys(ns[..n], st)
  {
    if n > 0 {
      SectionsKeys(ns, n - 1, st, bpm);
      AddNoteKeys(Sections(ns, n - 1, st, bpm), ns[n - 1], st, bpm);
      KeysAppend(ns[..n - 1], ns[n - 1], st);
      assert ns[..n] == ns[..n - 1] + [ns[n - 1]];
    }
  }

  /** The loop builds exactly the grouped dictionary. */
  lemma {:induction false} SectionsGrouped(ns: seq<RawNote>, n: nat, st: real, bpm: real)
    requires st != 0.0 && n <= |ns|
    ensures Sections(ns, n, st, bpm) == Grouped(ns[..n], st, bpm)
  {
    if n > 0 {
      var init, last := ns[..n - 1], ns[n - 1];
      SectionsGrouped(ns, n - 1, st, bpm);
      GroupedStep(init, last, st, bpm);
      assert ns[..n] == init + [last];
    }
  }

  /** The key order lists every key once. */
  lemma {:induction false} KeyOrderKeys(ns: seq<RawNote>, n: nat, st: real)
    requires st != 0.0 && n <= |ns|
    ensures forall k :: k in KeyOrder(ns, n, st) <==> k in Keys(ns[..n], st)
    ensures forall a, b :: 0 <= a < b < |KeyOrder(ns, n, st)| ==> KeyOrder(ns, n, st)[a] != KeyOrder(ns, n, st)[b]
  {
    if n > 0 {
      KeyOrderKeys(ns, n - 1, st);
      KeysAppend(ns[..n - 1], ns[n - 1], st);
      assert ns[..n] == ns[..n - 1] + [ns[n - 1]];
    }
  }

  /** A key is in the key order exactly when it is in the dictionary. */
  lemma KeyOrderMatches(ns: seq<RawNote>, n: nat, k: int, st: real, bpm: real)
    requires st != 0.0 && n <= |ns|
    ensures k in KeyOrder(ns, n, st) <==> k in Sections(ns, n, st, bpm)
  {
    KeyOrderKeys(ns, n, st);
    SectionsKeys(ns, n, st, bpm);
  }

  // ---------------------------------------------------------------- the output list

  function AsReal(k: int): real {
    k as real
  }

  /** `sorted(sections.keys())`. */
  function SortedKeys(ns: seq<RawNote>, st: real): (r: seq<int>)
    requires st != 0.0
    ensures forall k :: k in r <==> k in Keys(ns, st)
    ensures forall a, b :: 0 <= a < b < |r| ==> r[a] < r[b]
  {
    var order := KeyOrder(ns, |ns|, st);
    var r := SortBy(order, AsReal);
    KeyOrderKeys(ns, |ns|, st);
    assert ns[..|ns|] == ns;
    DistinctSorted(order, r);
    r
  }

  /** A sorted permutation of distinct keys is strictly increasing. */
  lemma DistinctSorted(order: seq<int>, r: seq<int>)
    requires forall a, b :: 0 <= a < b < |order| ==> order[a] != order[b]
    requires multiset(r) == multiset(order) && SortedBy(r, AsReal)
    ensures forall k :: k in r <==> k in order
    ensures forall a, b :: 0 <= a < b < |r| ==> r[a] < r[b]
  {
    forall k ensures k in r <==> k in order {
      assert k in r <==> k in multiset(r);
      assert k in order <==> k in multiset(order);
    }
    forall a, b | 0 <= a < b < |r| ensures r[a] < r[b] {
      assert AsReal(r[a]) <= AsReal(r[b]);
      if r[a] == r[b] {
        DuplicateCount(r, a, b);
        DistinctCount(order, r[a]);
      }
    }
  }

  lemma DuplicateCount(r: seq<int>, a: nat, b: nat)
    requires a < b < |r| && r[a] == r[b]
    ensures multiset(r)[r[a]] >= 2
  {
    var x := r[a];
    assert r == r[..a] + [x] + r[a + 1..b] + [x] + r[b + 1..];
  }

  lemma {:induction false} DistinctCount(order: seq<int>, x: int)
    requires forall a, b :: 0 <= a < b < |order| ==> order[a] != order[b]
    ensures multiset(order)[x] <= 1
  {
    if order != [] {
      var init := order[..|order| - 1];
      DistinctCount(init, x);
      assert order == init + [order[|order| - 1]];
      if order[|order| - 1] == x {
        assert x !in init;
      }
    }
  }

  /** The `notes` list: one section per key, in ascending key order. */
  function SectionList(ns: seq<RawNote>, st: real, bpm: real): (r: seq<Section>)
    requires st != 0.0
    ensures |r| == |SortedKeys(ns, st)|
  {
    var keys := SortedKeys(ns, st);
    var sections := Sections(ns, |ns|, st, bpm);
    SectionsKeys(ns, |ns|, st, bpm);
    assert ns[..|ns|] == ns;
    seq(|keys|, j requires 0 <= j < |keys| => sections[keys[j]])
  }

  /** The dictionary and key order after every note give the output list:
      sorting the key order gives the sorted keys, each a key of the
      dictionary. */
  lemma ListFromLoop(ns: seq<RawNote>, st: real, bpm: real, keys: seq<int>)
    requires st != 0.0 && keys == SortBy(KeyOrder(ns, |ns|, st), AsReal)
    ensures forall j :: 0 <= j < |keys| ==> keys[j] in Sections(ns, |ns|, st, bpm)
    ensures seq(|keys|, j requires 0 <= j < |keys| => Sections(ns, |ns|, st, bpm)[keys[j]]) == SectionList(ns, st, bpm)
  {
    assert keys == SortedKeys(ns, st);
    SectionsKeys(ns, |ns|, st, bpm);
    assert ns[..|ns|] == ns;
  }

  /** One pass of the loop body: read the note's fields with their
      defaults, create its section on first sight (recording the key's
      arrival) and append the converted note. */
  method PlaceNote(sections: map<int, Section>, order: seq<int>, note: RawNote, sectionTime: real, bpm: real)
    returns (sections': map<int, Section>, order': seq<int>)
    requires sectionTime != 0.0
    requires SectionIndex(note, sectionTime) in order <==> SectionIndex(note, sectionTime) in sections
    ensures sections' == AddNote(sections, note, sectionTime, bpm)
    ensures var k := SectionIndex(note, sectionTime);
      order' == order + (if k in order then [] else [k])
  {
    var time := Get(note.time, 0.0);
    var lane := Get(note.lane, 0);
    var length := Get(note.length, 0.0);
    var mustHit := Get(note.mustHit, true);
    var noteType := Get(note.kind, "");
    var sectionIndex := (time / sectionTime).Floor;
    assert sectionIndex == SectionIndex(note, sectionTime);
    sections' := sections;
    order' := order;
    if sectionIndex !in sections' {
      sections' := sections'[sectionIndex := Section([], mustHit, 16, 4, false, bpm)];
      order' := order' + [sectionIndex];
    }
    var psychLane := lane;
    if !mustHit {
      psychLane := psychLane + 4;
    }
    var psychNote := PsychNote(time, psychLane, length, noteType);
    sections' := sections'[sectionIndex := sections'[sectionIndex].(sectionNotes := sections'[sectionIndex].sectionNotes + [psychNote])];
    assert psychNote == Converted(note);
  }

  /** The loop of convert_vslice_to_psych: bucket every note into the
      dictionary, remembering the order in which keys arrive. */
  method BucketNotes(notes: seq<RawNote>, sectionTime: real, bpm: real)
    returns (sections: map<int, Section>, order: seq<int>)
    requires sectionTime != 0.0
    ensures sections == Sections(notes, |notes|, sectionTime, bpm)
    ensures order == KeyOrder(notes, |notes|, sectionTime)
  {
    sections := map[];
    order := [];
    var i := 0;
    while i < |notes|
      invariant 0 <= i <= |notes|
      invariant sections == Sections(notes, i, sectionTime, bpm)
      invariant order == KeyOrder(notes, i, sectionTime)
    {
      KeyOrderMatches(notes, i, SectionIndex(notes[i], sectionTime), sectionTime, bpm);
      sections, order := PlaceNote(sections, order, notes[i], sectionTime, bpm);
      i := i + 1;
    }
  }

  /** `[sections[i] for i in sorted(sections.keys())]` on the dictionary and
      key order the loop leaves. */
  method SortedSections(notes: seq<RawNote>, sections: map<int, Section>, order: seq<int>, sectionTime: real, bpm: real)
    returns (out: seq<Section>)
    requires sectionTime != 0.0
    requires sections == Sections(notes, |notes|, sectionTime, bpm)
    requires order == KeyOrder(notes, |notes|, sectionTime)
    ensures out == SectionList(notes, sectionTime, bpm)
  {
    var keys := SortBy(order, AsReal);
    ListFromLoop(notes, sectionTime, bpm, keys);
    out := seq(|keys|, j requires 0 <= j < |keys| => sections[keys[j]]);
  }

  /** convert_vslice_to_psych, without the file reading and writing. A zero
      tempo raises ZeroDivisionError. */
  method ConvertVSliceToPsych(song: RawSong, songName: string) returns (r: Result<PsychSong>)
    ensures r.Err? <==> Get(song.bpm, 120.0) == 0.0
    ensures r.Ok? ==>
      var bpm := Get(song.bpm, 120.0);
      r.value == PsychSong(songName, bpm, Get(song.speed, 1.0), true,
        Get(song.player1, "bf"), Get(song.player2, "dad"), Get(song.gfVersion, "gf"), Get(song.stage, "stage"),
        SectionList(Get(song.notes, []), SectionTime(bpm), bpm))
  {
    var bpm := Get(song.bpm, 120.0);
    var speed := Get(song.speed, 1.0);
    var notes := Get(song.notes, []);
    if bpm == 0.0 {
      return Err("division by zero");
    }
    var sectionTime := SectionTime(bpm);
    var sections, order := BucketNotes(notes, sectionTime, bpm);
    var out := SortedSections(notes, sections, order, sectionTime, bpm);
    r := Ok(PsychSong(songName, bpm, speed, true,
      Get(song.player1, "bf"), Get(song.player2, "dad"), Get(song.gfVersion, "gf"), Get(song.stage, "stage"),
      out));
  }
}
