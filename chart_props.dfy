/** Properties of the chart converter: how many sections the splitter makes,
    which notes land in which section, that no note is lost or duplicated,
    what flattening does to each note, and what a split followed by a flatten
    gives back. Sections are `ms` milliseconds long; the splitter uses
    `ms == MsPerSection(bpm)`, which is positive for a positive bpm. */
module ChartProperties {
  import opened Sorting
  import opened NoteDirection
  import opened Chart
  import opened Seqs

  // ---------------------------------------------------------------- arithmetic on windows

  lemma MsPositive(bpm: real)
    requires bpm > 0.0
    ensures MsPerSection(bpm) > 0.0
  {
  }

  /** With `t == x * ms`, comparing `a * ms` with `t` compares `a` with `x`. */
  lemma ScaleLe(a: real, x: real, ms: real, t: real)
    requires ms > 0.0 && x * ms == t
    ensures a * ms <= t <==> a <= x
  {
    assert t - a * ms == (x - a) * ms;
  }

  lemma ScaleStrict(a: real, x: real, ms: real, t: real)
    requires ms > 0.0 && x * ms == t
    ensures a * ms < t <==> a < x
  {
    assert t - a * ms == (x - a) * ms;
  }

  lemma TimesDiv(m: real, ms: real)
    requires ms > 0.0
    ensures (m / ms) * ms == m
  {
  }

  /** The start of window `i`, one section length after the previous one. */
  function Start(i: nat, ms: real): real {
    if i == 0 then 0.0 else Start(i - 1, ms) + ms
  }

  lemma {:induction false} StartIsProduct(i: nat, ms: real)
    ensures Start(i, ms) == i as real * ms
  {
    if i > 0 {
      StartIsProduct(i - 1, ms);
      assert (i - 1) as real * ms + ms == i as real * ms;
    }
  }

  lemma {:induction false} StartNonNegative(i: nat, ms: real)
    requires ms > 0.0
    ensures 0.0 <= Start(i, ms)
  {
    if i > 0 {
      StartNonNegative(i - 1, ms);
    }
  }

  lemma InWindowStart(t: real, i: nat, ms: real)
    ensures InWindow(t, i, ms) <==> Start(i, ms) <= t < Start(i + 1, ms)
  {
    StartIsProduct(i, ms);
    StartIsProduct(i + 1, ms);
  }

  /** The section a time falls in. */
  function SectionIndex(t: real, ms: real): int
    requires ms > 0.0
  {
    (t / ms).Floor
  }

  lemma WindowScale(t: real, x: real, i: int, ms: real)
    requires ms > 0.0 && x * ms == t
    ensures InWindow(t, i, ms) <==> i as real <= x < (i + 1) as real
  {
    ScaleLe(i as real, x, ms, t);
    ScaleLe((i + 1) as real, x, ms, t);
  }

  /** A time lies in the window of exactly one section: the one numbered by
      the floor of time over section length. */
  lemma WindowIndex(t: real, i: int, ms: real)
    requires ms > 0.0
    ensures InWindow(t, i, ms) <==> i == SectionIndex(t, ms)
  {
    TimesDiv(t, ms);
    WindowScale(t, t / ms, i, ms);
  }

  // ---------------------------------------------------------------- section count

  /** `ceil(m / ms)` sections of length `ms` reach `m`. */
  lemma CeilReaches(m: real, ms: real)
    requires ms > 0.0
    ensures m <= Ceil(m / ms) as real * ms
  {
    TimesDiv(m, ms);
    ScaleStrict(Ceil(m / ms) as real, m / ms, ms, m);
  }

  /** One section fewer does not reach `m`. */
  lemma CeilMinimal(m: real, ms: real)
    requires ms > 0.0
    ensures (Ceil(m / ms) - 1) as real * ms < m
  {
    TimesDiv(m, ms);
    ScaleStrict((Ceil(m / ms) - 1) as real, m / ms, ms, m);
  }

  lemma CeilSign(m: real, ms: real)
    requires ms > 0.0 && m >= 0.0
    ensures Ceil(m / ms) >= 0
    ensures m > 0.0 ==> Ceil(m / ms) >= 1
  {
    TimesDiv(m, ms);
    ScaleLe(0.0, m / ms, ms, m);
    ScaleStrict(0.0, m / ms, ms, m);
  }

  /** `ceil(m / ms) || 1` is at least one, and is one exactly for `m == 0`. */
  lemma CountValue(m: real, ms: real)
    requires ms > 0.0 && m >= 0.0
    ensures SectionsFor(m, ms) >= 1
    ensures m == 0.0 ==> SectionsFor(m, ms) == 1
    ensures m > 0.0 ==> SectionsFor(m, ms) == Ceil(m / ms)
  {
    CeilSign(m, ms);
  }

  /** `ceil(m / ms) || 1` sections reach `m`. */
  lemma CountReaches(m: real, ms: real)
    requires ms > 0.0 && m >= 0.0
    ensures m <= Start(SectionsFor(m, ms), ms)
  {
    StartIsProduct(SectionsFor(m, ms), ms);
    CeilSign(m, ms);
    CeilReaches(m, ms);
    if Ceil(m / ms) == 0 {
      ScaleLe(1.0, 1.0, ms, ms);
    }
  }

  /** When there is more than one section, one fewer would not reach `m`. */
  lemma CountTight(m: real, ms: real)
    requires ms > 0.0 && m >= 0.0
    ensures SectionsFor(m, ms) > 1 ==> Start(SectionsFor(m, ms) - 1, ms) < m
  {
    if SectionsFor(m, ms) > 1 {
      StartIsProduct(SectionsFor(m, ms) - 1, ms);
      CeilMinimal(m, ms);
    }
  }

  lemma MaxEndNonNegative(notes: seq<FlatNote>)
    requires forall k :: 0 <= k < |notes| ==> notes[k].t >= 0.0 && notes[k].l >= 0.0
    ensures MaxEnd(notes) >= 0.0
  {
    if notes != [] {
      assert NoteEnd(notes[0]) <= MaxEnd(notes);
    }
  }

  lemma EndsBelow(notes: seq<FlatNote>, bound: real)
    requires MaxEnd(notes) <= bound
    ensures forall k :: 0 <= k < |notes| ==> NoteEnd(notes[k]) <= bound
  {
  }

  /** With non-negative times and lengths the splitter makes
      `max(1, ceil(maxEnd / ms))` sections, one when no note ends after 0. */
  lemma SectionCountValue(notes: seq<FlatNote>, ms: real, bpm: real)
    requires ms > 0.0
    requires forall k :: 0 <= k < |notes| ==> notes[k].t >= 0.0 && notes[k].l >= 0.0
    ensures |SplitSections(notes, ms, bpm)| == SectionCount(notes, ms) >= 1
    ensures MaxEnd(notes) == 0.0 ==> SectionCount(notes, ms) == 1
    ensures MaxEnd(notes) > 0.0 ==> SectionCount(notes, ms) == Ceil(MaxEnd(notes) / ms)
  {
    assert SectionCount(notes, ms) == SectionsFor(MaxEnd(notes), ms);
    MaxEndNonNegative(notes);
    CountValue(MaxEnd(notes), ms);
  }

  /** The sections reach the end of every note. */
  lemma SectionCountReaches(notes: seq<FlatNote>, ms: real)
    requires ms > 0.0
    requires forall k :: 0 <= k < |notes| ==> notes[k].t >= 0.0 && notes[k].l >= 0.0
    ensures forall k :: 0 <= k < |notes| ==>
      NoteEnd(notes[k]) <= Start(SectionCount(notes, ms), ms)
  {
    assert SectionCount(notes, ms) == SectionsFor(MaxEnd(notes), ms);
    MaxEndNonNegative(notes);
    CountReaches(MaxEnd(notes), ms);
    EndsBelow(notes, Start(SectionCount(notes, ms), ms));
  }

  /** No more sections than needed: one fewer would end before the latest
      note end. */
  lemma SectionCountTight(notes: seq<FlatNote>, ms: real)
    requires ms > 0.0
    requires forall k :: 0 <= k < |notes| ==> notes[k].t >= 0.0 && notes[k].l >= 0.0
    ensures SectionCount(notes, ms) > 1 ==> Start(SectionCount(notes, ms) - 1, ms) < MaxEnd(notes)
  {
    assert SectionCount(notes, ms) == SectionsFor(MaxEnd(notes), ms);
    MaxEndNonNegative(notes);
    CountTight(MaxEnd(notes), ms);
  }

  /** Section `i` of the split: four beats, sixteen steps, the input bpm, no
      bpm change, and owned by the player exactly when `i` is odd. */
  lemma SectionFields(notes: seq<FlatNote>, ms: real, bpm: real, i: int)
    requires ms > 0.0
    requires 0 <= i < |SplitSections(notes, ms, bpm)|
    ensures var s := SplitSections(notes, ms, bpm)[i];
      && s.sectionBeats == 4 && s.lengthInSteps == 16
      && s.mustHitSection == (i % 2 == 1)
      && s.bpm == bpm && !s.changeBPM && !s.altAnim && !s.gfSection
  {
  }

  /** The splitter applied to no notes gives one empty section. */
  lemma NoNotesOneSection(ms: real, bpm: real)
    requires ms > 0.0
    ensures SplitSections([], ms, bpm) == [Section([], 4, 16, false, bpm, false, false, false)]
  {
    assert Ceil(0.0 / ms) == 0;
  }

  // ---------------------------------------------------------------- placement

  /** Section `i` holds the encoded copies of exactly the notes whose time
      lies in its window. */
  lemma {:induction false} WindowMembers(notes: seq<FlatNote>, i: int, ms: real)
    ensures forall k :: 0 <= k < |notes| && InWindow(notes[k].t, i, ms) ==>
      EncodeNote(notes[k], i % 2 == 1) in EncodeWindow(notes, i, ms)
    ensures forall e :: e in EncodeWindow(notes, i, ms) ==>
      exists k :: 0 <= k < |notes| && InWindow(notes[k].t, i, ms) && e == EncodeNote(notes[k], i % 2 == 1)
  {
    if notes != [] {
      WindowMembers(notes[1..], i, ms);
      forall e | e in EncodeWindow(notes, i, ms)
        ensures exists k :: 0 <= k < |notes| && InWindow(notes[k].t, i, ms) && e == EncodeNote(notes[k], i % 2 == 1)
      {
        if e != EncodeNote(notes[0], i % 2 == 1) || !InWindow(notes[0].t, i, ms) {
          assert e in EncodeWindow(notes[1..], i, ms);
          var k :| 0 <= k < |notes[1..]| && InWindow(notes[1..][k].t, i, ms) && e == EncodeNote(notes[1..][k], i % 2 == 1);
          assert notes[k + 1] == notes[1..][k];
        }
      }
      forall k | 0 <= k < |notes| && InWindow(notes[k].t, i, ms)
        ensures EncodeNote(notes[k], i % 2 == 1) in EncodeWindow(notes, i, ms)
      {
        if k > 0 {
          assert notes[k] == notes[1..][k - 1];
        }
      }
    }
  }

  /** Stored notes keep their time and sustain, stay within 0-7, keep their
      lane, and carry the high bit exactly when their owner differs from the
      section's. */
  lemma EncodedNote(n: FlatNote, mustHitSection: bool)
    requires 0 <= n.d < 8
    ensures var e := EncodeNote(n, mustHitSection);
      && e.time == n.t && e.len == n.l
      && 0 <= e.dir < 8 && e.dir % 4 == n.d % 4
      && (e.dir >= 4 <==> (n.d >= 4) != mustHitSection)
  {
  }

  // ---------------------------------------------------------------- conservation

  /** How many notes have a time in `[lo, hi)`. */
  function CountBetween(notes: seq<FlatNote>, lo: real, hi: real): nat {
    if notes == [] then 0
    else (if lo <= notes[0].t < hi then 1 else 0) + CountBetween(notes[1..], lo, hi)
  }

  lemma {:induction false} CountWindow(notes: seq<FlatNote>, i: nat, ms: real)
    ensures |EncodeWindow(notes, i, ms)| == CountBetween(notes, Start(i, ms), Start(i + 1, ms))
  {
    if notes != [] {
      CountWindow(notes[1..], i, ms);
      InWindowStart(notes[0].t, i, ms);
    }
  }

  lemma {:induction false} CountAdditive(notes: seq<FlatNote>, a: real, b: real, c: real)
    requires a <= b <= c
    ensures CountBetween(notes, a, c) == CountBetween(notes, a, b) + CountBetween(notes, b, c)
  {
    if notes != [] {
      CountAdditive(notes[1..], a, b, c);
    }
  }

  lemma {:induction false} CountAll(notes: seq<FlatNote>, lo: real, hi: real)
    requires forall k :: 0 <= k < |notes| ==> lo <= notes[k].t < hi
    ensures CountBetween(notes, lo, hi) == |notes|
  {
    if notes != [] {
      CountAll(notes[1..], lo, hi);
    }
  }

  lemma {:induction false} TotalNotesAppend(sections: seq<Section>, s: Section)
    ensures TotalNotes(sections + [s]) == TotalNotes(sections) + |s.sectionNotes|
  {
    if sections != [] {
      TotalNotesAppend(sections[1..], s);
      assert (sections + [s])[1..] == sections[1..] + [s];
    }
  }

  lemma SectionsStep(notes: seq<FlatNote>, ms: real, bpm: real, k: nat)
    requires k >= 1
    ensures SectionsOver(notes, ms, bpm, k)
         == SectionsOver(notes, ms, bpm, k - 1) + [SplitSection(notes, k - 1, ms, bpm)]
  {
  }

  lemma {:induction false} SectionsTotal(notes: seq<FlatNote>, ms: real, bpm: real, k: nat)
    requires ms > 0.0
    ensures TotalNotes(SectionsOver(notes, ms, bpm, k)) == CountBetween(notes, 0.0, Start(k, ms))
  {
    if k == 0 {
      CountAdditive(notes, 0.0, 0.0, 0.0);
    } else {
      SectionsTotal(notes, ms, bpm, k - 1);
      SectionsStep(notes, ms, bpm, k);
      TotalNotesAppend(SectionsOver(notes, ms, bpm, k - 1), SplitSection(notes, k - 1, ms, bpm));
      CountWindow(notes, k - 1, ms);
      assert Start((k - 1) + 1, ms) == Start(k, ms);
      StartNonNegative(k - 1, ms);
      CountAdditive(notes, 0.0, Start(k - 1, ms), Start(k, ms));
    }
  }

  /** When every note starts inside the sections the split makes, there is at
      least one section and the last one ends where the product says. */
  lemma SplitReach(notes: seq<FlatNote>, ms: real)
    requires ms > 0.0
    requires forall k :: 0 <= k < |notes| ==> 0.0 <= notes[k].t < SectionCount(notes, ms) as real * ms
    ensures SectionCount(notes, ms) >= 1
    ensures Start(SectionCount(notes, ms), ms) == SectionCount(notes, ms) as real * ms
  {
    var c := SectionCount(notes, ms);
    if notes == [] {
      assert Ceil(0.0 / ms) == 0;
    } else {
      assert 0.0 < c as real * ms;
      ScaleStrict(0.0, c as real, ms, c as real * ms);
    }
    StartIsProduct(c, ms);
  }

  /** Every note whose time lies in `[0, numSections * ms)` lands in exactly
      one section, so the sections hold as many notes as the input. */
  lemma SplitConservesNotes(notes: seq<FlatNote>, ms: real, bpm: real)
    requires ms > 0.0
    requires forall k :: 0 <= k < |notes| ==> 0.0 <= notes[k].t < SectionCount(notes, ms) as real * ms
    ensures TotalNotes(SplitSections(notes, ms, bpm)) == |notes|
  {
    var c := SectionCount(notes, ms);
    SplitReach(notes, ms);
    SectionsTotal(notes, ms, bpm, c);
    CountAll(notes, 0.0, Start(c, ms));
  }

  /** The half-open windows lose a note that ends the chart exactly on a
      section boundary: at 100 bpm (2400 ms per section) a lone note at
      2400 ms with no sustain makes `maxEnd / msPerSection` exactly 1, so one
      section `[0, 2400)` is made and the note is in none. */
  lemma BoundaryNoteDropped()
    ensures var notes := [FlatNote(2400.0, 0, 0.0, [])];
      SplitSections(notes, MsPerSection(100.0), 100.0) == [Section([], 4, 16, false, 100.0, false, false, false)]
  {
    var notes := [FlatNote(2400.0, 0, 0.0, [])];
    assert MsPerSection(100.0) == 2400.0;
    assert MaxEnd(notes) == 2400.0;
    assert Ceil(2400.0 / 2400.0) == 1;
    assert EncodeWindow(notes, 0, 2400.0) == [];
    SectionsStep(notes, 2400.0, 100.0, 1);
  }

  /** At 100 bpm one note at time 0 in lane 0 gives one section not owned by
      the player, holding the note with stored direction 0; flattening it
      gives the note back. */
  lemma SingleNoteScenario()
    ensures var notes := [FlatNote(0.0, 0, 0.0, [])];
      && SplitSections(notes, MsPerSection(100.0), 100.0)
         == [Section([SectionNote(0.0, 0, 0.0)], 4, 16, false, 100.0, false, false, false)]
      && FlattenSections(SplitSections(notes, MsPerSection(100.0), 100.0)) == notes
  {
    var notes := [FlatNote(0.0, 0, 0.0, [])];
    assert MsPerSection(100.0) == 2400.0;
    assert MaxEnd(notes) == 0.0;
    assert Ceil(0.0 / 2400.0) == 0;
    assert EncodeWindow(notes, 0, 2400.0) == [SectionNote(0.0, 0, 0.0)];
    SectionsStep(notes, 2400.0, 100.0, 1);
    var sections := [Section([SectionNote(0.0, 0, 0.0)], 4, 16, false, 100.0, false, false, false)];
    assert SplitSections(notes, 2400.0, 100.0) == sections;
    assert sections[..0] == [];
    assert DecodeSection([SectionNote(0.0, 0, 0.0)], false) == notes;
  }

  // ---------------------------------------------------------------- flattening

  lemma {:induction false} FlattenAppend(a: seq<Section>, b: seq<Section>)
    ensures FlattenSections(a + b) == FlattenSections(a) + FlattenSections(b)
  {
    if b != [] {
      var init := b[..|b| - 1];
      FlattenAppend(a, init);
      assert (a + b)[..|a + b| - 1] == a + init;
      assert (a + b)[|a + b| - 1] == b[|b| - 1];
    } else {
      assert a + b == a;
    }
  }

  /** The flattener emits exactly one note per section note. */
  lemma {:induction false} FlattenCount(sections: seq<Section>)
    ensures |FlattenSections(sections)| == TotalNotes(sections)
  {
    if sections != [] {
      FlattenCount(sections[1..]);
      FlattenAppend([sections[0]], sections[1..]);
      assert [sections[0]] + sections[1..] == sections;
      assert [sections[0]][..0] == [];
    }
  }

  /** Note `j` of section `i` comes out right after the notes of the earlier
      sections and the earlier notes of its own section: same time and
      sustain, no modifier tags, its lane kept, and the player as owner
      exactly when its section is a must-hit section. */
  lemma FlattenAt(sections: seq<Section>, i: nat, j: nat)
    requires i < |sections| && j < |sections[i].sectionNotes|
    requires sections[i].sectionNotes[j].dir >= 0
    ensures var before := TotalNotes(sections[..i]) + j;
      var n := sections[i].sectionNotes[j];
      && before < |FlattenSections(sections)|
      && FlattenSections(sections)[before] == DecodeNote(n, sections[i].mustHitSection)
      && FlattenSections(sections)[before].t == n.time
      && FlattenSections(sections)[before].l == n.len
      && FlattenSections(sections)[before].p == []
      && FlattenSections(sections)[before].d % 4 == n.dir % 4
      && (FlattenSections(sections)[before].d >= 4 <==> sections[i].mustHitSection)
  {
    var s := sections[i];
    assert sections == sections[..i] + [s] + sections[i + 1..];
    FlattenAppend(sections[..i] + [s], sections[i + 1..]);
    FlattenAppend(sections[..i], [s]);
    assert [s][..0] == [];
    FlattenCount(sections[..i]);
  }

  // ---------------------------------------------------------------- split, then flatten

  /** A note as it comes back from a split and a flatten: lane kept, owner
      taken from the parity of its section, modifier tags dropped. */
  function NormalizeNote(n: FlatNote, ms: real): FlatNote
    requires ms > 0.0
  {
    FlatNote(n.t, Normalized(n.d, SectionIndex(n.t, ms) % 2 == 1), n.l, [])
  }

  function NormalizeAll(notes: seq<FlatNote>, ms: real): (r: seq<FlatNote>)
    requires ms > 0.0
  {
    seq(|notes|, k requires 0 <= k < |notes| => NormalizeNote(notes[k], ms))
  }

  lemma NormalizeAppend(a: seq<FlatNote>, b: seq<FlatNote>, ms: real)
    requires ms > 0.0
    ensures NormalizeAll(a + b, ms) == NormalizeAll(a, ms) + NormalizeAll(b, ms)
  {
    var l, r := NormalizeAll(a + b, ms), NormalizeAll(a, ms) + NormalizeAll(b, ms);
    forall k | 0 <= k < |l| ensures l[k] == r[k] {
      if k < |a| {
        assert (a + b)[k] == a[k];
      } else {
        assert (a + b)[k] == b[k - |a|];
      }
    }
  }

  lemma DecodeCons(e: SectionNote, rest: seq<SectionNote>, mustHitSection: bool)
    ensures DecodeSection([e] + rest, mustHitSection)
         == [DecodeNote(e, mustHitSection)] + DecodeSection(rest, mustHitSection)
  {
    var l, r := DecodeSection([e] + rest, mustHitSection), [DecodeNote(e, mustHitSection)] + DecodeSection(rest, mustHitSection);
    forall k | 0 <= k < |l| ensures l[k] == r[k] {
      if k > 0 {
        assert ([e] + rest)[k] == rest[k - 1];
      }
    }
  }

  /** The notes whose time lies in `[lo, hi)`, in input order. */
  function Between(notes: seq<FlatNote>, lo: real, hi: real): seq<FlatNote> {
    if notes == [] then []
    else (if lo <= notes[0].t < hi then [notes[0]] else []) + Between(notes[1..], lo, hi)
  }

  predicate ValidDirections(notes: seq<FlatNote>) {
    forall k :: 0 <= k < |notes| ==> 0 <= notes[k].d < 8
  }

  /** Times never decrease along the list. */
  predicate Ordered(notes: seq<FlatNote>) {
    forall i, j :: 0 <= i < j < |notes| ==> notes[i].t <= notes[j].t
  }

  lemma OrderedOfSorted(notes: seq<FlatNote>)
    requires SortedBy(notes, NoteTime)
    ensures Ordered(notes)
  {
    forall i, j | 0 <= i < j < |notes| ensures notes[i].t <= notes[j].t {
      assert NoteTime(notes[i]) <= NoteTime(notes[j]);
    }
  }

  lemma DecodeOne(n: FlatNote, i: nat, ms: real)
    requires ms > 0.0 && 0 <= n.d < 8
    requires InWindow(n.t, i, ms)
    ensures DecodeNote(EncodeNote(n, i % 2 == 1), i % 2 == 1) == NormalizeNote(n, ms)
  {
    WindowIndex(n.t, i, ms);
    RoundTrip(n.d, i % 2 == 1);
  }

  lemma {:induction false} DecodeWindow(notes: seq<FlatNote>, i: nat, ms: real)
    requires ms > 0.0 && ValidDirections(notes)
    ensures DecodeSection(EncodeWindow(notes, i, ms), i % 2 == 1)
         == NormalizeAll(Between(notes, Start(i, ms), Start(i + 1, ms)), ms)
  {
    if notes != [] {
      var mh := i % 2 == 1;
      DecodeWindow(notes[1..], i, ms);
      InWindowStart(notes[0].t, i, ms);
      var rest := EncodeWindow(notes[1..], i, ms);
      var tail := Between(notes[1..], Start(i, ms), Start(i + 1, ms));
      if InWindow(notes[0].t, i, ms) {
        DecodeOne(notes[0], i, ms);
        DecodeCons(EncodeNote(notes[0], mh), rest, mh);
        NormalizeAppend([notes[0]], tail, ms);
      } else {
        assert Between(notes, Start(i, ms), Start(i + 1, ms)) == [] + tail;
      }
    }
  }

  lemma {:induction false} BetweenAbove(notes: seq<FlatNote>, lo: real, hi: real)
    requires forall k :: 0 <= k < |notes| ==> notes[k].t >= hi
    ensures Between(notes, lo, hi) == []
  {
    if notes != [] {
      BetweenAbove(notes[1..], lo, hi);
    }
  }

  lemma OrderedTail(notes: seq<FlatNote>)
    requires notes != [] && Ordered(notes)
    ensures Ordered(notes[1..])
    ensures forall k :: 0 <= k < |notes[1..]| ==> notes[1..][k].t >= notes[0].t
  {
    var rest := notes[1..];
    forall i, j | 0 <= i < j < |rest| ensures rest[i].t <= rest[j].t {
      assert rest[i] == notes[i + 1] && rest[j] == notes[j + 1];
    }
    forall k | 0 <= k < |rest| ensures rest[k].t >= notes[0].t {
      assert rest[k] == notes[k + 1];
    }
  }

  /** One step of `BetweenSplit` when the first note lies before `b`. */
  lemma BetweenStepLow(notes: seq<FlatNote>, a: real, b: real, c: real)
    requires notes != [] && a <= b <= c && notes[0].t < b
    requires Between(notes[1..], a, c) == Between(notes[1..], a, b) + Between(notes[1..], b, c)
    ensures Between(notes, a, c) == Between(notes, a, b) + Between(notes, b, c)
  {
    var h: seq<FlatNote> := if a <= notes[0].t then [notes[0]] else [];
    var x, y := Between(notes[1..], a, b), Between(notes[1..], b, c);
    calc {
      Between(notes, a, c);
      h + (x + y);
      { AppendAssoc(h, x, y); }
      (h + x) + y;
      { EmptyAppend(y); }
      Between(notes, a, b) + ([] + y);
    }
  }

  /** One step of `BetweenSplit` when the first note lies at or after `b`. */
  lemma BetweenStepHigh(notes: seq<FlatNote>, a: real, b: real, c: real)
    requires notes != [] && a <= b <= c && b <= notes[0].t
    requires Between(notes[1..], a, b) == []
    requires Between(notes[1..], a, c) == Between(notes[1..], b, c)
    ensures Between(notes, a, c) == Between(notes, a, b) + Between(notes, b, c)
  {
    assert Between(notes, a, b) == [];
  }

  /** In a time-ordered list, the notes in `[a, c)` are those in `[a, b)`
      followed by those in `[b, c)`. */
  lemma {:induction false} BetweenSplit(notes: seq<FlatNote>, a: real, b: real, c: real)
    requires a <= b <= c && Ordered(notes)
    ensures Between(notes, a, c) == Between(notes, a, b) + Between(notes, b, c)
  {
    if notes != [] {
      OrderedTail(notes);
      BetweenSplit(notes[1..], a, b, c);
      if notes[0].t < b {
        BetweenStepLow(notes, a, b, c);
      } else {
        BetweenAbove(notes[1..], a, b);
        BetweenStepHigh(notes, a, b, c);
      }
    }
  }

  lemma {:induction false} BetweenAll(notes: seq<FlatNote>, lo: real, hi: real)
    requires forall k :: 0 <= k < |notes| ==> lo <= notes[k].t < hi
    ensures Between(notes, lo, hi) == notes
  {
    if notes != [] {
      BetweenAll(notes[1..], lo, hi);
      assert [notes[0]] + notes[1..] == notes;
    }
  }

  lemma {:induction false} SectionsFlatten(notes: seq<FlatNote>, ms: real, bpm: real, k: nat)
    requires ms > 0.0 && ValidDirections(notes) && Ordered(notes)
    ensures FlattenSections(SectionsOver(notes, ms, bpm, k))
         == NormalizeAll(Between(notes, 0.0, Start(k, ms)), ms)
  {
    if k == 0 {
      BetweenSplit(notes, 0.0, 0.0, 0.0);
    } else {
      SectionsFlatten(notes, ms, bpm, k - 1);
      SectionsStep(notes, ms, bpm, k);
      var w := SectionsOver(notes, ms, bpm, k);
      var prev := SectionsOver(notes, ms, bpm, k - 1);
      assert w[..k - 1] == prev;
      DecodeWindow(notes, k - 1, ms);
      assert Start((k - 1) + 1, ms) == Start(k, ms);
      StartNonNegative(k - 1, ms);
      var lo := Between(notes, 0.0, Start(k - 1, ms));
      var hi := Between(notes, Start(k - 1, ms), Start(k, ms));
      BetweenSplit(notes, 0.0, Start(k - 1, ms), Start(k, ms));
      NormalizeAppend(lo, hi, ms);
    }
  }

  /** Splitting a time-ordered note list and flattening the sections gives
      every note back in place, with its lane, time and sustain, but with its
      owner re-derived from the parity of its section and no modifier tags. */
  lemma SplitThenFlatten(notes: seq<FlatNote>, ms: real, bpm: real)
    requires ms > 0.0 && ValidDirections(notes)
    requires SortedBy(notes, NoteTime)
    requires forall k :: 0 <= k < |notes| ==> 0.0 <= notes[k].t < SectionCount(notes, ms) as real * ms
    ensures SortBy(FlattenSections(SplitSections(notes, ms, bpm)), NoteTime) == NormalizeAll(notes, ms)
  {
    var c := SectionCount(notes, ms);
    SplitReach(notes, ms);
    OrderedOfSorted(notes);
    SectionsFlatten(notes, ms, bpm, c);
    BetweenAll(notes, 0.0, Start(c, ms));
    var r := NormalizeAll(notes, ms);
    assert SortedBy(r, NoteTime) by {
      forall i, j | 0 <= i < j < |r| ensures NoteTime(r[i]) <= NoteTime(r[j]) {
        assert NoteTime(notes[i]) <= NoteTime(notes[j]);
      }
    }
    SortSorted(r, NoteTime);
  }

  /** The split-flatten round trip is exact precisely for notes without
      modifier tags whose owner already matches the parity of their section. */
  lemma SplitThenFlattenExact(notes: seq<FlatNote>, ms: real, bpm: real)
    requires ms > 0.0 && ValidDirections(notes)
    requires SortedBy(notes, NoteTime)
    requires forall k :: 0 <= k < |notes| ==> 0.0 <= notes[k].t < SectionCount(notes, ms) as real * ms
    ensures SortBy(FlattenSections(SplitSections(notes, ms, bpm)), NoteTime) == notes
      <==> forall k :: 0 <= k < |notes| ==>
             notes[k].p == [] && ((notes[k].d >= 4) == (SectionIndex(notes[k].t, ms) % 2 == 1))
  {
    SplitThenFlatten(notes, ms, bpm);
    var r := NormalizeAll(notes, ms);
    forall k | 0 <= k < |notes|
      ensures r[k] == notes[k] <==>
        notes[k].p == [] && ((notes[k].d >= 4) == (SectionIndex(notes[k].t, ms) % 2 == 1))
    {
      RoundTrip(notes[k].d, SectionIndex(notes[k].t, ms) % 2 == 1);
    }
    if r == notes {
      forall k | 0 <= k < |notes|
        ensures notes[k].p == [] && ((notes[k].d >= 4) == (SectionIndex(notes[k].t, ms) % 2 == 1))
      {
        assert r[k] == notes[k];
      }
    }
  }
}
