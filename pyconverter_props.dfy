/** Properties of the stand-alone converter of tools/converter.py: which
    section each note lands in, that every note lands exactly once and in
    input order, that a section's flag is its first note's, and that the
    lane offset follows the note rather than the section. */
module PyConverterProperties {
  import opened Wrappers
  import opened PyConverter
  import opened NoteDirection

  // ---------------------------------------------------------------- the notes of one section

  /** A section's notes are the converted input notes with that index. */
  lemma {:induction false} NotesInMember(ns: seq<RawNote>, k: int, st: real, p: PsychNote)
    requires st != 0.0
    ensures p in NotesIn(ns, k, st)
        <==> exists j :: 0 <= j < |ns| && SectionIndex(ns[j], st) == k && Converted(ns[j]) == p
  {
    if ns != [] {
      var init, last := ns[..|ns| - 1], ns[|ns| - 1];
      NotesInMember(init, k, st, p);
      if exists j :: 0 <= j < |ns| && SectionIndex(ns[j], st) == k && Converted(ns[j]) == p {
        var j :| 0 <= j < |ns| && SectionIndex(ns[j], st) == k && Converted(ns[j]) == p;
        if j < |init| {
          assert init[j] == ns[j];
        }
      }
      if exists j :: 0 <= j < |init| && SectionIndex(init[j], st) == k && Converted(init[j]) == p {
        var j :| 0 <= j < |init| && SectionIndex(init[j], st) == k && Converted(init[j]) == p;
        assert ns[j] == init[j];
      }
    }
  }

  /** Notes are appended in input order: the notes of a section for two
      stretches of input are those of the first stretch, then the second. */
  lemma {:induction false} NotesInAppend(a: seq<RawNote>, b: seq<RawNote>, k: int, st: real)
    requires st != 0.0
    ensures NotesIn(a + b, k, st) == NotesIn(a, k, st) + NotesIn(b, k, st)
  {
    if b == [] {
      assert a + b == a;
    } else {
      var init, last := b[..|b| - 1], b[|b| - 1];
      NotesInAppend(a, init, k, st);
      assert (a + b)[..|a + b| - 1] == a + init;
      assert (a + b)[|a + b| - 1] == last;
    }
  }

  // ---------------------------------------------------------------- the section flag

  /** The flag of a section is the `mustHit` of the first note with that
      section index. */
  lemma {:induction false} FirstNoteDecides(ns: seq<RawNote>, k: int, st: real, j: nat)
    requires st != 0.0 && j < |ns| && SectionIndex(ns[j], st) == k
    requires forall i :: 0 <= i < j ==> SectionIndex(ns[i], st) != k
    ensures FirstMustHit(ns, k, st) == MustHit(ns[j])
  {
    var init := ns[..|ns| - 1];
    if j == |ns| - 1 {
      forall i | 0 <= i < |init| ensures SectionIndex(init[i], st) != k {
        assert init[i] == ns[i];
      }
    } else {
      assert init[j] == ns[j];
      assert k in Keys(init, st);
      forall i | 0 <= i < j ensures SectionIndex(init[i], st) != k {
        assert init[i] == ns[i];
      }
      FirstNoteDecides(init, k, st, j);
    }
  }

  /** Once a section exists, later notes never change its flag. */
  lemma {:induction false} LaterNotesKeepFlag(ns: seq<RawNote>, more: seq<RawNote>, k: int, st: real)
    requires st != 0.0 && k in Keys(ns, st)
    ensures FirstMustHit(ns + more, k, st) == FirstMustHit(ns, k, st)
  {
    if more == [] {
      assert ns + more == ns;
    } else {
      var init := more[..|more| - 1];
      LaterNotesKeepFlag(ns, init, k, st);
      var all := ns + more;
      assert all[..|all| - 1] == ns + init;
      var j :| 0 <= j < |ns| && SectionIndex(ns[j], st) == k;
      assert (ns + init)[j] == ns[j];
    }
  }

  // ---------------------------------------------------------------- the output list

  /** Entry `m` of the output is the grouped section of the `m`-th smallest
      index. */
  lemma OutputEntry(ns: seq<RawNote>, st: real, bpm: real, m: nat)
    requires st != 0.0 && m < |SectionList(ns, st, bpm)|
    ensures SortedKeys(ns, st)[m] in Keys(ns, st)
    ensures SectionList(ns, st, bpm)[m] == Grouped(ns, st, bpm)[SortedKeys(ns, st)[m]]
  {
    var keys := SortedKeys(ns, st);
    assert keys[m] in keys;
    SectionsGrouped(ns, |ns|, st, bpm);
    assert ns[..|ns|] == ns;
  }

  /** Entry `m` of the output is the section of the `m`-th smallest index:
      its notes in input order, the flag of its first note and the fixed
      fields; no entry is empty. */
  lemma SectionListEntries(ns: seq<RawNote>, st: real, bpm: real, m: nat)
    requires st != 0.0 && m < |SectionList(ns, st, bpm)|
    ensures var key := SortedKeys(ns, st)[m];
      && SectionList(ns, st, bpm)[m] == Section(NotesIn(ns, key, st), FirstMustHit(ns, key, st), 16, 4, false, bpm)
      && NotesIn(ns, key, st) != []
  {
    var key := SortedKeys(ns, st)[m];
    OutputEntry(ns, st, bpm, m);
    var j :| 0 <= j < |ns| && SectionIndex(ns[j], st) == key;
    NotesInMember(ns, key, st, Converted(ns[j]));
  }

  /** Every input note appears, converted, in the entry for its section
      index. */
  lemma NotePlaced(ns: seq<RawNote>, st: real, bpm: real, j: nat)
    requires st != 0.0 && j < |ns|
    ensures exists m :: (0 <= m < |SectionList(ns, st, bpm)|
      && SortedKeys(ns, st)[m] == SectionIndex(ns[j], st)
      && Converted(ns[j]) in SectionList(ns, st, bpm)[m].sectionNotes)
  {
    var keys := SortedKeys(ns, st);
    var k := SectionIndex(ns[j], st);
    assert k in Keys(ns, st);
    var m :| 0 <= m < |keys| && keys[m] == k;
    SectionListEntries(ns, st, bpm, m);
    NotesInMember(ns, k, st, Converted(ns[j]));
  }

  /** The number of notes held by a list of sections. */
  function NoteCount(sections: seq<Section>): nat {
    if sections == [] then 0
    else NoteCount(sections[..|sections| - 1]) + |sections[|sections| - 1].sectionNotes|
  }

  /** The number of notes the sections with the keys `ks` receive. */
  function KeyedCount(ns: seq<RawNote>, ks: seq<int>, st: real): nat
    requires st != 0.0
  {
    if ks == [] then 0
    else KeyedCount(ns, ks[..|ks| - 1], st) + |NotesIn(ns, ks[|ks| - 1], st)|
  }

  lemma {:induction false} KeyedCountOfList(sections: seq<Section>, ns: seq<RawNote>, ks: seq<int>, st: real)
    requires st != 0.0 && |sections| == |ks|
    requires forall m :: 0 <= m < |ks| ==> sections[m].sectionNotes == NotesIn(ns, ks[m], st)
    ensures NoteCount(sections) == KeyedCount(ns, ks, st)
  {
    if ks != [] {
      KeyedCountOfList(sections[..|sections| - 1], ns, ks[..|ks| - 1], st);
    }
  }

  lemma {:induction false} KeyedCountEmpty(ks: seq<int>, st: real)
    requires st != 0.0
    ensures KeyedCount([], ks, st) == 0
  {
    if ks != [] {
      KeyedCountEmpty(ks[..|ks| - 1], st);
    }
  }

  /** One more note adds one to the count of every listed key equal to its
      index. */
  lemma {:induction false} KeyedCountStep(init: seq<RawNote>, n: RawNote, ks: seq<int>, st: real)
    requires st != 0.0
    ensures KeyedCount(init + [n], ks, st) == KeyedCount(init, ks, st) + multiset(ks)[SectionIndex(n, st)]
  {
    if ks != [] {
      var ki := ks[..|ks| - 1];
      KeyedCountStep(init, n, ki, st);
      var all := init + [n];
      assert all[..|all| - 1] == init;
      assert ks == ki + [ks[|ks| - 1]];
    }
  }

  /** Over distinct keys covering every section index, the counts add up to
      the number of notes. */
  lemma {:induction false} KeyedCountAll(ns: seq<RawNote>, ks: seq<int>, st: real)
    requires st != 0.0
    requires forall a, b :: 0 <= a < b < |ks| ==> ks[a] != ks[b]
    requires forall k :: k in Keys(ns, st) ==> k in ks
    ensures KeyedCount(ns, ks, st) == |ns|
  {
    if ns == [] {
      KeyedCountEmpty(ks, st);
    } else {
      var init, last := ns[..|ns| - 1], ns[|ns| - 1];
      assert ns == init + [last];
      KeysAppend(init, last, st);
      KeyedCountAll(init, ks, st);
      KeyedCountStep(init, last, ks, st);
      DistinctCount(ks, SectionIndex(last, st));
      assert SectionIndex(last, st) in multiset(ks);
    }
  }

  /** No note is lost or duplicated: the output holds exactly as many notes
      as the input. */
  lemma ConvertConservesNotes(ns: seq<RawNote>, st: real, bpm: real)
    requires st != 0.0
    ensures NoteCount(SectionList(ns, st, bpm)) == |ns|
  {
    var keys := SortedKeys(ns, st);
    var out := SectionList(ns, st, bpm);
    forall m | 0 <= m < |keys| ensures out[m].sectionNotes == NotesIn(ns, keys[m], st) {
      SectionListEntries(ns, st, bpm, m);
    }
    KeyedCountOfList(out, ns, keys, st);
    KeyedCountAll(ns, keys, st);
  }

  // ---------------------------------------------------------------- the lane offset

  /** Two notes one beat apart at 120 bpm share section 0. The first is a
      must-hit note and sets the section's flag; the second is not, and its
      lane moves to 4-7 all the same. The flattener of script.js then reads
      both as the same absolute lane, on the player's side, although only
      the first was the player's. */
  lemma LaneIgnoresSectionFlag()
    ensures var ns := [RawNote(Some(0.0), Some(1), None, None, None),
                       RawNote(Some(500.0), Some(1), None, Some(false), None)];
      var s := Sections(ns, 2, SectionTime(120.0), 120.0);
      && s.Keys == {0}
      && s[0].mustHitSection
      && s[0].sectionNotes == [PsychNote(0.0, 1, 0.0, ""), PsychNote(500.0, 5, 0.0, "")]
      && ToAbsolute(s[0].sectionNotes[0].lane, s[0].mustHitSection) == 5
      && ToAbsolute(s[0].sectionNotes[1].lane, s[0].mustHitSection) == 5
  {
    var ns := [RawNote(Some(0.0), Some(1), None, None, None),
               RawNote(Some(500.0), Some(1), None, Some(false), None)];
    var st := SectionTime(120.0);
    assert st == 2000.0;
    assert SectionIndex(ns[0], st) == 0;
    assert SectionIndex(ns[1], st) == 0;
    assert Converted(ns[0]) == PsychNote(0.0, 1, 0.0, "");
    assert Converted(ns[1]) == PsychNote(500.0, 5, 0.0, "");
    assert Sections(ns, 0, st, 120.0) == map[];
    var s1 := Sections(ns, 1, st, 120.0);
    assert s1 == AddNote(map[], ns[0], st, 120.0);
    assert NewSection(ns[0], 120.0) == Section([], true, 16, 4, false, 120.0);
    assert [] + [Converted(ns[0])] == [PsychNote(0.0, 1, 0.0, "")];
    assert s1 == map[0 := Section([PsychNote(0.0, 1, 0.0, "")], true, 16, 4, false, 120.0)];
  }
}
