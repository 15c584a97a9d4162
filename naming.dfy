/** Names derived from other names: the file-name slug every download uses
    (script.js:280, 285, 420, 425, 644, 768, 773, 899, 1069, 1432) and the
    week's song list, whose V Slice entries are song ids and whose Psych
    Engine entries are display titles (script.js:712-718, 742-744). */
module Naming {
  import opened Text

  /** Every letter is lower case. */
  predicate IsLower(s: string) {
    forall k :: 0 <= k < |s| ==> LowerChar(s[k]) == s[k]
  }

  // ---------------------------------------------------------------- slug

  /** `s.toLowerCase().replace(/\s+/g, '-')`. */
  function Slug(s: string): string {
    ReplaceSpaceRuns(Lower(s), "-")
  }

  /** `${Slug(name || fallback)}${extension}`: the name of a downloaded file. */
  function FileName(name: string, fallback: string, extension: string): string {
    Slug(OrString(name, fallback)) + extension
  }

  /** Replacing runs with a replacement free of white space leaves none. */
  lemma {:induction false} RunsNoSpace(s: string, rep: string)
    requires NoSpace(rep)
    ensures NoSpace(ReplaceSpaceRuns(s, rep))
    decreases |s|
  {
    if s != [] {
      if IsSpace(s[0]) {
        TrimStartShorter(s);
        RunsNoSpace(TrimStart(s), rep);
      } else {
        RunsNoSpace(s[1..], rep);
      }
    }
  }

  /** Replacing runs keeps lower-case text lower case. */
  lemma {:induction false} RunsLower(s: string, rep: string)
    requires IsLower(s) && IsLower(rep)
    ensures IsLower(ReplaceSpaceRuns(s, rep))
    decreases |s|
  {
    if s != [] {
      if IsSpace(s[0]) {
        TrimStartShorter(s);
        var t := TrimStart(s);
        assert forall k :: 0 <= k < |t| ==> t[k] == s[SpaceEnd(s, 0) + k];
        RunsLower(t, rep);
      } else {
        RunsLower(s[1..], rep);
      }
    }
  }

  /** Text without white space has no run to replace. */
  lemma {:induction false} RunsIdentity(s: string, rep: string)
    requires NoSpace(s)
    ensures ReplaceSpaceRuns(s, rep) == s
    decreases |s|
  {
    if s != [] {
      RunsIdentity(s[1..], rep);
    }
  }

  /** With a one-character replacement the text never grows, and it shrinks
      as soon as two white-space characters are adjacent. */
  lemma {:induction false} RunsNoLonger(s: string)
    ensures |ReplaceSpaceRuns(s, "-")| <= |s|
    ensures (exists k :: 0 <= k < |s| - 1 && IsSpace(s[k]) && IsSpace(s[k + 1]))
         ==> |ReplaceSpaceRuns(s, "-")| < |s|
    decreases |s|
  {
    if s != [] {
      if IsSpace(s[0]) {
        TrimStartShorter(s);
        var e := SpaceEnd(s, 0);
        var t := TrimStart(s);
        SpaceEndSkips(s, 0);
        RunsNoLonger(t);
        if exists k :: 0 <= k < |s| - 1 && IsSpace(s[k]) && IsSpace(s[k + 1]) {
          var k :| 0 <= k < |s| - 1 && IsSpace(s[k]) && IsSpace(s[k + 1]);
          if e == 1 {
            assert t[k - 1] == s[k] && t[k] == s[k + 1];
          }
        }
      } else {
        var t := s[1..];
        RunsNoLonger(t);
        if exists k :: 0 <= k < |s| - 1 && IsSpace(s[k]) && IsSpace(s[k + 1]) {
          var k :| 0 <= k < |s| - 1 && IsSpace(s[k]) && IsSpace(s[k + 1]);
          assert t[k - 1] == s[k] && t[k] == s[k + 1];
        }
      }
    }
  }

  /** A slug holds no white space and no upper-case letter. */
  lemma SlugShape(s: string)
    ensures NoSpace(Slug(s)) && IsLower(Slug(s))
  {
    RunsNoSpace(Lower(s), "-");
    RunsLower(Lower(s), "-");
  }

  lemma LowerOfLower(s: string)
    requires IsLower(s)
    ensures Lower(s) == s
  {
  }

  /** Slugging a slug changes nothing. */
  lemma SlugIdempotent(s: string)
    ensures Slug(Slug(s)) == Slug(s)
  {
    SlugShape(s);
    LowerOfLower(Slug(s));
    RunsIdentity(Slug(s), "-");
  }

  /** A download name is a slug followed by the extension. */
  lemma FileNameShape(name: string, fallback: string, extension: string)
    requires NoSpace(extension)
    ensures NoSpace(FileName(name, fallback, extension))
    ensures EndsWith(FileName(name, fallback, extension), extension)
    ensures name != "" ==> FileName(name, fallback, extension) == Slug(name) + extension
  {
    var f := FileName(name, fallback, extension);
    SlugShape(OrString(name, fallback));
    assert f[|f| - |extension|..] == extension;
  }

  // ---------------------------------------------------------------- song ids and titles

  /** `s.replace(/-/g, ' ')`. */
  function HyphensToSpaces(s: string): (r: string)
    ensures |r| == |s|
    ensures forall k :: 0 <= k < |s| ==> r[k] == (if s[k] == '-' then ' ' else s[k])
  {
    seq(|s|, k requires 0 <= k < |s| => if s[k] == '-' then ' ' else s[k])
  }

  /** `id.charAt(0).toUpperCase() + id.slice(1).replace(/-/g, ' ')`: the
      display title of a song id. The first character is never a hyphen
      turned into a space. */
  function SongTitle(id: string): (r: string)
    ensures |r| == |id|
  {
    if id == [] then [] else [UpperChar(id[0])] + HyphensToSpaces(id[1..])
  }

  /** `name.toLowerCase().replace(/\s+/g, '-')`: the song id of a title. */
  function SongId(title: string): string {
    Slug(title)
  }

  /** Two hyphens side by side after the first character. */
  predicate DoubleHyphen(id: string) {
    exists k :: 1 <= k < |id| - 1 && id[k] == '-' && id[k + 1] == '-'
  }

  /** The ids a title turns back into: lower case, no white space, and no
      two adjacent hyphens after the first character. */
  predicate TitleRecoverable(id: string) {
    IsLower(id) && NoSpace(id) && !DoubleHyphen(id)
  }

  /** Hyphens that became single spaces turn back into hyphens. */
  lemma {:induction false} HyphensBack(u: string)
    requires NoSpace(u)
    requires forall k :: 0 <= k < |u| - 1 ==> !(u[k] == '-' && u[k + 1] == '-')
    ensures ReplaceSpaceRuns(HyphensToSpaces(u), "-") == u
    decreases |u|
  {
    if u != [] {
      var h := HyphensToSpaces(u);
      assert h[1..] == HyphensToSpaces(u[1..]);
      HyphensBack(u[1..]);
      if u[0] == '-' {
        SpaceEndAt(h, 0, 1);
        assert TrimStart(h) == h[1..];
        assert u == "-" + u[1..];
      } else {
        assert u == [u[0]] + u[1..];
      }
    }
  }

  /** A title keeps its first character after lower-casing, and the rest is
      the id with hyphens as spaces. */
  lemma LowerTitle(id: string)
    requires id != [] && IsLower(id)
    ensures Lower(SongTitle(id)) == [id[0]] + HyphensToSpaces(id[1..])
  {
  }

  /** A recoverable id survives the trip to its title and back. */
  lemma TitleBack(id: string)
    requires TitleRecoverable(id)
    ensures SongId(SongTitle(id)) == id
  {
    if id != [] {
      LowerTitle(id);
      var l := Lower(SongTitle(id));
      var u := id[1..];
      forall k | 0 <= k < |u| - 1 ensures !(u[k] == '-' && u[k + 1] == '-') {
        assert u[k] == id[k + 1] && u[k + 1] == id[k + 2];
      }
      HyphensBack(u);
      assert l[1..] == HyphensToSpaces(u);
      assert ReplaceSpaceRuns(l, "-") == [id[0]] + ReplaceSpaceRuns(l[1..], "-");
      assert id == [id[0]] + u;
    }
  }

  /** A doubled hyphen becomes two spaces, which the id conversion merges. */
  lemma DoubleHyphenLost(id: string)
    requires DoubleHyphen(id)
    ensures SongId(SongTitle(id)) != id
  {
    var k :| 1 <= k < |id| - 1 && id[k] == '-' && id[k + 1] == '-';
    var t := SongTitle(id);
    assert t[k] == ' ' && t[k + 1] == ' ';
    var l := Lower(t);
    assert IsSpace(l[k]) && IsSpace(l[k + 1]);
    RunsNoLonger(l);
  }

  /** Converting a song id to its title and back gives the id exactly when
      the id is lower case, has no white space and no doubled hyphen after
      its first character. */
  lemma TitleRoundTrip(id: string)
    ensures SongId(SongTitle(id)) == id <==> TitleRecoverable(id)
  {
    if TitleRecoverable(id) {
      TitleBack(id);
    } else if DoubleHyphen(id) {
      DoubleHyphenLost(id);
    } else {
      SlugShape(SongTitle(id));
    }
  }

  /** `[title, "bf", [146, 113, 253]]`: one Psych Engine week song. */
  datatype WeekSong = WeekSong(title: string, icon: string, colour: seq<int>)

  /** `songs.map(...)` of the V Slice to Psych Engine week conversion. */
  function PsychWeekSongs(ids: seq<string>): (r: seq<WeekSong>)
    ensures |r| == |ids|
    ensures forall k :: 0 <= k < |ids| ==> r[k].icon == "bf" && r[k].colour == [146, 113, 253]
  {
    seq(|ids|, k requires 0 <= k < |ids| => WeekSong(SongTitle(ids[k]), "bf", [146, 113, 253]))
  }

  /** `songs.map(song => song[0]...)` of the Psych Engine to V Slice week
      conversion. */
  function VSliceWeekSongs(songs: seq<WeekSong>): (r: seq<string>)
    ensures |r| == |songs|
  {
    seq(|songs|, k requires 0 <= k < |songs| => SongId(songs[k].title))
  }

  /** A week's song list survives the round trip exactly when every id is
      recoverable from its title. */
  lemma WeekSongsRoundTrip(ids: seq<string>)
    ensures VSliceWeekSongs(PsychWeekSongs(ids)) == ids
        <==> forall k :: 0 <= k < |ids| ==> TitleRecoverable(ids[k])
  {
    var back := VSliceWeekSongs(PsychWeekSongs(ids));
    forall k | 0 <= k < |ids|
      ensures back[k] == ids[k] <==> TitleRecoverable(ids[k])
    {
      TitleRoundTrip(ids[k]);
    }
    if back != ids {
      var k :| 0 <= k < |ids| && back[k] != ids[k];
    }
  }

  /** Song ids always come out as slugs: lower case and free of white space. */
  lemma SongIdShape(songs: seq<WeekSong>)
    ensures forall k :: 0 <= k < |songs| ==>
      NoSpace(VSliceWeekSongs(songs)[k]) && IsLower(VSliceWeekSongs(songs)[k])
  {
    forall k | 0 <= k < |songs|
      ensures NoSpace(VSliceWeekSongs(songs)[k]) && IsLower(VSliceWeekSongs(songs)[k])
    {
      SlugShape(songs[k].title);
    }
  }
}
