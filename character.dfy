/** The character converter (script.js:346-411). A V Slice character names
    its animations "Left", "Idle0" and so on; a Psych Engine character names
    them by the animation it plays ("singLEFT", "idle"). The health-bar
    colour is a 24-bit colour read as a hexadecimal number and stored as a
    signed 32-bit integer. */
module Character {
  import opened Wrappers
  import opened Text
  import opened Chart
  import opened Naming

  type Point = (real, real)

  /** `p || [0, 0]`: a present array is truthy. */
  function PointOr(p: Option<Point>): Point {
    if p.Some? then p.value else (0.0, 0.0)
  }

  // ---------------------------------------------------------------- colour

  const TwoTo31: int := 0x8000_0000
  const TwoTo32: int := 0x1_0000_0000

  /** `colorDecimal > 0x7FFFFFFF ? colorDecimal - 0x100000000 : colorDecimal`:
      an unsigned 32-bit value read as a signed one. */
  function ColorSigned(c: int): (r: int)
    ensures 0 <= c < TwoTo32 ==> -TwoTo31 <= r < TwoTo31
    ensures (r - c) % TwoTo32 == 0
  {
    if c > 0x7FFF_FFFF then c - TwoTo32 else c
  }

  /** `healthColor < 0 ? healthColor + 0x100000000 : healthColor`: a signed
      32-bit value read as an unsigned one. */
  function ColorUnsigned(h: int): (r: int)
    ensures -TwoTo31 <= h < TwoTo32 ==> 0 <= r < TwoTo32
    ensures (r - h) % TwoTo32 == 0
  {
    if h < 0 then h + TwoTo32 else h
  }

  /** The two readings undo each other on their ranges. */
  lemma ColorRoundTrip(c: int, h: int)
    ensures 0 <= c < TwoTo32 ==> ColorUnsigned(ColorSigned(c)) == c
    ensures -TwoTo31 <= h < TwoTo31 ==> ColorSigned(ColorUnsigned(h)) == h
  {
  }

  function HexDigit(c: char): (v: int)
    ensures -1 <= v < 16
  {
    if '0' <= c <= '9' then c as int - '0' as int
    else if 'a' <= c <= 'f' then c as int - 'a' as int + 10
    else if 'A' <= c <= 'F' then c as int - 'A' as int + 10
    else -1
  }

  predicate IsHexDigit(c: char) {
    HexDigit(c) >= 0
  }

  /** The number of leading hexadecimal digits. */
  function HexRun(s: string): (n: nat)
    ensures n <= |s|
  {
    if s != [] && IsHexDigit(s[0]) then 1 + HexRun(s[1..]) else 0
  }

  /** The value of a string of hexadecimal digits. */
  function HexValue(s: string): nat
    requires forall k :: 0 <= k < |s| ==> IsHexDigit(s[k])
  {
    if s == [] then 0
    else
      assert IsHexDigit(s[|s| - 1]);
      HexValue(s[..|s| - 1]) * 16 + HexDigit(s[|s| - 1])
  }

  function Power16(n: nat): (p: nat)
    ensures p >= 1
  {
    if n == 0 then 1 else 16 * Power16(n - 1)
  }

  lemma {:induction false} HexValueBound(s: string)
    requires forall k :: 0 <= k < |s| ==> IsHexDigit(s[k])
    ensures HexValue(s) < Power16(|s|)
  {
    if s != [] {
      HexValueBound(s[..|s| - 1]);
    }
  }

  /** `s.replace('#', '')`: only the first `#` goes. */
  function RemoveFirstHash(s: string): (r: string)
    ensures '#' !in s ==> r == s
  {
    if s == [] then [] else if s[0] == '#' then s[1..] else [s[0]] + RemoveFirstHash(s[1..])
  }

  /** `parseInt(s, 16)` on a string starting with hexadecimal digits; `None`
      is NaN (no leading digit). */
  function ParseHex(s: string): (r: Option<nat>)
    ensures r.None? <==> HexRun(s) == 0
  {
    var n := HexRun(s);
    if n == 0 then None else HexDigitsRun(s); Some(HexValue(s[..n]))
  }

  lemma {:induction false} HexDigitsRun(s: string)
    ensures forall k :: 0 <= k < HexRun(s) ==> IsHexDigit(s[k])
  {
    if s != [] && IsHexDigit(s[0]) {
      HexDigitsRun(s[1..]);
    }
  }

  /** The health-bar colour of a Psych Engine character made from the colour
      field `#rrggbb`; `None` is NaN, which the document stores as `null`. */
  function HealthbarColour(field: string): Option<int> {
    var parsed := ParseHex(RemoveFirstHash(field));
    if parsed.Some? then Some(ColorSigned(parsed.value)) else None
  }

  /** A colour picker value `#rrggbb` is below 2^24, so the signed reading
      leaves it as it is. */
  lemma PickedColour(digits: string)
    requires |digits| == 6 && forall k :: 0 <= k < 6 ==> IsHexDigit(digits[k])
    ensures HealthbarColour("#" + digits) == Some(HexValue(digits))
    ensures 0 <= HexValue(digits) < 0x100_0000
  {
    assert RemoveFirstHash("#" + digits) == digits;
    HexValueBound(digits);
    HexRunAll(digits);
    assert digits[..6] == digits;
  }

  lemma {:induction false} HexRunAll(s: string)
    requires forall k :: 0 <= k < |s| ==> IsHexDigit(s[k])
    ensures HexRun(s) == |s|
  {
    if s != [] {
      HexRunAll(s[1..]);
    }
  }

  // ---------------------------------------------------------------- animations

  /** The fields of a V Slice animation the converter reads or writes. */
  datatype VSliceAnimation = VSliceAnimation(name: string, fps: real, loop: bool, offsets: Option<Point>)

  /** A Psych Engine animation: `anim` is the animation played, `name` the
      frame prefix. A missing string is the empty string. */
  datatype PsychAnimation = PsychAnimation(
    offsets: Option<Point>,
    flipY: bool,
    loop: bool,
    fps: real,
    anim: string,
    flipX: bool,
    indices: seq<int>,
    name: string)

  /** `animationMap` of the V Slice to Psych Engine conversion. */
  const AnimationMap: map<string, string> := map[
    "Left" := "singLEFT", "Down" := "singDOWN", "Up" := "singUP", "Right" := "singRIGHT",
    "Idle0" := "idle", "Idle ALT" := "idle-alt", "Idle" := "idle"]

  /** `reverseAnimationMap` of the Psych Engine to V Slice conversion. */
  const ReverseAnimationMap: map<string, string> := map[
    "singLEFT" := "Left", "singDOWN" := "Down", "singUP" := "Up", "singRIGHT" := "Right",
    "idle" := "Idle0", "idle-alt" := "Idle ALT"]

  /** `animationMap[name] || name.toLowerCase()`. */
  function PsychAnimName(name: string): (r: string)
    ensures name in AnimationMap ==> r in ReverseAnimationMap
    ensures name !in AnimationMap ==> r == Lower(name)
  {
    if name in AnimationMap then AnimationMap[name] else Lower(name)
  }

  /** `reverseAnimationMap[anim] || name || anim`. */
  function VSliceAnimName(anim: string, name: string): (r: string)
    ensures anim in ReverseAnimationMap ==> r in AnimationMap && AnimationMap[r] == anim
    ensures anim !in ReverseAnimationMap && name != "" ==> r == name
  {
    if anim in ReverseAnimationMap then ReverseAnimationMap[anim] else OrString(name, anim)
  }

  /** One animation of vSliceCharToPsychEngine (script.js:358-367). */
  function ToPsychAnimation(a: VSliceAnimation): PsychAnimation {
    PsychAnimation(Some(PointOr(a.offsets)), false, a.loop, OrReal(a.fps, 24.0),
      PsychAnimName(a.name), false, [], a.name)
  }

  /** One animation of psychCharToVSlice (script.js:390-395). */
  function ToVSliceAnimation(a: PsychAnimation, defaultFps: real): VSliceAnimation {
    VSliceAnimation(VSliceAnimName(a.anim, a.name), OrReal(a.fps, defaultFps), a.loop, Some(PointOr(a.offsets)))
  }

  /** No lower-cased name is a key of the reverse map that holds an upper-case
      letter. */
  lemma LowerNotSing(name: string)
    ensures Lower(name) != "singLEFT" && Lower(name) != "singDOWN"
    ensures Lower(name) != "singUP" && Lower(name) != "singRIGHT"
  {
    var l := Lower(name);
    if |l| > 4 {
      assert LowerChar(name[4]) == l[4];
    }
  }

  /** A V Slice animation name comes back from a Psych Engine round trip
      unchanged unless it lower-cases to "idle" or "idle-alt" ("Idle" itself
      comes back as "Idle0"). */
  lemma AnimationNameRoundTrip(name: string)
    ensures VSliceAnimName(PsychAnimName(name), name) == name
        <==> Lower(name) != "idle" && Lower(name) != "idle-alt"
  {
    if name in AnimationMap {
      MappedNameRoundTrip(name);
    } else {
      UnmappedNameRoundTrip(name);
    }
  }

  lemma MappedNameRoundTrip(name: string)
    requires name in AnimationMap
    ensures VSliceAnimName(PsychAnimName(name), name) == name
        <==> Lower(name) != "idle" && Lower(name) != "idle-alt"
  {
    assert name in AnimationMap.Keys;
    MappedLower(name);
  }

  /** The lower-case forms of the map's keys. */
  lemma MappedLower(name: string)
    requires name in AnimationMap
    ensures Lower(name) == "idle" <==> name == "Idle"
    ensures Lower(name) != "idle-alt"
  {
    if name == "Left" {
      assert Lower(name) == "left";
    } else if name == "Down" {
      assert Lower(name) == "down";
    } else if name == "Up" {
      assert Lower(name) == "up";
    } else if name == "Right" {
      assert Lower(name) == "right";
    } else if name == "Idle0" {
      assert Lower(name) == "idle0";
    } else if name == "Idle ALT" {
      assert Lower(name) == "idle alt";
    } else {
      assert Lower(name) == "idle";
    }
  }

  lemma UnmappedNameRoundTrip(name: string)
    requires name !in AnimationMap
    ensures VSliceAnimName(PsychAnimName(name), name) == name
        <==> Lower(name) != "idle" && Lower(name) != "idle-alt"
  {
    LowerNotSing(name);
    if Lower(name) == "idle" || Lower(name) == "idle-alt" {
      assert Lower(name) in ReverseAnimationMap;
      if Lower(name) == "idle" {
        assert VSliceAnimName(PsychAnimName(name), name) == "Idle0";
        assert LowerChar('I') != 'I';
        assert name != "Idle0" by { assert |name| == |Lower(name)|; }
      } else {
        assert VSliceAnimName(PsychAnimName(name), name) == "Idle ALT";
        assert name != "Idle ALT" by { assert |name| == |Lower(name)|; }
      }
    } else {
      assert PsychAnimName(name) !in ReverseAnimationMap;
      if name == "" {
        assert Lower(name) == "";
      }
    }
  }

  // ---------------------------------------------------------------- characters

  /** The fields of a V Slice character the converter reads or writes. A
      missing string is the empty string and a missing number 0. */
  datatype VSliceCharacter = VSliceCharacter(
    name: string,
    asset: string,
    position: Option<Point>,
    cameraPosition: Option<Point>,
    scale: real,
    flipX: bool,
    healthIcon: string,
    animations: seq<VSliceAnimation>)

  /** A Psych Engine character. `healthbarColours` is the colour list
      (`None` when absent; an element `None` is `null`), `healthbarColour` the
      older single-colour field (0 when absent). */
  datatype PsychCharacter = PsychCharacter(
    animations: seq<PsychAnimation>,
    noAntialiasing: bool,
    image: string,
    position: Option<Point>,
    danceEvery: int,
    healthIcon: string,
    flipX: bool,
    healthbarColours: Option<seq<Option<int>>>,
    healthbarColour: int,
    cameraPosition: Option<Point>,
    singDuration: real,
    scale: real,
    editorIsPlayer: bool)

  /** Form fields of the character page; 0 stands for a blank or unparsable
      number field. */
  datatype CharacterOptions = CharacterOptions(
    singDuration: real,
    danceEvery: int,
    noAntialiasing: bool,
    isPlayer: bool,
    healthbarColor: string,
    defaultFps: int)

  /** vSliceCharToPsychEngine (script.js:346-382). */
  function VSliceCharToPsychEngine(c: VSliceCharacter, opts: CharacterOptions): (r: PsychCharacter)
    ensures |r.animations| == |c.animations|
    ensures forall k :: 0 <= k < |c.animations| ==> r.animations[k].name == c.animations[k].name
    ensures r.healthbarColours == Some([HealthbarColour(opts.healthbarColor)])
  {
    PsychCharacter(
      seq(|c.animations|, k requires 0 <= k < |c.animations| => ToPsychAnimation(c.animations[k])),
      opts.noAntialiasing,
      OrString(c.asset, "characters/unknown"),
      Some(PointOr(c.position)),
      if opts.danceEvery != 0 then opts.danceEvery else 2,
      OrString(c.healthIcon, "face"),
      c.flipX,
      Some([HealthbarColour(opts.healthbarColor)]),
      0,
      Some(PointOr(c.cameraPosition)),
      OrReal(opts.singDuration, 6.1),
      OrReal(c.scale, 1.0),
      opts.isPlayer)
  }

  /** `healthIcon.charAt(0).toUpperCase() + healthIcon.slice(1)`. */
  function Capitalized(s: string): (r: string)
    ensures |r| == |s|
    ensures s != [] ==> r[0] == UpperChar(s[0]) && r[1..] == s[1..]
    ensures Lower(r) == Lower(s)
    ensures r == [] || !('a' <= r[0] <= 'z')
  {
    if s == [] then [] else
      var c := s[0];
      assert LowerChar(UpperChar(c)) == LowerChar(c);
      var r := [UpperChar(c)] + s[1..];
      assert Lower(r) == [LowerChar(UpperChar(c))] + Lower(s[1..]);
      assert Lower(s) == [LowerChar(c)] + Lower(s[1..]);
      r
  }

  /** The colour psychCharToVSlice computes (script.js:396-399): the first
      list entry, else the single field, read as unsigned. `None` is
      `undefined` or `null`, which the sign test leaves as it is. The V Slice
      document it builds has no field for this value. */
  function HealthColour(c: PsychCharacter): (r: Option<int>)
    ensures c.healthbarColours.None? ==> r == Some(ColorUnsigned(c.healthbarColour))
  {
    var h := if c.healthbarColours.Some? then
               (if c.healthbarColours.value != [] then c.healthbarColours.value[0] else None)
             else Some(c.healthbarColour);
    if h.Some? then Some(ColorUnsigned(h.value)) else None
  }

  /** The colour stored by the forward conversion comes back from the
      reverse conversion's unsigned reading as the value parsed from the
      colour field, whenever that value fits in 32 bits; an unparsable field
      stays unparsed. */
  lemma HealthColourRoundTrip(c: VSliceCharacter, opts: CharacterOptions)
    ensures var parsed := ParseHex(RemoveFirstHash(opts.healthbarColor));
      && (parsed.Some? && parsed.value < TwoTo32 ==> HealthColour(VSliceCharToPsychEngine(c, opts)) == parsed)
      && (parsed.None? ==> HealthColour(VSliceCharToPsychEngine(c, opts)) == None)
  {
    var parsed := ParseHex(RemoveFirstHash(opts.healthbarColor));
    if parsed.Some? && parsed.value < TwoTo32 {
      ColorRoundTrip(parsed.value, 0);
    }
  }

  /** A colour picked as `#rrggbb` comes back as its hexadecimal value. */
  lemma PickedColourRoundTrip(c: VSliceCharacter, opts: CharacterOptions, digits: string)
    requires opts.healthbarColor == "#" + digits
    requires |digits| == 6 && forall k :: 0 <= k < 6 ==> IsHexDigit(digits[k])
    ensures HealthColour(VSliceCharToPsychEngine(c, opts)) == Some(HexValue(digits))
  {
    PickedColour(digits);
    assert RemoveFirstHash("#" + digits) == digits;
    HealthColourRoundTrip(c, opts);
  }

  /** psychCharToVSlice (script.js:384-411). */
  function PsychCharToVSlice(c: PsychCharacter, defaultFps: int): (r: VSliceCharacter)
    ensures |r.animations| == |c.animations|
    ensures r.healthIcon != "" && r.name == Capitalized(r.healthIcon)
  {
    var fps := if defaultFps != 0 then defaultFps else 24;
    var icon := OrString(c.healthIcon, "face");
    VSliceCharacter(
      Capitalized(icon),
      OrString(c.image, "characters/unknown"),
      Some(PointOr(c.position)),
      Some(PointOr(c.cameraPosition)),
      OrReal(c.scale, 1.0),
      c.flipX,
      icon,
      seq(|c.animations|, k requires 0 <= k < |c.animations| => ToVSliceAnimation(c.animations[k], fps as real)))
  }

  /** A V Slice character taken to Psych Engine and back keeps its asset,
      positions, scale, flip and icon (with their defaults filled in), is
      named after its icon, and keeps every animation's fps, loop flag and
      offsets; animation names come back as `AnimationNameRoundTrip` says. */
  lemma CharacterRoundTrip(c: VSliceCharacter, opts: CharacterOptions, defaultFps: int)
    ensures var back := PsychCharToVSlice(VSliceCharToPsychEngine(c, opts), defaultFps);
      && back.asset == OrString(c.asset, "characters/unknown")
      && back.position == Some(PointOr(c.position))
      && back.cameraPosition == Some(PointOr(c.cameraPosition))
      && back.scale == OrReal(c.scale, 1.0)
      && back.flipX == c.flipX
      && back.healthIcon == OrString(c.healthIcon, "face")
      && back.name == Capitalized(OrString(c.healthIcon, "face"))
      && |back.animations| == |c.animations|
      && forall k :: 0 <= k < |c.animations| ==>
           var a, b := c.animations[k], back.animations[k];
           && b.name == VSliceAnimName(PsychAnimName(a.name), a.name)
           && b.fps == OrReal(a.fps, 24.0)
           && b.loop == a.loop
           && b.offsets == Some(PointOr(a.offsets))
  {
  }
}
