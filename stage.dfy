/** The stage converter (script.js:485-630). A V Slice stage is one JSON
    document listing its props; a Psych Engine stage is a JSON document for
    the camera and character positions plus a Lua script that creates the
    props. The generator writes that script, the parser reads it back one
    line at a time. Positions, scales, scroll factors and alpha are integers
    here, rendered in decimal and read back from decimal. */
module Stage {
  import opened Wrappers
  import opened Text
  import opened Seqs
  import opened Sorting
  import Chart

  type Point = (int, int)

  /** A V Slice prop. An absent `position`, `scale`, `scroll` or `alpha` is
      `None`; an absent `name`, `assetPath` or `zIndex` is "" or 0, the
      values JavaScript's `||` treats the same way. */
  datatype Prop = Prop(
    name: string,
    assetPath: string,
    position: Option<Point>,
    scale: Option<Point>,
    scroll: Option<Point>,
    alpha: Option<int>,
    zIndex: int,
    isPixel: bool,
    danceEvery: int,
    animType: string,
    startingAnimation: string)

  datatype StageCharacter = StageCharacter(zIndex: int, position: Option<Point>, cameraOffsets: Option<Point>)

  datatype VSliceStage = VSliceStage(
    version: string,
    name: string,
    directory: string,
    cameraZoom: real,
    props: Option<seq<Prop>>,
    bf: Option<StageCharacter>,
    dad: Option<StageCharacter>,
    gf: Option<StageCharacter>)

  /** The Psych Engine stage JSON. When it is read, any of the positions may
      be absent; when it is written, all of them are present. */
  datatype PsychStage = PsychStage(
    directory: string,
    defaultZoom: real,
    isPixelStage: bool,
    boyfriend: Option<Point>,
    girlfriend: Option<Point>,
    opponent: Option<Point>,
    hideGirlfriend: bool,
    cameraBoyfriend: Option<Point>,
    cameraOpponent: Option<Point>,
    cameraGirlfriend: Option<Point>,
    cameraSpeed: int)

  function PointOr(p: Option<Point>, d: Point): Point {
    if p.Some? then p.value else d
  }

  /** `stage.characters?.<who>?.position || d`. */
  function CharacterPosition(c: Option<StageCharacter>, d: Point): Point {
    if c.Some? then PointOr(c.value.position, d) else d
  }

  /** `stage.characters?.<who>?.cameraOffsets || [0, 0]`. */
  function CharacterOffsets(c: Option<StageCharacter>): Point {
    if c.Some? then PointOr(c.value.cameraOffsets, (0, 0)) else (0, 0)
  }

  predicate HasPosition(c: Option<StageCharacter>) {
    c.Some? && c.value.position.Some?
  }

  predicate HasOffsets(c: Option<StageCharacter>) {
    c.Some? && c.value.cameraOffsets.Some?
  }

  // ---------------------------------------------------------------- V Slice to Psych Engine

  /** The JSON half of the conversion: fields mapped one to one, defaults
      for the absent ones. */
  function StageJson(s: VSliceStage): (j: PsychStage)
    ensures j.directory == s.directory
    ensures j.boyfriend.Some? && j.girlfriend.Some? && j.opponent.Some?
    ensures !j.isPixelStage && !j.hideGirlfriend && j.cameraSpeed == 1
    ensures s.cameraZoom != 0.0 ==> j.defaultZoom == s.cameraZoom
    ensures s.cameraZoom == 0.0 ==> j.defaultZoom == 0.9
    // each character's position is copied when it is given, else defaulted
    ensures HasPosition(s.bf) ==> j.boyfriend == s.bf.value.position
    ensures !HasPosition(s.bf) ==> j.boyfriend == Some((770, 100))
    ensures HasPosition(s.gf) ==> j.girlfriend == s.gf.value.position
    ensures !HasPosition(s.gf) ==> j.girlfriend == Some((400, 130))
    ensures HasPosition(s.dad) ==> j.opponent == s.dad.value.position
    ensures !HasPosition(s.dad) ==> j.opponent == Some((100, 100))
    // and so is each character's camera offset
    ensures HasOffsets(s.bf) ==> j.cameraBoyfriend == s.bf.value.cameraOffsets
    ensures !HasOffsets(s.bf) ==> j.cameraBoyfriend == Some((0, 0))
    ensures HasOffsets(s.gf) ==> j.cameraGirlfriend == s.gf.value.cameraOffsets
    ensures !HasOffsets(s.gf) ==> j.cameraGirlfriend == Some((0, 0))
    ensures HasOffsets(s.dad) ==> j.cameraOpponent == s.dad.value.cameraOffsets
    ensures !HasOffsets(s.dad) ==> j.cameraOpponent == Some((0, 0))
  {
    PsychStage(
      s.directory,
      Chart.OrReal(s.cameraZoom, 0.9),
      false,
      Some(CharacterPosition(s.bf, (770, 100))),
      Some(CharacterPosition(s.gf, (400, 130))),
      Some(CharacterPosition(s.dad, (100, 100))),
      false,
      Some(CharacterOffsets(s.bf)),
      Some(CharacterOffsets(s.dad)),
      Some(CharacterOffsets(s.gf)),
      1)
  }

  /** The sort key: `prop.zIndex || 0`. */
  function ZKey(p: Prop): real {
    p.zIndex as real
  }

  /** `characters?.bf?.zIndex || 300`: props above it are drawn in front of
      the characters. */
  function FrontThreshold(s: VSliceStage): int {
    if s.bf.Some? && s.bf.value.zIndex != 0 then s.bf.value.zIndex else 300
  }

  function SpriteName(p: Prop, index: nat): string {
    OrString(p.name, "sprite" + NatToString(index))
  }

  function AssetPath(p: Prop, index: nat, directory: string): string {
    OrString(p.assetPath, "stages/" + OrString(directory, "unknown") + "/" + SpriteName(p, index))
  }

  function AlphaOf(p: Prop): int {
    if p.alpha.Some? then p.alpha.value else 1
  }

  // The statements are written with explicit right-nested concatenation, in
  // the order the parser reads them.

  /** `makeLuaSprite('<name>', '<path>', <x>, <y>)`. */
  function CreateCall(name: string, path: string, x: int, y: int): string
  {
    "makeLuaSprite('" + (name + ("'," + (" " + ("'" + (path + ("'," + (" "
      + (IntToString(x) + ("," + (" " + (IntToString(y) + ")")))))))))))
  }

  const ClientAntialiasing := "getPropertyFromClass('" + ("backend.ClientPrefs" + ("', '" + ("data.globalAntialiasing" + "')")))

  /** `setProperty('<name>.antialiasing', getPropertyFromClass(...))`. */
  function AntialiasingCall(name: string): string
  {
    "setProperty('" + ((name + ".antialiasing") + ("'," + (" " + (ClientAntialiasing + ")"))))
  }

  /** `<opening><name>', <a>, <b>)` for `scaleObject('` and `setScrollFactor('`. */
  function PairCall(opening: string, name: string, v: Point): string
    requires opening != []
  {
    opening + (name + ("'," + (" " + (IntToString(v.0) + ("," + (" " + (IntToString(v.1) + ")")))))))
  }

  /** `setProperty('<name>.alpha', <a>)`. */
  function AlphaCall(name: string, a: int): string
  {
    "setProperty('" + ((name + ".alpha") + ("'," + (" " + (IntToString(a) + ")"))))
  }

  /** `addLuaSprite('<name>', <inFront>)`. */
  function AddCall(name: string, inFront: bool): string
  {
    "addLuaSprite('" + (name + ("'," + (" " + ((if inFront then "true" else "false") + ")"))))
  }

  function Indent(stmt: string): string {
    "    " + stmt
  }

  /** The lines written for the prop at position `index` of the sorted list:
      an empty line, the create call, then each optional statement only when
      its value differs from the default, then the add call. */
  function PropLines(p: Prop, index: nat, directory: string, threshold: int): (r: seq<string>)
    ensures 2 <= |r| && r[0] == ""
  {
    var name := SpriteName(p, index);
    var pos := PointOr(p.position, (0, 0));
    var scale := PointOr(p.scale, (1, 1));
    var scroll := PointOr(p.scroll, (1, 1));
    ["", Indent(CreateCall(name, AssetPath(p, index, directory), pos.0, pos.1))]
    + (if !p.isPixel then [Indent(AntialiasingCall(name))] else [])
    + (if scale != (1, 1) then [Indent(PairCall("scaleObject('", name, scale))] else [])
    + (if AlphaOf(p) != 1 then [Indent(AlphaCall(name, AlphaOf(p)))] else [])
    + (if scroll != (1, 1) then [Indent(PairCall("setScrollFactor('", name, scroll))] else [])
    + [Indent(AddCall(name, p.zIndex > threshold))]
  }

  /** The lines of every prop of `sorted`, in order. */
  function Blocks(sorted: seq<Prop>, directory: string, threshold: int): seq<string> {
    if sorted == [] then []
    else
      var last := |sorted| - 1;
      Blocks(sorted[..last], directory, threshold) + PropLines(sorted[last], last, directory, threshold)
  }

  const Placeholder := "-- No props to convert or Lua generation disabled\nfunction onCreate()\n    -- Add your stage sprites here\nend\n"

  /** The props in drawing order: stably sorted by `zIndex`. */
  function SortedProps(props: seq<Prop>): (r: seq<Prop>)
    ensures |r| == |props| && multiset(r) == multiset(props) && SortedBy(r, ZKey)
  {
    SortBy(props, ZKey)
  }

  /** The script the generator writes. An empty prop list still gives an
      `onCreate` function, with an empty body; only absent props (or
      generation switched off) give the placeholder. */
  function StageLua(s: VSliceStage, generateLua: bool): string {
    if generateLua && s.props.Some? then
      Unlines(["function onCreate()"] + Blocks(SortedProps(s.props.value), s.directory, FrontThreshold(s)) + ["end"])
    else
      Placeholder
  }

  lemma {:induction false} UnlinesFrame(head: string, body: seq<string>, tail: string)
    ensures Unlines([head] + body + [tail]) == head + "\n" + Unlines(body) + (tail + "\n")
  {
    UnlinesAppend([head] + body, [tail]);
    UnlinesAppend([head], body);
    assert ([head] + body)[1..] == body;
    assert Unlines([tail]) == tail + "\n" + Unlines([]);
  }

  /** Appending the lines of the next prop to the script written so far. */
  lemma ScriptStep(sorted: seq<Prop>, i: nat, directory: string, threshold: int)
    requires i < |sorted|
    ensures "function onCreate()\n" + Unlines(Blocks(sorted[..i + 1], directory, threshold))
         == ("function onCreate()\n" + Unlines(Blocks(sorted[..i], directory, threshold)))
            + Unlines(PropLines(sorted[i], i, directory, threshold))
  {
    var before, block := Blocks(sorted[..i], directory, threshold), PropLines(sorted[i], i, directory, threshold);
    assert sorted[..i + 1][..i] == sorted[..i];
    assert Blocks(sorted[..i + 1], directory, threshold) == before + block;
    UnlinesAppend(before, block);
    AppendAssoc("function onCreate()\n", Unlines(before), Unlines(block));
  }

  lemma BlocksWhole(sorted: seq<Prop>, directory: string, threshold: int)
    ensures Blocks(sorted[..|sorted|], directory, threshold) == Blocks(sorted, directory, threshold)
  {
    assert sorted[..|sorted|] == sorted;
  }

  /** The lines of one prop, appended statement by statement. */
  method PropBlock(p: Prop, index: nat, directory: string, threshold: int) returns (block: seq<string>)
    ensures block == PropLines(p, index, directory, threshold)
  {
    var name := SpriteName(p, index);
    var position := PointOr(p.position, (0, 0));
    var scale := PointOr(p.scale, (1, 1));
    var scroll := PointOr(p.scroll, (1, 1));
    block := ["", Indent(CreateCall(name, AssetPath(p, index, directory), position.0, position.1))];
    block := block + (if !p.isPixel then [Indent(AntialiasingCall(name))] else []);
    block := block + (if scale != (1, 1) then [Indent(PairCall("scaleObject('", name, scale))] else []);
    block := block + (if AlphaOf(p) != 1 then [Indent(AlphaCall(name, AlphaOf(p)))] else []);
    block := block + (if scroll != (1, 1) then [Indent(PairCall("setScrollFactor('", name, scroll))] else []);
    block := block + [Indent(AddCall(name, p.zIndex > threshold))];
  }

  lemma ScriptClose(sorted: seq<Prop>, directory: string, threshold: int, lua: string)
    requires lua == "function onCreate()\n" + Unlines(Blocks(sorted, directory, threshold))
    ensures lua + "end\n" == Unlines(["function onCreate()"] + Blocks(sorted, directory, threshold) + ["end"])
  {
    UnlinesFrame("function onCreate()", Blocks(sorted, directory, threshold), "end");
  }

  /** The script for props already in drawing order, built block by block. */
  method WriteScript(sorted: seq<Prop>, directory: string, threshold: int) returns (lua: string)
    ensures lua == Unlines(["function onCreate()"] + Blocks(sorted, directory, threshold) + ["end"])
  {
    lua := "function onCreate()\n";
    var i := 0;
    while i < |sorted|
      invariant 0 <= i <= |sorted|
      invariant lua == "function onCreate()\n" + Unlines(Blocks(sorted[..i], directory, threshold))
    {
      var block := PropBlock(sorted[i], i, directory, threshold);
      ScriptStep(sorted, i, directory, threshold);
      lua := lua + Unlines(block);
      i := i + 1;
    }
    BlocksWhole(sorted, directory, threshold);
    ScriptClose(sorted, directory, threshold, lua);
    lua := lua + "end\n";
  }

  /** `vSliceStageToPsychEngine`: the JSON mapping, and the script built
      line by line over the sorted props. */
  method VSliceStageToPsychEngine(s: VSliceStage, generateLua: bool) returns (json: PsychStage, lua: string)
    ensures json == StageJson(s)
    ensures lua == StageLua(s, generateLua)
  {
    json := StageJson(s);
    if generateLua && s.props.Some? {
      var sorted := SortedProps(s.props.value);
      lua := WriteScript(sorted, s.directory, FrontThreshold(s));
    } else {
      lua := Placeholder;
    }
  }

  // ---------------------------------------------------------------- Lua script parser

  /** What the parser keeps of a `makeLuaSprite` call and the statements
      after it. */
  datatype Sprite = Sprite(
    name: string,
    assetPath: string,
    position: Point,
    scale: Point,
    scroll: Point,
    alpha: int,
    isPixel: bool,
    inFront: bool)

  /** `makeLuaSprite\('([^']+)',\s*'([^']+)',\s*([-\d.]+),\s*([-\d.]+)\)`
      at the start of the line: name, asset path and position. */
  function MatchCreate(line: string): Option<(string, string, int, int)> {
    var r0 :- StripPrefix(line, "makeLuaSprite('");
    var name :- Quoted(r0);
    var r1 :- StripPrefix(name.1, "',");
    var r2 :- StripPrefix(TrimStart(r1), "'");
    var path :- Quoted(r2);
    var r3 :- StripPrefix(path.1, "',");
    var x :- IntToken(TrimStart(r3));
    var r4 :- StripPrefix(x.1, ",");
    var y :- IntToken(TrimStart(r4));
    var close :- StripPrefix(y.1, ")");
    Some((name.0, path.0, x.0, y.0))
  }

  /** `<opening>[^']+',\s*([-\d.]+),\s*([-\d.]+)\)` at the start of the line,
      for `scaleObject('` and `setScrollFactor('`: the two numbers. */
  function MatchPair(line: string, opening: string): Option<Point> {
    var r0 :- StripPrefix(line, opening);
    var target :- Quoted(r0);
    var r1 :- StripPrefix(target.1, "',");
    var a :- IntToken(TrimStart(r1));
    var r2 :- StripPrefix(a.1, ",");
    var b :- IntToken(TrimStart(r2));
    var close :- StripPrefix(b.1, ")");
    Some((a.0, b.0))
  }

  /** `setProperty\('[^']+\.alpha',\s*([-\d.]+)\)` at the start of the line. */
  function MatchAlpha(line: string): Option<int> {
    var r0 :- StripPrefix(line, "setProperty('");
    var target :- Quoted(r0);
    if |target.0| <= |".alpha"| || !EndsWith(target.0, ".alpha") then None
    else
      var r1 :- StripPrefix(target.1, "',");
      var a :- IntToken(TrimStart(r1));
      var close :- StripPrefix(a.1, ")");
      Some(a.0)
  }

  /** `addLuaSprite\('[^']+',\s*(true|false)\)` at the start of the line. */
  function MatchAdd(line: string): Option<bool> {
    var r0 :- StripPrefix(line, "addLuaSprite('");
    var target :- Quoted(r0);
    var r1 :- StripPrefix(target.1, "',");
    var r2 := TrimStart(r1);
    if StripPrefix(r2, "true)").Some? then Some(true)
    else if StripPrefix(r2, "false)").Some? then Some(false)
    else None
  }

  /** The statements a (trimmed) line may apply to the open sprite, in the
      order the source tries them. The sprite named in the statement is not
      looked at. */
  function Update(s: Sprite, line: string): Sprite {
    var scale := MatchPair(line, "scaleObject('");
    var s1 := if scale.Some? then s.(scale := scale.value) else s;
    var alpha := MatchAlpha(line);
    var s2 := if alpha.Some? then s1.(alpha := alpha.value) else s1;
    var scroll := MatchPair(line, "setScrollFactor('");
    var s3 := if scroll.Some? then s2.(scroll := scroll.value) else s2;
    var add := MatchAdd(line);
    var s4 := if add.Some? then s3.(inFront := add.value) else s3;
    if Contains(line, "antialiasing") then s4.(isPixel := false) else s4
  }

  /** The parser's state: the sprites finished so far and the open one. */
  datatype Cursor = Cursor(sprites: seq<Sprite>, current: Option<Sprite>)

  /** The finished sprites followed by the open one, if any. */
  function Flushed(c: Cursor): seq<Sprite> {
    c.sprites + (if c.current.Some? then [c.current.value] else [])
  }

  function NewSprite(m: (string, string, int, int)): Sprite {
    Sprite(m.0, m.1, (m.2, m.3), (1, 1), (1, 1), 1, false, false)
  }

  /** One line: a create statement closes the open sprite and opens a new
      one; then, if a sprite is open, the line's other statements apply to
      it. */
  function Step(c: Cursor, raw: string): Cursor {
    var line := Trim(raw);
    var created := MatchCreate(line);
    var c1 := if created.Some? then Cursor(Flushed(c), Some(NewSprite(created.value))) else c;
    if c1.current.None? then c1 else Cursor(c1.sprites, Some(Update(c1.current.value, line)))
  }

  /** The cursor after the first `n` lines, each read by `step`. */
  function Run(step: (Cursor, string) -> Cursor, c: Cursor, lines: seq<string>, n: nat): Cursor
    requires n <= |lines|
  {
    if n == 0 then c else step(Run(step, c, lines, n - 1), lines[n - 1])
  }

  /** What `parseLuaSprites` returns for a script: its lines read one by
      one with `Step`, then the open sprite flushed. */
  function ParseSpec(script: string): seq<Sprite> {
    var lines := SplitLines(script);
    Flushed(Run(Step, Cursor([], None), lines, |lines|))
  }

  /** The statements of one line applied to the open sprite, field by
      field. */
  method ApplyStatements(sprite: Sprite, line: string) returns (r: Sprite)
    ensures r == Update(sprite, line)
  {
    r := sprite;
    var scaleMatch := MatchPair(line, "scaleObject('");
    if scaleMatch.Some? {
      r := r.(scale := scaleMatch.value);
    }
    var alphaMatch := MatchAlpha(line);
    if alphaMatch.Some? {
      r := r.(alpha := alphaMatch.value);
    }
    var scrollMatch := MatchPair(line, "setScrollFactor('");
    if scrollMatch.Some? {
      r := r.(scroll := scrollMatch.value);
    }
    var addMatch := MatchAdd(line);
    if addMatch.Some? {
      r := r.(inFront := addMatch.value);
    }
    if Contains(line, "antialiasing") {
      r := r.(isPixel := false);
    }
  }

  /** One line of the script: a create statement flushes the open sprite
      and opens a new one, then the line's statements apply to the open
      sprite. */
  method ParseLine(sprites: seq<Sprite>, currentSprite: Option<Sprite>, raw: string)
    returns (sprites': seq<Sprite>, currentSprite': Option<Sprite>)
    ensures Cursor(sprites', currentSprite') == Step(Cursor(sprites, currentSprite), raw)
  {
    sprites', currentSprite' := sprites, currentSprite;
    var line := Trim(raw);
    var spriteMatch := MatchCreate(line);
    if spriteMatch.Some? {
      if currentSprite'.Some? {
        sprites' := sprites' + [currentSprite'.value];
      }
      currentSprite' := Some(NewSprite(spriteMatch.value));
    }
    if currentSprite'.Some? {
      var updated := ApplyStatements(currentSprite'.value, line);
      currentSprite' := Some(updated);
    }
  }

  method ParseLines(lines: seq<string>) returns (sprites: seq<Sprite>)
    ensures sprites == Flushed(Run(Step, Cursor([], None), lines, |lines|))
  {
    sprites := [];
    var currentSprite: Option<Sprite> := None;
    var i := 0;
    while i < |lines|
      invariant 0 <= i <= |lines|
      invariant Cursor(sprites, currentSprite) == Run(Step, Cursor([], None), lines, i)
    {
      sprites, currentSprite := ParseLine(sprites, currentSprite, lines[i]);
      i := i + 1;
    }
    if currentSprite.Some? {
      sprites := sprites + [currentSprite.value];
    }
  }

  method ParseLuaSprites(luaScript: string) returns (sprites: seq<Sprite>)
    ensures sprites == ParseSpec(luaScript)
  {
    sprites := ParseLines(SplitLines(luaScript));
  }

  // ---------------------------------------------------------------- Psych Engine to V Slice

  /** The prop made from the `index`-th parsed sprite: in front of the
      characters at zIndex 400, otherwise behind them at 10, 20, 30, ... */
  function PropOf(s: Sprite, index: nat): Prop {
    Prop(
      OrString(s.name, "prop" + NatToString(index)),
      s.assetPath,
      Some(s.position),
      Some(s.scale),
      Some(s.scroll),
      Some(s.alpha),
      if s.inFront then 400 else 10 + index * 10,
      s.isPixel,
      0,
      "sparrow",
      "")
  }

  function PropsOf(sprites: seq<Sprite>): (r: seq<Prop>)
    ensures |r| == |sprites|
    // a sprite keeps its place in the list, with its fields carried over
    ensures forall i :: 0 <= i < |r| ==>
      && r[i].assetPath == sprites[i].assetPath
      && r[i].position == Some(sprites[i].position)
      && r[i].scale == Some(sprites[i].scale)
      && r[i].scroll == Some(sprites[i].scroll)
      && r[i].alpha == Some(sprites[i].alpha)
      && r[i].isPixel == sprites[i].isPixel
    ensures forall i :: 0 <= i < |r| ==>
      r[i].name != "" && (sprites[i].name != "" ==> r[i].name == sprites[i].name)
    // in-front sprites are drawn at 400, the others stacked by their order
    ensures forall i :: 0 <= i < |r| ==>
      r[i].zIndex == if sprites[i].inFront then 400 else 10 + 10 * i
    // against the characters' fixed layer 300, only the first thirty
    // sprites behind them stay behind
    ensures forall i :: 0 <= i < |r| ==> (r[i].zIndex > 300 <==> sprites[i].inFront || i >= 30)
  {
    seq(|sprites|, i requires 0 <= i < |sprites| => PropOf(sprites[i], i))
  }

  lemma PropsOfPrefix(sprites: seq<Sprite>, i: nat)
    requires i < |sprites|
    ensures PropsOf(sprites[..i + 1]) == PropsOf(sprites[..i]) + [PropOf(sprites[i], i)]
  {
    assert sprites[..i + 1][i] == sprites[i];
  }

  lemma PropsOfWhole(sprites: seq<Sprite>)
    ensures PropsOf(sprites[..|sprites|]) == PropsOf(sprites)
  {
    assert sprites[..|sprites|] == sprites;
  }

  /** The V Slice stage for a Psych Engine stage and its script. The
      characters get fixed zIndex values 300 (bf), 250 (dad), 150 (gf). */
  function StageOf(p: PsychStage, luaScript: string, stageName: string, stageDirectory: string): VSliceStage {
    VSliceStage(
      "1.0.0",
      OrString(stageName, "CustomStage"),
      OrString(stageDirectory, "custom"),
      Chart.OrReal(p.defaultZoom, 0.9),
      Some(if luaScript != "" then PropsOf(ParseSpec(luaScript)) else []),
      Some(StageCharacter(300, Some(PointOr(p.boyfriend, (770, 100))), Some(PointOr(p.cameraBoyfriend, (0, 0))))),
      Some(StageCharacter(250, Some(PointOr(p.opponent, (100, 100))), Some(PointOr(p.cameraOpponent, (0, 0))))),
      Some(StageCharacter(150, Some(PointOr(p.girlfriend, (400, 130))), Some(PointOr(p.cameraGirlfriend, (0, 0))))))
  }

  /** `psychStageToVSlice`: the parsed sprites pushed one by one as props. */
  method PsychStageToVSlice(p: PsychStage, luaScript: string, stageName: string, stageDirectory: string)
    returns (r: VSliceStage)
    ensures r == StageOf(p, luaScript, stageName, stageDirectory)
  {
    var props: seq<Prop> := [];
    if luaScript != "" {
      var sprites := ParseLuaSprites(luaScript);
      var i := 0;
      while i < |sprites|
        invariant 0 <= i <= |sprites|
        invariant props == PropsOf(sprites[..i])
      {
        PropsOfPrefix(sprites, i);
        props := props + [PropOf(sprites[i], i)];
        i := i + 1;
      }
      PropsOfWhole(sprites);
    }
    r := VSliceStage(
      "1.0.0",
      OrString(stageName, "CustomStage"),
      OrString(stageDirectory, "custom"),
      Chart.OrReal(p.defaultZoom, 0.9),
      Some(props),
      Some(StageCharacter(300, Some(PointOr(p.boyfriend, (770, 100))), Some(PointOr(p.cameraBoyfriend, (0, 0))))),
      Some(StageCharacter(250, Some(PointOr(p.opponent, (100, 100))), Some(PointOr(p.cameraOpponent, (0, 0))))),
      Some(StageCharacter(150, Some(PointOr(p.girlfriend, (400, 130))), Some(PointOr(p.cameraGirlfriend, (0, 0))))));
  }
}
