/** Properties of the stage converter: what the statement recognisers read
    back from the statements the generator writes, what the parser does with
    lines it does not know, and the round trip from props to script to
    sprites. */
module StageProperties {
  import opened Wrappers
  import opened Text
  import opened Seqs
  import opened Stage

  /** A name or path the script can carry: non-empty, and without a quote
      (which would end the quoted argument) or a line feed (which would end
      the line). */
  predicate Plain(s: string) {
    s != [] && '\'' !in s && '\n' !in s
  }

  // ---------------------------------------------------------------- reading one statement

  /** `\s*` in front of a token that does not start with white space takes
      exactly the one space the generator writes. */
  lemma OneSpace(t: string)
    requires t != [] && !IsSpace(t[0])
    ensures TrimStart(" " + t) == t
  {
    SpaceEndAt(" " + t, 0, 1);
    assert (" " + t)[1..] == t;
  }

  /** `'<name>',` followed by one space and `rest` reads back `name`. */
  lemma ReadQuoted(name: string, rest: string)
    requires Plain(name) && rest != [] && !IsSpace(rest[0])
    ensures Quoted(name + ("'," + (" " + rest))) == Some((name, "'," + (" " + rest)))
    ensures StripPrefix("'," + (" " + rest), "',") == Some(" " + rest)
    ensures TrimStart(" " + rest) == rest
  {
    QuotedOf(name, "'," + (" " + rest));
    StripPrefixOf("',", " " + rest);
    OneSpace(rest);
  }

  /** A rendered number followed by `, ` and more reads back the number. */
  lemma ReadNumberThenMore(x: int, rest: string)
    requires rest != [] && !IsSpace(rest[0])
    ensures IntToken(IntToString(x) + ("," + (" " + rest))) == Some((x, "," + (" " + rest)))
    ensures StripPrefix("," + (" " + rest), ",") == Some(" " + rest)
    ensures TrimStart(" " + rest) == rest
  {
    IntTokenOfString(x, "," + (" " + rest));
    StripPrefixOf(",", " " + rest);
    OneSpace(rest);
  }

  /** A rendered number closing a call reads back the number. */
  lemma ReadLastNumber(x: int)
    ensures IntToken(IntToString(x) + ")") == Some((x, ")"))
    ensures StripPrefix(")", ")") == Some("")
  {
    IntTokenOfString(x, ")");
    StripPrefixOf(")", "");
    assert ")" + "" == ")";
  }

  /** The create statement reads back its name, asset path and position. */
  lemma ReadCreate(name: string, path: string, x: int, y: int)
    requires Plain(name) && Plain(path)
    ensures MatchCreate(CreateCall(name, path, x, y)) == Some((name, path, x, y))
  {
    var tail := IntToString(y) + ")";
    var afterX := IntToString(x) + ("," + (" " + tail));
    var afterPath := path + ("'," + (" " + afterX));
    var afterName := name + ("'," + (" " + ("'" + afterPath)));
    StripPrefixOf("makeLuaSprite('", afterName);
    ReadQuoted(name, "'" + afterPath);
    StripPrefixOf("'", afterPath);
    ReadQuoted(path, afterX);
    ReadNumberThenMore(x, tail);
    ReadLastNumber(y);
  }

  /** A scale or scroll statement reads back its pair, whatever the name. */
  lemma ReadPair(opening: string, name: string, v: Point)
    requires opening != [] && Plain(name)
    ensures MatchPair(PairCall(opening, name, v), opening) == Some(v)
  {
    var tail := IntToString(v.1) + ")";
    var afterA := IntToString(v.0) + ("," + (" " + tail));
    StripPrefixOf(opening, name + ("'," + (" " + afterA)));
    ReadQuoted(name, afterA);
    ReadNumberThenMore(v.0, tail);
    ReadLastNumber(v.1);
  }

  lemma EndsWithAlpha(name: string)
    ensures EndsWith(name + ".alpha", ".alpha")
    ensures |name + ".alpha"| - |".alpha"| == |name|
  {
    assert (name + ".alpha")[|name|..] == ".alpha";
  }

  /** The alpha statement reads back its value. */
  lemma ReadAlpha(name: string, a: int)
    requires Plain(name)
    ensures MatchAlpha(AlphaCall(name, a)) == Some(a)
  {
    var tail := IntToString(a) + ")";
    var target := name + ".alpha";
    assert '\'' !in target by {
      assert forall k :: 0 <= k < |target| ==> target[k] == if k < |name| then name[k] else ".alpha"[k - |name|];
    }
    assert "setProperty('" + (target + ("'," + (" " + tail))) == AlphaCall(name, a);
    StripPrefixOf("setProperty('", target + ("'," + (" " + tail)));
    QuotedOf(target, "'," + (" " + tail));
    EndsWithAlpha(name);
    StripPrefixOf("',", " " + tail);
    OneSpace(tail);
    ReadLastNumber(a);
  }

  /** The add statement reads back its front flag. */
  lemma ReadAdd(name: string, inFront: bool)
    requires Plain(name)
    ensures MatchAdd(AddCall(name, inFront)) == Some(inFront)
  {
    var flag := (if inFront then "true" else "false") + ")";
    StripPrefixOf("addLuaSprite('", name + ("'," + (" " + flag)));
    ReadQuoted(name, flag);
    ReadFlag(inFront);
  }

  lemma ReadFlag(inFront: bool)
    ensures var flag := (if inFront then "true" else "false") + ")";
      && (StripPrefix(flag, "true)").Some? <==> inFront)
      && StripPrefix(flag, if inFront then "true)" else "false)").Some?
  {
    StripPrefixOf("true)", "");
    StripPrefixOf("false)", "");
    if !inFront {
      StripPrefixMismatch("false)", "true)", 0);
    }
  }

  // ---------------------------------------------------------------- statements the recognisers skip

  lemma ContainsShort(s: string, sub: string)
    requires |s| < |sub|
    ensures !Contains(s, sub)
    decreases |s|
  {
    if s != [] {
      ContainsShort(s[1..], sub);
    }
  }

  /** The antialiasing statement is recognised by no pattern; only its
      mention of `antialiasing` clears the pixel flag. */
  lemma SkipAntialiasing(name: string)
    requires Plain(name)
    ensures var line := AntialiasingCall(name);
      && MatchCreate(line).None? && MatchPair(line, "scaleObject('").None?
      && MatchAlpha(line).None? && MatchPair(line, "setScrollFactor('").None?
      && MatchAdd(line).None?
  {
    var line := AntialiasingCall(name);
    var target := name + ".antialiasing";
    var rest := "'," + (" " + (ClientAntialiasing + ")"));
    assert line == "setProperty('" + (target + rest);
    StripPrefixMismatch(line, "makeLuaSprite('", 0);
    StripPrefixMismatch(line, "scaleObject('", 1);
    StripPrefixMismatch(line, "setScrollFactor('", 3);
    StripPrefixMismatch(line, "addLuaSprite('", 0);
    assert '\'' !in target by {
      assert forall k :: 0 <= k < |target| ==> target[k] == if k < |name| then name[k] else ".antialiasing"[k - |name|];
    }
    StripPrefixOf("setProperty('", target + rest);
    QuotedOf(target, rest);
    assert target[|target| - 1] == 'g';
  }

  lemma SkipCreate(name: string, path: string, x: int, y: int)
    ensures var line := CreateCall(name, path, x, y);
      && MatchPair(line, "scaleObject('").None? && MatchAlpha(line).None?
      && MatchPair(line, "setScrollFactor('").None? && MatchAdd(line).None?
  {
    var line := CreateCall(name, path, x, y);
    StripPrefixMismatch(line, "scaleObject('", 0);
    StripPrefixMismatch(line, "setProperty('", 0);
    StripPrefixMismatch(line, "setScrollFactor('", 0);
    StripPrefixMismatch(line, "addLuaSprite('", 0);
  }

  lemma SkipScale(name: string, v: Point)
    ensures var line := PairCall("scaleObject('", name, v);
      && MatchCreate(line).None? && MatchAlpha(line).None?
      && MatchPair(line, "setScrollFactor('").None? && MatchAdd(line).None?
  {
    var line := PairCall("scaleObject('", name, v);
    StripPrefixMismatch(line, "makeLuaSprite('", 0);
    StripPrefixMismatch(line, "setProperty('", 1);
    StripPrefixMismatch(line, "setScrollFactor('", 1);
    StripPrefixMismatch(line, "addLuaSprite('", 0);
  }

  lemma SkipAlpha(name: string, a: int)
    ensures var line := AlphaCall(name, a);
      && MatchCreate(line).None? && MatchPair(line, "scaleObject('").None?
      && MatchPair(line, "setScrollFactor('").None? && MatchAdd(line).None?
  {
    var line := AlphaCall(name, a);
    StripPrefixMismatch(line, "makeLuaSprite('", 0);
    StripPrefixMismatch(line, "scaleObject('", 1);
    StripPrefixMismatch(line, "setScrollFactor('", 3);
    StripPrefixMismatch(line, "addLuaSprite('", 0);
  }

  lemma SkipScroll(name: string, v: Point)
    ensures var line := PairCall("setScrollFactor('", name, v);
      && MatchCreate(line).None? && MatchPair(line, "scaleObject('").None?
      && MatchAlpha(line).None? && MatchAdd(line).None?
  {
    var line := PairCall("setScrollFactor('", name, v);
    StripPrefixMismatch(line, "makeLuaSprite('", 0);
    StripPrefixMismatch(line, "scaleObject('", 1);
    StripPrefixMismatch(line, "setProperty('", 3);
    StripPrefixMismatch(line, "addLuaSprite('", 0);
  }

  lemma SkipAdd(name: string, inFront: bool)
    ensures var line := AddCall(name, inFront);
      && MatchCreate(line).None? && MatchPair(line, "scaleObject('").None?
      && MatchAlpha(line).None? && MatchPair(line, "setScrollFactor('").None?
  {
    var line := AddCall(name, inFront);
    StripPrefixMismatch(line, "makeLuaSprite('", 0);
    StripPrefixMismatch(line, "scaleObject('", 0);
    StripPrefixMismatch(line, "setProperty('", 0);
    StripPrefixMismatch(line, "setScrollFactor('", 0);
  }

  // ---------------------------------------------------------------- the parser over many lines

  /** The cursor after all the lines `ls`, each read by `step`. */
  function Read(step: (Cursor, string) -> Cursor, c: Cursor, ls: seq<string>): Cursor {
    Run(step, c, ls, |ls|)
  }

  lemma {:induction false} RunPrefix(step: (Cursor, string) -> Cursor, c: Cursor, a: seq<string>, b: seq<string>, k: nat)
    requires k <= |a|
    ensures Run(step, c, a + b, k) == Run(step, c, a, k)
  {
    if k > 0 {
      RunPrefix(step, c, a, b, k - 1);
      assert (a + b)[k - 1] == a[k - 1];
    }
  }

  lemma {:induction false} RunSuffix(step: (Cursor, string) -> Cursor, c: Cursor, a: seq<string>, b: seq<string>, m: nat)
    requires m <= |b|
    ensures Run(step, c, a + b, |a| + m) == Run(step, Read(step, c, a), b, m)
  {
    if m == 0 {
      RunPrefix(step, c, a, b, |a|);
    } else {
      RunSuffix(step, c, a, b, m - 1);
      assert (a + b)[|a| + m - 1] == b[m - 1];
    }
  }

  /** Reading two pieces of a script one after the other is reading the
      whole. */
  lemma ReadAppend(step: (Cursor, string) -> Cursor, c: Cursor, a: seq<string>, b: seq<string>)
    ensures Read(step, c, a + b) == Read(step, Read(step, c, a), b)
  {
    RunSuffix(step, c, a, b, |b|);
  }

  lemma ReadOne(step: (Cursor, string) -> Cursor, c: Cursor, line: string)
    ensures Read(step, c, [line]) == step(c, line)
  {
    assert [line][0] == line;
    assert Run(step, c, [line], 0) == c;
  }

  /** A line whose trimmed text matches no pattern and does not mention
      `antialiasing`. */
  predicate Unrecognised(line: string) {
    var t := Trim(line);
    && MatchCreate(t).None? && MatchPair(t, "scaleObject('").None? && MatchAlpha(t).None?
    && MatchPair(t, "setScrollFactor('").None? && MatchAdd(t).None? && !Contains(t, "antialiasing")
  }

  /** An unrecognised line changes nothing. */
  lemma UnrecognisedLine(c: Cursor, line: string)
    requires Unrecognised(line)
    ensures Step(c, line) == c
  {
  }

  /** Whether the trimmed line is a create statement. */
  predicate IsCreate(line: string) {
    MatchCreate(Trim(line)).Some?
  }

  /** The number of create statements among the first `n` lines. */
  function CountCreates(ls: seq<string>, n: nat): nat
    requires n <= |ls|
  {
    if n == 0 then 0 else CountCreates(ls, n - 1) + (if IsCreate(ls[n - 1]) then 1 else 0)
  }

  /** Lines before the first create statement have no effect: without a
      create statement the parser stays where it started. */
  lemma {:induction false} NoCreateNoSprite(ls: seq<string>, n: nat)
    requires n <= |ls|
    requires forall k :: 0 <= k < n ==> !IsCreate(ls[k])
    ensures Run(Step, Cursor([], None), ls, n) == Cursor([], None)
  {
    if n > 0 {
      NoCreateNoSprite(ls, n - 1);
      assert !IsCreate(ls[n - 1]);
    }
  }

  /** One line adds a sprite exactly when it is a create statement. */
  lemma StepCount(c: Cursor, line: string)
    ensures |Flushed(Step(c, line))| == |Flushed(c)| + (if IsCreate(line) then 1 else 0)
  {
  }

  lemma {:induction false} RunCount(c: Cursor, ls: seq<string>, n: nat)
    requires n <= |ls|
    ensures |Flushed(Run(Step, c, ls, n))| == |Flushed(c)| + CountCreates(ls, n)
  {
    if n > 0 {
      RunCount(c, ls, n - 1);
      StepCount(Run(Step, c, ls, n - 1), ls[n - 1]);
    }
  }

  /** The parser returns one sprite per create statement, and none for
      empty input. */
  lemma SpritePerCreate(script: string)
    ensures |ParseSpec(script)| == CountCreates(SplitLines(script), |SplitLines(script)|)
    ensures ParseSpec("") == []
  {
    RunCount(Cursor([], None), SplitLines(script), |SplitLines(script)|);
    var empty := SplitLines("");
    RunCount(Cursor([], None), empty, |empty|);
    assert empty == [""];
    assert !IsCreate("");
  }

  predicate NoPixel(c: Cursor) {
    && (forall k :: 0 <= k < |c.sprites| ==> !c.sprites[k].isPixel)
    && (c.current.Some? ==> !c.current.value.isPixel)
  }

  lemma UpdateNoPixel(s: Sprite, line: string)
    requires !s.isPixel
    ensures !Update(s, line).isPixel
  {
  }

  lemma StepNoPixel(c: Cursor, line: string)
    requires NoPixel(c)
    ensures NoPixel(Step(c, line))
  {
    var t := Trim(line);
    var created := MatchCreate(t);
    if created.Some? {
      var f := Flushed(c);
      forall k | 0 <= k < |f| ensures !f[k].isPixel {
        if k < |c.sprites| {
          assert f[k] == c.sprites[k];
        }
      }
      UpdateNoPixel(NewSprite(created.value), t);
    } else if c.current.Some? {
      UpdateNoPixel(c.current.value, t);
    }
  }

  lemma {:induction false} RunNoPixel(c: Cursor, ls: seq<string>, n: nat)
    requires n <= |ls|
    requires NoPixel(c)
    ensures NoPixel(Run(Step, c, ls, n))
  {
    if n > 0 {
      RunNoPixel(c, ls, n - 1);
      StepNoPixel(Run(Step, c, ls, n - 1), ls[n - 1]);
    }
  }

  /** No parsed sprite is pixel art: the parser only ever clears the flag. */
  lemma ParsedNeverPixel(script: string)
    ensures forall k :: 0 <= k < |ParseSpec(script)| ==> !ParseSpec(script)[k].isPixel
  {
    RunNoPixel(Cursor([], None), SplitLines(script), |SplitLines(script)|);
  }

  // ---------------------------------------------------------------- each kind of generated line

  /** A blank line changes nothing. */
  ghost predicate SkipsBlank(step: (Cursor, string) -> Cursor) {
    forall c :: step(c, "") == c
  }

  /** A create statement flushes the open sprite and opens one with the
      statement's name, path and position and every other field at its
      default. */
  ghost predicate OpensOnCreate(step: (Cursor, string) -> Cursor) {
    forall c, name, path, x, y | Plain(name) && Plain(path) ::
      step(c, Indent(CreateCall(name, path, x, y)))
      == Cursor(Flushed(c), Some(Sprite(name, path, (x, y), (1, 1), (1, 1), 1, false, false)))
  }

  /** The antialiasing statement leaves a sprite that is not pixel art as
      it is. */
  ghost predicate KeepsOnAntialiasing(step: (Cursor, string) -> Cursor) {
    forall done, cur: Sprite, name | Plain(name) && !cur.isPixel ::
      step(Cursor(done, Some(cur)), Indent(AntialiasingCall(name))) == Cursor(done, Some(cur))
  }

  /** The scale statement sets the open sprite's scale, whatever name it
      mentions. */
  ghost predicate SetsScale(step: (Cursor, string) -> Cursor) {
    forall done, cur: Sprite, name, v | Plain(name) && !cur.isPixel ::
      step(Cursor(done, Some(cur)), Indent(PairCall("scaleObject('", name, v)))
      == Cursor(done, Some(cur.(scale := v)))
  }

  ghost predicate SetsAlpha(step: (Cursor, string) -> Cursor) {
    forall done, cur: Sprite, name, a | Plain(name) && !cur.isPixel ::
      step(Cursor(done, Some(cur)), Indent(AlphaCall(name, a))) == Cursor(done, Some(cur.(alpha := a)))
  }

  ghost predicate SetsScroll(step: (Cursor, string) -> Cursor) {
    forall done, cur: Sprite, name, v | Plain(name) && !cur.isPixel ::
      step(Cursor(done, Some(cur)), Indent(PairCall("setScrollFactor('", name, v)))
      == Cursor(done, Some(cur.(scroll := v)))
  }

  ghost predicate SetsFront(step: (Cursor, string) -> Cursor) {
    forall done, cur: Sprite, name, inFront | Plain(name) && !cur.isPixel ::
      step(Cursor(done, Some(cur)), Indent(AddCall(name, inFront))) == Cursor(done, Some(cur.(inFront := inFront)))
  }

  ghost predicate ReadsStatements(step: (Cursor, string) -> Cursor) {
    && SkipsBlank(step) && OpensOnCreate(step) && KeepsOnAntialiasing(step) && SetsScale(step)
    && SetsAlpha(step) && SetsScroll(step) && SetsFront(step)
  }

  lemma BlankLine()
    ensures SkipsBlank(Step)
  {
    forall c: Cursor ensures Step(c, "") == c {
      assert Trim("") == "";
      ContainsShort("", "antialiasing");
    }
  }

  lemma CreateLineAt(c: Cursor, name: string, path: string, x: int, y: int)
    requires Plain(name) && Plain(path)
    ensures Step(c, Indent(CreateCall(name, path, x, y)))
         == Cursor(Flushed(c), Some(Sprite(name, path, (x, y), (1, 1), (1, 1), 1, false, false)))
  {
    TrimIndented(CreateCall(name, path, x, y));
    ReadCreate(name, path, x, y);
    SkipCreate(name, path, x, y);
  }

  lemma CreateLineAll()
    ensures forall c, name, path, x, y | Plain(name) && Plain(path) ::
      Step(c, Indent(CreateCall(name, path, x, y)))
      == Cursor(Flushed(c), Some(Sprite(name, path, (x, y), (1, 1), (1, 1), 1, false, false)))
  {
    forall c, name, path, x, y | Plain(name) && Plain(path)
      ensures Step(c, Indent(CreateCall(name, path, x, y)))
           == Cursor(Flushed(c), Some(Sprite(name, path, (x, y), (1, 1), (1, 1), 1, false, false)))
    {
      CreateLineAt(c, name, path, x, y);
    }
  }

  lemma CreateLine()
    ensures OpensOnCreate(Step)
  {
    CreateLineAll();
  }

  lemma AntialiasingLine()
    ensures KeepsOnAntialiasing(Step)
  {
    forall done, cur: Sprite, name | Plain(name) && !cur.isPixel
      ensures Step(Cursor(done, Some(cur)), Indent(AntialiasingCall(name))) == Cursor(done, Some(cur))
    {
      TrimIndented(AntialiasingCall(name));
      SkipAntialiasing(name);
    }
  }

  lemma ScaleLine()
    ensures SetsScale(Step)
  {
    forall done, cur: Sprite, name, v | Plain(name) && !cur.isPixel
      ensures Step(Cursor(done, Some(cur)), Indent(PairCall("scaleObject('", name, v)))
           == Cursor(done, Some(cur.(scale := v)))
    {
      TrimIndented(PairCall("scaleObject('", name, v));
      ReadPair("scaleObject('", name, v);
      SkipScale(name, v);
    }
  }

  lemma AlphaLine()
    ensures SetsAlpha(Step)
  {
    forall done, cur: Sprite, name, a | Plain(name) && !cur.isPixel
      ensures Step(Cursor(done, Some(cur)), Indent(AlphaCall(name, a))) == Cursor(done, Some(cur.(alpha := a)))
    {
      TrimIndented(AlphaCall(name, a));
      ReadAlpha(name, a);
      SkipAlpha(name, a);
    }
  }

  lemma ScrollLine()
    ensures SetsScroll(Step)
  {
    forall done, cur: Sprite, name, v | Plain(name) && !cur.isPixel
      ensures Step(Cursor(done, Some(cur)), Indent(PairCall("setScrollFactor('", name, v)))
           == Cursor(done, Some(cur.(scroll := v)))
    {
      TrimIndented(PairCall("setScrollFactor('", name, v));
      ReadPair("setScrollFactor('", name, v);
      SkipScroll(name, v);
    }
  }

  lemma AddLine()
    ensures SetsFront(Step)
  {
    forall done, cur: Sprite, name, inFront | Plain(name) && !cur.isPixel
      ensures Step(Cursor(done, Some(cur)), Indent(AddCall(name, inFront))) == Cursor(done, Some(cur.(inFront := inFront)))
    {
      TrimIndented(AddCall(name, inFront));
      ReadAdd(name, inFront);
      SkipAdd(name, inFront);
    }
  }

  /** The parser's line step reads every kind of line the generator
      writes as intended. */
  lemma StepReadsStatements()
    ensures ReadsStatements(Step)
  {
    BlankLine();
    CreateLine();
    AntialiasingLine();
    ScaleLine();
    AlphaLine();
    ScrollLine();
    AddLine();
  }

  // ---------------------------------------------------------------- one prop block

  /** The sprite the parser should read back for the prop at `index` of the
      sorted list. */
  function Expected(p: Prop, index: nat, directory: string, threshold: int): Sprite {
    Sprite(
      SpriteName(p, index),
      AssetPath(p, index, directory),
      PointOr(p.position, (0, 0)),
      PointOr(p.scale, (1, 1)),
      PointOr(p.scroll, (1, 1)),
      AlphaOf(p),
      false,
      p.zIndex > threshold)
  }

  /** A prop the script can carry: its name and asset path as written are
      plain. */
  predicate Readable(p: Prop, index: nat, directory: string) {
    Plain(SpriteName(p, index)) && Plain(AssetPath(p, index, directory))
  }

  /** An optional statement: its line is written exactly when `present`. */
  lemma ReadOptional(step: (Cursor, string) -> Cursor, c: Cursor, present: bool, line: string, after: Cursor)
    requires present ==> step(c, line) == after
    requires !present ==> after == c
    ensures Read(step, c, if present then [line] else []) == after
  {
    if present {
      ReadOne(step, c, line);
    }
  }

  lemma ReadChain(step: (Cursor, string) -> Cursor, c: Cursor, a: seq<string>, b: seq<string>, d: seq<string>, e: seq<string>, f: seq<string>, g: seq<string>,
                  c1: Cursor, c2: Cursor, c3: Cursor, c4: Cursor, c5: Cursor, c6: Cursor)
    requires Read(step, c, a) == c1 && Read(step, c1, b) == c2 && Read(step, c2, d) == c3
    requires Read(step, c3, e) == c4 && Read(step, c4, f) == c5 && Read(step, c5, g) == c6
    ensures Read(step, c, a + b + d + e + f + g) == c6
  {
    ReadAppend(step, c, a + b + d + e + f, g);
    ReadAppend(step, c, a + b + d + e, f);
    ReadAppend(step, c, a + b + d, e);
    ReadAppend(step, c, a + b, d);
    ReadAppend(step, c, a, b);
  }

  lemma AntialiasingRead(step: (Cursor, string) -> Cursor, done: seq<Sprite>, cur: Sprite, name: string, present: bool)
    requires KeepsOnAntialiasing(step) && Plain(name) && !cur.isPixel
    ensures Read(step, Cursor(done, Some(cur)), if present then [Indent(AntialiasingCall(name))] else []) == Cursor(done, Some(cur))
  {
    ReadOptional(step, Cursor(done, Some(cur)), present, Indent(AntialiasingCall(name)), Cursor(done, Some(cur)));
  }

  lemma ScaleRead(step: (Cursor, string) -> Cursor, done: seq<Sprite>, cur: Sprite, name: string, v: Point)
    requires SetsScale(step) && Plain(name) && !cur.isPixel && cur.scale == (1, 1)
    ensures Read(step, Cursor(done, Some(cur)), if v != (1, 1) then [Indent(PairCall("scaleObject('", name, v))] else []) == Cursor(done, Some(cur.(scale := v)))
  {
    ReadOptional(step, Cursor(done, Some(cur)), v != (1, 1), Indent(PairCall("scaleObject('", name, v)), Cursor(done, Some(cur.(scale := v))));
  }

  lemma AlphaRead(step: (Cursor, string) -> Cursor, done: seq<Sprite>, cur: Sprite, name: string, a: int)
    requires SetsAlpha(step) && Plain(name) && !cur.isPixel && cur.alpha == 1
    ensures Read(step, Cursor(done, Some(cur)), if a != 1 then [Indent(AlphaCall(name, a))] else []) == Cursor(done, Some(cur.(alpha := a)))
  {
    ReadOptional(step, Cursor(done, Some(cur)), a != 1, Indent(AlphaCall(name, a)), Cursor(done, Some(cur.(alpha := a))));
  }

  lemma ScrollRead(step: (Cursor, string) -> Cursor, done: seq<Sprite>, cur: Sprite, name: string, v: Point)
    requires SetsScroll(step) && Plain(name) && !cur.isPixel && cur.scroll == (1, 1)
    ensures Read(step, Cursor(done, Some(cur)), if v != (1, 1) then [Indent(PairCall("setScrollFactor('", name, v))] else []) == Cursor(done, Some(cur.(scroll := v)))
  {
    ReadOptional(step, Cursor(done, Some(cur)), v != (1, 1), Indent(PairCall("setScrollFactor('", name, v)), Cursor(done, Some(cur.(scroll := v))));
  }

  lemma AddRead(step: (Cursor, string) -> Cursor, done: seq<Sprite>, cur: Sprite, name: string, inFront: bool)
    requires SetsFront(step) && Plain(name) && !cur.isPixel
    ensures Read(step, Cursor(done, Some(cur)), [Indent(AddCall(name, inFront))]) == Cursor(done, Some(cur.(inFront := inFront)))
  {
    ReadOne(step, Cursor(done, Some(cur)), Indent(AddCall(name, inFront)));
  }

  /** The first two lines of a block: the blank line, then the create
      statement, which flushes the open sprite. */
  lemma BlockHead(step: (Cursor, string) -> Cursor, c: Cursor, name: string, path: string, x: int, y: int)
    requires SkipsBlank(step) && OpensOnCreate(step) && Plain(name) && Plain(path)
    ensures Read(step, c, ["", Indent(CreateCall(name, path, x, y))])
         == Cursor(Flushed(c), Some(Sprite(name, path, (x, y), (1, 1), (1, 1), 1, false, false)))
  {
    var ls := ["", Indent(CreateCall(name, path, x, y))];
    assert ls[0] == "" && ls[1] == Indent(CreateCall(name, path, x, y));
    assert Run(step, c, ls, 1) == c;
  }

  /** The lines of a block, for given values of the fields it writes. */
  lemma BlockLinesRead(step: (Cursor, string) -> Cursor, c: Cursor, name: string, path: string, pos: Point,
                       scale: Point, alpha: int, scroll: Point, isPixel: bool, inFront: bool)
    requires ReadsStatements(step) && Plain(name) && Plain(path)
    ensures Read(step, c,
              ["", Indent(CreateCall(name, path, pos.0, pos.1))]
              + (if !isPixel then [Indent(AntialiasingCall(name))] else [])
              + (if scale != (1, 1) then [Indent(PairCall("scaleObject('", name, scale))] else [])
              + (if alpha != 1 then [Indent(AlphaCall(name, alpha))] else [])
              + (if scroll != (1, 1) then [Indent(PairCall("setScrollFactor('", name, scroll))] else [])
              + [Indent(AddCall(name, inFront))])
         == Cursor(Flushed(c), Some(Sprite(name, path, pos, scale, scroll, alpha, false, inFront)))
  {
    var done := Flushed(c);
    var s0 := Sprite(name, path, pos, (1, 1), (1, 1), 1, false, false);
    var s1 := s0.(scale := scale);
    var s2 := s1.(alpha := alpha);
    var s3 := s2.(scroll := scroll);
    BlockHead(step, c, name, path, pos.0, pos.1);
    AntialiasingRead(step, done, s0, name, !isPixel);
    ScaleRead(step, done, s0, name, scale);
    AlphaRead(step, done, s1, name, alpha);
    ScrollRead(step, done, s2, name, scroll);
    AddRead(step, done, s3, name, inFront);
    ReadChain(step, c, ["", Indent(CreateCall(name, path, pos.0, pos.1))],
      if !isPixel then [Indent(AntialiasingCall(name))] else [],
      if scale != (1, 1) then [Indent(PairCall("scaleObject('", name, scale))] else [],
      if alpha != 1 then [Indent(AlphaCall(name, alpha))] else [],
      if scroll != (1, 1) then [Indent(PairCall("setScrollFactor('", name, scroll))] else [],
      [Indent(AddCall(name, inFront))],
      Cursor(done, Some(s0)), Cursor(done, Some(s0)), Cursor(done, Some(s1)),
      Cursor(done, Some(s2)), Cursor(done, Some(s3)), Cursor(done, Some(s3.(inFront := inFront))));
  }

  /** Reading a whole block flushes the open sprite and leaves the prop's
      sprite open with every field the block states. */
  lemma BlockRead(step: (Cursor, string) -> Cursor, c: Cursor, p: Prop, index: nat, directory: string, threshold: int)
    requires ReadsStatements(step) && Readable(p, index, directory)
    ensures Read(step, c, PropLines(p, index, directory, threshold))
         == Cursor(Flushed(c), Some(Expected(p, index, directory, threshold)))
  {
    BlockLinesRead(step, c, SpriteName(p, index), AssetPath(p, index, directory), PointOr(p.position, (0, 0)),
      PointOr(p.scale, (1, 1)), AlphaOf(p), PointOr(p.scroll, (1, 1)), p.isPixel, p.zIndex > threshold);
  }

  // ---------------------------------------------------------------- the whole script

  /** The sprites expected for the sorted props, in order. */
  function ExpectedAll(sorted: seq<Prop>, directory: string, threshold: int): (r: seq<Sprite>)
    ensures |r| == |sorted|
  {
    seq(|sorted|, i requires 0 <= i < |sorted| => Expected(sorted[i], i, directory, threshold))
  }

  /** The parser's state once the sprites `es` have been read: all but the
      last finished, the last one open. */
  function Opened(es: seq<Sprite>): Cursor {
    if es == [] then Cursor([], None) else Cursor(es[..|es| - 1], Some(es[|es| - 1]))
  }

  predicate AllReadable(sorted: seq<Prop>, directory: string) {
    forall i :: 0 <= i < |sorted| ==> Readable(sorted[i], i, directory)
  }

  lemma ReadableInit(sorted: seq<Prop>, directory: string)
    requires sorted != [] && AllReadable(sorted, directory)
    ensures AllReadable(sorted[..|sorted| - 1], directory)
  {
    var init := sorted[..|sorted| - 1];
    forall i | 0 <= i < |init| ensures Readable(init[i], i, directory) {
      assert init[i] == sorted[i];
    }
  }

  lemma FlushedOpened(es: seq<Sprite>)
    ensures Flushed(Opened(es)) == es
  {
  }

  lemma OpenedLast(sorted: seq<Prop>, directory: string, threshold: int)
    requires sorted != []
    ensures var last := |sorted| - 1;
      && Opened(ExpectedAll(sorted, directory, threshold))
         == Cursor(ExpectedAll(sorted[..last], directory, threshold), Some(Expected(sorted[last], last, directory, threshold)))
      && Flushed(Opened(ExpectedAll(sorted[..last], directory, threshold))) == ExpectedAll(sorted[..last], directory, threshold)
  {
    var last := |sorted| - 1;
    var es := ExpectedAll(sorted, directory, threshold);
    assert es[..last] == ExpectedAll(sorted[..last], directory, threshold);
    FlushedOpened(ExpectedAll(sorted[..last], directory, threshold));
  }

  lemma {:induction false} BlocksRead(step: (Cursor, string) -> Cursor, sorted: seq<Prop>, directory: string, threshold: int)
    requires ReadsStatements(step) && AllReadable(sorted, directory)
    ensures Read(step, Cursor([], None), Blocks(sorted, directory, threshold)) == Opened(ExpectedAll(sorted, directory, threshold))
  {
    if sorted != [] {
      var last := |sorted| - 1;
      var init := sorted[..last];
      ReadableInit(sorted, directory);
      BlocksRead(step, init, directory, threshold);
      ReadAppend(step, Cursor([], None), Blocks(init, directory, threshold), PropLines(sorted[last], last, directory, threshold));
      BlockRead(step, Opened(ExpectedAll(init, directory, threshold)), sorted[last], last, directory, threshold);
      OpenedLast(sorted, directory, threshold);
    }
  }

  /** The whole script, for a line reader that skips its first and last
      lines. */
  lemma ScriptRead(step: (Cursor, string) -> Cursor, sorted: seq<Prop>, directory: string, threshold: int)
    requires ReadsStatements(step) && AllReadable(sorted, directory)
    requires step(Cursor([], None), "function onCreate()") == Cursor([], None)
    requires forall c :: step(c, "end") == c
    ensures Read(step, Cursor([], None), ["function onCreate()"] + Blocks(sorted, directory, threshold) + ["end", ""])
         == Opened(ExpectedAll(sorted, directory, threshold))
  {
    var c0 := Cursor([], None);
    var body := Blocks(sorted, directory, threshold);
    ReadAppend(step, c0, ["function onCreate()"] + body, ["end", ""]);
    ReadAppend(step, c0, ["function onCreate()"], body);
    ReadOne(step, c0, "function onCreate()");
    BlocksRead(step, sorted, directory, threshold);
    var tail := ["end", ""];
    assert tail[0] == "end" && tail[1] == "";
    var c := Opened(ExpectedAll(sorted, directory, threshold));
    assert Run(step, c, tail, 1) == c;
  }

  /** Lines none of which holds a line feed. */
  predicate SingleLines(ls: seq<string>) {
    forall k :: 0 <= k < |ls| ==> '\n' !in ls[k]
  }

  lemma SingleLinesAppend(a: seq<string>, b: seq<string>)
    requires SingleLines(a) && SingleLines(b)
    ensures SingleLines(a + b)
  {
    forall k | 0 <= k < |a + b| ensures '\n' !in (a + b)[k] {
      if k < |a| {
        assert (a + b)[k] == a[k];
      } else {
        assert (a + b)[k] == b[k - |a|];
      }
    }
  }

  lemma CreateSingle(name: string, path: string, x: int, y: int)
    requires Plain(name) && Plain(path)
    ensures SingleLines(["", Indent(CreateCall(name, path, x, y))])
  {
    var ls := ["", Indent(CreateCall(name, path, x, y))];
    IntToStringOneLine(x);
    IntToStringOneLine(y);
    assert '\n' !in ls[1];
    assert ls[0] == "";
  }

  lemma ClientOneLine()
    ensures '\n' !in ClientAntialiasing
  {
  }

  lemma AntialiasingSingle(name: string, present: bool)
    requires Plain(name)
    ensures SingleLines(if present then [Indent(AntialiasingCall(name))] else [])
  {
    ClientOneLine();
  }

  lemma PairSingle(opening: string, name: string, v: Point)
    requires opening != [] && '\n' !in opening && Plain(name)
    ensures SingleLines(if v != (1, 1) then [Indent(PairCall(opening, name, v))] else [])
  {
    IntToStringOneLine(v.0);
    IntToStringOneLine(v.1);
  }

  lemma AlphaSingle(name: string, a: int)
    requires Plain(name)
    ensures SingleLines(if a != 1 then [Indent(AlphaCall(name, a))] else [])
  {
    IntToStringOneLine(a);
  }

  lemma AddSingle(name: string, inFront: bool)
    requires Plain(name)
    ensures SingleLines([Indent(AddCall(name, inFront))])
  {
  }

  lemma SixSingle(a: seq<string>, b: seq<string>, d: seq<string>, e: seq<string>, f: seq<string>, g: seq<string>)
    requires SingleLines(a) && SingleLines(b) && SingleLines(d) && SingleLines(e) && SingleLines(f) && SingleLines(g)
    ensures SingleLines(a + b + d + e + f + g)
  {
    SingleLinesAppend(a, b);
    SingleLinesAppend(a + b, d);
    SingleLinesAppend(a + b + d, e);
    SingleLinesAppend(a + b + d + e, f);
    SingleLinesAppend(a + b + d + e + f, g);
  }

  lemma PropLinesSingle(p: Prop, index: nat, directory: string, threshold: int)
    requires Readable(p, index, directory)
    ensures SingleLines(PropLines(p, index, directory, threshold))
  {
    var name, path := SpriteName(p, index), AssetPath(p, index, directory);
    var pos := PointOr(p.position, (0, 0));
    var scale := PointOr(p.scale, (1, 1));
    var scroll := PointOr(p.scroll, (1, 1));
    var head := ["", Indent(CreateCall(name, path, pos.0, pos.1))];
    var aa := if !p.isPixel then [Indent(AntialiasingCall(name))] else [];
    var sc := if scale != (1, 1) then [Indent(PairCall("scaleObject('", name, scale))] else [];
    var al := if AlphaOf(p) != 1 then [Indent(AlphaCall(name, AlphaOf(p)))] else [];
    var sr := if scroll != (1, 1) then [Indent(PairCall("setScrollFactor('", name, scroll))] else [];
    var add := [Indent(AddCall(name, p.zIndex > threshold))];
    assert PropLines(p, index, directory, threshold) == head + aa + sc + al + sr + add;
    CreateSingle(name, path, pos.0, pos.1);
    AntialiasingSingle(name, !p.isPixel);
    PairSingle("scaleObject('", name, scale);
    AlphaSingle(name, AlphaOf(p));
    PairSingle("setScrollFactor('", name, scroll);
    AddSingle(name, p.zIndex > threshold);
    SixSingle(head, aa, sc, al, sr, add);
  }

  lemma {:induction false} BlocksSingle(sorted: seq<Prop>, directory: string, threshold: int)
    requires AllReadable(sorted, directory)
    ensures SingleLines(Blocks(sorted, directory, threshold))
  {
    if sorted != [] {
      var last := |sorted| - 1;
      ReadableInit(sorted, directory);
      BlocksSingle(sorted[..last], directory, threshold);
      PropLinesSingle(sorted[last], last, directory, threshold);
      SingleLinesAppend(Blocks(sorted[..last], directory, threshold), PropLines(sorted[last], last, directory, threshold));
    }
  }

  /** The generated script, split at its line feeds, gives back its lines
      and a last empty one. */
  lemma ScriptLines(sorted: seq<Prop>, directory: string, threshold: int)
    requires AllReadable(sorted, directory)
    ensures SplitLines(Unlines(["function onCreate()"] + Blocks(sorted, directory, threshold) + ["end"]))
         == ["function onCreate()"] + Blocks(sorted, directory, threshold) + ["end", ""]
  {
    BlocksSingle(sorted, directory, threshold);
    WrappedLines(Blocks(sorted, directory, threshold));
  }

  /** Lines wrapped in the `onCreate` function split back into themselves,
      with the empty text after the final newline. */
  lemma WrappedLines(body: seq<string>)
    requires SingleLines(body)
    ensures SplitLines(Unlines(["function onCreate()"] + body + ["end"]))
         == ["function onCreate()"] + body + ["end", ""]
  {
    var ls := ["function onCreate()"] + body + ["end"];
    assert SingleLines(["function onCreate()"]);
    assert SingleLines(["end"]);
    SingleLinesAppend(["function onCreate()"], body);
    SingleLinesAppend(["function onCreate()"] + body, ["end"]);
    UnlinesSplit(ls);
    assert ls + [""] == ["function onCreate()"] + body + ["end", ""];
  }

  lemma HeaderLine()
    ensures Step(Cursor([], None), "function onCreate()") == Cursor([], None)
  {
    var h := "function onCreate()";
    assert Trim(h) == h;
    StripPrefixMismatch(h, "makeLuaSprite('", 0);
  }

  lemma EndLine()
    ensures forall c :: Step(c, "end") == c
  {
    forall c: Cursor ensures Step(c, "end") == c {
      assert Trim("end") == "end";
      ContainsShort("end", "antialiasing");
    }
  }

  /** Round trip: parsing the generated script gives one sprite per prop,
      in drawing order, with the name and asset path written for it, its
      position, scale, alpha and scroll factor, in front exactly when its
      zIndex is above the threshold, and never pixel art. */
  lemma GenerateThenParse(s: VSliceStage)
    requires s.props.Some?
    requires AllReadable(SortedProps(s.props.value), s.directory)
    ensures ParseSpec(StageLua(s, true))
         == ExpectedAll(SortedProps(s.props.value), s.directory, FrontThreshold(s))
  {
    var sorted, dir, thr := SortedProps(s.props.value), s.directory, FrontThreshold(s);
    ScriptLines(sorted, dir, thr);
    StepReadsStatements();
    HeaderLine();
    EndLine();
    ScriptRead(Step, sorted, dir, thr);
    FlushedOpened(ExpectedAll(sorted, dir, thr));
  }

  /** A pixel-art background at (10, 20) with default scale, alpha and
      scroll, behind the characters: its block is the blank line, the
      create statement and the add statement, with no antialiasing
      statement. */
  lemma PixelBackgroundBlock()
    ensures var bg := Prop("bg", "stages/week1/bg", Some((10, 20)), Some((1, 1)), Some((1, 1)), Some(1), 5, true, 0, "", "");
      PropLines(bg, 0, "week1", 300)
      == ["", Indent(CreateCall("bg", "stages/week1/bg", 10, 20)), Indent(AddCall("bg", false))]
  {
  }
}
