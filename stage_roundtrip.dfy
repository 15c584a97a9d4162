/** The stage converter in both directions: what a V Slice stage becomes
    after its generated script is read back into a V Slice stage, and where
    that second conversion moves props between the layers behind and in
    front of the characters. */
module StageRoundTrip {
  import opened Wrappers
  import opened Text
  import opened Sorting
  import opened Stage
  import opened StageProperties

  // ---------------------------------------------------------------- the JSON half

  /** Converting the JSON half back keeps every character position, every
      camera offset and the zoom that the V Slice stage gave. */
  lemma StageJsonThenBack(s: VSliceStage, luaScript: string, stageName: string, stageDirectory: string)
    requires HasPosition(s.bf) && HasPosition(s.gf) && HasPosition(s.dad)
    requires HasOffsets(s.bf) && HasOffsets(s.gf) && HasOffsets(s.dad)
    requires s.cameraZoom != 0.0
    ensures var b := StageOf(StageJson(s), luaScript, stageName, stageDirectory);
      && b.cameraZoom == s.cameraZoom
      && b.bf.value.position == s.bf.value.position
      && b.gf.value.position == s.gf.value.position
      && b.dad.value.position == s.dad.value.position
      && b.bf.value.cameraOffsets == s.bf.value.cameraOffsets
      && b.gf.value.cameraOffsets == s.gf.value.cameraOffsets
      && b.dad.value.cameraOffsets == s.dad.value.cameraOffsets
  {
  }

  // ---------------------------------------------------------------- the script half

  /** Two prop lists whose props write the same lines write the same blocks. */
  lemma {:induction false} BlocksAgree(a: seq<Prop>, da: string, ta: int, b: seq<Prop>, db: string, tb: int)
    requires |a| == |b|
    requires forall k :: 0 <= k < |a| ==> PropLines(a[k], k, da, ta) == PropLines(b[k], k, db, tb)
    ensures Blocks(a, da, ta) == Blocks(b, db, tb)
  {
    if a != [] {
      var last := |a| - 1;
      BlocksAgree(a[..last], da, ta, b[..last], db, tb);
    }
  }

  /** A prop read back from its own lines, at the same place and against
      the characters' layer 300, writes those lines again, provided it is
      not a pixel prop (the reader never sets `isPixel`) and, if it was
      behind the characters, it is among the first thirty. */
  lemma PropReparsed(q: Prop, k: nat, dir: string, thr: int, newDir: string)
    requires Readable(q, k, dir) && !q.isPixel
    requires q.zIndex <= thr ==> k < 30
    ensures PropLines(PropOf(Expected(q, k, dir, thr), k), k, newDir, 300) == PropLines(q, k, dir, thr)
  {
    var n := PropOf(Expected(q, k, dir, thr), k);
    assert SpriteName(n, k) == SpriteName(q, k);
    assert AssetPath(n, k, newDir) == AssetPath(q, k, dir);
    assert AlphaOf(n) == AlphaOf(q);
    assert (n.zIndex > 300) == (q.zIndex > thr);
  }

  /** The props read back from a sorted list are already in drawing order
      when no prop behind the characters sits at place thirty or later. */
  lemma ReparsedSorted(sorted: seq<Prop>, dir: string, thr: int)
    requires SortedBy(sorted, ZKey)
    requires forall k :: 0 <= k < |sorted| && sorted[k].zIndex <= thr ==> k < 30
    ensures SortedProps(PropsOf(ExpectedAll(sorted, dir, thr))) == PropsOf(ExpectedAll(sorted, dir, thr))
  {
    var es := ExpectedAll(sorted, dir, thr);
    var np := PropsOf(es);
    forall i, j | 0 <= i < j < |np| ensures ZKey(np[i]) <= ZKey(np[j]) {
      assert es[i].inFront == (sorted[i].zIndex > thr);
      assert es[j].inFront == (sorted[j].zIndex > thr);
      assert ZKey(sorted[i]) <= ZKey(sorted[j]);
    }
    SortSorted(np, ZKey);
  }

  /** The script generated for a stage, read back into a V Slice stage and
      generated again, comes out the same: for non-pixel props whose names
      and paths the script can carry, with at most thirty of them at or
      behind the boyfriend's layer. */
  lemma RegenerateStable(s: VSliceStage, p: PsychStage, stageName: string, stageDirectory: string)
    requires s.props.Some?
    requires AllReadable(SortedProps(s.props.value), s.directory)
    requires forall k :: 0 <= k < |s.props.value| ==> !s.props.value[k].isPixel
    requires forall k :: 0 <= k < |SortedProps(s.props.value)| && SortedProps(s.props.value)[k].zIndex <= FrontThreshold(s)
               ==> k < 30
    ensures StageLua(StageOf(p, StageLua(s, true), stageName, stageDirectory), true) == StageLua(s, true)
  {
    var sorted, dir, thr := SortedProps(s.props.value), s.directory, FrontThreshold(s);
    var lua := StageLua(s, true);
    assert lua == Unlines(["function onCreate()"] + Blocks(sorted, dir, thr) + ["end"]);
    assert lua != "";
    GenerateThenParse(s);
    var es := ExpectedAll(sorted, dir, thr);
    var np := PropsOf(es);
    var back := StageOf(p, lua, stageName, stageDirectory);
    assert back.props == Some(np);
    assert FrontThreshold(back) == 300;
    ReparsedSorted(sorted, dir, thr);
    forall k | 0 <= k < |sorted| ensures PropLines(np[k], k, back.directory, 300) == PropLines(sorted[k], k, dir, thr) {
      assert sorted[k] in multiset(s.props.value);
      assert !sorted[k].isPixel;
      assert Readable(sorted[k], k, dir);
      PropReparsed(sorted[k], k, dir, thr, back.directory);
    }
    BlocksAgree(np, back.directory, 300, sorted, dir, thr);
  }

  /** The reverse conversion puts the sprite at place thirty (the
      thirty-first read from the script), even one added behind the
      characters, at layer 310, above the boyfriend's 300, so a script
      generated from the result adds it in front of them. */
  lemma ThirtyFirstBehindMovesFront(p: PsychStage, luaScript: string, stageName: string, stageDirectory: string)
    requires luaScript != ""
    requires |ParseSpec(luaScript)| > 30 && !ParseSpec(luaScript)[30].inFront
    ensures var back := StageOf(p, luaScript, stageName, stageDirectory);
      && back.props.Some? && |back.props.value| > 30
      && back.props.value[30].zIndex == 310 > FrontThreshold(back)
      && var ls := PropLines(back.props.value[30], 30, back.directory, FrontThreshold(back));
         ls[|ls| - 1] == Indent(AddCall(SpriteName(back.props.value[30], 30), true))
  {
  }
}
