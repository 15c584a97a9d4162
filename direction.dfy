/** Note ownership between the two chart formats. In the flat format a
    direction 0-3 is the opponent's lane and 4-7 the player's. In the
    sectioned format the high bit is relative to the section's
    `mustHitSection` flag (script.js:179-185); flattening reads only the lane
    back and re-derives ownership from the flag (script.js:227-232). */
module NoteDirection {

  /** JavaScript's `%`: the remainder has the sign of the dividend. */
  function JsRem(a: int, b: int): int
    requires b > 0
  {
    if a >= 0 then a % b else -((-a) % b)
  }

  /** Flat direction to the direction stored in a section whose flag is
      `mustHitSection`. */
  function ToSectionRelative(d: int, mustHitSection: bool): (stored: int)
    ensures 0 <= d ==> stored % 4 == d % 4
    ensures 0 <= d ==> (stored >= 4 <==> (d >= 4) != mustHitSection)
    ensures 0 <= d ==> 0 <= stored < 8
  {
    var lane := JsRem(d, 4);
    if (d >= 4) != mustHitSection then lane + 4 else lane
  }

  /** Stored direction back to a flat direction: the stored high bit is
      dropped and ownership comes from the section flag alone. */
  function ToAbsolute(stored: int, mustHitSection: bool): (d: int)
    ensures 0 <= stored ==> d % 4 == stored % 4
    ensures 0 <= stored ==> (d >= 4 <==> mustHitSection)
    ensures 0 <= stored ==> 0 <= d < 8
  {
    var lane := if stored >= 4 then stored % 4 else stored;
    if mustHitSection then lane + 4 else lane
  }

  /** The lane together with the section's owner: what flattening leaves of
      a direction that went through a section. */
  function Normalized(d: int, mustHitSection: bool): int {
    d % 4 + (if mustHitSection then 4 else 0)
  }

  /** Encoding then decoding against the same section keeps the lane and
      replaces the owner with the section's; the direction survives exactly
      when its owner already matched the section flag. */
  lemma RoundTrip(d: int, mustHitSection: bool)
    requires 0 <= d < 8
    ensures ToAbsolute(ToSectionRelative(d, mustHitSection), mustHitSection) == Normalized(d, mustHitSection)
    ensures ToAbsolute(ToSectionRelative(d, mustHitSection), mustHitSection) == d
        <==> ((d >= 4) == mustHitSection)
  {
  }

  /** A direction already stored the way the sample generator and the
      splitter store an owner-matching note decodes to itself. */
  lemma DecodeOwnLane(lane: int, mustHitSection: bool)
    requires 0 <= lane < 4
    ensures ToAbsolute(lane + (if mustHitSection then 4 else 0), mustHitSection)
         == lane + (if mustHitSection then 4 else 0)
  {
  }
}
