/** Class resolution: the SA part of rule LB1 (section 6.1 of UAX #14). */
module Classes {
  import opened Props

  /** The properties linebreak_charprop reports for one character: line
      breaking class, East Asian width, grapheme cluster break property and
      script. linebreak_charprop itself is external; it is passed to the
      functions below as the uninterpreted function `charprop`, which stands
      for the lookup already bound to one line breaking object (its override
      map included). */
  datatype CharProp = CharProp(lbc: int, eaw: int, gbc: int, scr: int)

  /** The character combines with what precedes it. */
  predicate Extends(gbc: int) {
    gbc == GbExtend || gbc == GbSpacingMark
  }

  /** linebreak_lbclass. `thaiKept` stands for the build option USE_LIBTHAI,
      under which Thai text is left as SA for an external word segmenter. */
  function LbClass(charprop: UniChar -> CharProp, c: UniChar, thaiKept: bool): (lbc: int)
    // SA never survives, except Thai when the segmenter is built in
    ensures lbc == LbSA ==> charprop(c).lbc == LbSA && thaiKept && charprop(c).scr == ScThai
    ensures charprop(c).lbc == LbSA && thaiKept && charprop(c).scr == ScThai ==> lbc == LbSA
    // only SA is rewritten, and only to CM or AL
    ensures lbc != charprop(c).lbc ==> charprop(c).lbc == LbSA && (lbc == LbCM || lbc == LbAL)
    // a rewritten SA is CM exactly for extending grapheme roles
    ensures charprop(c).lbc == LbSA && lbc != LbSA ==> (lbc == LbCM <==> Extends(charprop(c).gbc))
  {
    var p := charprop(c);
    if p.lbc == LbSA && !(thaiKept && p.scr == ScThai) then
      (if Extends(p.gbc) then LbCM else LbAL)
    else
      p.lbc
  }

  /** Resolution is idempotent: feeding a resolved class back through the
      resolution (same character, same other properties) leaves it as it is. */
  lemma LbClassIdempotent(charprop: UniChar -> CharProp, c: UniChar, thaiKept: bool)
    ensures var once := LbClass(charprop, c, thaiKept);
            var again := charprop(c).(lbc := once);
            LbClass(_ => again, c, thaiKept) == once
  {
  }
}
