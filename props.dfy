/** Property values shared by the line breaker.
    The header that fixes their numeric values (linebreak.h) is not part of
    this model: the constants below are placeholders. Every property proved in
    this project depends only on their being pairwise distinct where they are
    compared, never on which numbers they are. */
module Props {

  /** A Unicode scalar value (unichar_t). */
  type UniChar = nat

  /** The "no value" property (PROP_UNKNOWN). Class indices are signed, so an
      unknown class is an index below 0. */
  const PropUnknown: int := -1

  // Break actions returned by the pair table (section 7 of UAX #14).
  const Mandatory: int := 4
  const Direct: int := 3
  const Indirect: int := 2
  const Prohibited: int := 1

  /** The four break actions. */
  predicate IsAction(v: int) {
    v == Mandatory || v == Direct || v == Indirect || v == Prohibited
  }

  // Line breaking classes touched by the SA resolution of rule LB1.
  const LbAL: int := 2
  const LbCM: int := 9
  const LbSA: int := 35

  // Grapheme cluster break properties.
  const GbExtend: int := 3
  const GbSpacingMark: int := 8

  // Script property of Thai.
  const ScThai: int := 60

  /** LINEBREAK_STATE_NONE: no partial break is pending. */
  const StateNone: int := 0
}
