/** The break-action lookup: a pair table indexed by the class before and the
    class after a break opportunity, as in the pair-table-based implementation
    of section 7 of UAX #14. */
module Rules {
  import opened Props

  /** The external table linebreak_rules with its size linebreak_rulessiz.
      Its contents are not part of this model; only its shape is assumed. */
  datatype RuleTable = RuleTable(size: nat, rows: seq<seq<int>>) {

    /** size rows of size cells each. */
    ghost predicate Valid() {
      |rows| == size && forall i :: 0 <= i < size ==> |rows[i]| == size
    }

    /** Both class indices address a cell of the table. */
    predicate InDomain(b: int, a: int) {
      0 <= b < size && 0 <= a < size
    }

    /** Every cell holds a break action or is left unspecified. */
    ghost predicate ActionsOnly()
      requires Valid()
    {
      forall i, j :: 0 <= i < size && 0 <= j < size ==>
        IsAction(rows[i][j]) || rows[i][j] == PropUnknown
    }
  }

  /** linebreak_lbrule: the action between class b (before) and class a
      (after). It is total: a pair outside the table, or a cell left
      unspecified, yields DIRECT, and the "no value" property never escapes. */
  function LbRule(t: RuleTable, b: int, a: int): (r: int)
    requires t.Valid()
    ensures r != PropUnknown
    ensures r == Direct <==>
              !t.InDomain(b, a) || t.rows[b][a] == PropUnknown || t.rows[b][a] == Direct
    ensures r != Direct ==> t.InDomain(b, a) && t.rows[b][a] == r
  {
    var result := if b < 0 || t.size <= b || a < 0 || t.size <= a then PropUnknown
                  else t.rows[b][a];
    if result == PropUnknown then Direct else result
  }

  /** When the table holds only actions and gaps, the lookup always yields one
      of the four actions: classification gaps never produce a value that is
      not an action. */
  lemma LbRuleIsAction(t: RuleTable, b: int, a: int)
    requires t.Valid() && t.ActionsOnly()
    ensures IsAction(LbRule(t, b, a))
  {
  }

  /** Inside the table, a cell that holds an action is returned unchanged:
      the lookup is indexed [before][after] and not transposed. */
  lemma LbRuleReadsCell(t: RuleTable, b: int, a: int)
    requires t.Valid() && t.InDomain(b, a) && t.rows[b][a] != PropUnknown
    ensures LbRule(t, b, a) == t.rows[b][a]
  {
  }
}
