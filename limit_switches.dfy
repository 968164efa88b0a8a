/** Limit-switch status of an axis (src/axis/limit_switches.rs). */
module LimitSwitch {

  datatype LimitSwitches = None | Upper | Lower | Both {

    predicate HasUpper() {
      this == Upper || this == Both
    }

    predicate HasLower() {
      this == Lower || this == Both
    }

    predicate IsClear() {
      this == None
    }

    predicate AnyActive() {
      !IsClear()
    }
  }

  /** The name `{:?}` prints for a status. */
  function DebugName(l: LimitSwitches): string {
    match l
    case None => "None"
    case Upper => "Upper"
    case Lower => "Lower"
    case Both => "Both"
  }

  /** Some switch is active exactly when the upper or the lower one is,
      and `Both` is the status where both are. */
  lemma ActiveIffUpperOrLower(l: LimitSwitches)
    ensures l.AnyActive() <==> l.HasUpper() || l.HasLower()
    ensures l == Both <==> l.HasUpper() && l.HasLower()
    ensures l.IsClear() <==> !l.HasUpper() && !l.HasLower()
  {
  }

  /** The two queries decide the status: it is determined by (has-upper, has-lower). */
  lemma SwitchesDeterminedByQueries(l: LimitSwitches, m: LimitSwitches)
    ensures l == m <==> (l.HasUpper() == m.HasUpper() && l.HasLower() == m.HasLower())
  {
  }
}
