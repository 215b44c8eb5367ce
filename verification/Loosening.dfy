/**
 * Widening a stage's cutoff and taking it back (src/cutoff.rs, src/cascade.rs):
 * an audit restore undoes exactly what audits loosened, whatever the other
 * checks loosened in between.
 */
module Loosening {

  datatype Action = Quiet | Loosen(raiseAudit: bool) | Restore | LoosenAndDoubleK0

  datatype Check = Audit | Drift | Yield

  function Halved(loosen: real, floor: real): real {
    if loosen * 0.5 >= floor then loosen * 0.5 else floor
  }

  /** The loosening is the audits' share times the other checks'. */
  predicate Split(loosen: real, audits: real, others: real) {
    0.0 < audits <= 1.0 && 0.0 < others <= 1.0 && loosen == audits * others
  }

  lemma Shrinks(x: real, f: real)
    requires 0.0 < x <= 1.0 && 0.0 < f <= 1.0
    ensures 0.0 < x * f <= 1.0 && x * f <= f
  {
    assert (1.0 - x) * f >= 0.0;
    assert (1.0 - x) * f == f - x * f;
  }

  /** A factor goes to one share or the other. */
  lemma SplitLoosened(loosen: real, audits: real, others: real, f: real)
    requires Split(loosen, audits, others) && 0.0 < f <= 1.0
    ensures Split(loosen * f, audits * f, others) && Split(loosen * f, audits, others * f)
  {
    Shrinks(audits, f);
    Shrinks(others, f);
  }

  /** Dividing by the audits' share leaves the others'. */
  lemma SplitRestored(loosen: real, audits: real, others: real)
    requires Split(loosen, audits, others)
    ensures loosen / audits == others && loosen <= others && Split(others, 1.0, others)
  {
    Shrinks(audits, others);
  }

  lemma AtMostOne(loosen: real, audits: real, others: real)
    requires Split(loosen, audits, others)
    ensures 0.0 < audits <= 1.0 && 0.0 < others <= 1.0
  {
  }

  /** One stage's loosening factor and the share of it that audits hold. */
  class Stage {
    /** The loosest the clamp allows, as a factor of the tightest. */
    const floor: real
    var loosen: real
    var auditLoosen: real
    /** The product of every factor applied by a check other than the audit. */
    ghost var others: real

    ghost predicate Valid()
      reads this
    {
      && 0.0 < floor <= loosen <= 1.0
      && Split(loosen, auditLoosen, others)
    }

    constructor (keepMin: real, keepMax: real)
      requires 0.0 < keepMin <= keepMax
      ensures Valid() && loosen == 1.0 && auditLoosen == 1.0
    {
      floor := keepMin / keepMax;
      loosen, auditLoosen, others := 1.0, 1.0, 1.0;
    }

    /** The factor returned is the one that was effective: the clamp included. */
    method LoosenStep() returns (factor: real)
      requires 0.0 < floor <= loosen <= 1.0
      modifies this`loosen
      ensures loosen == Halved(old(loosen), floor) && floor <= loosen <= old(loosen)
      ensures 0.0 < factor <= 1.0 && loosen == old(loosen) * factor
    {
      var before := loosen;
      loosen := Halved(loosen, floor);
      factor := loosen / before;
    }

    method RestoreStep(factor: real)
      requires factor > 0.0
      modifies this`loosen
      ensures loosen == if old(loosen) / factor <= 1.0 then old(loosen) / factor else 1.0
    {
      loosen := if loosen / factor <= 1.0 then loosen / factor else 1.0;
    }

    /** One loosening step, credited to the audits or to the other checks. */
    method Widen(byAudit: bool)
      requires Valid()
      modifies this
      ensures Valid() && loosen == Halved(old(loosen), floor)
      ensures if byAudit then others == old(others) else auditLoosen == old(auditLoosen)
    {
      ghost var before := loosen;
      var factor := LoosenStep();
      SplitLoosened(before, auditLoosen, others, factor);
      hide Split, Halved;
      if byAudit {
        auditLoosen := auditLoosen * factor;
      } else {
        others := others * factor;
      }
    }

    /** The audits' loosening undone: the clamp at one never bites. */
    method Restore()
      requires Valid()
      modifies this
      ensures Valid() && loosen == old(others) == others && auditLoosen == 1.0
    {
      SplitRestored(loosen, auditLoosen, others);
      AtMostOne(loosen, auditLoosen, others);
      RestoreStep(auditLoosen);
      auditLoosen := 1.0;
    }

    /** What a model check's verdict does to the stage. */
    method Apply(action: Action, check: Check)
      requires Valid()
      modifies this
      ensures Valid()
      ensures action == Quiet ==> loosen == old(loosen) && auditLoosen == old(auditLoosen) && others == old(others)
      ensures action == Action.Restore ==> loosen == old(others) == others && auditLoosen == 1.0
      ensures action.Loosen? || action.LoosenAndDoubleK0? ==> loosen == Halved(old(loosen), floor)
      ensures action.Loosen? && check == Audit ==> others == old(others)
      ensures (action.Loosen? && check != Audit) || action.LoosenAndDoubleK0? ==> auditLoosen == old(auditLoosen)
    {
      match action
      case Quiet =>
      case Loosen(_) => Widen(check == Audit);
      case Restore => Restore();
      case LoosenAndDoubleK0 => Widen(false);
    }
  }
}
