/**
 * The identity predicates the exports apply inline to an operation's
 * `identity` and `nop`. Each export applies its own subset, so each predicate
 * is named on its own; the marker characters are the exact code points of the
 * source.
 */
module Classifier {
  import opened PyStr
  import opened Records

  /** Cyrillic small letter en, U+043D. */
  const CyrEn: char := '\U{043D}'
  /** Cyrillic small letter es, U+0441. */
  const CyrEs: char := '\U{0441}'
  /** Cyrillic capital letter tse, U+0426. */
  const CyrTse: string := "\U{0426}"
  /** Latin capital M and H. */
  const LatinMH: string := "MH"
  /** Cyrillic capital em and en, U+041C U+041D. */
  const CyrEmEn: string := "\U{041C}\U{041D}"
  /** The `nop` suffix `_1`. */
  const NopOne: string := "_1"

  /** The equipment class name `Ручные операции` (manual operations). */
  const ManualClass: string := "\U{0420}\U{0443}\U{0447}\U{043D}\U{044B}\U{0435} \U{043E}\U{043F}\U{0435}\U{0440}\U{0430}\U{0446}\U{0438}\U{0438}"
  /** The equipment class name `Контроль` (inspection). */
  const ControlClass: string := "\U{041A}\U{043E}\U{043D}\U{0442}\U{0440}\U{043E}\U{043B}\U{044C}"

  /**
   * `f"{name.replace('-', '')}777"`: the work centre the order variant puts
   * in place of an inspection class, one per department.
   */
  function ControlCentre(departmentName: string): (r: string)
    ensures |r| >= 3 && r[|r| - 3..] == "777"
    ensures '-' !in r[..|r| - 3]
  {
    RemoveChar(departmentName, '-') + "777"
  }

  /** `'н' in identity` */
  predicate HasEn(op: Operation) { CyrEn in op.identity }

  /** `'с' in identity` */
  predicate HasEs(op: Operation) { CyrEs in op.identity }

  /** `identity[-1:] == 'Ц'` */
  predicate EndsWithTse(op: Operation) { TakeLast(op.identity, 1) == CyrTse }

  /** `identity[-2:] == 'MH'` (Latin letters) */
  predicate EndsWithLatinMH(op: Operation) { TakeLast(op.identity, 2) == LatinMH }

  /** `identity[-2:] == 'МН'` (Cyrillic letters) */
  predicate EndsWithCyrEmEn(op: Operation) { TakeLast(op.identity, 2) == CyrEmEn }

  /** `nop[-2:] == '_1'` */
  predicate NopEndsWithOne(op: Operation) { TakeLast(op.nop, 2) == NopOne }

  /** The filter of `export_ca_operations` and of the daily tasks: all six predicates false. */
  predicate OperationKept(op: Operation)
  {
    !HasEs(op) && !HasEn(op) && !EndsWithTse(op) && !NopEndsWithOne(op)
    && !EndsWithLatinMH(op) && !EndsWithCyrEmEn(op)
  }

  /** The order variant's filter: the same without the `н` test. */
  predicate OrderOperationKept(op: Operation)
  {
    !HasEs(op) && !EndsWithTse(op) && !NopEndsWithOne(op)
    && !EndsWithLatinMH(op) && !EndsWithCyrEmEn(op)
  }

  /** The order variant's filter differs from the base filter exactly by the `н` test. */
  lemma OrderFilterDropsEnTest(op: Operation)
    ensures OperationKept(op) <==> OrderOperationKept(op) && !HasEn(op)
  {
  }

  /** The suffix tests are `str.endswith` tests. */
  lemma SuffixTestsAreEndsWith(op: Operation)
    ensures EndsWithTse(op) <==> EndsWith(op.identity, CyrTse)
    ensures EndsWithLatinMH(op) <==> EndsWith(op.identity, LatinMH)
    ensures EndsWithCyrEmEn(op) <==> EndsWith(op.identity, CyrEmEn)
    ensures NopEndsWithOne(op) <==> EndsWith(op.nop, NopOne)
  {
    TakeLastIsEndsWith(op.identity, CyrTse);
    TakeLastIsEndsWith(op.identity, LatinMH);
    TakeLastIsEndsWith(op.identity, CyrEmEn);
    TakeLastIsEndsWith(op.nop, NopOne);
  }

  /**
   * When no identity test fires, the `nop` suffix alone decides: an operation
   * is kept, by either filter, exactly when its `nop` does not end in `_1`,
   * so any `nop` written as a stem followed by `_1` is excluded.
   */
  lemma NopSuffixDecides(op: Operation, stem: string)
    requires !HasEs(op) && !HasEn(op) && !EndsWithTse(op) && !EndsWithLatinMH(op) && !EndsWithCyrEmEn(op)
    ensures OperationKept(op) <==> !EndsWith(op.nop, NopOne)
    ensures OrderOperationKept(op) <==> !EndsWith(op.nop, NopOne)
    ensures !OperationKept(op.(nop := stem + NopOne)) && !OrderOperationKept(op.(nop := stem + NopOne))
  {
    SuffixTestsAreEndsWith(op);
    var one := op.(nop := stem + NopOne);
    assert TakeLast(one.nop, 2) == one.nop[|one.nop| - 2..] == NopOne;
  }
}
