/** The one fact about division the rate bounds rest on. */
module Arithmetic {

  lemma MulMono(a: int, b: int, c: int)
    requires a <= b && c >= 0
    ensures a * c <= b * c
  {
    assert b * c - a * c == (b - a) * c;
  }

  /** Steps at least `gap` apart within `span` number at most `span / gap`. */
  lemma QuotientBound(steps: int, gap: int, span: int)
    requires gap > 0 && steps * gap <= span
    ensures steps <= span / gap
  {
    var whole := span / gap;
    assert span == whole * gap + span % gap;
    if whole < steps { MulMono(whole + 1, steps, gap); }
  }
}
