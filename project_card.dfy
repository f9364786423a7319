/**
 * The project card: the number of completed chapters and the progress
 * percentage shown on its bar. The same two formulas appear on the
 * project detail page and, summed over projects, on the dashboard.
 * The percentage is computed over the reals: floating-point rounding is
 * not modelled.
 */
module ProjectCard {
  import opened Storage

  /** `chapters.filter(c => c.completed).length`. */
  function CompletedChapters(chapters: seq<Chapter>): (n: nat)
    ensures n <= |chapters|
    ensures n == 0 <==> forall i :: 0 <= i < |chapters| ==> !chapters[i].completed
    ensures n == |chapters| <==> forall i :: 0 <= i < |chapters| ==> chapters[i].completed
  {
    if chapters == [] then 0
    else (if chapters[0].completed then 1 else 0) + CompletedChapters(chapters[1..])
  }

  /** `chapters.length > 0 ? (completed / chapters.length) * 100 : 0`. */
  function ProgressPercent(chapters: seq<Chapter>): (r: real)
    ensures 0.0 <= r <= 100.0
    ensures |chapters| == 0 ==> r == 0.0
    ensures |chapters| > 0 && CompletedChapters(chapters) == 0 ==> r == 0.0
    ensures |chapters| > 0 && CompletedChapters(chapters) == |chapters| ==> r == 100.0
  {
    if |chapters| > 0 then
      var n, m := CompletedChapters(chapters) as real, |chapters| as real;
      RatioBounds(n, m);
      (n / m) * 100.0
    else 0.0
  }

  /** A share of a positive whole lies between none and all of it. */
  lemma RatioBounds(n: real, m: real)
    requires 0.0 <= n <= m && m > 0.0
    ensures 0.0 <= n / m <= 1.0
  {
    assert n / m == n * (1.0 / m);
    assert 1.0 / m > 0.0;
    assert n / m <= m / m;
  }
}
