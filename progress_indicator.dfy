/** The onboarding progress bar: the bar's width is the progress clamped to
    the range 0 to 100 percent, and its height class follows the size. */
module ProgressIndicator {
  import opened Wrappers

  /** `Math.min(100, Math.max(0, progress))`. */
  function Clamp(progress: real): (w: real)
    ensures 0.0 <= w <= 100.0
    ensures 0.0 <= progress <= 100.0 ==> w == progress
    ensures progress < 0.0 ==> w == 0.0
    ensures progress > 100.0 ==> w == 100.0
  {
    var low := if 0.0 > progress then 0.0 else progress;
    if 100.0 < low then 100.0 else low
  }

  /** The width is the point of [0, 100] nearest the progress. */
  lemma ClampIsNearest(progress: real, x: real)
    requires 0.0 <= x <= 100.0
    ensures Dist(Clamp(progress), progress) <= Dist(x, progress)
  {
  }

  function Dist(a: real, b: real): (d: real)
    ensures d >= 0.0 && (d == 0.0 <==> a == b)
  {
    if a >= b then a - b else b - a
  }

  /** Clamping twice is clamping once. */
  lemma ClampIdempotent(progress: real)
    ensures Clamp(Clamp(progress)) == Clamp(progress)
  {
  }

  /** More progress never gives a narrower bar. */
  lemma ClampMonotone(p: real, q: real)
    requires p <= q
    ensures Clamp(p) <= Clamp(q)
  {
  }

  datatype Size = Sm | Md | Lg

  /** The height class of the bar; a missing size is `md`. */
  function SizeClass(size: Option<Size>): (c: string)
    ensures c == "h-2" <==> size == Some(Sm)
    ensures c == "h-4" <==> size == Some(Lg)
    ensures c == "h-3" <==> size == Some(Md) || size == None
  {
    match size
    case None => "h-3"
    case Some(Sm) => "h-2"
    case Some(Md) => "h-3"
    case Some(Lg) => "h-4"
  }
}
