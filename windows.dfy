/** How the export walks the heights 0..target: in consecutive windows of at most
    `Width` heights, the last one cut short so that it ends at the target. */
module HeightWindows {

  /** The number of filters requested per round. */
  const Width: nat := 4000

  /** The inclusive height range `[first, last]` fetched in one round. */
  datatype Window = Window(first: int, last: int)

  /** How many rounds cover `[0, target]`; none when the target is negative. */
  function NumWindows(target: int): (n: nat)
    ensures target >= 0 ==> (n - 1) * Width <= target < n * Width
    ensures target < 0 <==> n == 0
  {
    if target < 0 then 0 else target / Width + 1
  }

  /** The `k`-th window: it starts at `k * Width` and holds `Width` heights, except
      the last, which stops at the target. */
  function WindowAt(target: int, k: nat): (w: Window)
    requires k < NumWindows(target)
    ensures w.first == k * Width
    ensures w.first <= w.last <= target
    ensures w.last - w.first < Width
    ensures w.last == target <==> k == NumWindows(target) - 1
  {
    var first := k * Width;
    Window(first, if first + Width > target then target else first + Width - 1)
  }

  /** All windows, in the order the export visits them. */
  function Windows(target: int): (ws: seq<Window>)
    ensures |ws| == NumWindows(target)
  {
    seq(NumWindows(target), k requires 0 <= k < NumWindows(target) => WindowAt(target, k))
  }

  /** The windows cover `[0, target]` without gap or overlap: they start at 0,
      each begins right after the previous one ends, and the last ends at the target. */
  lemma WindowsTile(target: int)
    requires target >= 0
    ensures var ws := Windows(target);
      |ws| > 0 && ws[0].first == 0 && ws[|ws| - 1].last == target &&
      (forall k :: 0 <= k < |ws| - 1 ==> ws[k + 1].first == ws[k].last + 1) &&
      (forall k :: 0 <= k < |ws| ==> 0 < ws[k].last - ws[k].first + 1 <= Width)
  {
  }

  /** Every height in `[0, target]` lies in exactly one window, the one numbered
      `x / Width`, and no height outside that range lies in any window. */
  lemma {:induction false} WindowOf(target: int, x: int, k: nat)
    requires k < NumWindows(target)
    ensures var w := WindowAt(target, k);
      (w.first <= x <= w.last) <==> (0 <= x <= target && k == x / Width)
  {
    var w := WindowAt(target, k);
    if w.first <= x <= w.last {
      assert k * Width <= x < k * Width + Width;
      DivBetween(x, k);
    }
    if 0 <= x <= target && k == x / Width {
      assert k * Width <= x < (k + 1) * Width;
    }
  }

  lemma DivBetween(x: int, k: nat)
    requires k * Width <= x < k * Width + Width
    ensures x / Width == k
  {
  }

  /** The number of windows is the ceiling of `(target + 1) / Width`. */
  lemma WindowCount(target: int)
    requires target >= 0
    ensures NumWindows(target) == (target + 1 + Width - 1) / Width
  {
  }
}
