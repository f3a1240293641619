/** The six series colours the charts cycle through. */
module Palette {

  const Colors: seq<string> := ["#3b82f6", "#10b981", "#f59e0b", "#ef4444", "#8b5cf6", "#ec4899"]

  /** `COLORS[i % COLORS.length]`. */
  function ColorAt(i: nat): string {
    Colors[i % |Colors|]
  }

  /**
   * The colours repeat with period six, and any six consecutive series get six
   * different colours.
   */
  lemma ColorCycle(i: nat, j: nat)
    ensures ColorAt(i + 6) == ColorAt(i)
    ensures i < j < i + 6 ==> ColorAt(i) != ColorAt(j)
  {
    if i < j < i + 6 {
      assert i % 6 != j % 6;
      assert forall a, b :: 0 <= a < b < 6 ==> Colors[a] != Colors[b];
    }
  }
}
