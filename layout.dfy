/** The split of the content between the demo list and the mounted demo (resized). */
module Layout {
  import opened RowLabels

  /** The list's width and row height, and the width left for the demo on its right. */
  datatype ListLayout = ListLayout(listWidth: int, rowHeight: int, demoWidth: int)

  /** Rectangle::removeFromLeft: take amount from the left, but never more than the width. */
  function RemoveFromLeft(width: int, amount: int): (taken: int)
    requires 0 <= width && 0 <= amount
    ensures 0 <= taken <= width
    ensures taken == amount || (taken == width && width < amount)
  {
    if amount < width then amount else width
  }

  /**
   * resized: content wider than 600 gets a 210-wide list with 20-pixel rows,
   * otherwise a 130-wide list with 30-pixel rows; the demo takes the rest.
   */
  function Resized(width: int): (l: ListLayout)
    requires 0 <= width
    ensures 0 <= l.listWidth && 0 <= l.demoWidth && l.listWidth + l.demoWidth == width
    ensures width > 600 ==> l.listWidth == 210 && l.rowHeight == 20
    ensures width <= 600 ==> l.listWidth == (if width < 130 then width else 130) && l.rowHeight == 30
  {
    var (amount, rowHeight) := if width > 600 then (210, 20) else (130, 30);
    var taken := RemoveFromLeft(width, amount);
    ListLayout(taken, rowHeight, width - taken)
  }

  /** The wide layout puts the category and title on one line, the narrow one on two. */
  lemma LayoutDecidesLabelBreak(width: int)
    requires 0 <= width
    ensures CategorySeparator(Resized(width).rowHeight) == (if width > 600 then " " else "\n")
  {
  }
}
