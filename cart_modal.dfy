/**
 * The cart dialog: the subtotal it shows, the choice between the empty view and
 * the line list, and the requests its −, + and trash buttons send back to the
 * storefront. Amounts are exact reals; the two-decimal display rounding is not
 * modelled.
 */
module CartModal {
  import opened Optional
  import opened Products
  import Sequences

  /**
   * `item.finalPrice || item.price`: a missing or zero final price falls back to
   * the base price. The discount percentage is never consulted.
   */
  function UnitPrice(item: Product): (r: real)
    ensures r == item.price || (item.finalPrice == Some(r) && r != 0.0)
    ensures item.finalPrice.None? || item.finalPrice == Some(0.0) ==> r == item.price
    ensures item.finalPrice.Some? && item.finalPrice.value != 0.0 ==> r == item.finalPrice.value
  {
    if item.finalPrice.Some? && item.finalPrice.value != 0.0 then item.finalPrice.value else item.price
  }

  function LineTotal(line: CartLine): (r: real)
    ensures line.quantity == 0 ==> r == 0.0
    ensures UnitPrice(line.item) >= 0.0 && line.quantity >= 0 ==> r >= 0.0
  {
    UnitPrice(line.item) * (line.quantity as real)
  }

  /** The `reduce` in `calculateSubtotal`: a left fold that starts from `acc`. */
  function SubtotalFrom(acc: real, lines: seq<CartLine>): (r: real)
    ensures (forall i :: 0 <= i < |lines| ==> LineTotal(lines[i]) >= 0.0) ==> r >= acc
    decreases |lines|
  {
    if lines == [] then acc else SubtotalFrom(acc + LineTotal(lines[0]), lines[1..])
  }

  /** `calculateSubtotal`, before the display rounding. */
  function Subtotal(lines: seq<CartLine>): (r: real)
    ensures lines == [] ==> r == 0.0
    ensures (forall i :: 0 <= i < |lines| ==> LineTotal(lines[i]) >= 0.0) ==> r >= 0.0
  {
    SubtotalFrom(0.0, lines)
  }

  /** The plain sum of the line totals: the reference the fold is compared with. */
  function LineSum(lines: seq<CartLine>): real {
    if lines == [] then 0.0 else LineTotal(lines[0]) + LineSum(lines[1..])
  }

  lemma {:induction false} FoldIsSum(acc: real, lines: seq<CartLine>)
    ensures SubtotalFrom(acc, lines) == acc + LineSum(lines)
    decreases |lines|
  {
    if lines != [] {
      FoldIsSum(acc + LineTotal(lines[0]), lines[1..]);
    }
  }

  /** The subtotal is the sum over the lines of unit price times quantity; an empty cart folds to 0. */
  lemma SubtotalIsLineSum(lines: seq<CartLine>)
    ensures Subtotal(lines) == LineSum(lines)
    ensures lines == [] ==> Subtotal(lines) == 0.0
  {
    FoldIsSum(0.0, lines);
  }

  lemma {:induction false} LineSumAppend(a: seq<CartLine>, b: seq<CartLine>)
    ensures LineSum(a + b) == LineSum(a) + LineSum(b)
  {
    if a != [] {
      assert (a + b)[0] == a[0];
      assert (a + b)[1..] == a[1..] + b;
      LineSumAppend(a[1..], b);
    } else {
      assert a + b == b;
    }
  }

  /** The subtotal of two line lists put together is the sum of their subtotals. */
  lemma SubtotalAppend(a: seq<CartLine>, b: seq<CartLine>)
    ensures Subtotal(a + b) == Subtotal(a) + Subtotal(b)
  {
    SubtotalIsLineSum(a);
    SubtotalIsLineSum(b);
    SubtotalIsLineSum(a + b);
    LineSumAppend(a, b);
  }

  lemma {:induction false} LineSumPermutation(a: seq<CartLine>, b: seq<CartLine>)
    requires multiset(a) == multiset(b)
    ensures LineSum(a) == LineSum(b)
    decreases |a|
  {
    if a == [] {
      assert |b| == |multiset(b)|;
    } else {
      var x := a[0];
      assert x in multiset(b);
      var i :| 0 <= i < |b| && b[i] == x;
      var rest := b[..i] + b[i + 1..];
      assert b == b[..i] + ([x] + b[i + 1..]);
      LineSumAppend(b[..i], [x] + b[i + 1..]);
      LineSumAppend(b[..i], b[i + 1..]);
      assert ([x] + b[i + 1..])[1..] == b[i + 1..];
      Sequences.MultisetRemoveMatching(a, b, i);
      LineSumPermutation(a[1..], rest);
    }
  }

  /** Reordering the lines does not change the subtotal. */
  lemma SubtotalPermutation(a: seq<CartLine>, b: seq<CartLine>)
    requires multiset(a) == multiset(b)
    ensures Subtotal(a) == Subtotal(b)
  {
    SubtotalIsLineSum(a);
    SubtotalIsLineSum(b);
    LineSumPermutation(a, b);
  }

  /**
   * A line that carries only a discount percentage is charged its full base
   * price: 10 × 2 plus 20 × 1 at "50% off" comes to 40, not 30.
   */
  lemma SubtotalIgnoresDiscount(plain: Product, halfOff: Product)
    requires plain.price == 10.0 && plain.finalPrice.None?
    requires halfOff.price == 20.0 && halfOff.discount == Some(50.0) && halfOff.finalPrice.None?
    ensures Subtotal([CartLine(plain, 2), CartLine(halfOff, 1)]) == 40.0
  {
    var lines := [CartLine(plain, 2), CartLine(halfOff, 1)];
    assert lines[1..] == [CartLine(halfOff, 1)];
    assert lines[1..][1..] == [];
    assert LineTotal(lines[0]) == 20.0;
    assert LineTotal(lines[1]) == 20.0;
    assert Subtotal(lines) == SubtotalFrom(20.0, lines[1..]);
    assert SubtotalFrom(20.0, lines[1..]) == SubtotalFrom(40.0, lines[1..][1..]);
  }

  /** What the dialog's body shows. */
  datatype Body = EmptyCart | LineList(lines: seq<CartLine>, subtotal: real)

  /**
   * "Your cart is empty" exactly when there are no lines; otherwise the lines and,
   * below them, the subtotal block.
   */
  function BodyOf(lines: seq<CartLine>): (b: Body)
    ensures b.EmptyCart? <==> lines == []
    ensures b.LineList? ==> b.lines == lines && b.subtotal == LineSum(lines)
  {
    SubtotalIsLineSum(lines);
    if |lines| == 0 then EmptyCart else LineList(lines, Subtotal(lines))
  }

  /** What a button of a line asks the storefront to do. */
  datatype CartRequest = UpdateQuantity(id: int, quantity: int) | RemoveLine(id: int)

  /** The − button: the line's quantity less one, whatever it is. */
  function MinusRequest(line: CartLine): (r: CartRequest)
    ensures r.UpdateQuantity? && r.id == line.Id() && r.quantity == line.quantity - 1
    ensures line.quantity == 1 ==> r.quantity < 1
  {
    UpdateQuantity(line.Id(), line.quantity - 1)
  }

  /** The + button: the line's quantity plus one, with no stock check. */
  function PlusRequest(line: CartLine): (r: CartRequest)
    ensures r.UpdateQuantity? && r.id == line.Id() && r.quantity == line.quantity + 1
    ensures line.quantity >= 1 ==> r.quantity >= 2
  {
    UpdateQuantity(line.Id(), line.quantity + 1)
  }

  /** The trash button. */
  function TrashRequest(line: CartLine): (r: CartRequest)
    ensures r.RemoveLine? && r.id == line.Id()
  {
    RemoveLine(line.Id())
  }
}
