/**
 * The cart accumulator's data: the stored order and the find-or-append
 * merge of a new order line into it.
 */
module Cart {

  /**
   * One line of the order. `details` stands for the display fields the card
   * copies from the dish when it is added; the merge never reads them.
   */
  datatype OrderLine = OrderLine(dishId: int, amount: int, details: string)

  datatype Order = Order(dishes: seq<OrderLine>)

  predicate HasDish(lines: seq<OrderLine>, dishId: int) {
    exists j :: 0 <= j < |lines| && lines[j].dishId == dishId
  }

  predicate NoDuplicateIds(lines: seq<OrderLine>) {
    forall i, j :: 0 <= i < j < |lines| ==> lines[i].dishId != lines[j].dishId
  }

  /** Array.prototype.findIndex by dish id: the first matching index, or -1. */
  function FindIndex(lines: seq<OrderLine>, dishId: int): (r: int)
    ensures -1 <= r < |lines|
    ensures r >= 0 ==> lines[r].dishId == dishId
    ensures r >= 0 ==> forall j :: 0 <= j < r ==> lines[j].dishId != dishId
    ensures r == -1 <==> !HasDish(lines, dishId)
  {
    if lines == [] then -1
    else if lines[0].dishId == dishId then 0
    else
      var k := FindIndex(lines[1..], dishId);
      if k == -1 then -1 else k + 1
  }

  /** The total quantity over all lines. */
  function SumAmounts(lines: seq<OrderLine>): int {
    if lines == [] then 0 else lines[0].amount + SumAmounts(lines[1..])
  }

  /**
   * Adds `line` to the order's lines: when a line with the same dish id is
   * present, the first such line's amount grows by `line.amount` and nothing
   * else changes; otherwise `line` is appended at the end.
   */
  function Merge(lines: seq<OrderLine>, line: OrderLine): (r: seq<OrderLine>)
    ensures !HasDish(lines, line.dishId) ==> r == lines + [line]
    ensures HasDish(lines, line.dishId) ==> |r| == |lines|
    ensures HasDish(lines, line.dishId) ==>
              forall j :: 0 <= j < |lines| ==>
                r[j].dishId == lines[j].dishId && r[j].details == lines[j].details
    ensures HasDish(lines, line.dishId) ==>
              exists k :: 0 <= k < |lines| && lines[k].dishId == line.dishId &&
                (forall j :: 0 <= j < k ==> lines[j].dishId != line.dishId) &&
                r[k].amount == lines[k].amount + line.amount &&
                forall j :: 0 <= j < |lines| && j != k ==> r[j] == lines[j]
  {
    var i := FindIndex(lines, line.dishId);
    if i != -1 then lines[i := lines[i].(amount := lines[i].amount + line.amount)]
    else lines + [line]
  }

  lemma {:induction false} SumAppend(lines: seq<OrderLine>, line: OrderLine)
    ensures SumAmounts(lines + [line]) == SumAmounts(lines) + line.amount
  {
    if lines != [] {
      assert (lines + [line])[1..] == lines[1..] + [line];
      SumAppend(lines[1..], line);
    }
  }

  lemma {:induction false} SumUpdate(lines: seq<OrderLine>, i: int, line: OrderLine)
    requires 0 <= i < |lines|
    ensures SumAmounts(lines[i := line]) == SumAmounts(lines) - lines[i].amount + line.amount
  {
    if i > 0 {
      assert lines[i := line][1..] == lines[1..][i - 1 := line];
      SumUpdate(lines[1..], i - 1, line);
    }
  }

  /** The total quantity in the order grows by exactly the added amount. */
  lemma MergeSum(lines: seq<OrderLine>, line: OrderLine)
    ensures SumAmounts(Merge(lines, line)) == SumAmounts(lines) + line.amount
  {
    var i := FindIndex(lines, line.dishId);
    if i != -1 {
      assert Merge(lines, line) == lines[i := lines[i].(amount := lines[i].amount + line.amount)];
      SumUpdate(lines, i, lines[i].(amount := lines[i].amount + line.amount));
    } else {
      assert Merge(lines, line) == lines + [line];
      SumAppend(lines, line);
    }
  }

  /**
   * The merge keeps dish ids unique, and afterwards the order holds a line
   * for exactly the dish ids it held before plus the added one.
   */
  lemma MergeKeepsIdsUnique(lines: seq<OrderLine>, line: OrderLine)
    requires NoDuplicateIds(lines)
    ensures NoDuplicateIds(Merge(lines, line))
    ensures forall id :: HasDish(Merge(lines, line), id) <==> HasDish(lines, id) || id == line.dishId
  {
    var r := Merge(lines, line);
    if HasDish(lines, line.dishId) {
      forall id | HasDish(r, id) ensures HasDish(lines, id) || id == line.dishId {
        var j :| 0 <= j < |r| && r[j].dishId == id;
        assert lines[j].dishId == id;
      }
      forall id | HasDish(lines, id) ensures HasDish(r, id) {
        var j :| 0 <= j < |lines| && lines[j].dishId == id;
        assert r[j].dishId == id;
      }
    } else {
      forall id | HasDish(r, id) ensures HasDish(lines, id) || id == line.dishId {
        var j :| 0 <= j < |r| && r[j].dishId == id;
        if j < |lines| {
          assert lines[j].dishId == id;
        }
      }
      forall id | HasDish(lines, id) ensures HasDish(r, id) {
        var j :| 0 <= j < |lines| && lines[j].dishId == id;
        assert r[j].dishId == id;
      }
      assert r[|lines|].dishId == line.dishId;
    }
  }

  /** Two worked merges: an increment, then an append. */
  lemma MergeExamples()
    ensures Merge([OrderLine(1, 2, "")], OrderLine(1, 3, "")) == [OrderLine(1, 5, "")]
    ensures Merge([OrderLine(1, 2, "")], OrderLine(2, 1, "")) == [OrderLine(1, 2, ""), OrderLine(2, 1, "")]
  {
  }
}
