/** How New-Order changes a stock row, with the machine's own arithmetic, and what
    comes of any number of such changes. */
module Stock {
  import opened Machine

  /** The row's columns that New-Order reads or writes. */
  datatype Row = Row(quantity: nat, ytd: nat, orderCnt: nat, remoteCnt: nat, dist: string)

  function NextQuantity(quantity: nat, ordered: nat): (r: nat) {
    var left := Signed(Wrap(quantity - ordered));
    if left >= 10 then Wrap(quantity - ordered) else Wrap(left + 91)
  }

  /** The whole update for one order line. */
  function Ordered(s: Row, ordered: nat, remote: bool): Row {
    Row(NextQuantity(s.quantity, ordered), Wrap(s.ytd + ordered), Wrap(s.orderCnt + 1),
        if remote then Wrap(s.remoteCnt + 1) else s.remoteCnt, s.dist)
  }

  /** In the range the benchmark keeps, nothing wraps, the quantity stays in range,
      and it moves down by the order or up by 91 less the order. */
  lemma QuantityInRange(quantity: nat, ordered: nat)
    requires 10 <= quantity <= 100 && 1 <= ordered <= 10
    ensures 10 <= NextQuantity(quantity, ordered) <= 100
    ensures Wrap(quantity - ordered) == quantity - ordered
    ensures NextQuantity(quantity, ordered) in {quantity - ordered, quantity - ordered + 91}
  {}

  /** One order line: how many pieces, and whether another warehouse ordered them. */
  datatype Line = Line(ordered: nat, remote: bool)

  function After(s: Row, lines: seq<Line>): Row {
    if lines == [] then s
    else Ordered(After(s, lines[..|lines| - 1]), lines[|lines| - 1].ordered, lines[|lines| - 1].remote)
  }

  function Total(lines: seq<Line>): nat {
    if lines == [] then 0 else Total(lines[..|lines| - 1]) + lines[|lines| - 1].ordered
  }

  function Remote(lines: seq<Line>): nat {
    if lines == [] then 0 else Remote(lines[..|lines| - 1]) + (if lines[|lines| - 1].remote then 1 else 0)
  }

  predicate InRange(lines: seq<Line>) {
    forall i :: 0 <= i < |lines| ==> 1 <= lines[i].ordered <= 10
  }

  /** The quantity after any lines is a closed form of their total alone. */
  function Closed(s0: nat, total: nat): nat {
    10 + (s0 - 10 - total) % 91
  }

  lemma ClosedStep(s0: nat, total: nat, ordered: nat)
    requires 1 <= ordered <= 10
    ensures 10 <= Closed(s0, total) <= 100
    ensures NextQuantity(Closed(s0, total), ordered) == Closed(s0, total + ordered)
  {}

  lemma ClosedStart(s0: nat)
    requires 10 <= s0 <= 100
    ensures Closed(s0, 0) == s0
  {}

  /** Over every sequence of updates: the quantity stays in range and is the closed
      form of what has been ordered, and the counters are the sums, all modulo the
      word size. */
  lemma {:induction false} QuantityFollowsYtd(s: Row, lines: seq<Line>)
    requires 10 <= s.quantity <= 100 && s.ytd == s.orderCnt == s.remoteCnt == 0 && InRange(lines)
    ensures 10 <= After(s, lines).quantity <= 100
    ensures After(s, lines).quantity == Closed(s.quantity, Total(lines))
    ensures After(s, lines).ytd == Wrap(Total(lines))
    ensures After(s, lines).orderCnt == Wrap(|lines|) && After(s, lines).remoteCnt == Wrap(Remote(lines))
    ensures After(s, lines).dist == s.dist
  {
    hide Wrap, NextQuantity, Closed;
    if lines == [] {
      ClosedStart(s.quantity);
      WrapSmall(0);
    } else {
      var n := |lines| - 1;
      var rest := lines[..n];
      QuantityFollowsYtd(s, rest);
      ClosedStep(s.quantity, Total(rest), lines[n].ordered);
      ClosedStep(s.quantity, Total(lines), 1);
      WrapAdd(Total(rest), lines[n].ordered);
      WrapAdd(n, 1);
      WrapAdd(Remote(rest), 1);
    }
  }

  /** So as long as the year-to-date column has not wrapped, the two columns of one
      row determine each other. */
  lemma QuantityFromRow(s: Row, lines: seq<Line>)
    requires 10 <= s.quantity <= 100 && s.ytd == s.orderCnt == s.remoteCnt == 0 && InRange(lines)
    requires Total(lines) < TWO64
    ensures After(s, lines).quantity == 10 + (s.quantity - 10 - After(s, lines).ytd) % 91
  {
    hide After, Total, Wrap;
    QuantityFollowsYtd(s, lines);
    WrapSmall(Total(lines));
  }
}
