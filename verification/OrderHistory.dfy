/** What any number of New-Order transactions keep, as long as their keys fit into
    their fields: order numbers are used once, no order or line is ever overwritten,
    and orders account for all lines. */
module OrderHistory {
  import opened Common
  import opened Machine
  import opened TpccKeys
  import opened NewOrder

  predicate Below(districts: map<nat, nat>, w: nat, d: nat, o: nat) {
    PackDistrict(w, d) in districts ==> o < districts[PackDistrict(w, d)]
  }

  /** Every order number in use is below the district's next one. */
  ghost predicate Numbered(db: Db) {
    && (forall r | r in db.orders.records :: Below(db.districts, r.key.w, r.key.d, r.key.o))
    && (forall r | r in db.lines.records :: Below(db.districts, r.key.w, r.key.d, r.key.o))
    && (forall n | n in db.newOrders ::
          Below(db.districts, UnpackNewOrder(n).w, UnpackNewOrder(n).d, UnpackNewOrder(n).o))
  }

  /** Every stored key fits into its fields. */
  ghost predicate Fitting(db: Db) {
    && (forall r | r in db.orders.records :: OrderFits(r.key))
    && (forall r | r in db.lines.records :: LineFits(r.key))
  }

  /** The index leads from a word to a record whose key has this word. */
  ghost predicate Indexed(db: Db) {
    && OrdersIndexed(db.orders)
    && LinesIndexed(db.lines)
  }

  ghost predicate OrdersIndexed(t: Table<Order>) {
    forall n | n in t.index :: t.index[n] < |t.records| && PackOrder(t.records[t.index[n]].key) == n
  }

  ghost predicate LinesIndexed(t: Table<OrderLine>) {
    forall n | n in t.index :: t.index[n] < |t.records| && PackLine(t.records[t.index[n]].key) == n
  }

  function LineCounts(orders: seq<Order>): nat {
    if orders == [] then 0 else LineCounts(orders[..|orders| - 1]) + orders[|orders| - 1].lineCount
  }

  /** The line counts of all orders add up to the number of lines. */
  ghost predicate Balanced(db: Db) {
    LineCounts(db.orders.records) == |db.lines.records|
  }

  /** The keys that the next order of this input would get fit into their fields. */
  predicate InputFits(db: Db, input: Input)
    requires DistrictKey(input) in db.districts
  {
    var o := db.districts[DistrictKey(input)];
    && OrderFits(KeyOf(input, o))
    && forall j :: 0 <= j < |input.items| ==> LineFits(LineKeyOf(input, o, j))
  }

  /** A commit whose keys fit: 16 bits for warehouse, customer and order number, 8 for
      the district, 20 for the items. */
  ghost predicate Commit(db: Db, db': Db, input: Input) {
    Committed(db, db', input) && InputFits(db, input)
  }

  /** The words that the order would be entered under are not in use. */
  ghost predicate Fresh(db: Db, input: Input)
    requires DistrictKey(input) in db.districts
  {
    var o := db.districts[DistrictKey(input)];
    && PackOrder(KeyOf(input, o)) !in db.orders.index
    && forall j :: 0 <= j < |input.items| ==> LineWord(input, o, j) !in db.lines.index
  }

  /** If all keys fit, the words of a new order are unused. */
  lemma KeysAreFresh(db: Db, input: Input)
    requires DistrictKey(input) in db.districts && InputFits(db, input)
    requires Numbered(db) && Fitting(db) && Indexed(db)
    ensures Fresh(db, input) && PackNewOrder(KeyOf(input, db.districts[DistrictKey(input)])) !in db.newOrders
  {
    hide PackOrder, PackLine, PackNewOrder, PackDistrict, OrderFits, LineFits, UnpackNewOrder;
    var o := db.districts[DistrictKey(input)];
    var key := KeyOf(input, o);
    OrderKeyIff(key);
    if PackOrder(key) in db.orders.index {
      var r := db.orders.records[db.orders.index[PackOrder(key)]];
      assert Below(db.districts, r.key.w, r.key.d, r.key.o);
      OrderKeysDistinct(r.key, key);
    }
    forall j | 0 <= j < |input.items|
      ensures LineWord(input, o, j) !in db.lines.index
    {
      if LineWord(input, o, j) in db.lines.index {
        var r := db.lines.records[db.lines.index[LineWord(input, o, j)]];
        assert Below(db.districts, r.key.w, r.key.d, r.key.o);
        LineKeysDistinct(r.key, LineKeyOf(input, o, j));
      }
    }
  }

  /** Everything that could be looked up before can be looked up as before. */
  ghost predicate Extends(db: Db, db': Db) {
    && db.orders.records <= db'.orders.records && db.lines.records <= db'.lines.records
    && (forall n | n in db.orders.index :: n in db'.orders.index && db'.orders.index[n] == db.orders.index[n])
    && (forall n | n in db.lines.index :: n in db'.lines.index && db'.lines.index[n] == db.lines.index[n])
  }

  /** Whatever the keys, a commit leaves everything that was there if and only if the
      words of the new order were unused. */
  lemma ExtendsIff(db: Db, db': Db, input: Input)
    requires Committed(db, db', input) && Indexed(db)
    ensures Extends(db, db') <==> Fresh(db, input)
  {
    hide StocksUpTo, Wrap, PackOrder, PackLine, PackNewOrder, PackDistrict;
    var o := db.districts[DistrictKey(input)];
    if Fresh(db, input) {
      forall n | n in db.lines.index
        ensures n in db'.lines.index && db'.lines.index[n] == db.lines.index[n]
      {
        assert !HasLine(input, o, |input.items|, n);
      }
    } else if PackOrder(KeyOf(input, o)) in db.orders.index {
      OrderReplaced(db, db', input);
    } else {
      var j :| 0 <= j < |input.items| && LineWord(input, o, j) in db.lines.index;
      LineReplaced(db, db', input, j);
    }
  }

  lemma CommitExtends(db: Db, db': Db, input: Input)
    requires Commit(db, db', input) && Numbered(db) && Fitting(db) && Indexed(db)
    ensures Extends(db, db')
  {
    hide Entered, InputFits, Extends, Fresh, Numbered, Fitting, Indexed;
    KeysAreFresh(db, input);
    ExtendsIff(db, db', input);
  }

  /** An order entered under a word in use takes over its index entry. */
  lemma OrderReplaced(db: Db, db': Db, input: Input)
    requires Committed(db, db', input) && Indexed(db)
    requires PackOrder(KeyOf(input, db.districts[DistrictKey(input)])) in db.orders.index
    ensures var n := PackOrder(KeyOf(input, db.districts[DistrictKey(input)]));
            n in db'.orders.index && db'.orders.index[n] == |db.orders.records| != db.orders.index[n]
  {
    hide StocksUpTo, LinesUpTo, Wrap, PackOrder, PackNewOrder, PackDistrict;
  }

  lemma LineReplaced(db: Db, db': Db, input: Input, j: nat)
    requires Committed(db, db', input) && Indexed(db) && j < |input.items|
    requires LineWord(input, db.districts[DistrictKey(input)], j) in db.lines.index
    ensures var n := LineWord(input, db.districts[DistrictKey(input)], j);
            n in db'.lines.index && db'.lines.index[n] >= |db.lines.records| > db.lines.index[n]
  {
    hide StocksUpTo, RecordsUpTo, Wrap, PackOrder, PackLine, PackNewOrder, PackDistrict;
    var o := db.districts[DistrictKey(input)];
    var last := LastLine(input, |input.items|, j);
    assert LineWord(input, o, last) == LineWord(input, o, j);
  }

  /** The last of the lines for the same item. */
  ghost function LastLine(input: Input, n: nat, j: nat): (last: nat)
    requires j < n <= |input.items|
    ensures j <= last < n && input.items[last].item == input.items[j].item && LastOf(input, n, last)
    decreases n - j
  {
    if LastOf(input, n, j) then j
    else var i :| j < i < n && input.items[i].item == input.items[j].item; LastLine(input, n, i)
  }

  /** At order number 65536 a customer's order takes the word of the next customer's
      order number 0. If that order is there, looking it up finds the new one. */
  lemma OverwritesAt65536(db: Db, db': Db, input: Input)
    requires Committed(db, db', input) && Indexed(db) && db.districts[DistrictKey(input)] == 0x1_0000
    requires PackOrder(OrderKey(input.w, input.d, input.c + 1, 0)) in db.orders.index
    ensures var n := PackOrder(OrderKey(input.w, input.d, input.c + 1, 0));
            && n in db'.orders.index && db'.orders.index[n] != db.orders.index[n]
            && db'.orders.index[n] < |db'.orders.records|
            && db'.orders.records[db'.orders.index[n]].key == OrderKey(input.w, input.d, input.c, 0x1_0000)
    ensures !Extends(db, db')
  {
    hide StocksUpTo, LinesUpTo, Wrap, PackOrder, PackNewOrder, PackDistrict;
    KeysCollide(input.w, input.d, input.c, 0x1_0000, 0);
    OrderReplaced(db, db', input);
  }

  /** Such a commit exists, from tables that meet every law of a history. */
  lemma OverwriteWitness() returns (db: Db, db': Db, input: Input)
    ensures Consistent(db) && Committed(db, db', input) && !Extends(db, db')
  {
    hide PackOrder, PackNewOrder, PackDistrict, Wrap;
    input := Input(0, 0, 0, [], 0, true);
    var old0 := Order(OrderKey(0, 0, 1, 0), 0, 0, 0, true);
    db := Db({0}, map[DistrictKey(input) := 0x1_0000], {}, map[], map[], {},
             Table(map[PackOrder(old0.key) := 0], [old0]), Table(map[], []));
    db' := db.(districts := db.districts[DistrictKey(input) := Wrap(0x1_0001)],
               newOrders := db.newOrders + {PackNewOrder(KeyOf(input, 0x1_0000))},
               orders := Inserted(db.orders, PackOrder(KeyOf(input, 0x1_0000)), OrderOf(input, 0x1_0000)));
    NoLinesYet(db, db', input);
    assert LineCounts([old0][..0]) == 0;
    OverwritesAt65536(db, db', input);
  }

  lemma CommitNumbered(db: Db, db': Db, input: Input)
    requires Commit(db, db', input) && Numbered(db)
    ensures Numbered(db')
  {
    var o := db.districts[DistrictKey(input)];
    WrapSmall(o + 1);
    OrderKeyIff(KeyOf(input, o));
    hide StocksUpTo, RecordsUpTo, IndexUpTo, Wrap, PackOrder, PackNewOrder, PackDistrict, UnpackNewOrder, LineFits;
    forall r | r in db'.lines.records
      ensures Below(db'.districts, r.key.w, r.key.d, r.key.o)
    {
      NewLine(db, db'.lines.records, input, o, |input.items|, r);
    }
  }

  lemma NewLine(db: Db, records: seq<OrderLine>, input: Input, o: nat, n: nat, r: OrderLine)
    requires Complete(db, input) && n <= |input.items| && RecordsUpTo(db, records, input, o, n)
    requires r in records
    ensures r in db.lines.records || exists j :: 0 <= j < n && r.key == LineKeyOf(input, o, j)
  {
    var i :| 0 <= i < |records| && records[i] == r;
    if i < |db.lines.records| {
      assert db.lines.records[i] == r;
    } else {
      assert r == LineOf(db, input, o, i - |db.lines.records|);
    }
  }

  lemma CommitFitting(db: Db, db': Db, input: Input)
    requires Commit(db, db', input) && Fitting(db)
    ensures Fitting(db')
  {
    hide StocksUpTo, RecordsUpTo, IndexUpTo, Wrap, PackOrder, PackNewOrder, PackDistrict, OrderFits, LineFits;
    var o := db.districts[DistrictKey(input)];
    forall r | r in db'.lines.records
      ensures LineFits(r.key)
    {
      NewLine(db, db'.lines.records, input, o, |input.items|, r);
    }
  }

  /** The index stays right whatever the keys. */
  lemma CommitIndexed(db: Db, db': Db, input: Input)
    requires Committed(db, db', input) && Indexed(db)
    ensures Indexed(db')
  {
    hide StocksUpTo, Wrap, PackOrder, PackLine, PackNewOrder, PackDistrict;
    var o := db.districts[DistrictKey(input)];
    var k := |input.items|;
    forall n | n in db'.lines.index
      ensures db'.lines.index[n] < |db'.lines.records| && PackLine(db'.lines.records[db'.lines.index[n]].key) == n
    {
      if HasLine(input, o, k, n) {
        var j :| 0 <= j < k && LineWord(input, o, j) == n;
        var last := LastLine(input, k, j);
        assert LineWord(input, o, last) == n;
        assert db'.lines.records[|db.lines.records| + last] == LineOf(db, input, o, last);
      }
    }
  }

  lemma CommitBalanced(db: Db, db': Db, input: Input)
    requires Committed(db, db', input) && Balanced(db)
    ensures Balanced(db')
  {
    hide StocksUpTo, IndexUpTo, Wrap, PackOrder, PackLine, PackNewOrder, PackDistrict;
    var orders := db'.orders.records;
    assert orders[..|orders| - 1] == db.orders.records;
  }

  /** A lookup by a key that fits finds a record with exactly this key. */
  lemma LookupIsRight(db: Db, key: OrderKey, line: LineKey)
    requires Fitting(db) && Indexed(db)
    ensures OrderFits(key) && PackOrder(key) in db.orders.index ==>
              db.orders.records[db.orders.index[PackOrder(key)]].key == key
    ensures LineFits(line) && PackLine(line) in db.lines.index ==>
              db.lines.records[db.lines.index[PackLine(line)]].key == line
  {
    hide PackOrder, PackLine, OrderFits, LineFits;
    if PackOrder(key) in db.orders.index {
      OrderKeysDistinct(db.orders.records[db.orders.index[PackOrder(key)]].key, key);
    }
    if PackLine(line) in db.lines.index {
      LineKeysDistinct(db.lines.records[db.lines.index[PackLine(line)]].key, line);
    }
  }

  /** All lines of an order can be found by their keys exactly when its items are
      all different. */
  lemma LinesReachableIff(db: Db, db': Db, input: Input)
    requires Committed(db, db', input)
    ensures (forall j :: 0 <= j < |input.items| ==>
               db'.lines.index[LineWord(input, db.districts[DistrictKey(input)], j)] == |db.lines.records| + j) <==>
            forall i, j :: 0 <= i < j < |input.items| ==> input.items[i].item != input.items[j].item
  {
    hide StocksUpTo, RecordsUpTo, Wrap, PackOrder, PackLine, PackNewOrder, PackDistrict;
    var o := db.districts[DistrictKey(input)];
    var n := |input.items|;
    if forall i, j :: 0 <= i < j < n ==> input.items[i].item != input.items[j].item {
      assert forall j :: 0 <= j < n ==> LastOf(input, n, j);
    } else {
      var i, j :| 0 <= i < j < n && input.items[i].item == input.items[j].item;
      assert LineWord(input, o, i) == LineWord(input, o, j);
    }
  }

  ghost predicate Consistent(db: Db) {
    Numbered(db) && Fitting(db) && Indexed(db) && Balanced(db)
  }

  /** A history of the tables: each call fails and changes nothing, or commits. */
  ghost predicate IsHistory(dbs: seq<Db>, calls: seq<Option<Input>>) {
    && |dbs| == |calls| + 1
    && forall i :: 0 <= i < |calls| ==>
         match calls[i]
         case None => dbs[i + 1] == dbs[i]
         case Some(input) => Commit(dbs[i], dbs[i + 1], input)
  }

  /** How many of the first `n` calls committed an order of a district. */
  function OrdersIn(calls: seq<Option<Input>>, n: nat, w: nat, d: nat): nat
    requires n <= |calls|
  {
    if n == 0 then 0
    else OrdersIn(calls, n - 1, w, d) +
         (if calls[n - 1].Some? && calls[n - 1].value.w == w && calls[n - 1].value.d == d then 1 else 0)
  }

  /** The district has its record, and its next number is `o`. */
  predicate NextNumber(db: Db, w: nat, d: nat, o: nat) {
    PackDistrict(w, d) in db.districts && db.districts[PackDistrict(w, d)] == o
  }

  /** Over every history the tables stay consistent, and the next order number of
      each district counts the orders of this district and of no other. */
  lemma {:induction false} HistoryConsistent(dbs: seq<Db>, calls: seq<Option<Input>>, n: nat, w: nat, d: nat, o: nat)
    requires IsHistory(dbs, calls) && n <= |calls| && Consistent(dbs[0])
    ensures Consistent(dbs[n])
    ensures DistrictFits(w, d) && NextNumber(dbs[0], w, d, o) ==>
              NextNumber(dbs[n], w, d, o + OrdersIn(calls, n, w, d))
  {
    hide Numbered, Fitting, Indexed, Balanced, Committed, InputFits, PackDistrict, NextNumber, DistrictFits;
    if n == 0 {
    } else {
      HistoryConsistent(dbs, calls, n - 1, w, d, o);
      if calls[n - 1].Some? {
        var input := calls[n - 1].value;
        CommitNumbered(dbs[n - 1], dbs[n], input);
        CommitFitting(dbs[n - 1], dbs[n], input);
        CommitIndexed(dbs[n - 1], dbs[n], input);
        CommitBalanced(dbs[n - 1], dbs[n], input);
        if DistrictFits(w, d) && NextNumber(dbs[0], w, d, o) {
          CommitCounts(dbs[n - 1], dbs[n], input, w, d, o + OrdersIn(calls, n - 1, w, d));
        }
      }
    }
  }

  lemma CommitCounts(db: Db, db': Db, input: Input, w: nat, d: nat, o: nat)
    requires Commit(db, db', input) && DistrictFits(w, d) && NextNumber(db, w, d, o)
    ensures NextNumber(db', w, d, o + (if input.w == w && input.d == d then 1 else 0))
  {
    WrapSmall(db.districts[DistrictKey(input)] + 1);
    DistrictKeysDistinct(input.w, input.d, w, d);
    hide Wrap, StocksUpTo, LinesUpTo, PackOrder, PackNewOrder, PackDistrict, LineFits;
  }

  /** No order and no line found at some point of a history is ever lost, replaced
      or changed by a later New-Order. */
  lemma {:induction false} NothingOverwritten(dbs: seq<Db>, calls: seq<Option<Input>>, i: nat, j: nat)
    requires IsHistory(dbs, calls) && i <= j <= |calls| && Consistent(dbs[0])
    ensures Extends(dbs[i], dbs[j])
  {
    hide Numbered, Fitting, Indexed, Balanced, Commit;
    if i == j {
    } else {
      NothingOverwritten(dbs, calls, i, j - 1);
      HistoryConsistent(dbs, calls, j - 1, 0, 0, 0);
      if calls[j - 1].Some? {
        CommitExtends(dbs[j - 1], dbs[j], calls[j - 1].value);
      }
    }
  }
}
