/** The New-Order transaction over the logical tables: first all locks, then all
    changes. */
module NewOrder {
  import opened Common
  import opened Machine
  import opened TpccKeys
  import Stock

  /** A record that the transaction locks, by its key. */
  datatype Res = Warehouse(key: nat) | District(key: nat) | Customer(key: nat) | Item(key: nat) | StockOf(key: nat)

  /** The lock bits of a word: a writer or a number of readers. */
  datatype Lock = Lock(writer: bool, readers: nat)

  type Locks = map<Res, Lock>

  function LockAt(locks: Locks, r: Res): Lock {
    if r in locks then locks[r] else Lock(false, 0)
  }

  datatype Request = Request(res: Res, write: bool)

  predicate Conflict(l: Lock, write: bool) {
    l.writer || (write && l.readers > 0)
  }

  predicate Clash(a: Request, b: Request) {
    a.res == b.res && (a.write || b.write)
  }

  datatype OrderItem = OrderItem(item: U32, supply: U16, quantity: U16)

  datatype Input = Input(w: U32, d: U32, c: U32, items: seq<OrderItem>, entry: nat, allLocal: bool)

  datatype Order = Order(key: OrderKey, entry: nat, carrier: nat, lineCount: nat, allLocal: bool)

  datatype OrderLine =
    OrderLine(key: LineKey, number: nat, supply: nat, quantity: nat, delivery: nat, amount: real, dist: string)

  /** Records in insertion order, and an index that keeps the last one of each key. */
  datatype Table<R> = Table(index: map<nat, nat>, records: seq<R>)

  function Inserted<R>(t: Table<R>, key: nat, record: R): Table<R> {
    Table(t.index[key := |t.records|], t.records + [record])
  }

  const CARRIER_NULL: nat := 0

  /** What a client of the tables sees, by packed key. Districts hold the next order
      number, items their price. */
  datatype Db = Db(warehouses: set<nat>, districts: map<nat, nat>, customers: set<nat>,
                   items: map<nat, real>, stocks: map<nat, Stock.Row>,
                   newOrders: set<nat>, orders: Table<Order>, lines: Table<OrderLine>)

  predicate Exists(db: Db, r: Res) {
    match r
    case Warehouse(k) => k in db.warehouses
    case District(k) => k in db.districts
    case Customer(k) => k in db.customers
    case Item(k) => k in db.items
    case StockOf(k) => k in db.stocks
  }

  function DistrictKey(input: Input): nat { PackDistrict(input.w, input.d) }

  function StockKey(input: Input, j: nat): nat
    requires j < |input.items|
  {
    PackStock(input.items[j].supply, input.items[j].item)
  }

  /** The records to lock, in the order of the program. */
  function RequestAt(input: Input, k: nat): Request
    requires k < 3 + 2 * |input.items|
  {
    if k == 0 then Request(Warehouse(input.w), true)
    else if k == 1 then Request(District(DistrictKey(input)), true)
    else if k == 2 then Request(Customer(PackCustomer(input.w, input.d, input.c)), true)
    else if k % 2 == 1 then Request(Item(input.items[(k - 3) / 2].item), false)
    else Request(StockOf(StockKey(input, (k - 3) / 2)), true)
  }

  function Requests(input: Input, k: nat): (reqs: seq<Request>)
    requires k <= 3 + 2 * |input.items|
    ensures |reqs| == k && forall i :: 0 <= i < k ==> reqs[i] == RequestAt(input, i)
  {
    seq(k, i requires 0 <= i < k => RequestAt(input, i))
  }

  /** How a request ends when all earlier ones were granted, in terms of the locks
      of the others. `lucky` says whether its compare-and-swap goes through. */
  ghost function Verdict(db: Db, base: Locks, input: Input, k: nat, lucky: bool): Option<TransactionError>
    requires k < 3 + 2 * |input.items|
  {
    var r := RequestAt(input, k);
    if !Exists(db, r.res) then Some(if r.res.Item? then UserAbort else IndexNotFound)
    else if Conflict(LockAt(base, r.res), r.write) || exists i :: 0 <= i < k && Clash(RequestAt(input, i), r) then
      Some(if r.write then WriteLockBusy else ReadLockBusy)
    else if !lucky then Some(LockBusy)
    else None
  }

  /** The first failure among the first `k` requests. */
  ghost function Outcome(db: Db, base: Locks, input: Input, lucky: nat -> bool, k: nat): Option<TransactionError>
    requires k <= 3 + 2 * |input.items|
  {
    if k == 0 then None
    else match Outcome(db, base, input, lucky, k - 1)
         case Some(e) => Some(e)
         case None => Verdict(db, base, input, k - 1, lucky(k - 1))
  }

  /** The lock words are those of the others plus the guards held here. */
  ghost predicate Holds(locks: Locks, base: Locks, held: multiset<Request>) {
    forall r :: HoldsAt(LockAt(locks, r), LockAt(base, r), held[Request(r, true)], held[Request(r, false)])
  }

  predicate HoldsAt(now: Lock, base: Lock, exclusive: nat, shared: nat) {
    && now == Lock(base.writer || exclusive > 0, base.readers + shared)
    && (exclusive > 0 ==> exclusive == 1 && shared == 0 && base == Lock(false, 0))
  }

  /** A request meets a lock exactly when the others or an earlier request stand in
      its way. */
  lemma ConflictIff(locks: Locks, base: Locks, input: Input, k: nat)
    requires k < 3 + 2 * |input.items| && Holds(locks, base, multiset(Requests(input, k)))
    ensures var r := RequestAt(input, k);
            Conflict(LockAt(locks, r.res), r.write) <==>
            Conflict(LockAt(base, r.res), r.write) || exists i :: 0 <= i < k && Clash(RequestAt(input, i), r)
  {
    var r := RequestAt(input, k);
    var reqs := Requests(input, k);
    var held := multiset(reqs);
    assert HoldsAt(LockAt(locks, r.res), LockAt(base, r.res), held[Request(r.res, true)], held[Request(r.res, false)]);
    forall write: bool
      ensures held[Request(r.res, write)] > 0 <==>
                exists i :: 0 <= i < k && RequestAt(input, i) == Request(r.res, write)
    {
      assert Request(r.res, write) in held <==> Request(r.res, write) in reqs;
    }
  }

  lemma Granted(locks: Locks, base: Locks, held: multiset<Request>, r: Request)
    requires Holds(locks, base, held) && !Conflict(LockAt(locks, r.res), r.write)
    ensures var l := LockAt(locks, r.res);
            Holds(locks[r.res := if r.write then Lock(true, l.readers) else Lock(l.writer, l.readers + 1)], base,
                  held + multiset{r})
  {
    var l := LockAt(locks, r.res);
    var locks' := locks[r.res := if r.write then Lock(true, l.readers) else Lock(l.writer, l.readers + 1)];
    var held' := held + multiset{r};
    forall x
      ensures HoldsAt(LockAt(locks', x), LockAt(base, x), held'[Request(x, true)], held'[Request(x, false)])
    {
      assert HoldsAt(LockAt(locks, x), LockAt(base, x), held[Request(x, true)], held[Request(x, false)]);
    }
  }

  lemma Released(locks: Locks, base: Locks, held: multiset<Request>, r: Request)
    requires Holds(locks, base, held) && held[r] > 0
    ensures var l := LockAt(locks, r.res);
            && (!r.write ==> l.readers > 0)
            && Holds(locks[r.res := if r.write then Lock(false, l.readers) else Lock(l.writer, l.readers - 1)], base,
                     held - multiset{r})
  {
    var l := LockAt(locks, r.res);
    assert HoldsAt(l, LockAt(base, r.res), held[Request(r.res, true)], held[Request(r.res, false)]);
    var locks' := locks[r.res := if r.write then Lock(false, l.readers) else Lock(l.writer, l.readers - 1)];
    var held' := held - multiset{r};
    forall x
      ensures HoldsAt(LockAt(locks', x), LockAt(base, x), held'[Request(x, true)], held'[Request(x, false)])
    {
      assert HoldsAt(LockAt(locks, x), LockAt(base, x), held[Request(x, true)], held[Request(x, false)]);
    }
  }

  function KeyOf(input: Input, o: nat): OrderKey {
    OrderKey(input.w, input.d, input.c, o)
  }

  function OrderOf(input: Input, o: nat): Order {
    Order(KeyOf(input, o), input.entry, CARRIER_NULL, |input.items|, input.allLocal)
  }

  function LineKeyOf(input: Input, o: nat, j: nat): LineKey
    requires j < |input.items|
  {
    LineKey(input.w, input.d, o, input.items[j].item)
  }

  function LineWord(input: Input, o: nat, j: nat): nat
    requires j < |input.items|
  {
    PackLine(LineKeyOf(input, o, j))
  }

  function LineOf(db: Db, input: Input, o: nat, j: nat): OrderLine
    requires j < |input.items| && StockKey(input, j) in db.stocks && input.items[j].item in db.items
  {
    var x := input.items[j];
    OrderLine(LineKeyOf(input, o, j), j, x.supply, x.quantity, CARRIER_NULL,
              x.quantity as real * db.items[x.item], db.stocks[StockKey(input, j)].dist)
  }

  function StockAfter(db: Db, input: Input, j: nat): Stock.Row
    requires j < |input.items| && StockKey(input, j) in db.stocks
  {
    Stock.Ordered(db.stocks[StockKey(input, j)], input.items[j].quantity, input.items[j].supply != input.w)
  }

  predicate Complete(db: Db, input: Input) {
    && DistrictKey(input) in db.districts
    && forall j :: 0 <= j < |input.items| ==> StockKey(input, j) in db.stocks && input.items[j].item in db.items
  }

  /** Exactly the stocks of the first `n` lines have changed, each by its own line. */
  ghost predicate StocksUpTo(db: Db, stocks: map<nat, Stock.Row>, input: Input, n: nat)
    requires Complete(db, input) && n <= |input.items|
  {
    && stocks.Keys == db.stocks.Keys
    && (forall j :: 0 <= j < n ==> stocks[StockKey(input, j)] == StockAfter(db, input, j))
    && (forall k | k in db.stocks :: !InOrder(input, n, k) ==> stocks[k] == db.stocks[k])
  }

  predicate InOrder(input: Input, n: nat, key: nat)
    requires n <= |input.items|
  {
    exists j :: 0 <= j < n && StockKey(input, j) == key
  }

  /** Exactly the first `n` lines were added; under each of their keys the index has
      the last such line, and all other keys are as before. */
  ghost predicate LinesUpTo(db: Db, lines: Table<OrderLine>, input: Input, n: nat)
    requires Complete(db, input) && n <= |input.items|
  {
    var o := db.districts[DistrictKey(input)];
    && RecordsUpTo(db, lines.records, input, o, n)
    && IndexUpTo(db.lines, lines.index, input, o, n)
  }

  ghost predicate RecordsUpTo(db: Db, records: seq<OrderLine>, input: Input, o: nat, n: nat)
    requires Complete(db, input) && n <= |input.items|
  {
    && |records| == |db.lines.records| + n
    && db.lines.records <= records
    && (forall j :: 0 <= j < n ==> records[|db.lines.records| + j] == LineOf(db, input, o, j))
  }

  ghost predicate IndexUpTo(t: Table<OrderLine>, index: map<nat, nat>, input: Input, o: nat, n: nat)
    requires n <= |input.items|
  {
    && (forall j :: 0 <= j < n ==> LineWord(input, o, j) in index)
    && (forall j :: 0 <= j < n && LastOf(input, n, j) ==> index[LineWord(input, o, j)] == |t.records| + j)
    && (forall key | key in index && !HasLine(input, o, n, key) :: key in t.index && index[key] == t.index[key])
    && (forall key | key in t.index :: key in index)
  }

  predicate HasLine(input: Input, o: nat, n: nat, key: nat)
    requires n <= |input.items|
  {
    exists j :: 0 <= j < n && LineWord(input, o, j) == key
  }

  /** No later line among the first `n` is for the same item. */
  predicate LastOf(input: Input, n: nat, j: nat)
    requires j < n <= |input.items|
  {
    forall i :: j < i < n ==> input.items[i].item != input.items[j].item
  }

  /** What a committed order with `n` of its lines entered has done. */
  ghost predicate Entered(db: Db, db': Db, input: Input, n: nat)
    requires Complete(db, input) && n <= |input.items|
  {
    var o := db.districts[DistrictKey(input)];
    && db'.warehouses == db.warehouses && db'.customers == db.customers && db'.items == db.items
    && db'.districts == db.districts[DistrictKey(input) := Wrap(o + 1)]
    && db'.newOrders == db.newOrders + {PackNewOrder(KeyOf(input, o))}
    && db'.orders == Inserted(db.orders, PackOrder(KeyOf(input, o)), OrderOf(input, o))
    && StocksUpTo(db, db'.stocks, input, n)
    && LinesUpTo(db, db'.lines, input, n)
  }

  ghost predicate Committed(db: Db, db': Db, input: Input) {
    Complete(db, input) && Entered(db, db', input, |input.items|)
  }

  // What a commit has done, column by column.

  /** The order row has the columns of the input under the district's next number,
      which is bumped; no other district changes. */
  lemma CommittedOrder(db: Db, db': Db, input: Input)
    requires Committed(db, db', input)
    ensures var d := PackDistrict(input.w, input.d);
            && d in db.districts && d in db'.districts && db'.districts[d] == Wrap(db.districts[d] + 1)
            && (forall e | e in db.districts && e != d :: e in db'.districts && db'.districts[e] == db.districts[e])
            && var key := OrderKey(input.w, input.d, input.c, db.districts[d]);
               && db'.newOrders == db.newOrders + {PackNewOrder(key)}
               && |db'.orders.records| == |db.orders.records| + 1 && db.orders.records <= db'.orders.records
               && PackOrder(key) in db'.orders.index && db'.orders.index[PackOrder(key)] == |db.orders.records|
               && var row := db'.orders.records[|db.orders.records|];
                  && row.key == key && row.entry == input.entry && row.carrier == CARRIER_NULL
                  && row.lineCount == |input.items| && row.allLocal == input.allLocal
  {
    hide Wrap, PackDistrict, PackOrder, PackNewOrder, StocksUpTo, LinesUpTo;
  }

  /** Each line agrees with the input, with the price of its item, and with the change
      of its stock. */
  lemma CommittedLine(db: Db, db': Db, input: Input, j: nat)
    requires Committed(db, db', input) && j < |input.items|
    ensures |db'.lines.records| == |db.lines.records| + |input.items|
    ensures var l, x := db'.lines.records[|db.lines.records| + j], input.items[j];
            && l.number == j && l.supply == x.supply && l.quantity == x.quantity && l.delivery == CARRIER_NULL
            && l.key.w == input.w && l.key.d == input.d && l.key.item == x.item
            && PackDistrict(input.w, input.d) in db.districts && l.key.o == db.districts[PackDistrict(input.w, input.d)]
            && l.key.item in db.items && l.amount == l.quantity as real * db.items[l.key.item]
            && var q := PackStock(l.supply, l.key.item);
               && q in db.stocks && q in db'.stocks && l.dist == db.stocks[q].dist == db'.stocks[q].dist
               && db'.stocks[q].ytd == Wrap(db.stocks[q].ytd + l.quantity)
               && db'.stocks[q].orderCnt == Wrap(db.stocks[q].orderCnt + 1)
               && db'.stocks[q].remoteCnt ==
                    (if l.supply != l.key.w then Wrap(db.stocks[q].remoteCnt + 1) else db.stocks[q].remoteCnt)
               && (10 <= db.stocks[q].quantity <= 100 && 1 <= l.quantity <= 10 ==>
                     && 10 <= db'.stocks[q].quantity <= 100
                     && db'.stocks[q].quantity in {db.stocks[q].quantity - l.quantity,
                                                   db.stocks[q].quantity - l.quantity + 91})
  {
    hide Wrap, PackDistrict, PackStock, PackOrder, PackNewOrder, IndexUpTo, Stock.NextQuantity;
    var o := db.districts[DistrictKey(input)];
    assert db'.lines.records[|db.lines.records| + j] == LineOf(db, input, o, j);
    assert db'.stocks[StockKey(input, j)] == StockAfter(db, input, j);
    var quantity := db.stocks[StockKey(input, j)].quantity;
    if 10 <= quantity <= 100 && 1 <= input.items[j].quantity <= 10 {
      Stock.QuantityInRange(quantity, input.items[j].quantity);
    }
  }

  /** A stock that no line is for stays as it was. */
  lemma OtherStocks(db: Db, db': Db, input: Input, q: nat)
    requires Committed(db, db', input) && q in db.stocks
    requires forall j :: 0 <= j < |input.items| ==> PackStock(input.items[j].supply, input.items[j].item) != q
    ensures q in db'.stocks && db'.stocks[q] == db.stocks[q]
  {
    hide Wrap, PackDistrict, PackStock, PackOrder, PackNewOrder, LinesUpTo, StockAfter;
    assert !InOrder(input, |input.items|, q);
  }

  predicate StocksDistinct(input: Input) {
    forall i, j :: 0 <= i < j < |input.items| ==> StockKey(input, i) != StockKey(input, j)
  }

  /** All requests, one by one. */
  ghost predicate AllGranted(db: Db, base: Locks, input: Input, lucky: nat -> bool, n: nat)
    requires n <= 3 + 2 * |input.items|
  {
    forall k :: 0 <= k < n ==> Verdict(db, base, input, k, lucky(k)) == None
  }

  lemma {:induction false} OutcomeIff(db: Db, base: Locks, input: Input, lucky: nat -> bool, n: nat)
    requires n <= 3 + 2 * |input.items|
    ensures Outcome(db, base, input, lucky, n) == None <==> AllGranted(db, base, input, lucky, n)
  {
    hide Verdict;
    if n == 0 {
    } else {
      OutcomeIff(db, base, input, lucky, n - 1);
    }
  }

  /** The record is there and nobody else has it in a conflicting way. */
  predicate Open(db: Db, base: Locks, r: Request) {
    Exists(db, r.res) && !Conflict(LockAt(base, r.res), r.write)
  }

  ghost predicate Clashes(input: Input, k: nat)
    requires k < 3 + 2 * |input.items|
  {
    exists i :: 0 <= i < k && Clash(RequestAt(input, i), RequestAt(input, k))
  }

  lemma VerdictIff(db: Db, base: Locks, input: Input, k: nat, lucky: bool)
    requires k < 3 + 2 * |input.items|
    ensures Verdict(db, base, input, k, lucky) == None <==>
            lucky && Open(db, base, RequestAt(input, k)) && !Clashes(input, k)
  {
    hide RequestAt, Exists, Conflict, Clash;
  }

  /** Without lost races, the transaction gets all its locks exactly when all
      records exist, nobody else is in the way, and no stock is ordered twice. */
  lemma LocksGrantedIff(db: Db, base: Locks, input: Input, lucky: nat -> bool)
    requires forall k :: lucky(k)
    ensures Outcome(db, base, input, lucky, 3 + 2 * |input.items|) == None <==>
            && StocksDistinct(input)
            && forall k :: 0 <= k < 3 + 2 * |input.items| ==> Open(db, base, RequestAt(input, k))
  {
    hide Verdict, Open, RequestAt, Outcome, StocksDistinct, Clashes;
    var n := 3 + 2 * |input.items|;
    OutcomeIff(db, base, input, lucky, n);
    NoClashes(input);
    forall k | 0 <= k < n
      ensures Verdict(db, base, input, k, lucky(k)) == None <==>
                Open(db, base, RequestAt(input, k)) && !Clashes(input, k)
    {
      VerdictIff(db, base, input, k, lucky(k));
    }
  }

  lemma ItemRequests(input: Input, j: nat)
    requires j < |input.items|
    ensures RequestAt(input, 3 + 2 * j) == Request(Item(input.items[j].item), false)
    ensures RequestAt(input, 4 + 2 * j) == Request(StockOf(StockKey(input, j)), true)
  {}

  /** The requests of one order are compatible exactly when its stocks differ. */
  lemma NoClashes(input: Input)
    ensures StocksDistinct(input) <==> forall k :: 0 <= k < 3 + 2 * |input.items| ==> !Clashes(input, k)
  {
    if StocksDistinct(input) {
      forall i, k | 0 <= i < k < 3 + 2 * |input.items|
        ensures !Clash(RequestAt(input, i), RequestAt(input, k))
      {
        NoClash(input, i, k);
      }
    } else {
      var i, j :| 0 <= i < j < |input.items| && StockKey(input, i) == StockKey(input, j);
      ItemRequests(input, i);
      ItemRequests(input, j);
      assert Clash(RequestAt(input, 4 + 2 * i), RequestAt(input, 4 + 2 * j));
      assert Clashes(input, 4 + 2 * j);
    }
  }

  lemma NoClash(input: Input, i: nat, k: nat)
    requires StocksDistinct(input) && i < k < 3 + 2 * |input.items|
    ensures !Clash(RequestAt(input, i), RequestAt(input, k))
  {
    hide PackStock, PackDistrict, PackCustomer;
    var a, b := RequestAt(input, i), RequestAt(input, k);
    if a.res.StockOf? && b.res.StockOf? {
      assert StockKey(input, (i - 3) / 2) != StockKey(input, (k - 3) / 2);
    }
  }

  // What an error means, in terms of the input and the tables alone.

  /** Request `k` is for the item of a line: requests 3, 5, 7 and so on. */
  predicate IsItem(k: nat) { k >= 3 && k % 2 == 1 }

  /** The line that request `k` belongs to. */
  function LineAt(input: Input, k: nat): OrderItem
    requires 3 <= k < 3 + 2 * |input.items|
  {
    input.items[(k - 3) / 2]
  }

  /** The record is not there: the input's warehouse, its district, its customer, and
      then the item and the stock of each line. */
  predicate Absent(db: Db, input: Input, k: nat)
    requires k < 3 + 2 * |input.items|
  {
    if k == 0 then input.w !in db.warehouses
    else if k == 1 then PackDistrict(input.w, input.d) !in db.districts
    else if k == 2 then PackCustomer(input.w, input.d, input.c) !in db.customers
    else if IsItem(k) then LineAt(input, k).item !in db.items
    else PackStock(LineAt(input, k).supply, LineAt(input, k).item) !in db.stocks
  }

  predicate Locked(l: Lock) { l.writer || l.readers > 0 }

  /** Somebody else is in the way: a writer for an item, anybody for the others. */
  predicate Taken(base: Locks, input: Input, k: nat)
    requires k < 3 + 2 * |input.items|
  {
    if k == 0 then Locked(LockAt(base, Warehouse(input.w)))
    else if k == 1 then Locked(LockAt(base, District(PackDistrict(input.w, input.d))))
    else if k == 2 then Locked(LockAt(base, Customer(PackCustomer(input.w, input.d, input.c))))
    else if IsItem(k) then LockAt(base, Item(LineAt(input, k).item)).writer
    else Locked(LockAt(base, StockOf(PackStock(LineAt(input, k).supply, LineAt(input, k).item))))
  }

  /** An earlier line of this order is for the same stock. */
  predicate OrderedBefore(input: Input, k: nat)
    requires k < 3 + 2 * |input.items|
  {
    k >= 3 && !IsItem(k) &&
    exists i :: 0 <= i < (k - 3) / 2 && input.items[i].supply == LineAt(input, k).supply &&
      input.items[i].item == LineAt(input, k).item
  }

  predicate Through(db: Db, base: Locks, input: Input, lucky: nat -> bool, k: nat)
    requires k < 3 + 2 * |input.items|
  {
    !Absent(db, input, k) && !Taken(base, input, k) && !OrderedBefore(input, k) && lucky(k)
  }

  /** Request `k` is the first that does not go through, and the error says why: an
      abort by the user for an item that does not exist, and so on. */
  predicate Blocks(db: Db, base: Locks, input: Input, lucky: nat -> bool, k: nat, e: TransactionError)
    requires k < 3 + 2 * |input.items|
  {
    && (forall i :: 0 <= i < k ==> Through(db, base, input, lucky, i))
    && !Through(db, base, input, lucky, k)
    && (e == UserAbort <==> IsItem(k) && Absent(db, input, k))
    && (e == IndexNotFound <==> !IsItem(k) && Absent(db, input, k))
    && (e == ReadLockBusy <==> IsItem(k) && !Absent(db, input, k) && Taken(base, input, k))
    && (e == WriteLockBusy <==>
        !IsItem(k) && !Absent(db, input, k) && (Taken(base, input, k) || OrderedBefore(input, k)))
    && (e == LockBusy <==>
        !Absent(db, input, k) && !Taken(base, input, k) && !OrderedBefore(input, k) && !lucky(k))
  }

  lemma RequestMeans(db: Db, base: Locks, input: Input, k: nat)
    requires k < 3 + 2 * |input.items|
    ensures var r := RequestAt(input, k);
            && (Exists(db, r.res) <==> !Absent(db, input, k)) && (r.res.Item? <==> IsItem(k))
            && (r.write <==> !IsItem(k)) && (Conflict(LockAt(base, r.res), r.write) <==> Taken(base, input, k))
  {
    hide PackDistrict, PackCustomer, PackStock, LockAt;
  }

  /** Requests of one order clash exactly when a stock is ordered again. */
  lemma ClashMeans(input: Input, k: nat)
    requires k < 3 + 2 * |input.items|
    ensures Clashes(input, k) <==> OrderedBefore(input, k)
  {
    if Clashes(input, k) {
      var i :| 0 <= i < k && Clash(RequestAt(input, i), RequestAt(input, k));
      ClashIsStock(input, i, k);
    }
    if OrderedBefore(input, k) {
      var j := (k - 3) / 2;
      var x := input.items[j];
      var i :| 0 <= i < j && input.items[i].supply == x.supply && input.items[i].item == x.item;
      ItemRequests(input, i);
      ItemRequests(input, j);
      assert Clash(RequestAt(input, 4 + 2 * i), RequestAt(input, k));
    }
  }

  lemma ClashIsStock(input: Input, i: nat, k: nat)
    requires i < k < 3 + 2 * |input.items| && Clash(RequestAt(input, i), RequestAt(input, k))
    ensures OrderedBefore(input, k)
  {
    hide PackStock, PackDistrict, PackCustomer;
    var a, b := LineAt(input, i), LineAt(input, k);
    StockKeysDistinct(a.supply, a.item, b.supply, b.item);
  }

  lemma VerdictMeans(db: Db, base: Locks, input: Input, lucky: nat -> bool, k: nat)
    requires k < 3 + 2 * |input.items|
    ensures var v := Verdict(db, base, input, k, lucky(k));
            && (v == None <==> Through(db, base, input, lucky, k))
            && (v.Some? && (forall i :: 0 <= i < k ==> Through(db, base, input, lucky, i)) ==>
                  Blocks(db, base, input, lucky, k, v.value))
  {
    RequestMeans(db, base, input, k);
    ClashMeans(input, k);
    hide RequestAt, Exists, Conflict, Clash, LockAt, Absent, Taken, OrderedBefore, IsItem;
  }

  /** The outcome without its definition: none exactly when every request goes
      through, and otherwise the reason why the first one did not. */
  lemma {:induction false} OutcomeMeans(db: Db, base: Locks, input: Input, lucky: nat -> bool, n: nat)
    requires n <= 3 + 2 * |input.items|
    ensures Outcome(db, base, input, lucky, n) == None <==>
            forall k :: 0 <= k < n ==> Through(db, base, input, lucky, k)
    ensures var o := Outcome(db, base, input, lucky, n);
            o.Some? ==> exists k :: 0 <= k < n && Blocks(db, base, input, lucky, k, o.value)
  {
    hide Verdict, Through;
    if n == 0 {
    } else {
      OutcomeMeans(db, base, input, lucky, n - 1);
      VerdictMeans(db, base, input, lucky, n - 1);
    }
  }

  /** What the granted locks say about the data. */
  lemma GrantedIsComplete(db: Db, base: Locks, input: Input, lucky: nat -> bool)
    requires Outcome(db, base, input, lucky, 3 + 2 * |input.items|) == None
    ensures Complete(db, input) && StocksDistinct(input)
  {
    hide Verdict, Outcome, StocksDistinct, Clashes, RequestAt;
    var n := 3 + 2 * |input.items|;
    OutcomeIff(db, base, input, lucky, n);
    forall k | 0 <= k < n
      ensures Open(db, base, RequestAt(input, k)) && !Clashes(input, k)
    {
      VerdictIff(db, base, input, k, lucky(k));
    }
    NoClashes(input);
    assert RequestAt(input, 1) == Request(District(DistrictKey(input)), true) by { DistrictRequest(input); }
    forall j | 0 <= j < |input.items|
      ensures StockKey(input, j) in db.stocks && input.items[j].item in db.items
    {
      ItemRequests(input, j);
      assert Open(db, base, RequestAt(input, 3 + 2 * j)) && Open(db, base, RequestAt(input, 4 + 2 * j));
    }
  }

  lemma DistrictRequest(input: Input)
    ensures RequestAt(input, 1) == Request(District(DistrictKey(input)), true)
  {}

  /** Entering one more line. */
  lemma EnterLine(db: Db, mid: Db, db': Db, input: Input, j: nat)
    requires Complete(db, input) && StocksDistinct(input) && j < |input.items| && Entered(db, mid, input, j)
    requires StockKey(input, j) in mid.stocks && input.items[j].item in mid.items
    requires db' == mid.(stocks := mid.stocks[StockKey(input, j) := StockAfter(mid, input, j)],
                         lines := Inserted(mid.lines, LineWord(input, db.districts[DistrictKey(input)], j),
                                           LineOf(mid, input, db.districts[DistrictKey(input)], j)))
    ensures Entered(db, db', input, j + 1)
  {
    hide StocksUpTo, RecordsUpTo, IndexUpTo, StocksDistinct, Stock.Ordered, Wrap, PackLine, PackStock, PackDistrict,
         PackOrder, PackNewOrder;
    var o := db.districts[DistrictKey(input)];
    EnterStock(db, mid.stocks, input, j);
    EnterRecord(db, mid.lines.records, input, o, j);
    EnterKey(db.lines, mid.lines, input, o, j);
    assert StockAfter(mid, input, j) == StockAfter(db, input, j);
    assert LineOf(mid, input, o, j) == LineOf(db, input, o, j);
    assert LinesUpTo(db, db'.lines, input, j + 1);
    assert StocksUpTo(db, db'.stocks, input, j + 1);
  }

  lemma EnterStock(db: Db, stocks: map<nat, Stock.Row>, input: Input, j: nat)
    requires Complete(db, input) && StocksDistinct(input) && j < |input.items| && StocksUpTo(db, stocks, input, j)
    ensures StockKey(input, j) in stocks && stocks[StockKey(input, j)] == db.stocks[StockKey(input, j)]
    ensures StocksUpTo(db, stocks[StockKey(input, j) := StockAfter(db, input, j)], input, j + 1)
  {
    hide Stock.Ordered, PackStock, PackDistrict, Wrap;
    var key := StockKey(input, j);
    assert !InOrder(input, j, key);
    assert stocks[key] == db.stocks[key];
    var stocks' := stocks[key := StockAfter(db, input, j)];
    hide StockAfter;
    forall k | k in db.stocks && !InOrder(input, j + 1, k)
      ensures stocks'[k] == db.stocks[k]
    {
      assert StockKey(input, j) != k;
      assert !InOrder(input, j, k);
    }
  }

  lemma EnterRecord(db: Db, records: seq<OrderLine>, input: Input, o: nat, j: nat)
    requires Complete(db, input) && j < |input.items| && RecordsUpTo(db, records, input, o, j)
    ensures |records| == |db.lines.records| + j
    ensures RecordsUpTo(db, records + [LineOf(db, input, o, j)], input, o, j + 1)
  {
    hide LineOf;
  }

  lemma EnterKey(t: Table<OrderLine>, mid: Table<OrderLine>, input: Input, o: nat, j: nat)
    requires j < |input.items| && IndexUpTo(t, mid.index, input, o, j) && |mid.records| == |t.records| + j
    ensures IndexUpTo(t, mid.index[LineWord(input, o, j) := |mid.records|], input, o, j + 1)
  {
    hide PackLine;
    var index := mid.index[LineWord(input, o, j) := |mid.records|];
    forall i | 0 <= i < j + 1 && LastOf(input, j + 1, i)
      ensures index[LineWord(input, o, i)] == |t.records| + i
    {
      if i < j {
        assert input.items[j].item != input.items[i].item;
        SameOrderLines(input.w, input.d, o, input.items[i].item, input.items[j].item);
        assert LastOf(input, j, i);
      }
    }
    forall key | key in index && !HasLine(input, o, j + 1, key)
      ensures key in t.index && index[key] == t.index[key]
    {
      assert LineWord(input, o, j) != key;
      assert !HasLine(input, o, j, key);
    }
  }

  /** The guards still held before line `j` is entered. */
  ghost function Held(input: Input, j: nat): multiset<Request>
    requires j <= |input.items|
  {
    multiset(Requests(input, 3)) + multiset(Requests(input, 3 + 2 * |input.items|)[3 + 2 * j..])
  }

  lemma HeldStart(input: Input)
    ensures Held(input, 0) == multiset(Requests(input, 3 + 2 * |input.items|))
  {
    hide RequestAt;
    var all := Requests(input, 3 + 2 * |input.items|);
    assert all == Requests(input, 3) + all[3..];
  }

  lemma TwoFewer(m: multiset<Request>, all: seq<Request>, k: nat, a: Request, b: Request)
    requires k + 2 <= |all| && all[k] == a && all[k + 1] == b
    ensures var h := m + multiset(all[k..]);
            && h[a] > 0 && (h - multiset{a})[b] > 0
            && h - multiset{a} - multiset{b} == m + multiset(all[k + 2..])
  {
    assert all[k..] == [a, b] + all[k + 2..];
    assert multiset([a, b]) == multiset{a, b};
  }

  lemma HeldStep(input: Input, j: nat)
    requires j < |input.items|
    ensures var a, b := RequestAt(input, 3 + 2 * j), RequestAt(input, 4 + 2 * j);
            && Held(input, j)[a] > 0 && (Held(input, j) - multiset{a})[b] > 0
            && Held(input, j) - multiset{a} - multiset{b} == Held(input, j + 1)
  {
    hide RequestAt, Requests;
    var all := Requests(input, 3 + 2 * |input.items|);
    TwoFewer(multiset(Requests(input, 3)), all, 3 + 2 * j, RequestAt(input, 3 + 2 * j), RequestAt(input, 4 + 2 * j));
    assert 3 + 2 * (j + 1) == 3 + 2 * j + 2;
  }

  lemma HeldEnd(input: Input)
    ensures Held(input, |input.items|) == multiset(Requests(input, 3))
  {
    var n := 3 + 2 * |input.items|;
    assert Requests(input, n)[n..] == [];
  }

  class Workload {
    var warehouses: set<nat>
    var districts: map<nat, nat>
    var customers: set<nat>
    var items: map<nat, real>
    var stocks: map<nat, Stock.Row>
    var newOrders: set<nat>
    var orders: Table<Order>
    var lines: Table<OrderLine>
    /** The lock bits of all records. */
    var locks: Locks

    ghost function View(): Db
      reads this
    {
      Db(warehouses, districts, customers, items, stocks, newOrders, orders, lines)
    }

    predicate Has(r: Res)
      reads this
    {
      match r
      case Warehouse(k) => k in warehouses
      case District(k) => k in districts
      case Customer(k) => k in customers
      case Item(k) => k in items
      case StockOf(k) => k in stocks
    }

    /** Look the record up and try once to lock it. */
    method TryLock(r: Request, lucky: bool, ghost base: Locks, ghost held: multiset<Request>)
      returns (e: Option<TransactionError>)
      requires Holds(locks, base, held)
      modifies this`locks
      ensures e == if !Exists(View(), r.res) then Some(IndexNotFound)
                   else if Conflict(LockAt(old(locks), r.res), r.write) then
                     Some(if r.write then WriteLockBusy else ReadLockBusy)
                   else if !lucky then Some(LockBusy) else None
      ensures Holds(locks, base, if e == None then held + multiset{r} else held)
    {
      hide Holds;
      if !Has(r.res) { return Some(IndexNotFound); }
      var l := LockAt(locks, r.res);
      if Conflict(l, r.write) { return Some(if r.write then WriteLockBusy else ReadLockBusy); }
      if !lucky { return Some(LockBusy); }
      Granted(locks, base, held, r);
      locks := locks[r.res := if r.write then Lock(true, l.readers) else Lock(l.writer, l.readers + 1)];
      return None;
    }

    /** A guard goes out of scope. */
    method Unlock(r: Request, ghost base: Locks, ghost held: multiset<Request>)
      requires Holds(locks, base, held) && held[r] > 0
      modifies this`locks
      ensures Holds(locks, base, held - multiset{r})
    {
      hide Holds;
      Released(locks, base, held, r);
      var l := LockAt(locks, r.res);
      locks := locks[r.res := if r.write then Lock(false, l.readers) else Lock(l.writer, l.readers - 1)];
    }

    method UnlockAll(guards: seq<Request>, ghost base: Locks)
      requires Holds(locks, base, multiset(guards))
      modifies this`locks
      ensures Holds(locks, base, multiset{})
    {
      hide Holds;
      var i := 0;
      while i < |guards|
        invariant 0 <= i <= |guards| && Holds(locks, base, multiset(guards[i..]))
      {
        assert guards[i..] == [guards[i]] + guards[i + 1..];
        Unlock(guards[i], base, multiset(guards[i..]));
        assert multiset(guards[i..]) - multiset{guards[i]} == multiset(guards[i + 1..]);
        i := i + 1;
      }
      assert guards[i..] == [];
    }

    /** Request `k`; when it fails, the guards taken before it are dropped. */
    method LockNext(input: Input, k: nat, lucky: nat -> bool, ghost base: Locks) returns (e: Option<TransactionError>)
      requires k < 3 + 2 * |input.items| && Acquired(View(), locks, base, input, lucky, k)
      modifies this`locks
      ensures e.Some? ==> Rejected(View(), locks, base, input, lucky, e.value)
      ensures e == None ==> Acquired(View(), locks, base, input, lucky, k + 1)
    {
      hide Holds, Outcome, Conflict, RequestAt, Exists, Clash, LockAt;
      var guards := Requests(input, k);
      RequestsStep(input, k);
      hide Requests;
      ConflictIff(locks, base, input, k);
      OutcomeStep(View(), base, input, lucky, k);
      var req := RequestAt(input, k);
      e := TryLock(req, lucky(k), base, multiset(guards));
      if e == Some(IndexNotFound) && req.res.Item? { e := Some(UserAbort); }
      if e.Some? {
        FirstFailure(View(), base, input, lucky, k + 1, 3 + 2 * |input.items|);
        UnlockAll(guards, base);
      }
    }

    /** Phase 1: warehouse, district and customer, then the item and the stock of
        each line. */
    method AcquireLocks(input: Input, lucky: nat -> bool) returns (e: Option<TransactionError>)
      modifies this`locks
      ensures e.Some? ==> Rejected(View(), locks, old(locks), input, lucky, e.value)
      ensures e == None ==> Acquired(View(), locks, old(locks), input, lucky, 3 + 2 * |input.items|)
    {
      ghost var base := locks;
      NothingHeld(View(), locks, input, lucky);
      hide Acquired, Rejected;
      e := LockNext(input, 0, lucky, base);
      if e.Some? { return; }
      e := LockNext(input, 1, lucky, base);
      if e.Some? { return; }
      e := LockNext(input, 2, lucky, base);
      if e.Some? { return; }
      var j := 0;
      while j < |input.items|
        invariant 0 <= j <= |input.items| && e == None
        invariant Acquired(View(), locks, base, input, lucky, 3 + 2 * j)
      {
        e := LockNext(input, 3 + 2 * j, lucky, base);
        if e.Some? { return; }
        e := LockNext(input, 4 + 2 * j, lucky, base);
        if e.Some? { return; }
        j := j + 1;
      }
    }

    /** All or nothing. On an error the tables are as they were; on success exactly
        the order has been entered. Either way all locks are as they were. It succeeds
        exactly when every request goes through; otherwise the error names what is
        wrong with the first that does not. */
    method NewOrder(input: Input, lucky: nat -> bool) returns (r: Result<(), TransactionError>)
      modifies this
      ensures r.Ok? <==>
              forall k :: 0 <= k < 3 + 2 * |input.items| ==> Through(old(View()), old(locks), input, lucky, k)
      ensures r.Err? ==>
                exists k :: 0 <= k < 3 + 2 * |input.items| &&
                  Blocks(old(View()), old(locks), input, lucky, k, r.error)
      ensures r.Err? ==> Outcome(old(View()), old(locks), input, lucky, 3 + 2 * |input.items|) == Some(r.error)
      ensures r.Ok? ==> Outcome(old(View()), old(locks), input, lucky, 3 + 2 * |input.items|) == None
      ensures r.Err? ==> View() == old(View())
      ensures r.Ok? ==> Committed(old(View()), View(), input)
      ensures forall x :: LockAt(locks, x) == LockAt(old(locks), x)
    {
      hide Holds, Outcome, Requests, StocksDistinct, Complete, Entered, LockAt, Acquired, Rejected, Held, Through,
           Blocks;
      ghost var base := locks;
      ghost var db := View();
      OutcomeMeans(db, base, input, lucky, 3 + 2 * |input.items|);
      var e := AcquireLocks(input, lucky);
      if e.Some? {
        RejectedMeans(db, locks, base, input, lucky, e.value);
        return Err(e.value);
      }
      AcquiredMeans(db, locks, base, input, lucky);
      var o := Begin(input, db);
      EnterLines(input, o, db, base);
      HeldEnd(input);
      UnlockAll(Requests(input, 3), base);
      Unheld(locks, base);
      return Ok(());
    }

    /** The start of phase 2: take the order number and enter the order. */
    method Begin(input: Input, ghost db: Db) returns (o: nat)
      requires View() == db && Complete(db, input)
      modifies this`districts, this`newOrders, this`orders
      ensures o == db.districts[DistrictKey(input)] && Entered(db, View(), input, 0)
    {
      o := districts[DistrictKey(input)];
      districts := districts[DistrictKey(input) := Wrap(o + 1)];
      newOrders := newOrders + {PackNewOrder(KeyOf(input, o))};
      orders := Inserted(orders, PackOrder(KeyOf(input, o)), OrderOf(input, o));
      NoLinesYet(db, View(), input);
    }

    /** The loop of phase 2: update the stock, add the line, drop the two guards. */
    method EnterLines(input: Input, o: nat, ghost db: Db, ghost base: Locks)
      requires Complete(db, input) && StocksDistinct(input) && o == db.districts[DistrictKey(input)]
      requires Entered(db, View(), input, 0) && Holds(locks, base, Held(input, 0))
      modifies this`stocks, this`lines, this`locks
      ensures Entered(db, View(), input, |input.items|) && Holds(locks, base, Held(input, |input.items|))
    {
      hide Holds, Held, Entered, StocksDistinct, Complete;
      var j := 0;
      while j < |input.items|
        invariant 0 <= j <= |input.items|
        invariant Entered(db, View(), input, j) && Holds(locks, base, Held(input, j))
      {
        EnterOne(input, o, j, db);
        DropTwo(input, j, base);
        j := j + 1;
      }
    }

    /** One line: update its stock and add its record. */
    method EnterOne(input: Input, o: nat, j: nat, ghost db: Db)
      requires Complete(db, input) && StocksDistinct(input) && o == db.districts[DistrictKey(input)]
      requires j < |input.items| && Entered(db, View(), input, j)
      modifies this`stocks, this`lines
      ensures Entered(db, View(), input, j + 1)
    {
      hide Entered, StocksDistinct, Stock.Ordered, PackStock, PackLine, PackDistrict;
      ghost var mid := View();
      StillThere(db, mid, input, j);
      var key := StockKey(input, j);
      var x := input.items[j];
      var s := stocks[key];
      var line := OrderLine(LineKeyOf(input, o, j), j, x.supply, x.quantity, CARRIER_NULL,
                            x.quantity as real * items[x.item], s.dist);
      stocks := stocks[key := Stock.Ordered(s, x.quantity, x.supply != input.w)];
      lines := Inserted(lines, LineWord(input, o, j), line);
      assert line == LineOf(mid, input, o, j) && stocks[key] == StockAfter(mid, input, j);
      EnterLine(db, mid, View(), input, j);
    }

    /** The item and the stock guard of a line go out of scope. */
    method DropTwo(input: Input, j: nat, ghost base: Locks)
      requires j < |input.items| && Holds(locks, base, Held(input, j))
      modifies this`locks
      ensures Holds(locks, base, Held(input, j + 1))
    {
      hide Holds, Held, RequestAt;
      HeldStep(input, j);
      ghost var item := RequestAt(input, 3 + 2 * j);
      Unlock(RequestAt(input, 3 + 2 * j), base, Held(input, j));
      Unlock(RequestAt(input, 4 + 2 * j), base, Held(input, j) - multiset{item});
    }
  }

  lemma StillThere(db: Db, mid: Db, input: Input, j: nat)
    requires Complete(db, input) && j < |input.items| && Entered(db, mid, input, j)
    ensures StockKey(input, j) in mid.stocks && input.items[j].item in mid.items
  {}

  lemma Unheld(locks: Locks, base: Locks)
    requires Holds(locks, base, multiset{})
    ensures forall x :: LockAt(locks, x) == LockAt(base, x)
  {
    forall x
      ensures LockAt(locks, x) == LockAt(base, x)
    {
      assert HoldsAt(LockAt(locks, x), LockAt(base, x), 0, 0);
    }
  }

  lemma NoLinesYet(db: Db, mid: Db, input: Input)
    requires Complete(db, input)
    requires var o := db.districts[DistrictKey(input)];
             mid == db.(districts := db.districts[DistrictKey(input) := Wrap(o + 1)],
                        newOrders := db.newOrders + {PackNewOrder(KeyOf(input, o))},
                        orders := Inserted(db.orders, PackOrder(KeyOf(input, o)), OrderOf(input, o)))
    ensures Entered(db, mid, input, 0)
  {}

  /** The first `k` requests were granted and their guards are held. */
  ghost predicate Acquired(db: Db, locks: Locks, base: Locks, input: Input, lucky: nat -> bool, k: nat)
    requires k <= 3 + 2 * |input.items|
  {
    Outcome(db, base, input, lucky, k) == None && Holds(locks, base, multiset(Requests(input, k)))
  }

  /** A request failed with this error and no guard is held. */
  ghost predicate Rejected(db: Db, locks: Locks, base: Locks, input: Input, lucky: nat -> bool, e: TransactionError) {
    Outcome(db, base, input, lucky, 3 + 2 * |input.items|) == Some(e) && Holds(locks, base, multiset{})
  }

  lemma RejectedMeans(db: Db, locks: Locks, base: Locks, input: Input, lucky: nat -> bool, e: TransactionError)
    requires Rejected(db, locks, base, input, lucky, e)
    ensures Outcome(db, base, input, lucky, 3 + 2 * |input.items|) == Some(e)
    ensures forall x :: LockAt(locks, x) == LockAt(base, x)
  {
    hide Outcome, Holds;
    Unheld(locks, base);
  }

  lemma AcquiredMeans(db: Db, locks: Locks, base: Locks, input: Input, lucky: nat -> bool)
    requires Acquired(db, locks, base, input, lucky, 3 + 2 * |input.items|)
    ensures Outcome(db, base, input, lucky, 3 + 2 * |input.items|) == None
    ensures Complete(db, input) && StocksDistinct(input) && Holds(locks, base, Held(input, 0))
  {
    hide Outcome, Holds, Complete, StocksDistinct, Held, Requests;
    GrantedIsComplete(db, base, input, lucky);
    HeldStart(input);
  }

  lemma NothingHeld(db: Db, locks: Locks, input: Input, lucky: nat -> bool)
    ensures Acquired(db, locks, locks, input, lucky, 0)
  {
    assert Requests(input, 0) == [];
  }

  lemma RequestsStep(input: Input, k: nat)
    requires k < 3 + 2 * |input.items|
    ensures multiset(Requests(input, k + 1)) == multiset(Requests(input, k)) + multiset{RequestAt(input, k)}
  {
    assert Requests(input, k + 1) == Requests(input, k) + [RequestAt(input, k)];
  }

  lemma OutcomeStep(db: Db, base: Locks, input: Input, lucky: nat -> bool, k: nat)
    requires k < 3 + 2 * |input.items| && Outcome(db, base, input, lucky, k) == None
    ensures Outcome(db, base, input, lucky, k + 1) == Verdict(db, base, input, k, lucky(k))
  {}

  lemma {:induction false} FirstFailure(db: Db, base: Locks, input: Input, lucky: nat -> bool, k: nat, n: nat)
    requires k <= n <= 3 + 2 * |input.items| && Outcome(db, base, input, lucky, k).Some?
    ensures Outcome(db, base, input, lucky, n) == Outcome(db, base, input, lucky, k)
  {
    if k == n {
    } else {
      FirstFailure(db, base, input, lucky, k, n - 1);
    }
  }
}
