/**
 * The portfolio slice of the store: the watchlist, the held positions, the
 * raw last-price table and the cash account, and the reducers that change
 * them. A price tick is fanned out to the first watchlist item, the first
 * position and the first raw row carrying its symbol; a position's profit
 * and loss is recomputed from the tick's price in the same step.
 */
module StockData {
  import opened Wrappers
  import opened Thunks

  // ---------------------------------------------------------------------
  // Data model
  // ---------------------------------------------------------------------

  /** A quote row, as kept in the raw last-price table. */
  datatype Stock = Stock(
    symbol: string,
    name: string,
    price: real,
    change: real,
    changePercent: real,
    volume: Option<real>,
    marketCap: Option<real>,
    dayHigh: Option<real>,
    dayLow: Option<real>,
    lastUpdate: Option<string>)

  /** A watchlist entry: a quote plus the server's id and the time it was added. */
  datatype WatchlistItem = WatchlistItem(id: string, addedAt: string, quote: Stock)

  datatype AssetClass = Equity | Commodity

  /** A held position. Its `pnl` and `pnlPercent` are derived from `currentPrice`. */
  datatype Position = Position(
    id: string,
    symbol: string,
    assetClass: AssetClass,
    quantity: real,
    avgPrice: real,
    currentPrice: real,
    pnl: real,
    pnlPercent: real)

  datatype Side = Buy | Sell
  datatype OrderType = Market | Limit
  datatype OrderStatus = OrderPending | Executed | Cancelled

  datatype Order = Order(
    id: string,
    symbol: string,
    side: Side,
    orderType: OrderType,
    quantity: real,
    price: Option<real>,
    status: OrderStatus,
    createdAt: string,
    executedAt: Option<string>)

  /** A cash movement; `channel` is the payment method ("card", "bank", ...). */
  datatype Transaction = Transaction(
    id: string,
    kind: string,
    amount: real,
    channel: string,
    status: string,
    createdAt: string)

  /** A record the slice stores and never inspects (history rows, payment methods), kept as its JSON text. */
  type Blob = string

  /** The payload of `updateStockPrice`. */
  datatype Tick = Tick(symbol: string, price: real, change: real, changePercent: real)

  /** `payload.data?.newBalance` and `payload.data?.transaction` of a deposit or withdrawal. */
  datatype FundsResult = FundsResult(newBalance: Option<real>, transaction: Option<Transaction>)

  /** The fields of the `getPaymentInfo` payload; `None` stands for a falsy field. */
  datatype PaymentInfo = PaymentInfo(
    balance: Option<real>,
    transactions: Option<seq<Transaction>>,
    paymentMethods: Option<seq<Blob>>)

  // ---------------------------------------------------------------------
  // Thunk classification
  // ---------------------------------------------------------------------

  datatype StockThunk =
    | GetWatchList | AddToWatchlist | RemoveFromWatchlist | GetMyStocks | GetMyCommodities
    | GetStockHistory | BuyStock | SellStock | Deposit | Withdraw | GetPaymentInfo | GetQuotes

  /** The thunks whose guard is `response.status && response.data`; the others test `status` only. */
  predicate NeedsData(t: StockThunk)
  {
    t in {GetWatchList, GetMyStocks, GetMyCommodities, GetStockHistory, GetPaymentInfo, GetQuotes}
  }

  /** The fallback text each thunk rejects with when the envelope has no message. */
  function Fallback(t: StockThunk): string
  {
    match t
    case GetWatchList => "Failed to get watchlist"
    case AddToWatchlist => "Failed to add to watchlist"
    case RemoveFromWatchlist => "Failed to remove from watchlist"
    case GetMyStocks => "Failed to get stocks"
    case GetMyCommodities => "Failed to get commodities"
    case GetStockHistory => "Failed to get stock history"
    case BuyStock => "Failed to place buy order"
    case SellStock => "Failed to place sell order"
    case Deposit => "Deposit failed"
    case Withdraw => "Withdrawal failed"
    case GetPaymentInfo => "Failed to get payment info"
    case GetQuotes => "Failed to get quotes"
  }

  /**
   * Each thunk's shape: the data thunks return `response.data`,
   * `removeFromWatchlist` returns the id it was given, and the rest return
   * the whole envelope.
   */
  function Shape(t: StockThunk): (sh: ThunkShape)
    ensures sh.needsData <==> NeedsData(t)
    ensures sh.needsData <==> sh.returned == ResponseData
    ensures sh.returned == ItsArgument <==> t == RemoveFromWatchlist
    ensures sh.fallback == Fallback(t) && sh.fallback != ""
  {
    var returned := if NeedsData(t) then ResponseData else if t == RemoveFromWatchlist then ItsArgument else WholeResponse;
    ThunkShape(NeedsData(t), returned, Fallback(t))
  }

  /**
   * What the reducers may rely on: a fulfilled data thunk hands over data
   * that is present, the remove thunk hands over its own id, and every
   * rejection (from the envelope or from a throw) carries a non-empty text.
   */
  lemma SettledPayloads<D>(t: StockThunk, resp: Response<D>, arg: string, thrown: Option<string>)
    ensures var s := Settle(Shape(t), resp, arg);
      && (s.Fulfilled? && NeedsData(t) ==> resp.data.Some? && s.payload == Body(Some(resp.data.value)))
      && (s.Fulfilled? && t == RemoveFromWatchlist ==> s.payload == Argument(arg))
      && (s.Rejected? ==> s.reason != "")
    ensures SettleThrown<Payload<D>>(thrown, Fallback(t)).reason != ""
  {
  }

  // ---------------------------------------------------------------------
  // Locating an entry: Array.prototype.findIndex
  // ---------------------------------------------------------------------

  function WatchSymbol(w: WatchlistItem): string { w.quote.symbol }
  function PositionSymbol(p: Position): string { p.symbol }
  function StockSymbol(s: Stock): string { s.symbol }
  function WatchId(w: WatchlistItem): string { w.id }

  /** The index of the first element whose key is `k`, or -1 when there is none. */
  function FirstIndex<T>(s: seq<T>, key: T -> string, k: string): (i: int)
    ensures -1 <= i < |s|
    ensures i == -1 <==> forall j :: 0 <= j < |s| ==> key(s[j]) != k
    ensures 0 <= i ==> key(s[i]) == k && forall j :: 0 <= j < i ==> key(s[j]) != k
    decreases |s|
  {
    if |s| == 0 then -1
    else if key(s[0]) == k then 0
    else
      var i := FirstIndex(s[1..], key, k);
      assert forall j :: 0 <= j < |s| - 1 ==> s[1..][j] == s[j + 1];
      if i == -1 then -1 else i + 1
  }

  /** `findIndex`, as the reducers run it: a left-to-right scan. */
  method FindIndex<T>(s: seq<T>, key: T -> string, k: string) returns (i: int)
    ensures i == FirstIndex(s, key, k)
  {
    i := 0;
    while i < |s|
      invariant 0 <= i <= |s|
      invariant forall j :: 0 <= j < i ==> key(s[j]) != k
    {
      if key(s[i]) == k {
        return;
      }
      i := i + 1;
    }
    i := -1;
  }

  /** The first match depends only on the keys: sequences with the same keys have the same first match. */
  lemma {:induction false} FirstIndexSameKeys<T>(s: seq<T>, u: seq<T>, key: T -> string, k: string)
    requires |s| == |u|
    requires forall j :: 0 <= j < |s| ==> key(s[j]) == key(u[j])
    ensures FirstIndex(s, key, k) == FirstIndex(u, key, k)
  {
    if |s| > 0 && key(s[0]) != k {
      assert forall j :: 0 <= j < |s| - 1 ==> s[1..][j] == s[j + 1] && u[1..][j] == u[j + 1];
      FirstIndexSameKeys(s[1..], u[1..], key, k);
    }
  }

  // ---------------------------------------------------------------------
  // Applying one tick
  // ---------------------------------------------------------------------

  /** A quote after a tick: its price, change and percentage are the tick's, everything else is kept. */
  function Requote(s: Stock, t: Tick): (r: Stock)
    ensures r.price == t.price && r.change == t.change && r.changePercent == t.changePercent
    ensures r.(price := s.price, change := s.change, changePercent := s.changePercent) == s
  {
    s.(price := t.price, change := t.change, changePercent := t.changePercent)
  }

  /** The invariant of a position: its P&L figures agree with its current price. */
  ghost predicate Consistent(p: Position)
    requires p.avgPrice != 0.0
  {
    && p.pnl == (p.currentPrice - p.avgPrice) * p.quantity
    && p.pnlPercent == (p.currentPrice - p.avgPrice) / p.avgPrice * 100.0
  }

  /** A position revalued at `price`: current price and both P&L figures change together, nothing else. */
  function Revalue(p: Position, price: real): (r: Position)
    requires p.avgPrice != 0.0
    ensures r.(currentPrice := p.currentPrice, pnl := p.pnl, pnlPercent := p.pnlPercent) == p
    ensures r.currentPrice == price && Consistent(r)
  {
    var pnl := (price - p.avgPrice) * p.quantity;
    var pnlPercent := (price - p.avgPrice) / p.avgPrice * 100.0;
    p.(currentPrice := price, pnl := pnl, pnlPercent := pnlPercent)
  }

  /** Revaluing at the price a position already carries changes nothing. */
  lemma RevalueIdempotent(p: Position, price: real)
    requires p.avgPrice != 0.0
    ensures Revalue(Revalue(p, price), price) == Revalue(p, price)
  {
  }

  /** The tick can be applied to the positions: the first one it hits has a nonzero average price. */
  predicate CanPrice(ps: seq<Position>, symbol: string)
  {
    var i := FirstIndex(ps, PositionSymbol, symbol);
    i == -1 || ps[i].avgPrice != 0.0
  }

  /** Every position has a nonzero average price. */
  predicate AllPriced(ps: seq<Position>)
  {
    forall j :: 0 <= j < |ps| ==> ps[j].avgPrice != 0.0
  }

  /** The watchlist after a tick: only the first item with the tick's symbol is requoted. */
  function TickWatchlist(w: seq<WatchlistItem>, t: Tick): (r: seq<WatchlistItem>)
    ensures |r| == |w|
    ensures var i := FirstIndex(w, WatchSymbol, t.symbol);
      && (forall j :: 0 <= j < |w| && j != i ==> r[j] == w[j])
      && (0 <= i ==> r[i].id == w[i].id && r[i].addedAt == w[i].addedAt && r[i].quote == Requote(w[i].quote, t))
    ensures FirstIndex(w, WatchSymbol, t.symbol) == -1 ==> r == w
  {
    var i := FirstIndex(w, WatchSymbol, t.symbol);
    if i == -1 then w else w[i := w[i].(quote := Requote(w[i].quote, t))]
  }

  /** The positions after a tick: only the first position with the tick's symbol is revalued. */
  function TickPositions(ps: seq<Position>, t: Tick): (r: seq<Position>)
    requires CanPrice(ps, t.symbol)
    ensures |r| == |ps|
    ensures var i := FirstIndex(ps, PositionSymbol, t.symbol);
      && (forall j :: 0 <= j < |ps| && j != i ==> r[j] == ps[j])
      && (0 <= i ==> r[i] == Revalue(ps[i], t.price))
    ensures forall j :: 0 <= j < |ps| ==>
      r[j].symbol == ps[j].symbol && r[j].avgPrice == ps[j].avgPrice && r[j].quantity == ps[j].quantity
    ensures FirstIndex(ps, PositionSymbol, t.symbol) == -1 ==> r == ps
  {
    var i := FirstIndex(ps, PositionSymbol, t.symbol);
    if i == -1 then ps else ps[i := Revalue(ps[i], t.price)]
  }

  /** The raw price table after a tick: the first row with the symbol is requoted; no row is ever added. */
  function TickSocket(s: seq<Stock>, t: Tick): (r: seq<Stock>)
    ensures |r| == |s|
    ensures var i := FirstIndex(s, StockSymbol, t.symbol);
      && (forall j :: 0 <= j < |s| && j != i ==> r[j] == s[j])
      && (0 <= i ==> r[i] == Requote(s[i], t))
    ensures FirstIndex(s, StockSymbol, t.symbol) == -1 ==> r == s
  {
    var i := FirstIndex(s, StockSymbol, t.symbol);
    if i == -1 then s else s[i := Requote(s[i], t)]
  }

  /** Applying the same tick twice leaves the watchlist as applying it once. */
  lemma TickWatchlistIdempotent(w: seq<WatchlistItem>, t: Tick)
    ensures TickWatchlist(TickWatchlist(w, t), t) == TickWatchlist(w, t)
  {
    var r := TickWatchlist(w, t);
    FirstIndexSameKeys(r, w, WatchSymbol, t.symbol);
  }

  /** Applying the same tick twice leaves the positions as applying it once. */
  lemma TickPositionsIdempotent(ps: seq<Position>, t: Tick)
    requires CanPrice(ps, t.symbol)
    ensures CanPrice(TickPositions(ps, t), t.symbol)
    ensures TickPositions(TickPositions(ps, t), t) == TickPositions(ps, t)
  {
    var r := TickPositions(ps, t);
    FirstIndexSameKeys(r, ps, PositionSymbol, t.symbol);
    var i := FirstIndex(ps, PositionSymbol, t.symbol);
    if i != -1 {
      RevalueIdempotent(ps[i], t.price);
      assert r[i := r[i]] == r;
    }
  }

  /** Applying the same tick twice leaves the raw price table as applying it once. */
  lemma TickSocketIdempotent(s: seq<Stock>, t: Tick)
    ensures TickSocket(TickSocket(s, t), t) == TickSocket(s, t)
  {
    var r := TickSocket(s, t);
    FirstIndexSameKeys(r, s, StockSymbol, t.symbol);
  }

  /** A tick keeps every consistent position consistent, the one it revalues included. */
  lemma TickKeepsPositionsConsistent(ps: seq<Position>, t: Tick)
    requires AllPriced(ps)
    requires forall j :: 0 <= j < |ps| ==> Consistent(ps[j])
    ensures AllPriced(TickPositions(ps, t))
    ensures forall j :: 0 <= j < |ps| ==> Consistent(TickPositions(ps, t)[j])
  {
  }

  // ---------------------------------------------------------------------
  // Removing from the watchlist: `filter(item => item.id !== id)`
  // ---------------------------------------------------------------------

  /** The watchlist without the items whose id is `id`, the rest in their order. */
  function WithoutId(w: seq<WatchlistItem>, id: string): (r: seq<WatchlistItem>)
    ensures |r| <= |w|
    ensures forall x :: x in r <==> x in w && x.id != id
    ensures (forall j :: 0 <= j < |w| ==> w[j].id != id) ==> r == w
  {
    if w == [] then []
    else
      var rest := WithoutId(w[1..], id);
      assert forall x :: x in w <==> x == w[0] || x in w[1..];
      if w[0].id != id then [w[0]] + rest else rest
  }

  /** Exactly the items carrying `id` are removed, each other item as often as it occurred. */
  lemma {:induction false} WithoutIdCounts(w: seq<WatchlistItem>, id: string, x: WatchlistItem)
    ensures multiset(WithoutId(w, id))[x] == if x.id == id then 0 else multiset(w)[x]
  {
    if w != [] {
      assert w == [w[0]] + w[1..];
      WithoutIdCounts(w[1..], id, x);
    }
  }

  /** Filtering distributes over concatenation, so the kept items keep their relative order. */
  lemma {:induction false} WithoutIdAppend(a: seq<WatchlistItem>, b: seq<WatchlistItem>, id: string)
    ensures WithoutId(a + b, id) == WithoutId(a, id) + WithoutId(b, id)
  {
    if a == [] {
      assert a + b == b;
    } else {
      var ab := a + b;
      assert ab[0] == a[0];
      assert ab[1..] == a[1..] + b;
      WithoutIdAppend(a[1..], b, id);
      if a[0].id != id {
        calc {
          WithoutId(ab, id);
          [a[0]] + WithoutId(a[1..] + b, id);
          [a[0]] + (WithoutId(a[1..], id) + WithoutId(b, id));
          ([a[0]] + WithoutId(a[1..], id)) + WithoutId(b, id);
          WithoutId(a, id) + WithoutId(b, id);
        }
      } else {
        calc {
          WithoutId(ab, id);
          WithoutId(a[1..] + b, id);
          WithoutId(a[1..], id) + WithoutId(b, id);
          WithoutId(a, id) + WithoutId(b, id);
        }
      }
    }
  }

  // ---------------------------------------------------------------------
  // Demonstration data seeded by `checkAndAddMockData`
  // ---------------------------------------------------------------------

  const SeedBalance: real := 10000.0

  function SeedQuote(symbol: string, name: string, price: real, change: real, changePercent: real, volume: real): Stock
  {
    Stock(symbol, name, price, change, changePercent, Some(volume), None, None, None, None)
  }

  /** The three seeded watchlist items; `now` is the `new Date().toISOString()` the source reads. */
  function SeedWatchlist(now: string): (w: seq<WatchlistItem>)
    ensures |w| == 3
    ensures forall j :: 0 <= j < |w| ==> w[j].addedAt == now && w[j].quote.price > 0.0
    ensures forall i, j :: 0 <= i < j < |w| ==> w[i].id != w[j].id && WatchSymbol(w[i]) != WatchSymbol(w[j])
  {
    [ WatchlistItem("1", now, SeedQuote("AAPL", "Apple Inc.", 175.43, 2.15, 1.24, 50000000.0)),
      WatchlistItem("2", now, SeedQuote("GOOGL", "Alphabet Inc.", 142.56, -1.23, -0.85, 30000000.0)),
      WatchlistItem("3", now, SeedQuote("MSFT", "Microsoft Corporation", 378.91, 3.45, 0.92, 40000000.0)) ]
  }

  const SeedPositions: seq<Position> :=
    [ Position("1", "AAPL", Equity, 100.0, 150.00, 175.43, 2543.00, 16.95),
      Position("2", "GOOGL", Equity, 50.0, 140.00, 142.56, 128.00, 1.83) ]

  function SeedTransactions(now: string): (ts: seq<Transaction>)
    ensures |ts| == 2 && ts[0].id != ts[1].id
    ensures forall j :: 0 <= j < |ts| ==> ts[j].kind == "deposit" && ts[j].status == "completed" && ts[j].createdAt == now
    ensures ts[0].amount + ts[1].amount == SeedBalance
  {
    [ Transaction("1", "deposit", 5000.0, "card", "completed", now),
      Transaction("2", "deposit", 5000.0, "bank", "completed", now) ]
  }

  /**
   * The seeded positions carry the exact profit for their price, and their
   * percentages are that figure rounded to two decimals (so not exactly
   * Consistent); the seeded transactions add up to the seeded balance.
   */
  lemma SeedDataAgrees(now: string)
    ensures forall j :: 0 <= j < |SeedPositions| ==>
      var p := SeedPositions[j];
      p.avgPrice != 0.0
      && p.pnl == (p.currentPrice - p.avgPrice) * p.quantity
      && -0.005 <= p.pnlPercent - (p.currentPrice - p.avgPrice) / p.avgPrice * 100.0 <= 0.005
    ensures SeedTransactions(now)[0].amount + SeedTransactions(now)[1].amount == SeedBalance
  {
    var p0, p1 := SeedPositions[0], SeedPositions[1];
    assert (p0.currentPrice - p0.avgPrice) / p0.avgPrice * 100.0 == 2543.0 / 150.0;
    assert (p1.currentPrice - p1.avgPrice) / p1.avgPrice * 100.0 == 256.0 / 140.0;
  }

  // ---------------------------------------------------------------------
  // The slice state and its reducers
  // ---------------------------------------------------------------------

  /** The watchlist block of `updateStockPrice`: find the first match, then requote it in place. */
  method TickWatchlistScan(w: seq<WatchlistItem>, t: Tick) returns (r: seq<WatchlistItem>)
    ensures r == TickWatchlist(w, t)
  {
    r := w;
    var i := FindIndex(w, WatchSymbol, t.symbol);
    if i != -1 {
      var item := w[i];
      r := w[i := item.(quote := Requote(item.quote, t))];
    }
  }

  /** The positions block of `updateStockPrice`: find the first match, then recompute its P&L. */
  method TickPositionsScan(ps: seq<Position>, t: Tick) returns (r: seq<Position>)
    requires CanPrice(ps, t.symbol)
    ensures r == TickPositions(ps, t)
  {
    r := ps;
    var i := FindIndex(ps, PositionSymbol, t.symbol);
    if i != -1 {
      var p := ps[i];
      var pnl := (t.price - p.avgPrice) * p.quantity;
      var pnlPercent := (t.price - p.avgPrice) / p.avgPrice * 100.0;
      r := ps[i := p.(currentPrice := t.price, pnl := pnl, pnlPercent := pnlPercent)];
      assert r[i] == Revalue(p, t.price);
    }
  }

  /** The raw-table block of `updateStockPrice`: find the first match, then requote it; never insert. */
  method TickSocketScan(s: seq<Stock>, t: Tick) returns (r: seq<Stock>)
    ensures r == TickSocket(s, t)
  {
    r := s;
    var i := FindIndex(s, StockSymbol, t.symbol);
    if i != -1 {
      r := s[i := Requote(s[i], t)];
    }
  }

  class StockStore {
    var watchlist: seq<WatchlistItem>
    var myStocks: seq<Position>
    var myCommodities: seq<Position>
    var orders: seq<Order>
    var stockHistory: seq<Blob>
    var stockListSocket: seq<Stock>
    var loading: bool
    var error: Option<string>
    var watchlistFailed: bool
    var balance: real
    var transactions: seq<Transaction>
    var paymentMethods: seq<Blob>

    /** `initialState`. */
    constructor ()
      ensures watchlist == [] && myStocks == [] && myCommodities == [] && orders == []
      ensures stockHistory == [] && stockListSocket == [] && transactions == [] && paymentMethods == []
      ensures !loading && error == None && !watchlistFailed && balance == 0.0
    {
      watchlist, myStocks, myCommodities, orders := [], [], [], [];
      stockHistory, stockListSocket := [], [];
      loading, error, watchlistFailed := false, None, false;
      balance, transactions, paymentMethods := 0.0, [], [];
    }

    method SetStockListSocket(payload: seq<Stock>)
      modifies this`stockListSocket
      ensures stockListSocket == payload
    {
      stockListSocket := payload;
    }

    /**
     * One tick, fanned out to the three collections. Every other field is
     * outside the frame, so `myCommodities`, `orders` and `balance` are
     * never touched.
     */
    method UpdateStockPrice(t: Tick)
      requires CanPrice(myStocks, t.symbol)
      modifies this`watchlist, this`myStocks, this`stockListSocket
      ensures watchlist == TickWatchlist(old(watchlist), t)
      ensures myStocks == TickPositions(old(myStocks), t)
      ensures stockListSocket == TickSocket(old(stockListSocket), t)
    {
      var w := TickWatchlistScan(watchlist, t);
      var ps := TickPositionsScan(myStocks, t);
      var raw := TickSocketScan(stockListSocket, t);
      watchlist, myStocks, stockListSocket := w, ps, raw;
    }

    method ClearError()
      modifies this`error
      ensures error == None
    {
      error := None;
    }

    /**
     * Seeds each empty part with demonstration data and leaves the others
     * alone. Afterwards none of the three guards holds, so a second call
     * changes nothing.
     */
    method CheckAndAddMockData(now: string)
      modifies this`watchlist, this`myStocks, this`balance, this`transactions
      ensures watchlist == if |old(watchlist)| == 0 then SeedWatchlist(now) else old(watchlist)
      ensures myStocks == if |old(myStocks)| == 0 then SeedPositions else old(myStocks)
      ensures old(balance) == 0.0 ==> balance == SeedBalance && transactions == SeedTransactions(now)
      ensures old(balance) != 0.0 ==> balance == old(balance) && transactions == old(transactions)
      ensures |watchlist| != 0 && |myStocks| != 0 && balance != 0.0
    {
      if |watchlist| == 0 {
        watchlist := SeedWatchlist(now);
      }
      if |myStocks| == 0 {
        myStocks := SeedPositions;
      }
      if balance == 0.0 {
        balance := SeedBalance;
        transactions := SeedTransactions(now);
      }
    }

    // --- extraReducers ---------------------------------------------------

    /** The `pending` case of every thunk. */
    method Pending(t: StockThunk)
      modifies this`loading, this`error
      ensures loading && error == None
    {
      loading := true;
      error := None;
    }

    /** The `rejected` case of every thunk; only `getWatchList` also raises `watchlistFailed`. */
    method Rejected(t: StockThunk, reason: string)
      modifies this`loading, this`error, this`watchlistFailed
      ensures !loading && error == Some(reason)
      ensures watchlistFailed == if t == GetWatchList then true else old(watchlistFailed)
    {
      loading := false;
      error := Some(reason);
      if t == GetWatchList {
        watchlistFailed := true;
      }
    }

    method GetWatchListFulfilled(payload: seq<WatchlistItem>)
      modifies this`loading, this`watchlist, this`watchlistFailed
      ensures !loading && watchlist == payload && !watchlistFailed
    {
      loading := false;
      watchlist := payload;
      watchlistFailed := false;
    }

    /** The `fulfilled` case of the thunks whose payload the slice ignores. */
    method Acknowledged(t: StockThunk)
      requires t in {AddToWatchlist, BuyStock, SellStock, GetQuotes}
      modifies this`loading
      ensures !loading
    {
      loading := false;
    }

    method RemoveFromWatchlistFulfilled(id: string)
      modifies this`loading, this`watchlist
      ensures !loading && watchlist == WithoutId(old(watchlist), id)
    {
      loading := false;
      watchlist := WithoutId(watchlist, id);
    }

    method GetMyStocksFulfilled(payload: seq<Position>)
      modifies this`loading, this`myStocks
      ensures !loading && myStocks == payload
    {
      loading := false;
      myStocks := payload;
    }

    method GetMyCommoditiesFulfilled(payload: seq<Position>)
      modifies this`loading, this`myCommodities
      ensures !loading && myCommodities == payload
    {
      loading := false;
      myCommodities := payload;
    }

    method GetStockHistoryFulfilled(payload: seq<Blob>)
      modifies this`loading, this`stockHistory
      ensures !loading && stockHistory == payload
    {
      loading := false;
      stockHistory := payload;
    }

    /**
     * Shared by the deposit and withdrawal cases: a truthy new balance
     * replaces the balance (so 0 is ignored) and a returned transaction is
     * put in front of the existing ones.
     */
    method ApplyFunds(r: FundsResult)
      modifies this`balance, this`transactions
      ensures balance == if r.newBalance.Some? && r.newBalance.value != 0.0 then r.newBalance.value else old(balance)
      ensures transactions == if r.transaction.Some? then [r.transaction.value] + old(transactions) else old(transactions)
      ensures r.transaction.Some? ==> transactions[0] == r.transaction.value && transactions[1..] == old(transactions)
    {
      if r.newBalance.Some? && r.newBalance.value != 0.0 {
        balance := r.newBalance.value;
      }
      if r.transaction.Some? {
        transactions := [r.transaction.value] + transactions;
      }
    }

    method DepositFulfilled(r: FundsResult)
      modifies this`loading, this`balance, this`transactions
      ensures !loading
      ensures balance == if r.newBalance.Some? && r.newBalance.value != 0.0 then r.newBalance.value else old(balance)
      ensures transactions == if r.transaction.Some? then [r.transaction.value] + old(transactions) else old(transactions)
    {
      loading := false;
      ApplyFunds(r);
    }

    method WithdrawFulfilled(r: FundsResult)
      modifies this`loading, this`balance, this`transactions
      ensures !loading
      ensures balance == if r.newBalance.Some? && r.newBalance.value != 0.0 then r.newBalance.value else old(balance)
      ensures transactions == if r.transaction.Some? then [r.transaction.value] + old(transactions) else old(transactions)
    {
      loading := false;
      ApplyFunds(r);
    }

    /** `balance || 0`, `transactions || []`, `paymentMethods || []`. */
    method GetPaymentInfoFulfilled(info: PaymentInfo)
      modifies this`loading, this`balance, this`transactions, this`paymentMethods
      ensures !loading
      ensures balance == if info.balance.Some? then info.balance.value else 0.0
      ensures transactions == if info.transactions.Some? then info.transactions.value else []
      ensures paymentMethods == if info.paymentMethods.Some? then info.paymentMethods.value else []
    {
      loading := false;
      balance := if info.balance.Some? then info.balance.value else 0.0;
      transactions := if info.transactions.Some? then info.transactions.value else [];
      paymentMethods := if info.paymentMethods.Some? then info.paymentMethods.value else [];
    }
  }

  /** Applying the same tick twice leaves the store as applying it once. */
  method UpdateStockPriceTwice(s: StockStore, t: Tick)
    requires CanPrice(s.myStocks, t.symbol)
    modifies s`watchlist, s`myStocks, s`stockListSocket
    ensures s.watchlist == TickWatchlist(old(s.watchlist), t)
    ensures s.myStocks == TickPositions(old(s.myStocks), t)
    ensures s.stockListSocket == TickSocket(old(s.stockListSocket), t)
  {
    TickPositionsIdempotent(s.myStocks, t);
    TickWatchlistIdempotent(s.watchlist, t);
    TickSocketIdempotent(s.stockListSocket, t);
    s.UpdateStockPrice(t);
    s.UpdateStockPrice(t);
  }

  /** A tick whose symbol is in none of the collections leaves the store as it was. */
  method UpdateStockPriceAbsent(s: StockStore, t: Tick)
    requires FirstIndex(s.watchlist, WatchSymbol, t.symbol) == -1
    requires FirstIndex(s.myStocks, PositionSymbol, t.symbol) == -1
    requires FirstIndex(s.stockListSocket, StockSymbol, t.symbol) == -1
    modifies s`watchlist, s`myStocks, s`stockListSocket
    ensures unchanged(s)
  {
    s.UpdateStockPrice(t);
  }

  /** Seeding twice gives the state of seeding once. */
  method CheckAndAddMockDataTwice(s: StockStore, now: string)
    modifies s`watchlist, s`myStocks, s`balance, s`transactions
    ensures s.watchlist == if |old(s.watchlist)| == 0 then SeedWatchlist(now) else old(s.watchlist)
    ensures s.myStocks == if |old(s.myStocks)| == 0 then SeedPositions else old(s.myStocks)
    ensures old(s.balance) == 0.0 ==> s.balance == SeedBalance && s.transactions == SeedTransactions(now)
    ensures old(s.balance) != 0.0 ==> s.balance == old(s.balance) && s.transactions == old(s.transactions)
  {
    s.CheckAndAddMockData(now);
    s.CheckAndAddMockData(now);
  }

  /**
   * One `getWatchList` round: the pending case, the settlement of the
   * envelope, then the fulfilled or rejected case with what it settled with.
   */
  method GetWatchListRound(st: StockStore, resp: Response<seq<WatchlistItem>>)
    modifies st`loading, st`error, st`watchlist, st`watchlistFailed
    ensures !st.loading
    ensures resp.status && resp.data.Some? ==>
      st.watchlist == resp.data.value && !st.watchlistFailed && st.error == None
    ensures !(resp.status && resp.data.Some?) ==>
      && st.watchlist == old(st.watchlist) && st.watchlistFailed
      && st.error == Some(Reason(resp.message, "Failed to get watchlist")) && st.error.value != ""
  {
    st.Pending(GetWatchList);
    var s := Settle(Shape(GetWatchList), resp, "");
    if s.Fulfilled? {
      st.GetWatchListFulfilled(s.payload.data.value);
    } else {
      st.Rejected(GetWatchList, s.reason);
    }
  }

  /**
   * One `removeFromWatchlist(itemId)` round: on success the watchlist loses
   * exactly the items with that id; on failure it is untouched.
   */
  method RemoveFromWatchlistRound(st: StockStore, resp: Response<Blob>, itemId: string)
    modifies st`loading, st`error, st`watchlist, st`watchlistFailed
    ensures !st.loading
    ensures resp.status ==> st.watchlist == WithoutId(old(st.watchlist), itemId) && st.error == None
    ensures !resp.status ==>
      && st.watchlist == old(st.watchlist)
      && st.error == Some(Reason(resp.message, "Failed to remove from watchlist"))
    ensures st.watchlistFailed == old(st.watchlistFailed)
  {
    st.Pending(RemoveFromWatchlist);
    var s := Settle(Shape(RemoveFromWatchlist), resp, itemId);
    if s.Fulfilled? {
      st.RemoveFromWatchlistFulfilled(s.payload.arg);
    } else {
      st.Rejected(RemoveFromWatchlist, s.reason);
    }
  }
}
