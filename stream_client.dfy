/**
 * The reconnecting price-stream client behind the `useWebSocket` hook.
 * The transport is abstract: the socket's `open`, `message` and `close`
 * notifications, the reconnect timer firing and the hook's effects are
 * events, each a method of `Client`. A closed socket schedules a reconnect
 * with exponential backoff while fewer than five attempts have been used;
 * an opened socket resets the count and subscribes to its symbols.
 */
module StreamClient {
  import opened Wrappers
  import opened Thunks
  import opened StockData

  const MaxReconnectAttempts: nat := 5
  const BaseDelayMs: nat := 1000
  const MaxDelayMs: nat := 30000

  // ---------------------------------------------------------------------
  // Backoff policy
  // ---------------------------------------------------------------------

  function Pow2(k: nat): (r: nat)
    ensures r >= 1
    ensures k > 0 ==> r % 2 == 0
  {
    if k == 0 then 1 else 2 * Pow2(k - 1)
  }

  lemma {:induction false} Pow2Monotone(j: nat, k: nat)
    requires j <= k
    ensures Pow2(j) <= Pow2(k)
  {
    if j < k {
      Pow2Monotone(j, k - 1);
    }
  }

  /** `Math.min(1000 * Math.pow(2, k), 30000)` milliseconds. */
  function Backoff(k: nat): (d: nat)
    ensures BaseDelayMs <= d <= MaxDelayMs
    ensures d < MaxDelayMs ==> d == BaseDelayMs * Pow2(k)
  {
    if BaseDelayMs * Pow2(k) < MaxDelayMs then BaseDelayMs * Pow2(k) else MaxDelayMs
  }

  /** The delays after the counter reaches 1, 2, 3, 4 and 5. */
  lemma BackoffSchedule()
    ensures Backoff(1) == 2000 && Backoff(2) == 4000 && Backoff(3) == 8000
    ensures Backoff(4) == 16000 && Backoff(5) == 30000
  {
    assert Pow2(5) == 32;
  }

  /** A later attempt never waits less. */
  lemma BackoffMonotone(j: nat, k: nat)
    requires j <= k
    ensures Backoff(j) <= Backoff(k)
  {
    Pow2Monotone(j, k);
  }

  /** From the fifth attempt on the delay is at the ceiling. */
  lemma BackoffCapped(k: nat)
    requires k >= 5
    ensures Backoff(k) == MaxDelayMs
  {
    Pow2Monotone(5, k);
    assert Pow2(5) == 32;
  }

  // ---------------------------------------------------------------------
  // The reconnect rule of `onclose`
  // ---------------------------------------------------------------------

  /** The counter after a close, and the delay of the reconnect it schedules, if any. */
  datatype CloseOutcome = CloseOutcome(attempts: nat, delay: Option<nat>)

  /** `if (attempts < 5) { attempts++; schedule(Backoff(attempts)) }`. */
  function AfterClose(attempts: nat): (r: CloseOutcome)
    ensures r.delay.Some? <==> attempts < MaxReconnectAttempts
    ensures r.delay.Some? ==> r.attempts == attempts + 1 && r.delay.value == Backoff(attempts + 1)
    ensures r.delay.None? ==> r.attempts == attempts
    ensures attempts <= MaxReconnectAttempts ==> r.attempts <= MaxReconnectAttempts
  {
    if attempts < MaxReconnectAttempts then CloseOutcome(attempts + 1, Some(Backoff(attempts + 1)))
    else CloseOutcome(attempts, None)
  }

  /** The reconnect delays scheduled by `n` consecutive closes with no open in between. */
  function CloseRun(attempts: nat, n: nat): (ds: seq<Option<nat>>)
    ensures |ds| == n
    decreases n
  {
    if n == 0 then []
    else
      var r := AfterClose(attempts);
      [r.delay] + CloseRun(r.attempts, n - 1)
  }

  /**
   * Starting from `attempts`, the first `5 - attempts` closes schedule the
   * growing delays and every later close schedules nothing.
   */
  lemma {:induction false} CloseRunGivesUp(attempts: nat, n: nat)
    requires attempts <= MaxReconnectAttempts
    ensures forall j :: 0 <= j < n && j < MaxReconnectAttempts - attempts ==>
      CloseRun(attempts, n)[j] == Some(Backoff(attempts + j + 1))
    ensures forall j :: MaxReconnectAttempts - attempts <= j < n ==> CloseRun(attempts, n)[j] == None
    decreases n
  {
    if n > 0 {
      var r := AfterClose(attempts);
      CloseRunGivesUp(r.attempts, n - 1);
      var ds := CloseRun(attempts, n);
      assert ds == [r.delay] + CloseRun(r.attempts, n - 1);
      forall j | 0 < j < n
        ensures ds[j] == CloseRun(r.attempts, n - 1)[j - 1]
      {
      }
    }
  }

  /** From a fresh counter: 2, 4, 8, 16 and 30 seconds, then no further reconnect. */
  lemma CloseRunFromZero()
    ensures CloseRun(0, 6) == [Some(2000), Some(4000), Some(8000), Some(16000), Some(30000), None]
  {
    CloseRunGivesUp(0, 6);
    BackoffSchedule();
  }

  // ---------------------------------------------------------------------
  // Tick frames
  // ---------------------------------------------------------------------

  /**
   * An inbound message after `JSON.parse`: unparseable text, or a value whose
   * `s`, `p` and `c` fields are present or not (a parsed `null`, number or
   * array has none of them).
   */
  datatype Inbound = Unparseable | Parsed(s: Option<string>, p: Option<real>, c: Option<real>)

  /**
   * What a message produces. `DivideByZero` is a frame the source accepts
   * with `p == c`, whose percentage `c / (p - c) * 100` has no real value.
   */
  datatype FrameOutcome = Dropped | Dispatched(tick: Tick) | DivideByZero(symbol: string, price: real, change: real)

  predicate TruthyNumber(x: Option<real>)
  {
    x.Some? && x.value != 0.0
  }

  /** `data && data.s && data.p && data.c`. */
  predicate Accepted(f: Inbound)
  {
    f.Parsed? && Truthy(f.s) && TruthyNumber(f.p) && TruthyNumber(f.c)
  }

  function ParseFrame(f: Inbound): (o: FrameOutcome)
    ensures o.Dropped? <==> !Accepted(f)
    ensures o.DivideByZero? <==> Accepted(f) && f.p.value == f.c.value
    ensures o.Dispatched? ==>
      o.tick.symbol == f.s.value && o.tick.price == f.p.value && o.tick.change == f.c.value
      && o.tick.changePercent * (o.tick.price - o.tick.change) == 100.0 * o.tick.change
  {
    if !Accepted(f) then Dropped
    else if f.p.value == f.c.value then DivideByZero(f.s.value, f.p.value, f.c.value)
    else
      var price, change := f.p.value, f.c.value;
      Dispatched(Tick(f.s.value, price, change, change / (price - change) * 100.0))
  }

  /** Zero prices and zero changes are falsy, so such frames are dropped even when well formed. */
  lemma ZeroFieldsAreDropped(symbol: string, x: real)
    ensures ParseFrame(Parsed(Some(symbol), Some(0.0), Some(x))).Dropped?
    ensures ParseFrame(Parsed(Some(symbol), Some(x), Some(0.0))).Dropped?
    ensures ParseFrame(Unparseable).Dropped?
  {
  }

  // ---------------------------------------------------------------------
  // The client
  // ---------------------------------------------------------------------

  datatype ReadyState = Connecting | Open | Closed

  /** A socket made by `connect`, with the symbol list its handlers captured. */
  datatype Socket = Socket(state: ReadyState, symbols: seq<string>)

  /** A control frame sent upstream. */
  datatype Frame = SubscribeFrame(symbols: seq<string>) | UnsubscribeFrame(symbols: seq<string>)

  /** A pending reconnect: its delay and the symbol list of the `connect` it will call. */
  datatype Timer = Timer(delayMs: nat, symbols: seq<string>)

  class Client {
    /** The hook's current `symbols` argument. */
    var symbols: seq<string>
    /** `wsRef.current`. */
    var socket: Option<Socket>
    /** `reconnectAttempts.current`. */
    var attempts: nat
    /** The timer `reconnectTimeoutRef.current` holds, while it has neither fired nor been cleared. */
    var timer: Option<Timer>
    /** Every control frame sent, oldest first. */
    var sent: seq<Frame>
    ghost predicate Valid()
      reads this
    {
      attempts <= MaxReconnectAttempts
    }

    /** `isConnected`. */
    predicate IsOpen()
      reads this
    {
      socket.Some? && socket.value.state == Open
    }

    constructor (symbols: seq<string>)
      ensures Valid()
      ensures this.symbols == symbols && socket == None && attempts == 0 && timer == None && sent == []
    {
      this.symbols := symbols;
      socket, attempts, timer, sent := None, 0, None, [];
    }

    /** `connect`, as created while the hook's argument was `captured`: a no-op only on an open socket. */
    method Connect(captured: seq<string>)
      requires Valid()
      modifies this`socket
      ensures Valid()
      ensures old(IsOpen()) ==> socket == old(socket)
      ensures !old(IsOpen()) ==> socket == Some(Socket(Connecting, captured))
    {
      if IsOpen() {
        return;
      }
      socket := Some(Socket(Connecting, captured));
    }

    /** The socket opened: reset the counter and subscribe to the captured symbols, if any. */
    method OnOpen()
      requires Valid() && socket.Some? && socket.value.state == Connecting
      modifies this`socket, this`attempts, this`sent
      ensures Valid() && attempts == 0
      ensures socket == Some(old(socket.value).(state := Open))
      ensures var syms := old(socket.value.symbols);
        sent == old(sent) + if |syms| > 0 then [SubscribeFrame(syms)] else []
    {
      socket := Some(socket.value.(state := Open));
      attempts := 0;
      if |socket.value.symbols| > 0 {
        sent := sent + [SubscribeFrame(socket.value.symbols)];
      }
    }

    /**
     * A message arrived: an accepted frame is dispatched as `updateStockPrice`
     * to `store`; anything else changes nothing and raises nothing.
     */
    method OnMessage(f: Inbound, store: StockStore) returns (o: FrameOutcome)
      requires AllPriced(store.myStocks)
      modifies store`watchlist, store`myStocks, store`stockListSocket
      ensures o == ParseFrame(f)
      ensures o.Dispatched? ==>
        && store.watchlist == TickWatchlist(old(store.watchlist), o.tick)
        && store.myStocks == TickPositions(old(store.myStocks), o.tick)
        && store.stockListSocket == TickSocket(old(store.stockListSocket), o.tick)
      ensures !o.Dispatched? ==> unchanged(store)
      ensures AllPriced(store.myStocks)
    {
      o := ParseFrame(f);
      if o.Dispatched? {
        store.UpdateStockPrice(o.tick);
      }
    }

    /** The socket closed: schedule a reconnect while attempts remain, counting it first. */
    method OnClose()
      requires Valid() && socket.Some? && socket.value.state != Closed
      modifies this`socket, this`attempts, this`timer
      ensures Valid()
      ensures socket == Some(old(socket.value).(state := Closed))
      ensures attempts == AfterClose(old(attempts)).attempts
      ensures AfterClose(old(attempts)).delay.Some? ==>
        timer == Some(Timer(AfterClose(old(attempts)).delay.value, old(socket.value.symbols)))
      ensures AfterClose(old(attempts)).delay.None? ==> timer == old(timer)
    {
      socket := Some(socket.value.(state := Closed));
      if attempts < MaxReconnectAttempts {
        attempts := attempts + 1;
        var delay := Backoff(attempts);
        timer := Some(Timer(delay, socket.value.symbols));
      }
    }

    /** `onerror` only logs. */
    method OnError()
      ensures unchanged(this)
    {
    }

    /** The pending reconnect fires and calls the `connect` that scheduled it. */
    method TimerFires()
      requires Valid() && timer.Some?
      modifies this`timer, this`socket
      ensures Valid() && timer == None
      ensures old(IsOpen()) ==> socket == old(socket)
      ensures !old(IsOpen()) ==> socket == Some(Socket(Connecting, old(timer.value.symbols)))
    {
      var captured := timer.value.symbols;
      timer := None;
      Connect(captured);
    }

    /** Cancels the pending reconnect and closes and drops the socket; the counter is kept. */
    method Disconnect()
      requires Valid()
      modifies this`timer, this`socket
      ensures Valid() && timer == None && socket == None
    {
      timer := None;
      if socket.Some? {
        socket := None;
      }
    }

    /** Sends `{subscribe: newSymbols}` when the socket is open, and nothing otherwise. */
    method Subscribe(newSymbols: seq<string>)
      requires Valid()
      modifies this`sent
      ensures Valid()
      ensures sent == old(sent) + if IsOpen() then [SubscribeFrame(newSymbols)] else []
    {
      if IsOpen() {
        sent := sent + [SubscribeFrame(newSymbols)];
      }
    }

    /** Sends `{unsubscribe: symbolsToRemove}` when the socket is open, and nothing otherwise. */
    method Unsubscribe(symbolsToRemove: seq<string>)
      requires Valid()
      modifies this`sent
      ensures Valid()
      ensures sent == old(sent) + if IsOpen() then [UnsubscribeFrame(symbolsToRemove)] else []
    {
      if IsOpen() {
        sent := sent + [UnsubscribeFrame(symbolsToRemove)];
      }
    }

    // --- the hook's inputs and effects ----------------------------------

    /** The hook is rendered with a new `symbols` argument. */
    method SetSymbols(newSymbols: seq<string>)
      requires Valid()
      modifies this`symbols
      ensures Valid() && symbols == newSymbols
    {
      symbols := newSymbols;
    }

    /** The first effect: connect when there is something to subscribe to. */
    method ConnectionEffect()
      requires Valid()
      modifies this`socket
      ensures Valid()
      ensures |symbols| == 0 ==> socket == old(socket)
      ensures |symbols| > 0 && old(IsOpen()) ==> socket == old(socket)
      ensures |symbols| > 0 && !old(IsOpen()) ==> socket == Some(Socket(Connecting, symbols))
    {
      if |symbols| > 0 {
        Connect(symbols);
      }
    }

    /** The first effect's cleanup. */
    method ConnectionEffectCleanup()
      requires Valid()
      modifies this`timer, this`socket
      ensures Valid() && timer == None && socket == None
    {
      Disconnect();
    }

    /** The second effect: on an open socket, re-send the whole current symbol list. */
    method SubscriptionEffect()
      requires Valid()
      modifies this`sent
      ensures Valid()
      ensures sent == old(sent) + if IsOpen() then [SubscribeFrame(symbols)] else []
    {
      if IsOpen() {
        Subscribe(symbols);
      }
    }
  }

  /**
   * A connection that keeps failing: after the first socket and five
   * scheduled reconnects, each of which closes before opening, the sixth
   * close schedules nothing.
   */
  method ReconnectGivesUp(syms: seq<string>) returns (c: Client)
    ensures c.attempts == MaxReconnectAttempts && c.timer == None
    ensures c.socket == Some(Socket(Closed, syms))
  {
    c := new Client(syms);
    c.Connect(syms);
    var n := 0;
    while n < MaxReconnectAttempts
      invariant 0 <= n <= MaxReconnectAttempts
      invariant c.Valid() && c.attempts == n && c.timer == None
      invariant c.socket == Some(Socket(Connecting, syms))
    {
      c.OnClose();
      assert c.timer == Some(Timer(Backoff(n + 1), syms));
      c.TimerFires();
      n := n + 1;
    }
    c.OnClose();
  }
}
