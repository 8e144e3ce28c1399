/**
 * The price-stream manager of lib/websocket.ts: the module variables `socket`,
 * `reconnectTimeout` and `priceUpdateCallback`, the entry points `connectWebSocket`,
 * `disconnectWebSocket` and `addSymbolToStream`, the socket's `onopen`, `onmessage` and
 * `onclose` handlers, and the subscription URL built from the saved symbols.
 *
 * The WebSocket transport and the timer queue are modelled abstractly: every socket ever
 * created is kept with its ready state, the runtime's pending timers are a map from handle
 * to what the timer will do, and events (a socket opening or closing, a frame arriving, a
 * timer firing) are methods the environment calls. The symbols read back from storage are
 * an input.
 */
module PriceStream {
  import opened Wrappers
  import Portfolio

  // ---------------------------------------------------------------------------
  // Subscription symbols and the stream URL
  // ---------------------------------------------------------------------------

  /** Subscribed when no saved symbols are found. */
  const DefaultSymbols: seq<string> := ["btcusdt", "ethusdt", "bnbusdt", "adausdt", "dogeusdt"]

  /** The combined-stream endpoint; the stream names follow it. */
  const StreamBase: string := "wss://stream.binance.com:9443/stream?streams="

  /** `RECONNECT_DELAY`, in milliseconds. */
  const ReconnectDelay: nat := 5000

  /** `toLowerCase` on one character (ASCII letters only). */
  function LowerChar(c: char): char
  {
    if 'A' <= c <= 'Z' then (c as int + 32) as char else c
  }

  /** `toLowerCase` (ASCII letters only). */
  function ToLower(s: string): string
  {
    seq(|s|, i requires 0 <= i < |s| => LowerChar(s[i]))
  }

  /** Lower-casing leaves no upper-case letter, keeps the length and changes nothing else. */
  lemma ToLowerIsLowerCase(s: string)
    ensures |ToLower(s)| == |s|
    ensures forall i :: 0 <= i < |s| ==> !('A' <= ToLower(s)[i] <= 'Z')
    ensures forall i :: 0 <= i < |s| && !('A' <= s[i] <= 'Z') ==> ToLower(s)[i] == s[i]
    ensures ToLower(ToLower(s)) == ToLower(s)
  {
  }

  /**
   * The symbols to subscribe: the saved assets' symbols lower-cased, in order, or the
   * default list when none are saved.
   */
  function SubscriptionSymbols(saved: seq<string>): (r: seq<string>)
    ensures r != []
    ensures saved == [] ==> r == DefaultSymbols
    ensures saved != [] ==> |r| == |saved| && forall i :: 0 <= i < |saved| ==> r[i] == ToLower(saved[i])
  {
    var symbols := seq(|saved|, i requires 0 <= i < |saved| => ToLower(saved[i]));
    if |symbols| == 0 then DefaultSymbols else symbols
  }

  /** The stream names: each symbol with "@ticker" appended. */
  function StreamNames(symbols: seq<string>): (r: seq<string>)
    ensures |r| == |symbols|
    ensures forall i :: 0 <= i < |symbols| ==> r[i] == symbols[i] + "@ticker"
  {
    seq(|symbols|, i requires 0 <= i < |symbols| => symbols[i] + "@ticker")
  }

  /** `parts.join(sep)`. */
  function Join(parts: seq<string>, sep: char): string
  {
    if |parts| == 0 then ""
    else if |parts| == 1 then parts[0]
    else parts[0] + [sep] + Join(parts[1..], sep)
  }

  /** `s.split(sep)`: the pieces between separators; always at least one. */
  function Split(s: string, sep: char): (r: seq<string>)
    ensures |r| >= 1
  {
    if s == [] then [[]]
    else
      var rest := Split(s[1..], sep);
      if s[0] == sep then [[]] + rest else [[s[0]] + rest[0]] + rest[1..]
  }

  /** A piece without the separator splits to itself. */
  lemma {:induction false} SplitWithoutSeparator(a: string, sep: char)
    requires sep !in a
    ensures Split(a, sep) == [a]
  {
    if a != [] {
      SplitWithoutSeparator(a[1..], sep);
      assert [a[0]] + a[1..] == a;
    }
  }

  /** Splitting stops at the first separator. */
  lemma {:induction false} SplitAtFirstSeparator(a: string, rest: string, sep: char)
    requires sep !in a
    ensures Split(a + [sep] + rest, sep) == [a] + Split(rest, sep)
  {
    var s := a + [sep] + rest;
    if a == [] {
      assert s[1..] == rest;
    } else {
      assert s[1..] == a[1..] + [sep] + rest;
      SplitAtFirstSeparator(a[1..], rest, sep);
      assert [a[0]] + a[1..] == a;
    }
  }

  /** Splitting a join of separator-free pieces gives the pieces back. */
  lemma {:induction false} SplitJoinRoundTrip(parts: seq<string>, sep: char)
    requires |parts| >= 1
    requires forall i :: 0 <= i < |parts| ==> sep !in parts[i]
    ensures Split(Join(parts, sep), sep) == parts
  {
    if |parts| == 1 {
      SplitWithoutSeparator(parts[0], sep);
    } else {
      SplitJoinRoundTrip(parts[1..], sep);
      SplitAtFirstSeparator(parts[0], Join(parts[1..], sep), sep);
      assert [parts[0]] + parts[1..] == parts;
    }
  }

  /** The URL `connectWebSocket` opens for the given saved symbols. */
  function StreamUrl(saved: seq<string>): string
  {
    StreamBase + Join(StreamNames(SubscriptionSymbols(saved)), '/')
  }

  /**
   * The URL is the endpoint followed by exactly one "<symbol>@ticker" stream name per
   * subscribed symbol, separated by "/" (for symbols that contain no "/").
   */
  lemma StreamUrlListsEachSymbol(saved: seq<string>)
    requires forall i :: 0 <= i < |saved| ==> '/' !in saved[i]
    ensures var url := StreamUrl(saved); var symbols := SubscriptionSymbols(saved);
      && url[..|StreamBase|] == StreamBase
      && Split(url[|StreamBase|..], '/') == StreamNames(symbols)
      && |Split(url[|StreamBase|..], '/')| == |symbols|
  {
    var symbols := SubscriptionSymbols(saved);
    var names := StreamNames(symbols);
    var url := StreamUrl(saved);
    forall i | 0 <= i < |names| ensures '/' !in names[i] {
      assert '/' !in "@ticker";
      if saved == [] {
        assert '/' !in DefaultSymbols[i];
      } else {
        assert symbols[i] == ToLower(saved[i]);
      }
    }
    SplitJoinRoundTrip(names, '/');
    assert url[|StreamBase|..] == Join(names, '/');
  }

  /**
   * Saving the portfolio before reconnecting is what makes a newly added symbol part of the
   * subscription: after `addAsset`, its lower-cased symbol is among the subscribed ones.
   */
  lemma AddedSymbolIsSubscribed(s: Portfolio.Snapshot, payload: Portfolio.Asset)
    ensures ToLower(payload.symbol) in SubscriptionSymbols(SavedSymbols(Portfolio.AddAssetTo(s, payload).assets))
  {
    var assets := Portfolio.AddAssetTo(s, payload).assets;
    var k := Portfolio.FindIndex(s.assets, payload.symbol);
    var i := if k >= 0 then k else |s.assets|;
    assert assets[i].symbol == payload.symbol;
    assert SubscriptionSymbols(SavedSymbols(assets))[i] == ToLower(payload.symbol);
  }

  /** What storage yields for the stream: the saved assets' symbols, in order. */
  function SavedSymbols(assets: seq<Portfolio.Asset>): seq<string>
  {
    seq(|assets|, i requires 0 <= i < |assets| => assets[i].symbol)
  }

  /** JavaScript white space and line terminators, as `trim` removes them. */
  predicate IsWhiteSpace(c: char)
  {
    var n := c as int;
    n == 0x09 || n == 0x0A || n == 0x0B || n == 0x0C || n == 0x0D || n == 0x20 || n == 0xA0
    || n == 0x1680 || (0x2000 <= n <= 0x200A) || n == 0x2028 || n == 0x2029 || n == 0x202F
    || n == 0x205F || n == 0x3000 || n == 0xFEFF
  }

  /** `trimStart`: drops the leading white space and nothing else. */
  function TrimStart(s: string): (r: string)
    ensures |r| <= |s| && r == s[|s| - |r|..]
    ensures forall i :: 0 <= i < |s| - |r| ==> IsWhiteSpace(s[i])
    ensures r != [] ==> !IsWhiteSpace(r[0])
  {
    if s != [] && IsWhiteSpace(s[0]) then
      var r := TrimStart(s[1..]);
      assert forall i :: 1 <= i < |s| ==> s[i] == s[1..][i - 1];
      r
    else s
  }

  /** `trimEnd`: drops the trailing white space and nothing else. */
  function TrimEnd(s: string): (r: string)
    ensures |r| <= |s| && r == s[..|r|]
    ensures forall i :: |r| <= i < |s| ==> IsWhiteSpace(s[i])
    ensures r != [] ==> !IsWhiteSpace(r[|r| - 1])
  {
    if s != [] && IsWhiteSpace(s[|s| - 1]) then TrimEnd(s[..|s| - 1]) else s
  }

  /**
   * `s.trim()`: the slice of `s` left once the white space at both ends is cut away; it is
   * empty or starts and ends with a character that is not white space.
   */
  function Trim(s: string): (r: string)
    ensures var k := |s| - |TrimStart(s)|;
      && k + |r| <= |s|
      && (forall i :: 0 <= i < |r| ==> r[i] == s[k + i])
      && (forall i :: 0 <= i < k ==> IsWhiteSpace(s[i]))
      && (forall i :: k + |r| <= i < |s| ==> IsWhiteSpace(s[i]))
    ensures r != [] ==> !IsWhiteSpace(r[0]) && !IsWhiteSpace(r[|r| - 1])
  {
    TrimEnd(TrimStart(s))
  }

  /** `!symbol.trim()` holds exactly when every character is white space. */
  lemma TrimEmptyIffBlank(s: string)
    ensures Trim(s) == [] <==> forall i :: 0 <= i < |s| ==> IsWhiteSpace(s[i])
  {
  }

  // ---------------------------------------------------------------------------
  // The manager's state and events
  // ---------------------------------------------------------------------------

  /** The identity of a `PriceUpdateCallback` function value. */
  datatype Callback = Callback(id: nat)

  /** A WebSocket's `readyState`. */
  datatype ReadyState = Connecting | Open | Closing | Closed

  datatype Socket = Socket(url: string, state: ReadyState)

  /** A socket that can still deliver frames and has not been asked to close. */
  predicate Live(state: ReadyState)
  {
    state == Connecting || state == Open
  }

  /** `socket.close()`: a connecting or open socket starts closing; otherwise nothing happens. */
  function CloseSocket(sock: Socket): Socket
  {
    if Live(sock.state) then sock.(state := Closing) else sock
  }

  /** `if (socket) socket.close()` applied to the socket log. */
  function CloseCurrent(sockets: seq<Socket>, current: Option<nat>): seq<Socket>
  {
    if current.Some? && current.value < |sockets| then sockets[current.value := CloseSocket(sockets[current.value])]
    else sockets
  }

  /** Closing the only live socket of a log leaves none live, and keeps the log's length. */
  lemma CloseCurrentLeavesNoneLive(sockets: seq<Socket>, current: Option<nat>)
    requires current.Some? ==> current.value < |sockets|
    requires forall i :: 0 <= i < |sockets| && Live(sockets[i].state) ==> current == Some(i)
    ensures |CloseCurrent(sockets, current)| == |sockets|
    ensures forall i :: 0 <= i < |sockets| ==> !Live(CloseCurrent(sockets, current)[i].state)
  {
  }

  /** The ticker payload of a frame: symbol `s` and price `c` after `parseFloat`. */
  datatype Ticker = Ticker(s: string, c: real)

  /** An inbound frame after `JSON.parse`: malformed when parsing throws. */
  datatype Frame = Malformed | Envelope(data: Option<Ticker>)

  /** One invocation of the price callback. */
  datatype Delivery = Delivery(callback: Callback, symbol: string, price: real)

  /** A reconnect set with `setTimeout`: the callback it reconnects with, and its delay. */
  datatype Timer = Timer(callback: Callback, delay: nat)

  class PriceStreamManager {
    /** Every WebSocket created, oldest first, with its ready state. */
    var sockets: seq<Socket>
    /** The module variable `socket`: the position of the current socket in `sockets`. */
    var socket: Option<nat>
    /** The module variable `reconnectTimeout`: the handle of the last timer set. */
    var reconnectTimeout: Option<nat>
    /** The runtime's pending timers (set, and neither fired nor cleared), by handle. */
    var timers: map<nat, Timer>
    /** The handle the next `setTimeout` returns. */
    var nextHandle: nat
    /** The module variable `priceUpdateCallback`. */
    var priceUpdateCallback: Option<Callback>
    /** Every invocation of the callback, in order. */
    var deliveries: seq<Delivery>

    /**
     * The current socket exists, every socket that is still live is the current one (so at
     * most one is live), and handles are fresh.
     */
    ghost predicate Valid()
      reads this
    {
      && (socket.Some? ==> socket.value < |sockets|)
      && (forall i :: 0 <= i < |sockets| && Live(sockets[i].state) ==> socket == Some(i))
      && (forall h :: h in timers ==> h < nextHandle)
      && (reconnectTimeout.Some? ==> reconnectTimeout.value < nextHandle)
    }

    /** Every pending timer is the one `reconnectTimeout` names, so clearing it clears all. */
    ghost predicate NoStrayTimers()
      reads this
    {
      forall h :: h in timers ==> reconnectTimeout == Some(h)
    }

    /** Stopped for good: nothing can reopen the stream except a new `connectWebSocket`. */
    ghost predicate Terminal()
      reads this
    {
      socket == None && priceUpdateCallback == None && reconnectTimeout == None && timers == map[]
    }

    /** The handle in `reconnectTimeout`, as a set. */
    ghost function TimeoutHandles(): set<nat>
      reads this
    {
      if reconnectTimeout.Some? then {reconnectTimeout.value} else {}
    }

    /** Closed the current socket and opened one on the URL for `saved`, keeping `callback`. */
    twostate predicate Reopened(callback: Callback, saved: seq<string>)
      reads this
    {
      && priceUpdateCallback == Some(callback)
      && |sockets| == |old(sockets)| + 1
      && sockets[..|old(sockets)|] == CloseCurrent(old(sockets), old(socket))
      && sockets[|old(sockets)|] == Socket(StreamUrl(saved), Connecting)
      && socket == Some(|old(sockets)|)
    }

    /** The module's initial state: nothing connected, nothing pending. */
    constructor ()
      ensures Valid() && NoStrayTimers() && Terminal()
      ensures sockets == [] && deliveries == [] && nextHandle == 0
    {
      sockets := [];
      socket := None;
      reconnectTimeout := None;
      timers := map[];
      nextHandle := 0;
      priceUpdateCallback := None;
      deliveries := [];
    }

    /**
     * `connectWebSocket`: store the callback, close any existing socket, and open a new one
     * subscribed to the saved symbols (or the defaults). Afterwards the new socket is the
     * only live one.
     */
    method Connect(callback: Callback, saved: seq<string>)
      requires Valid()
      modifies this
      ensures Valid() && Reopened(callback, saved)
      ensures forall i :: 0 <= i < |sockets| - 1 ==> !Live(sockets[i].state)
      ensures reconnectTimeout == old(reconnectTimeout) && timers == old(timers) && nextHandle == old(nextHandle)
      ensures deliveries == old(deliveries)
    {
      priceUpdateCallback := Some(callback);
      var log := sockets;
      if socket.Some? {
        log := log[socket.value := CloseSocket(log[socket.value])];
      }
      CloseCurrentLeavesNoneLive(sockets, socket);
      var symbols := SubscriptionSymbols(saved);
      var wsUrl := StreamBase + Join(StreamNames(symbols), '/');
      sockets := log + [Socket(wsUrl, Connecting)];
      socket := Some(|log|);
    }

    /** `onopen`: the socket is open, and any pending reconnect timer is cleared. */
    method OnOpen(which: nat)
      requires Valid() && which < |sockets| && sockets[which].state == Connecting
      modifies this
      ensures Valid()
      ensures sockets == old(sockets)[which := old(sockets)[which].(state := Open)]
      ensures reconnectTimeout == None && timers == old(timers) - old(TimeoutHandles())
      ensures old(NoStrayTimers()) ==> timers == map[] && NoStrayTimers()
      ensures socket == old(socket) && priceUpdateCallback == old(priceUpdateCallback)
      ensures nextHandle == old(nextHandle) && deliveries == old(deliveries)
    {
      sockets := sockets[which := sockets[which].(state := Open)];
      if reconnectTimeout.Some? {
        timers := timers - {reconnectTimeout.value};
        reconnectTimeout := None;
      }
    }

    /**
     * `onmessage`: a well-formed frame with a `data` payload is passed to the callback, if
     * one is set; anything else, including a frame that fails to parse, changes nothing.
     */
    method OnMessage(frame: Frame)
      modifies this`deliveries
      ensures deliveries == old(deliveries) +
        if frame.Envelope? && frame.data.Some? && priceUpdateCallback.Some?
        then [Delivery(priceUpdateCallback.value, frame.data.value.s, frame.data.value.c)]
        else []
    {
      if frame.Envelope? && frame.data.Some? {
        var ticker := frame.data.value;
        if priceUpdateCallback.Some? {
          deliveries := deliveries + [Delivery(priceUpdateCallback.value, ticker.s, ticker.c)];
        }
      }
    }

    /**
     * `onclose`, as written: on an unclean close while a callback is set, set exactly one
     * new reconnect timer of 5000 ms carrying that callback and keep its handle; a clean
     * close, or one without a callback, sets nothing. A timer already pending is neither
     * cleared nor remembered.
     */
    method OnClose(which: nat, wasClean: bool)
      requires Valid() && which < |sockets| && sockets[which].state != Closed
      modifies this
      ensures Valid()
      ensures sockets == old(sockets)[which := old(sockets)[which].(state := Closed)]
      ensures socket == old(socket) && priceUpdateCallback == old(priceUpdateCallback)
      ensures deliveries == old(deliveries)
      ensures !wasClean && priceUpdateCallback.Some? ==>
        && old(nextHandle) !in old(timers)
        && timers == old(timers)[old(nextHandle) := Timer(priceUpdateCallback.value, ReconnectDelay)]
        && reconnectTimeout == Some(old(nextHandle))
        && nextHandle == old(nextHandle) + 1
      ensures wasClean || priceUpdateCallback.None? ==>
        timers == old(timers) && reconnectTimeout == old(reconnectTimeout) && nextHandle == old(nextHandle)
      ensures old(Terminal()) ==> Terminal()
    {
      sockets := sockets[which := sockets[which].(state := Closed)];
      if !wasClean && priceUpdateCallback.Some? {
        var callback := priceUpdateCallback.value;
        var handle := nextHandle;
        nextHandle := nextHandle + 1;
        timers := timers[handle := Timer(callback, ReconnectDelay)];
        reconnectTimeout := Some(handle);
      }
    }

    /**
     * `onclose` with the pending timer cleared before a new one is set. Identical to
     * `OnClose` otherwise, and it keeps every pending timer reachable from
     * `reconnectTimeout`.
     */
    method OnCloseReplacingTimer(which: nat, wasClean: bool)
      requires Valid() && which < |sockets| && sockets[which].state != Closed
      modifies this
      ensures Valid()
      ensures sockets == old(sockets)[which := old(sockets)[which].(state := Closed)]
      ensures socket == old(socket) && priceUpdateCallback == old(priceUpdateCallback)
      ensures deliveries == old(deliveries)
      ensures !wasClean && priceUpdateCallback.Some? ==>
        && timers == (old(timers) - old(TimeoutHandles()))[old(nextHandle) := Timer(priceUpdateCallback.value, ReconnectDelay)]
        && reconnectTimeout == Some(old(nextHandle))
        && nextHandle == old(nextHandle) + 1
      ensures wasClean || priceUpdateCallback.None? ==>
        timers == old(timers) && reconnectTimeout == old(reconnectTimeout) && nextHandle == old(nextHandle)
      ensures old(NoStrayTimers()) ==> NoStrayTimers()
      ensures old(Terminal()) ==> Terminal()
    {
      sockets := sockets[which := sockets[which].(state := Closed)];
      if !wasClean && priceUpdateCallback.Some? {
        var callback := priceUpdateCallback.value;
        if reconnectTimeout.Some? {
          timers := timers - {reconnectTimeout.value};
        }
        var handle := nextHandle;
        nextHandle := nextHandle + 1;
        timers := timers[handle := Timer(callback, ReconnectDelay)];
        reconnectTimeout := Some(handle);
      }
    }

    /**
     * A reconnect timer fires: the runtime drops it and `connectWebSocket` runs with the
     * callback it captured. `reconnectTimeout` keeps the spent handle.
     */
    method FireReconnectTimer(handle: nat, saved: seq<string>)
      requires Valid() && handle in timers
      modifies this
      ensures Valid() && Reopened(old(timers)[handle].callback, saved)
      ensures forall i :: 0 <= i < |sockets| - 1 ==> !Live(sockets[i].state)
      ensures timers == old(timers) - {handle}
      ensures reconnectTimeout == old(reconnectTimeout) && nextHandle == old(nextHandle)
      ensures deliveries == old(deliveries)
      ensures old(NoStrayTimers()) ==> NoStrayTimers()
    {
      var callback := timers[handle].callback;
      timers := timers - {handle};
      Connect(callback, saved);
    }

    /**
     * `disconnectWebSocket`: clear the timer `reconnectTimeout` names, close and forget the
     * socket, and forget the callback. When no stray timer was pending this is terminal, and
     * calling it again changes nothing.
     */
    method Disconnect()
      requires Valid()
      modifies this
      ensures Valid()
      ensures socket == None && priceUpdateCallback == None && reconnectTimeout == None
      ensures timers == old(timers) - old(TimeoutHandles())
      ensures sockets == CloseCurrent(old(sockets), old(socket))
      ensures forall i :: 0 <= i < |sockets| ==> !Live(sockets[i].state)
      ensures nextHandle == old(nextHandle) && deliveries == old(deliveries)
      ensures old(NoStrayTimers()) ==> Terminal() && NoStrayTimers()
      ensures old(Terminal()) ==> sockets == old(sockets) && timers == old(timers)
    {
      if reconnectTimeout.Some? {
        timers := timers - {reconnectTimeout.value};
        reconnectTimeout := None;
      }
      if socket.Some? {
        sockets := sockets[socket.value := CloseSocket(sockets[socket.value])];
        socket := None;
      }
      priceUpdateCallback := None;
    }

    /**
     * `addSymbolToStream`: a no-op for a blank symbol or when there is no socket or no
     * callback; otherwise a full `connectWebSocket` with the stored callback. The symbol
     * itself plays no part in the new subscription, which comes from the saved symbols.
     */
    method AddSymbolToStream(symbol: string, saved: seq<string>)
      requires Valid()
      modifies this
      ensures Valid()
      ensures Trim(symbol) == [] || old(socket).None? || old(priceUpdateCallback).None? ==>
        && sockets == old(sockets) && socket == old(socket)
        && priceUpdateCallback == old(priceUpdateCallback)
      ensures Trim(symbol) != [] && old(socket).Some? && old(priceUpdateCallback).Some? ==>
        Reopened(old(priceUpdateCallback).value, saved)
      ensures reconnectTimeout == old(reconnectTimeout) && timers == old(timers) && nextHandle == old(nextHandle)
      ensures deliveries == old(deliveries)
      ensures old(Terminal()) ==> Terminal()
    {
      if Trim(symbol) == [] {
        return;
      }
      if socket.Some? && priceUpdateCallback.Some? {
        Connect(priceUpdateCallback.value, saved);
      }
    }
  }

  // ---------------------------------------------------------------------------
  // Scenarios
  // ---------------------------------------------------------------------------

  /** Every live socket is the current one, so no two sockets are live at once. */
  lemma AtMostOneLiveSocket(m: PriceStreamManager, i: int, j: int)
    requires m.Valid()
    requires 0 <= i < |m.sockets| && 0 <= j < |m.sockets|
    requires Live(m.sockets[i].state) && Live(m.sockets[j].state)
    ensures i == j
  {
  }

  /**
   * With `onclose` as written two reconnect timers can be pending while `reconnectTimeout`
   * names only one: an unclean close sets timer 0; adding a symbol reopens the stream while
   * it is pending; the new socket also closes uncleanly and timer 1 replaces the only handle
   * to timer 0.
   */
  method TwoPendingTimers(callback: Callback, saved: seq<string>) returns (m: PriceStreamManager)
    ensures fresh(m) && m.Valid() && m.priceUpdateCallback == Some(callback)
    ensures m.timers.Keys == {0, 1} && m.timers[0].callback == callback
    ensures m.reconnectTimeout == Some(1) && !m.NoStrayTimers()
  {
    m := new PriceStreamManager();
    m.Connect(callback, saved);
    m.OnClose(0, false);
    assert m.timers.Keys == {0};
    m.AddSymbolToStream("ETHUSDT", saved);
    m.OnClose(1, false);
    assert m.timers.Keys == {0, 1};
  }

  /**
   * Continuing that run: disconnecting clears timer 1 alone, and when timer 0 fires the
   * stream is live again with the old callback.
   */
  method LeakedTimerRevivesStream(callback: Callback, saved: seq<string>) returns (m: PriceStreamManager)
    ensures m.Valid() && m.priceUpdateCallback == Some(callback)
    ensures m.socket.Some? && m.sockets[m.socket.value].state == Connecting
  {
    m := TwoPendingTimers(callback, saved);
    ghost var pending := m.timers;
    m.Disconnect();
    assert m.timers == pending - {1};
    assert 0 in m.timers && m.timers[0] == pending[0];
    m.FireReconnectTimer(0, saved);
  }

  /**
   * The same run with the pending timer cleared before a new one is set: disconnecting
   * leaves nothing pending, and the manager stays stopped.
   */
  method ReplacingTimerStopsForGood(callback: Callback, saved: seq<string>) returns (m: PriceStreamManager)
    ensures m.Valid() && m.Terminal()
  {
    m := new PriceStreamManager();
    m.Connect(callback, saved);
    m.OnCloseReplacingTimer(0, false);
    m.AddSymbolToStream("ETHUSDT", saved);
    m.OnCloseReplacingTimer(1, false);
    m.Disconnect();
  }
}
