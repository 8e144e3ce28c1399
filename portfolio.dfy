/**
 * The portfolio store of lib/features/portfolio/portfolioSlice.ts: the slice state
 * `{assets, initialTotalValue}` and its three reducers `addAsset`, `removeAsset` and
 * `updateAssetPrice`, which mutate the state in place.
 *
 * JavaScript numbers (quantities, prices, the baseline) are modelled as exact reals.
 * Ids and timestamps are opaque strings chosen by the caller.
 */
module Portfolio {

  /** One tracked holding (the `Asset` interface). */
  datatype Asset = Asset(
    id: string,
    symbol: string,
    quantity: real,
    currentPrice: real,
    priceChange24h: real,
    lastUpdated: string)

  /** The slice state as a value: what selectors read and what the reducers map old to new. */
  datatype Snapshot = Snapshot(assets: seq<Asset>, initialTotalValue: real)

  /** The worth of one holding. */
  function Value(a: Asset): real
  {
    a.quantity * a.currentPrice
  }

  /**
   * `calculateTotalValue` (and the `selectTotalValue` selector, which is the same
   * expression): a left-to-right `reduce` of quantity times price, starting at 0.
   */
  function TotalValue(assets: seq<Asset>): real
  {
    if assets == [] then 0.0
    else TotalValue(assets[..|assets| - 1]) + Value(assets[|assets| - 1])
  }

  /** Appending one holding adds exactly its worth to the total. */
  lemma TotalValueAppend(assets: seq<Asset>, a: Asset)
    ensures TotalValue(assets + [a]) == TotalValue(assets) + Value(a)
  {
    assert (assets + [a])[..|assets|] == assets;
  }

  /** Replacing one holding changes the total by the difference of the two worths. */
  lemma {:induction false} TotalValueReplace(assets: seq<Asset>, i: int, a: Asset)
    requires 0 <= i < |assets|
    ensures TotalValue(assets[i := a]) == TotalValue(assets) - Value(assets[i]) + Value(a)
  {
    var n := |assets|;
    var updated := assets[i := a];
    if i == n - 1 {
      assert updated[..n - 1] == assets[..n - 1];
    } else {
      TotalValueReplace(assets[..n - 1], i, a);
      assert updated[..n - 1] == assets[..n - 1][i := a];
    }
  }

  /** With non-negative quantities and prices the total is never negative. */
  lemma {:induction false} TotalValueNonNegative(assets: seq<Asset>)
    requires forall k :: 0 <= k < |assets| ==> assets[k].quantity >= 0.0 && assets[k].currentPrice >= 0.0
    ensures TotalValue(assets) >= 0.0
  {
    if assets != [] {
      var last := assets[|assets| - 1];
      TotalValueNonNegative(assets[..|assets| - 1]);
      assert last.quantity >= 0.0 && last.currentPrice >= 0.0;
      assert Value(last) >= 0.0;
    }
  }

  /**
   * `assets.findIndex(a => a.symbol === symbol)` (and `assets.find`, which yields the
   * element at that position): the first position holding `symbol`, or -1.
   */
  function FindIndex(assets: seq<Asset>, symbol: string): (r: int)
    ensures -1 <= r < |assets|
    ensures r >= 0 ==> assets[r].symbol == symbol
    ensures forall k :: 0 <= k < |assets| && (r < 0 || k < r) ==> assets[k].symbol != symbol
  {
    if assets == [] then -1
    else if assets[0].symbol == symbol then 0
    else
      var r := FindIndex(assets[1..], symbol);
      if r < 0 then -1 else r + 1
  }

  predicate HasSymbol(assets: seq<Asset>, symbol: string)
  {
    exists k :: 0 <= k < |assets| && assets[k].symbol == symbol
  }

  /** The symbols held, as a set. */
  function Symbols(assets: seq<Asset>): set<string>
  {
    set k | 0 <= k < |assets| :: assets[k].symbol
  }

  /** No two holdings share a symbol: the invariant the merge in `addAsset` keeps. */
  predicate UniqueSymbols(assets: seq<Asset>)
  {
    forall j, k :: 0 <= j < k < |assets| ==> assets[j].symbol != assets[k].symbol
  }

  // ---------------------------------------------------------------------------
  // The reducers as functions from the old state to the new one
  // ---------------------------------------------------------------------------

  /** `addAsset`: merge the quantity into the first holding of the symbol, or append. */
  function AddAssetTo(s: Snapshot, payload: Asset): Snapshot
  {
    var i := FindIndex(s.assets, payload.symbol);
    if i >= 0 then
      s.(assets := s.assets[i := s.assets[i].(quantity := s.assets[i].quantity + payload.quantity)])
    else
      s.(assets := s.assets + [payload])
  }

  /** `assets.filter(a => a.id !== id)`: every holding whose id differs, in order. */
  function WithoutId(assets: seq<Asset>, id: string): (r: seq<Asset>)
    ensures |r| <= |assets|
    ensures forall a :: a in r <==> a in assets && a.id != id
    ensures (forall k :: 0 <= k < |assets| ==> assets[k].id != id) ==> r == assets
  {
    if assets == [] then []
    else (if assets[0].id != id then [assets[0]] else []) + WithoutId(assets[1..], id)
  }

  /** `removeAsset`. */
  function RemoveAssetFrom(s: Snapshot, id: string): Snapshot
  {
    s.(assets := WithoutId(s.assets, id))
  }

  /**
   * The in-place edits `updateAssetPrice` makes to the holding it found: the delta is
   * recorded only when the previous price was positive; the price and timestamp are
   * always overwritten.
   */
  function RepricedAsset(a: Asset, price: real, now: string): Asset
  {
    a.(priceChange24h := if a.currentPrice > 0.0 then price - a.currentPrice else a.priceChange24h,
       currentPrice := price,
       lastUpdated := now)
  }

  /**
   * `updateAssetPrice`: reprice the first holding of the symbol; when the baseline is
   * still 0, capture the total computed after the new price is written.
   */
  function UpdatePriceIn(s: Snapshot, symbol: string, price: real, now: string): Snapshot
  {
    var i := FindIndex(s.assets, symbol);
    if i < 0 then s
    else
      var assets := s.assets[i := RepricedAsset(s.assets[i], price, now)];
      Snapshot(assets, if s.initialTotalValue == 0.0 then TotalValue(assets) else s.initialTotalValue)
  }

  // ---------------------------------------------------------------------------
  // The store object: the reducers update the draft state in place
  // ---------------------------------------------------------------------------

  class PortfolioState {
    var assets: seq<Asset>
    var initialTotalValue: real

    function State(): Snapshot
      reads this
    {
      Snapshot(assets, initialTotalValue)
    }

    /** The store starts from whatever state was loaded (storage itself is not modelled). */
    constructor (loaded: Snapshot)
      ensures State() == loaded
    {
      assets := loaded.assets;
      initialTotalValue := loaded.initialTotalValue;
    }

    method AddAsset(payload: Asset)
      modifies this
      ensures State() == AddAssetTo(old(State()), payload)
    {
      var existingAssetIndex := FindIndex(assets, payload.symbol);
      if existingAssetIndex >= 0 {
        var existing := assets[existingAssetIndex];
        assets := assets[existingAssetIndex := existing.(quantity := existing.quantity + payload.quantity)];
      } else {
        assets := assets + [payload];
      }
    }

    method RemoveAsset(id: string)
      modifies this
      ensures State() == RemoveAssetFrom(old(State()), id)
    {
      assets := WithoutId(assets, id);
    }

    method UpdateAssetPrice(symbol: string, price: real, now: string)
      modifies this
      ensures State() == UpdatePriceIn(old(State()), symbol, price, now)
    {
      var i := FindIndex(assets, symbol);
      if i >= 0 {
        var asset := assets[i];
        if asset.currentPrice > 0.0 {
          asset := asset.(priceChange24h := price - asset.currentPrice);
        }
        asset := asset.(currentPrice := price, lastUpdated := now);
        assets := assets[i := asset];
        if initialTotalValue == 0.0 {
          initialTotalValue := TotalValue(assets);
        }
      }
    }
  }

  // ---------------------------------------------------------------------------
  // Properties of addAsset
  // ---------------------------------------------------------------------------

  /**
   * Adding a symbol already held: the first holding of that symbol gains the payload's
   * quantity (nothing else about it changes), every other holding and the baseline are
   * untouched, and the length stays the same.
   */
  lemma AddAssetMergesIntoFirstMatch(s: Snapshot, payload: Asset, i: int)
    requires 0 <= i < |s.assets| && s.assets[i].symbol == payload.symbol
    requires forall k :: 0 <= k < i ==> s.assets[k].symbol != payload.symbol
    ensures var r := AddAssetTo(s, payload);
      && |r.assets| == |s.assets|
      && r.assets[i] == s.assets[i].(quantity := s.assets[i].quantity + payload.quantity)
      && (forall k :: 0 <= k < |s.assets| && k != i ==> r.assets[k] == s.assets[k])
      && r.initialTotalValue == s.initialTotalValue
  {
    assert FindIndex(s.assets, payload.symbol) == i;
  }

  /** Adding a symbol not held appends the payload unchanged at the end. */
  lemma AddAssetAppendsNewSymbol(s: Snapshot, payload: Asset)
    requires !HasSymbol(s.assets, payload.symbol)
    ensures AddAssetTo(s, payload) == Snapshot(s.assets + [payload], s.initialTotalValue)
  {
    assert FindIndex(s.assets, payload.symbol) < 0;
  }

  /** `addAsset` keeps symbols pairwise distinct and adds exactly the payload's symbol. */
  lemma AddAssetKeepsSymbolsUnique(s: Snapshot, payload: Asset)
    requires UniqueSymbols(s.assets)
    ensures UniqueSymbols(AddAssetTo(s, payload).assets)
    ensures Symbols(AddAssetTo(s, payload).assets) == Symbols(s.assets) + {payload.symbol}
  {
    var r := AddAssetTo(s, payload).assets;
    var i := FindIndex(s.assets, payload.symbol);
    if i >= 0 {
      forall k | 0 <= k < |r| ensures r[k].symbol == s.assets[k].symbol { }
      assert Symbols(r) == Symbols(s.assets) by {
        forall x | x in Symbols(r) ensures x in Symbols(s.assets) {
          var k :| 0 <= k < |r| && r[k].symbol == x;
          assert s.assets[k].symbol == x;
        }
      }
    } else {
      assert r == s.assets + [payload];
      assert r[|s.assets|].symbol == payload.symbol;
      forall x | x in Symbols(r) ensures x in Symbols(s.assets) + {payload.symbol} {
        var k :| 0 <= k < |r| && r[k].symbol == x;
        if k < |s.assets| { assert s.assets[k].symbol == x; }
      }
      forall x | x in Symbols(s.assets) ensures x in Symbols(r) {
        var k :| 0 <= k < |s.assets| && s.assets[k].symbol == x;
        assert r[k].symbol == x;
      }
    }
  }

  /** Successive `addAsset` calls, oldest first. */
  function AddAll(s: Snapshot, payloads: seq<Asset>): Snapshot
  {
    if payloads == [] then s
    else AddAssetTo(AddAll(s, payloads[..|payloads| - 1]), payloads[|payloads| - 1])
  }

  /** The sum of the payloads' quantities, in order. */
  function SumQuantity(payloads: seq<Asset>): real
  {
    if payloads == [] then 0.0
    else SumQuantity(payloads[..|payloads| - 1]) + payloads[|payloads| - 1].quantity
  }

  /**
   * Repeated adds of one new symbol leave exactly one holding of it, appended after the
   * existing ones, whose quantity is the sum of all the added quantities; the rest of the
   * holding is the first payload.
   */
  lemma {:induction false} RepeatedAddsMergeIntoOneHolding(s: Snapshot, payloads: seq<Asset>, symbol: string)
    requires UniqueSymbols(s.assets) && !HasSymbol(s.assets, symbol)
    requires payloads != [] && forall k :: 0 <= k < |payloads| ==> payloads[k].symbol == symbol
    ensures var r := AddAll(s, payloads).assets; var n := |s.assets|;
      && |r| == n + 1
      && r[..n] == s.assets
      && r[n] == payloads[0].(quantity := SumQuantity(payloads))
      && UniqueSymbols(r)
      && AddAll(s, payloads).initialTotalValue == s.initialTotalValue
  {
    var n := |s.assets|;
    var m := |payloads|;
    if m == 1 {
      assert FindIndex(s.assets, symbol) < 0;
      assert payloads[..0] == [];
      AddAssetKeepsSymbolsUnique(s, payloads[0]);
      assert (s.assets + [payloads[0]])[..n] == s.assets;
    } else {
      var prefix := payloads[..m - 1];
      RepeatedAddsMergeIntoOneHolding(s, prefix, symbol);
      var before := AddAll(s, prefix);
      var last := payloads[m - 1];
      assert before.assets[n].symbol == symbol;
      forall k | 0 <= k < n ensures before.assets[k].symbol != symbol {
        assert before.assets[k] == before.assets[..n][k];
      }
      AddAssetMergesIntoFirstMatch(before, last, n);
      AddAssetKeepsSymbolsUnique(before, last);
      var r := AddAll(s, payloads).assets;
      assert r[..n] == before.assets[..n];
      assert prefix[0] == payloads[0];
    }
  }

  // ---------------------------------------------------------------------------
  // Properties of removeAsset
  // ---------------------------------------------------------------------------

  /** The filter distributes over concatenation, so it keeps the survivors' order. */
  lemma {:induction false} WithoutIdConcat(a: seq<Asset>, b: seq<Asset>, id: string)
    ensures WithoutId(a + b, id) == WithoutId(a, id) + WithoutId(b, id)
  {
    if a == [] {
      assert a + b == b;
    } else {
      assert (a + b)[0] == a[0];
      assert (a + b)[1..] == a[1..] + b;
      var head := if a[0].id != id then [a[0]] else [];
      var rest, tail := WithoutId(a[1..], id), WithoutId(b, id);
      assert WithoutId(a + b, id) == head + WithoutId(a[1..] + b, id);
      WithoutIdConcat(a[1..], b, id);
      assert head + (rest + tail) == (head + rest) + tail;
    }
  }

  /** Filtering by id never makes two holdings share a symbol. */
  lemma {:induction false} WithoutIdKeepsSymbolsUnique(assets: seq<Asset>, id: string)
    requires UniqueSymbols(assets)
    ensures UniqueSymbols(WithoutId(assets, id))
  {
    if assets != [] {
      var tail := assets[1..];
      assert forall k :: 0 <= k < |tail| ==> tail[k] == assets[k + 1];
      WithoutIdKeepsSymbolsUnique(tail, id);
      var rest := WithoutId(tail, id);
      forall a | a in rest
        ensures a.symbol != assets[0].symbol
      {
        var k :| 0 <= k < |tail| && tail[k] == a;
        assert assets[k + 1] == a;
      }
      var r := WithoutId(assets, id);
      assert r == (if assets[0].id != id then [assets[0]] else []) + rest;
      assert forall k :: 0 <= k < |r| - |rest| ==> r[k] == assets[0];
      assert forall k :: |r| - |rest| <= k < |r| ==> r[k] in rest;
    }
  }

  /** `removeAsset` keeps the symbols of the holdings pairwise distinct. */
  lemma RemoveAssetKeepsSymbolsUnique(s: Snapshot, id: string)
    requires UniqueSymbols(s.assets)
    ensures UniqueSymbols(RemoveAssetFrom(s, id).assets)
  {
    WithoutIdKeepsSymbolsUnique(s.assets, id);
  }

  /** Removing twice is removing once; removing an absent id changes nothing. */
  lemma RemoveAssetIdempotent(s: Snapshot, id: string)
    ensures RemoveAssetFrom(RemoveAssetFrom(s, id), id) == RemoveAssetFrom(s, id)
    ensures (forall k :: 0 <= k < |s.assets| ==> s.assets[k].id != id) ==> RemoveAssetFrom(s, id) == s
  {
    var once := WithoutId(s.assets, id);
    forall k | 0 <= k < |once| ensures once[k].id != id {
      assert once[k] in once;
    }
  }

  // ---------------------------------------------------------------------------
  // Properties of updateAssetPrice and the baseline
  // ---------------------------------------------------------------------------

  /** A tick for a symbol no holding has leaves the whole state unchanged. */
  lemma UpdateUnknownSymbolIsNoop(s: Snapshot, symbol: string, price: real, now: string)
    requires !HasSymbol(s.assets, symbol)
    ensures UpdatePriceIn(s, symbol, price, now) == s
  {
    assert FindIndex(s.assets, symbol) < 0;
  }

  /** `updateAssetPrice` keeps the symbols of the holdings, so it keeps them pairwise distinct. */
  lemma UpdatePriceKeepsSymbolsUnique(s: Snapshot, symbol: string, price: real, now: string)
    requires UniqueSymbols(s.assets)
    ensures Symbols(UpdatePriceIn(s, symbol, price, now).assets) == Symbols(s.assets)
    ensures UniqueSymbols(UpdatePriceIn(s, symbol, price, now).assets)
  {
    var r := UpdatePriceIn(s, symbol, price, now).assets;
    assert forall k :: 0 <= k < |r| ==> r[k].symbol == s.assets[k].symbol;
  }

  /**
   * A tick for a held symbol changes only the first holding of it: its price becomes the
   * tick's, its delta becomes new minus old price when the old price was positive and is
   * kept otherwise, and its id, symbol and quantity stay.
   */
  lemma UpdateRepricesFirstMatch(s: Snapshot, symbol: string, price: real, now: string, i: int)
    requires 0 <= i < |s.assets| && s.assets[i].symbol == symbol
    requires forall k :: 0 <= k < i ==> s.assets[k].symbol != symbol
    ensures var r := UpdatePriceIn(s, symbol, price, now).assets; var old_ := s.assets[i];
      && |r| == |s.assets|
      && r[i].currentPrice == price
      && r[i].priceChange24h == (if old_.currentPrice > 0.0 then price - old_.currentPrice else old_.priceChange24h)
      && r[i].id == old_.id && r[i].symbol == old_.symbol && r[i].quantity == old_.quantity
      && r[i].lastUpdated == now
      && forall k :: 0 <= k < |s.assets| && k != i ==> r[k] == s.assets[k]
  {
    assert FindIndex(s.assets, symbol) == i;
  }

  /**
   * The baseline is captured at most once: a non-zero baseline is never changed by any
   * reducer, and a zero one becomes the post-update total when a held symbol is repriced.
   */
  lemma BaselineCapturedOnce(s: Snapshot, payload: Asset, id: string, symbol: string, price: real, now: string)
    ensures s.initialTotalValue != 0.0 ==> UpdatePriceIn(s, symbol, price, now).initialTotalValue == s.initialTotalValue
    ensures s.initialTotalValue == 0.0 && HasSymbol(s.assets, symbol) ==>
      var r := UpdatePriceIn(s, symbol, price, now); r.initialTotalValue == TotalValue(r.assets)
    ensures AddAssetTo(s, payload).initialTotalValue == s.initialTotalValue
    ensures RemoveAssetFrom(s, id).initialTotalValue == s.initialTotalValue
  {
    if HasSymbol(s.assets, symbol) {
      var k :| 0 <= k < |s.assets| && s.assets[k].symbol == symbol;
      assert FindIndex(s.assets, symbol) >= 0;
    }
  }

  /**
   * When the baseline is captured, it is the pre-tick total with the repriced holding's
   * worth replaced by its new worth.
   */
  lemma BaselineFromPriorTotal(s: Snapshot, symbol: string, price: real, now: string, i: int)
    requires 0 <= i < |s.assets| && s.assets[i].symbol == symbol
    requires forall k :: 0 <= k < i ==> s.assets[k].symbol != symbol
    requires s.initialTotalValue == 0.0
    ensures UpdatePriceIn(s, symbol, price, now).initialTotalValue
         == TotalValue(s.assets) - s.assets[i].quantity * s.assets[i].currentPrice + s.assets[i].quantity * price
  {
    assert FindIndex(s.assets, symbol) == i;
    TotalValueReplace(s.assets, i, RepricedAsset(s.assets[i], price, now));
  }

  /**
   * The worked example: BTC held with quantity 2 and no price yet; a tick at 100 sets the
   * baseline to 200 and no delta; a second tick at 110 records a delta of 10 and keeps the
   * baseline at 200.
   */
  lemma BaselineWorkedExample(id: string, t0: string, t1: string, t2: string)
    ensures var btc := Asset(id, "BTC", 2.0, 0.0, 0.0, t0);
      var first := UpdatePriceIn(Snapshot([btc], 0.0), "BTC", 100.0, t1);
      var second := UpdatePriceIn(first, "BTC", 110.0, t2);
      && first.assets == [btc.(currentPrice := 100.0, lastUpdated := t1)]
      && first.initialTotalValue == 200.0
      && second.assets == [btc.(currentPrice := 110.0, priceChange24h := 10.0, lastUpdated := t2)]
      && second.initialTotalValue == 200.0
  {
    var btc := Asset(id, "BTC", 2.0, 0.0, 0.0, t0);
    assert FindIndex([btc], "BTC") == 0;
    var first := UpdatePriceIn(Snapshot([btc], 0.0), "BTC", 100.0, t1);
    assert first.assets == [btc.(currentPrice := 100.0, lastUpdated := t1)];
    assert TotalValue(first.assets) == TotalValue([]) + 200.0;
    assert FindIndex(first.assets, "BTC") == 0;
  }
}
