/**
 * The selectors and display helpers of lib/features/portfolio/portfolioSlice.ts:
 * percentage change against the baseline, the number of holdings, the best performer,
 * the allocation breakdown and the symbol-to-colour hash.
 */
module PortfolioSelectors {
  import opened Wrappers
  import opened Portfolio

  // ---------------------------------------------------------------------------
  // selectPercentageChange, selectTotalAssets
  // ---------------------------------------------------------------------------

  /**
   * `selectPercentageChange`: 0 while there is no baseline; otherwise the percentage by
   * which the baseline must grow to reach the current total.
   */
  function PercentageChange(s: Snapshot): (r: real)
    ensures s.initialTotalValue == 0.0 ==> r == 0.0
    ensures s.initialTotalValue != 0.0 ==>
      s.initialTotalValue + s.initialTotalValue * r / 100.0 == TotalValue(s.assets)
  {
    var currentValue := TotalValue(s.assets);
    var initialValue := s.initialTotalValue;
    if initialValue == 0.0 then 0.0
    else (currentValue - initialValue) / initialValue * 100.0
  }

  /** With a positive baseline the change is positive exactly when the total has grown. */
  lemma PercentageChangeSign(s: Snapshot)
    requires s.initialTotalValue > 0.0
    ensures PercentageChange(s) > 0.0 <==> TotalValue(s.assets) > s.initialTotalValue
    ensures PercentageChange(s) == 0.0 <==> TotalValue(s.assets) == s.initialTotalValue
  {
    var r := PercentageChange(s);
    var b := s.initialTotalValue;
    assert b * r / 100.0 == TotalValue(s.assets) - b;
    assert b * r / 100.0 == b * (r / 100.0);
  }

  /** A baseline of 200 and a total of 220 is a change of 10 percent. */
  lemma PercentageChangeExample(a: Asset)
    requires a.quantity == 2.0 && a.currentPrice == 110.0
    ensures PercentageChange(Snapshot([a], 200.0)) == 10.0
  {
    assert TotalValue([a]) == TotalValue([]) + 220.0;
  }

  /** `selectTotalAssets`: the number of holdings. */
  function TotalAssets(s: Snapshot): nat
  {
    |s.assets|
  }

  /**
   * Adding a holding grows the count by one exactly when its symbol was not yet held;
   * removing never grows it, and shrinks it exactly when the id was present.
   */
  lemma TotalAssetsAfterAddAndRemove(s: Snapshot, payload: Asset, id: string)
    ensures TotalAssets(AddAssetTo(s, payload)) == TotalAssets(s) + (if HasSymbol(s.assets, payload.symbol) then 0 else 1)
    ensures TotalAssets(RemoveAssetFrom(s, id)) <= TotalAssets(s)
    ensures TotalAssets(RemoveAssetFrom(s, id)) < TotalAssets(s) <==> exists a :: a in s.assets && a.id == id
  {
    if HasSymbol(s.assets, payload.symbol) {
      var k :| 0 <= k < |s.assets| && s.assets[k].symbol == payload.symbol;
      assert FindIndex(s.assets, payload.symbol) >= 0;
    }
    if exists a :: a in s.assets && a.id == id {
      var a :| a in s.assets && a.id == id;
      var k :| 0 <= k < |s.assets| && s.assets[k] == a;
      WithoutIdDropsPresentId(s.assets, id, k);
    } else {
      assert forall k :: 0 <= k < |s.assets| ==> s.assets[k].id != id by {
        forall k | 0 <= k < |s.assets| ensures s.assets[k].id != id {
          assert s.assets[k] in s.assets;
        }
      }
    }
  }

  /** The filter drops at least one holding when some holding has the id. */
  lemma {:induction false} WithoutIdDropsPresentId(assets: seq<Asset>, id: string, k: int)
    requires 0 <= k < |assets| && assets[k].id == id
    ensures |WithoutId(assets, id)| < |assets|
  {
    if k > 0 {
      WithoutIdDropsPresentId(assets[1..], id, k - 1);
    }
  }

  // ---------------------------------------------------------------------------
  // selectBestPerformer
  // ---------------------------------------------------------------------------

  /** A holding together with the percentage `selectBestPerformer` attaches to it. */
  datatype Performer = Performer(asset: Asset, changePercent: real)

  /**
   * The guarded per-holding change: the delta as a percentage of the price before it,
   * `priceChange24h / (currentPrice - priceChange24h) * 100`, and 0 when the delta is 0
   * or the reconstructed previous price is 0.
   */
  function ChangePercent(a: Asset): (r: real)
    ensures a.priceChange24h == 0.0 || a.currentPrice == a.priceChange24h ==> r == 0.0
    ensures a.priceChange24h != 0.0 && a.currentPrice != a.priceChange24h ==>
      var previous := a.currentPrice - a.priceChange24h;
      previous + previous * r / 100.0 == a.currentPrice
  {
    if a.priceChange24h != 0.0 && a.currentPrice != a.priceChange24h then
      a.priceChange24h / (a.currentPrice - a.priceChange24h) * 100.0
    else 0.0
  }

  /** One step of the `reduce`: the current holding wins only when strictly better. */
  function BestStep(best: Performer, current: Asset): (r: Performer)
    ensures ChangePercent(current) > ChangePercent(best.asset) ==> r.asset == current
    ensures ChangePercent(current) <= ChangePercent(best.asset) ==> r.asset == best.asset
    ensures r.changePercent == ChangePercent(r.asset)
    ensures ChangePercent(best.asset) <= r.changePercent && ChangePercent(current) <= r.changePercent
  {
    var bestChangePercent := ChangePercent(best.asset);
    var currentChangePercent := ChangePercent(current);
    if currentChangePercent > bestChangePercent then Performer(current, currentChangePercent)
    else Performer(best.asset, bestChangePercent)
  }

  /** `assets.reduce(BestStep, best)`, left to right. */
  function BestFold(best: Performer, assets: seq<Asset>): (r: Performer)
    ensures assets == [] ==> r == best
    ensures assets != [] ==>
      && (r.asset == best.asset || r.asset in assets)
      && r.changePercent == ChangePercent(r.asset)
      && ChangePercent(best.asset) <= r.changePercent
      && (forall i :: 0 <= i < |assets| ==> ChangePercent(assets[i]) <= r.changePercent)
    decreases |assets|
  {
    if assets == [] then best
    else
      var r := BestFold(BestStep(best, assets[0]), assets[1..]);
      assert forall i :: 1 <= i < |assets| ==> assets[i] == assets[1..][i - 1];
      r
  }

  /** `selectBestPerformer`: null for no holdings, else the reduce seeded with the first. */
  function BestPerformer(s: Snapshot): (r: Option<Performer>)
    ensures r.None? <==> s.assets == []
    ensures r.Some? ==>
      && r.value.asset in s.assets
      && r.value.changePercent == ChangePercent(r.value.asset)
      && (forall i :: 0 <= i < |s.assets| ==> ChangePercent(s.assets[i]) <= r.value.changePercent)
  {
    if |s.assets| == 0 then None
    else Some(BestFold(Performer(s.assets[0], 0.0), s.assets))
  }

  /** Position `k` holds a maximal change, and every earlier position a strictly smaller one. */
  predicate IsFirstMaximum(assets: seq<Asset>, k: int)
  {
    && 0 <= k < |assets|
    && (forall j :: 0 <= j < |assets| ==> ChangePercent(assets[j]) <= ChangePercent(assets[k]))
    && (forall j :: 0 <= j < k ==> ChangePercent(assets[j]) < ChangePercent(assets[k]))
  }

  /** At most one position is the first maximum. */
  lemma FirstMaximumIsUnique(assets: seq<Asset>, j: int, k: int)
    requires IsFirstMaximum(assets, j) && IsFirstMaximum(assets, k)
    ensures j == k
  {
    assert ChangePercent(assets[j]) <= ChangePercent(assets[k]) <= ChangePercent(assets[j]);
  }

  /**
   * Folding the rest of the list into an accumulator that holds the first maximum of the
   * prefix, with its own change, ends at the first maximum of the whole list.
   */
  lemma {:induction false} BestFoldFindsFirstMaximum(assets: seq<Asset>, k: int, m: int)
    requires 0 <= k < m <= |assets|
    requires IsFirstMaximum(assets[..m], k)
    ensures exists f :: (IsFirstMaximum(assets, f)
      && BestFold(Performer(assets[k], ChangePercent(assets[k])), assets[m..]) == Performer(assets[f], ChangePercent(assets[f])))
    decreases |assets| - m
  {
    var acc := Performer(assets[k], ChangePercent(assets[k]));
    if m == |assets| {
      assert assets[..m] == assets;
      assert assets[m..] == [];
      assert IsFirstMaximum(assets, k);
    } else {
      assert assets[m..][0] == assets[m];
      assert assets[m..][1..] == assets[m + 1..];
      var prefix := assets[..m + 1];
      assert forall j :: 0 <= j < m ==> prefix[j] == assets[..m][j];
      if ChangePercent(assets[m]) > ChangePercent(assets[k]) {
        assert BestStep(acc, assets[m]) == Performer(assets[m], ChangePercent(assets[m]));
        assert IsFirstMaximum(prefix, m);
        BestFoldFindsFirstMaximum(assets, m, m + 1);
      } else {
        assert BestStep(acc, assets[m]) == acc;
        assert IsFirstMaximum(prefix, k);
        BestFoldFindsFirstMaximum(assets, k, m + 1);
      }
    }
  }

  /**
   * `selectBestPerformer` is null exactly when there are no holdings; otherwise it is the
   * first holding whose change is maximal (ties keep the earlier one), carrying that change.
   */
  lemma BestPerformerIsFirstMaximum(s: Snapshot)
    ensures BestPerformer(s).None? <==> s.assets == []
    ensures s.assets != [] ==> exists k :: (IsFirstMaximum(s.assets, k)
      && BestPerformer(s) == Some(Performer(s.assets[k], ChangePercent(s.assets[k]))))
  {
    if s.assets != [] {
      var a := s.assets;
      assert BestStep(Performer(a[0], 0.0), a[0]) == Performer(a[0], ChangePercent(a[0]));
      assert IsFirstMaximum(a[..1], 0);
      BestFoldFindsFirstMaximum(a, 0, 1);
    }
  }

  // ---------------------------------------------------------------------------
  // selectPortfolioData
  // ---------------------------------------------------------------------------

  /** One slice of the allocation chart. */
  datatype AllocationEntry = AllocationEntry(name: string, value: real, percentage: real, color: string)

  /** `pattern` occurs in `s` starting at position `k`. */
  predicate OccursAt(s: string, pattern: string, k: int)
  {
    0 <= k && k + |pattern| <= |s| && s[k..k + |pattern|] == pattern
  }

  /** `s.indexOf(pattern)`: the first position where `pattern` occurs, or -1. */
  function IndexOf(s: string, pattern: string): (r: int)
    ensures r == -1 || OccursAt(s, pattern, r)
    ensures forall k :: 0 <= k && (r < 0 || k < r) ==> !OccursAt(s, pattern, k)
    decreases |s|
  {
    if |s| < |pattern| then -1
    else if s[..|pattern|] == pattern then 0
    else
      var r := IndexOf(s[1..], pattern);
      assert forall k :: 1 <= k ==> (OccursAt(s, pattern, k) <==> OccursAt(s[1..], pattern, k - 1)) by {
        forall k | 1 <= k ensures OccursAt(s, pattern, k) <==> OccursAt(s[1..], pattern, k - 1) {
          if k + |pattern| <= |s| {
            assert s[1..][k - 1..k - 1 + |pattern|] == s[k..k + |pattern|];
          }
        }
      }
      if r < 0 then -1 else r + 1
  }

  /**
   * `s.replace(pattern, "")` with a string pattern: only the first occurrence is removed.
   * Putting the pattern back at that position restores `s`.
   */
  function RemoveFirst(s: string, pattern: string): (r: string)
    ensures IndexOf(s, pattern) < 0 ==> r == s
    ensures IndexOf(s, pattern) >= 0 ==>
      var i := IndexOf(s, pattern);
      |r| == |s| - |pattern| && r[..i] + pattern + r[i..] == s
  {
    var i := IndexOf(s, pattern);
    if i < 0 then s
    else
      var r := s[..i] + s[i + |pattern|..];
      assert r[..i] == s[..i] && r[i..] == s[i + |pattern|..];
      assert s == s[..i] + s[i..i + |pattern|] + s[i + |pattern|..];
      r
  }

  /** The chart label: the symbol with its first "USDT" removed. */
  function Label(symbol: string): string
  {
    RemoveFirst(symbol, "USDT")
  }

  /** "BTCUSDT" is labelled "BTC"; a symbol without "USDT" is its own label. */
  lemma LabelExamples(symbol: string)
    requires forall k :: !OccursAt(symbol, "USDT", k)
    ensures Label("BTCUSDT") == "BTC"
    ensures Label(symbol) == symbol
  {
    var s := "BTCUSDT";
    assert OccursAt(s, "USDT", 3);
    var i := IndexOf(s, "USDT");
    assert i <= 3;
    assert !OccursAt(s, "USDT", 0) by { assert s[0] != 'U'; }
    assert !OccursAt(s, "USDT", 1) by { assert s[1] != 'U'; }
    assert !OccursAt(s, "USDT", 2) by { assert s[2] != 'U'; }
    assert i == 3;
    assert s[..3] + s[7..] == "BTC";
  }

  /** `value / total * 100`: the part of the total, in percent, that `value` is. */
  function Share(value: real, total: real): (r: real)
    requires total != 0.0
    ensures r * total == value * 100.0
  {
    value / total * 100.0
  }

  /** One allocation slice for a holding, against a non-zero total. */
  function Entry(a: Asset, total: real): AllocationEntry
    requires total != 0.0
  {
    var value := Value(a);
    AllocationEntry(Label(a.symbol), value, Share(value, total), Color(a.symbol))
  }

  /** `assets.map(...)` of `selectPortfolioData`, against a fixed non-zero total. */
  function Allocation(assets: seq<Asset>, total: real): (r: seq<AllocationEntry>)
    requires total != 0.0
    ensures |r| == |assets|
    ensures forall k :: 0 <= k < |assets| ==> r[k] == Entry(assets[k], total)
  {
    seq(|assets|, k requires 0 <= k < |assets| => Entry(assets[k], total))
  }

  /**
   * `selectPortfolioData`: no slices when the total is 0; otherwise one slice per holding,
   * in order, labelled by symbol, worth quantity times price, with a palette colour and the
   * share of the total it represents.
   */
  function PortfolioData(s: Snapshot): (r: seq<AllocationEntry>)
    ensures TotalValue(s.assets) == 0.0 ==> r == []
    ensures TotalValue(s.assets) != 0.0 ==> |r| == |s.assets|
    ensures forall k :: 0 <= k < |r| ==>
      && r[k].name == Label(s.assets[k].symbol)
      && r[k].value == Value(s.assets[k])
      && r[k].color == Color(s.assets[k].symbol)
      && r[k].color in Palette
  {
    var totalValue := TotalValue(s.assets);
    if totalValue == 0.0 then []
    else
      var r := Allocation(s.assets, totalValue);
      forall k | 0 <= k < |r|
        ensures r[k].name == Label(s.assets[k].symbol) && r[k].value == Value(s.assets[k])
        ensures r[k].color == Color(s.assets[k].symbol) && r[k].color in Palette
      {
        assert r[k] == Entry(s.assets[k], totalValue);
      }
      r
  }

  /** Each slice's percentage, scaled by the total, is its worth in percent. */
  lemma AllocationShares(s: Snapshot, k: int)
    requires 0 <= k < |PortfolioData(s)|
    ensures PortfolioData(s)[k].percentage * TotalValue(s.assets) == PortfolioData(s)[k].value * 100.0
  {
    var total := TotalValue(s.assets);
    var e := Entry(s.assets[k], total);
    assert PortfolioData(s)[k] == e by {
      assert PortfolioData(s) == Allocation(s.assets, total);
    }
    assert e.percentage == Share(e.value, total);
  }

  /** The sum of the slices' percentages, left to right. */
  function SumPercentages(entries: seq<AllocationEntry>): real
  {
    if entries == [] then 0.0
    else SumPercentages(entries[..|entries| - 1]) + entries[|entries| - 1].percentage
  }

  /** Shares against a fixed total add up to the assets' own total as a share of it. */
  lemma {:induction false} AllocationPercentagesSum(assets: seq<Asset>, total: real)
    requires total != 0.0
    ensures SumPercentages(Allocation(assets, total)) == Share(TotalValue(assets), total)
  {
    if assets != [] {
      var n := |assets|;
      var r := Allocation(assets, total);
      assert r[..n - 1] == Allocation(assets[..n - 1], total);
      AllocationPercentagesSum(assets[..n - 1], total);
      var before, last := TotalValue(assets[..n - 1]), Value(assets[n - 1]);
      assert r[n - 1].percentage == Share(last, total);
      assert TotalValue(assets) == before + last;
      SharesAdd(before, last, total);
    }
  }

  /** Shares of one total add like the worths they come from. */
  lemma SharesAdd(a: real, b: real, total: real)
    requires total != 0.0
    ensures Share(a, total) + Share(b, total) == Share(a + b, total)
  {
  }

  /** Whenever the chart is shown, its percentages add up to exactly 100 (over the reals). */
  lemma PercentagesSumTo100(s: Snapshot)
    requires TotalValue(s.assets) != 0.0
    ensures SumPercentages(PortfolioData(s)) == 100.0
  {
    var total := TotalValue(s.assets);
    assert PortfolioData(s) == Allocation(s.assets, total);
    AllocationPercentagesSum(s.assets, total);
    WholeIsHundredPercent(total);
  }

  /** A total is 100 percent of itself. */
  lemma WholeIsHundredPercent(total: real)
    requires total != 0.0
    ensures Share(total, total) == 100.0
  {
  }

  /** Holdings worth 75 and 25 get the shares 75 and 25. */
  lemma AllocationExample(a: Asset, b: Asset)
    requires Value(a) == 75.0 && Value(b) == 25.0
    ensures var r := PortfolioData(Snapshot([a, b], 0.0));
      |r| == 2 && r[0].percentage == 75.0 && r[1].percentage == 25.0
  {
    var assets := [a, b];
    assert assets[..1] == [a];
    assert TotalValue([a]) == TotalValue([]) + 75.0;
    assert TotalValue(assets) == 100.0;
  }

  // ---------------------------------------------------------------------------
  // getRandomColor
  // ---------------------------------------------------------------------------

  /** The eight chart colours, in the order `getRandomColor` indexes them. */
  const Palette: seq<string> := [
    "#3b82f6", // blue
    "#10b981", // green
    "#8b5cf6", // purple
    "#f59e0b", // amber
    "#ef4444", // red
    "#ec4899", // pink
    "#06b6d4", // cyan
    "#f97316"  // orange
  ]

  /** ECMAScript ToInt32 on an integer: wrap into the signed 32-bit range. */
  function ToInt32(x: int): (r: int)
    ensures -0x8000_0000 <= r < 0x8000_0000
    ensures (x - r) % 0x1_0000_0000 == 0
  {
    var m := x % 0x1_0000_0000;
    if m >= 0x8000_0000 then m - 0x1_0000_0000 else m
  }

  /** JavaScript `hash << 5`: shift the 32-bit value and wrap the result. */
  function ShiftLeft5(hash: int): (r: int)
    ensures -0x8000_0000 <= r < 0x8000_0000
    ensures (hash * 32 - r) % 0x1_0000_0000 == 0
  {
    ToInt32(ToInt32(hash) * 32)
  }

  /** One iteration of the hash loop: `charCode + ((hash << 5) - hash)`. */
  function HashStep(hash: int, c: char): int
  {
    (c as int) + (ShiftLeft5(hash) - hash)
  }

  /** The hash `getRandomColor` computes: the loop from 0 over the characters, in order. */
  function StringHash(str: string): int
    decreases |str|, 1
  {
    if str == [] then 0 else LastStepHash(str)
  }

  /** The hash of a non-empty string: one more loop iteration on the hash of all but its last character. */
  function LastStepHash(str: string): int
    requires str != []
    decreases |str|, 0
  {
    HashStep(StringHash(str[..|str| - 1]), str[|str| - 1])
  }

  /** `Math.abs`. */
  function Abs(x: int): nat
  {
    if x < 0 then -x else x
  }

  /** `Math.abs(hash) % colors.length`, always a valid palette index. */
  function ColorIndex(str: string): (i: nat)
    ensures i < |Palette|
  {
    Abs(StringHash(str)) % |Palette|
  }

  /** The colour a symbol is drawn in: a pure function of the symbol. */
  function Color(str: string): (c: string)
    ensures c in Palette
  {
    Palette[ColorIndex(str)]
  }

  /**
   * The hash grows by at most 2^31 plus the largest character code per character, so for
   * strings under about four million characters every intermediate value is an integer
   * that a double holds exactly, and computing on unbounded integers is faithful.
   */
  lemma {:induction false} StringHashBound(str: string)
    ensures Abs(StringHash(str)) <= |str| * (0x8000_0000 + 0x11_0000)
  {
    if str != [] {
      var prefix := str[..|str| - 1];
      StringHashBound(prefix);
      var c := str[|str| - 1];
      assert (c as int) < 0x11_0000;
      assert -0x8000_0000 <= ShiftLeft5(StringHash(prefix)) < 0x8000_0000;
    }
  }

  /** `getRandomColor`: run the hash loop over the string and pick the palette entry. */
  method GetRandomColor(str: string) returns (color: string)
    ensures color == Color(str)
    ensures color in Palette
  {
    var hash := 0;
    for i := 0 to |str|
      invariant hash == StringHash(str[..i])
    {
      assert str[..i + 1][..i] == str[..i];
      hash := (str[i] as int) + (ShiftLeft5(hash) - hash);
    }
    assert str[..|str|] == str;
    var colors := Palette;
    color := colors[Abs(hash) % |colors|];
  }
}
