/** The wallet operations of `app.py` over the table of `db.py`: buying at a weighted
    average cost, selling with the profit/loss the app records, valuing the wallet at
    the bid rates, the unrealised profit/loss, and the TL values handed to the risk
    analysis. Form fields are Python floats or None; the exchange rates are the dict
    the market service answered. */
module Wallet {
  import opened Common
  import opened Ledger
  import opened Market
  import Pipeline
  import MonteCarlo

  /** `VARLIK_TURLERI`, the asset types the sidebar offers. */
  const AssetTypes: seq<string> := ["TL", "Altın", "Dolar", "Euro"]

  /** Python truth of a number field: None and 0.0 are false. */
  predicate Given(x: Option<real>)
  {
    x.Some? && x.value != 0.0
  }

  /** `d[key]` on the dict `load_wallet_data` returned, given as its items. */
  function Lookup(data: seq<(string, Holding)>, key: string): (h: Option<Holding>)
    ensures h.Some? <==> key in KeysOf(data)
  {
    if data == [] then None
    else if data[0].0 == key then Some(data[0].1)
    else
      var rest := Lookup(data[1..], key);
      assert KeysOf(data) == [data[0].0] + KeysOf(data[1..]);
      rest
  }

  /** The asset's row as the app sees it, if it has one. */
  function HeldOf(rows: map<string, StoredRow>, key: string): Option<Holding>
  {
    if key in rows then Some(Reported(rows[key])) else None
  }

  lemma {:induction false} LookupAll(rows: map<string, StoredRow>, order: seq<string>, key: string)
    requires Distinct(order) && forall k :: k in order ==> k in rows
    ensures Lookup(LoadOf(rows, order, None), key) == if key in order then Some(Reported(rows[key])) else None
  {
    if order != [] {
      var data := LoadOf(rows, order, None);
      assert data[1..] == LoadOf(rows, order[1..], None);
      assert Distinct(order[1..]);
      LookupAll(rows, order[1..], key);
    }
  }

  /** Loading an asset and looking it up finds its row, whatever the key. */
  lemma LookupLoaded(rows: map<string, StoredRow>, order: seq<string>, key: string)
    requires Enumerates(order, rows)
    ensures Lookup(LoadOf(rows, order, Some(key)), key) == HeldOf(rows, key)
  {
    if key == "" {
      LookupAll(rows, order, key);
      assert LoadOf(rows, order, Some(key)) == LoadOf(rows, order, None);
    } else {
      LoadSelects(rows, order, Some(key));
    }
  }

  // ---------------------------------------------------------------- buying

  datatype AddOutcome =
    | AddRefused         // the warning: no quantity, no purchase price, or a sale price given
    | AddSaved
    | AddDivisionByZero  // the combined quantity is 0 (`ZeroDivisionError`)

  /** The quantity and unit cost after buying `m` at `price`: the quantities add up and
      the cost is the quantity-weighted average of the old cost and the price; a first
      purchase costs its price. None when the combined quantity is 0. */
  function Purchase(held: Option<Holding>, m: real, price: real): Option<(real, real)>
  {
    match held
    case None => Some((m, price))
    case Some(h) =>
      var q := h.miktar + m;
      if q == 0.0 then None else Some((q, AverageCost(h, m, price)))
  }

  /** `(held * cost + m * price) / (held + m)`. */
  function AverageCost(h: Holding, m: real, price: real): real
    requires h.miktar + m != 0.0
  {
    (h.miktar * h.maliyet + m * price) / (h.miktar + m)
  }

  /** A purchase keeps the total cost: quantity times unit cost afterwards is the old
      total cost plus what was paid. */
  lemma PurchaseKeepsTotalCost(held: Option<Holding>, m: real, price: real)
    requires Purchase(held, m, price).Some?
    ensures var (q, c) := Purchase(held, m, price).value;
      var (q0, c0) := if held.Some? then (held.value.miktar, held.value.maliyet) else (0.0, 0.0);
      q == q0 + m && q * c == q0 * c0 + m * price
  {
    if held.Some? {
      var h := held.value;
      var q := h.miktar + m;
      var total := h.miktar * h.maliyet + m * price;
      assert q * (total / q) == total;
    }
  }

  /** From a non-negative holding, a positive purchase never divides by zero, and the
      new unit cost lies between the old cost and the price. */
  lemma PurchaseCostBetween(h: Holding, m: real, price: real)
    requires h.miktar >= 0.0 && m > 0.0
    ensures Purchase(Some(h), m, price).Some?
    ensures var c := Purchase(Some(h), m, price).value.1;
      (c >= h.maliyet || c >= price) && (c <= h.maliyet || c <= price)
  {
    var q := h.miktar + m;
    var lo := if h.maliyet <= price then h.maliyet else price;
    var hi := if h.maliyet <= price then price else h.maliyet;
    var total := h.miktar * h.maliyet + m * price;
    assert h.miktar * lo <= h.miktar * h.maliyet && m * lo <= m * price;
    assert h.miktar * h.maliyet <= h.miktar * hi && m * price <= m * hi;
    assert q * lo <= total <= q * hi;
    DivideBetween(total, q, lo, hi);
  }

  lemma DivideBetween(total: real, q: real, lo: real, hi: real)
    requires q > 0.0 && q * lo <= total <= q * hi
    ensures lo <= total / q <= hi
  {
    var d := total / q;
    assert d * q == total;
    assert (d - lo) * q >= 0.0 && (hi - d) * q >= 0.0;
  }

  /** `add_to_wallet`. */
  method AddToWallet(table: WalletTable, key: string, miktar: Option<real>, satis: Option<real>, alis: Option<real>) returns (out: AddOutcome)
    requires table.Valid()
    modifies table
    ensures table.Valid()
    ensures out == AddRefused <==> !Given(miktar) || alis.None? || Given(satis)
    ensures out == AddDivisionByZero <==> out != AddRefused && Purchase(HeldOf(old(table.rows), key), miktar.value, alis.value).None?
    ensures out != AddSaved ==> table.rows == old(table.rows) && table.order == old(table.order)
    ensures out == AddSaved ==>
      var (q, c) := Purchase(HeldOf(old(table.rows), key), miktar.value, alis.value).value;
      && table.rows == Upserted(old(table.rows), key, Some(q), Some(c), alis, satis)
      && table.order == if key in old(table.rows) then old(table.order) else old(table.order) + [key]
  {
    if !Given(miktar) || alis.None? || Given(satis) {
      return AddRefused;
    }
    var m := miktar.value;
    var price := alis.value;
    var current := table.Load(Some(key));
    LookupLoaded(table.rows, table.order, key);
    var held := Lookup(current, key);
    var q: real;
    var c: real;
    if held.Some? {
      q := held.value.miktar + m;
      if q == 0.0 {
        return AddDivisionByZero;
      }
      c := AverageCost(held.value, m, price);
    } else {
      q := m;
      c := price;
    }
    assert held == HeldOf(table.rows, key) && Purchase(held, m, price) == Some((q, c));
    table.Save(key, Some(q), Some(c), alis, satis);
    out := AddSaved;
  }

  // ---------------------------------------------------------------- selling

  datatype RemoveOutcome =
    | NotHeld                 // "not enough of this asset in the wallet"
    | NoSalePrice             // the sale price field is empty
    | Insufficient(held: real)
    | SoldOut(profit: real)   // the row is deleted
    | SoldPart(profit: real)  // quantity and profit/loss are updated
    | RemoveTypeError         // an empty quantity compared with the holding

  /** The decision `remove_wallet` takes for the held row. The profit/loss is the
      proceeds of the sale less the cost of the whole holding before it. */
  function Sale(held: Option<Holding>, m: Option<real>, satis: Option<real>): RemoveOutcome
  {
    match held
    case None => NotHeld
    case Some(h) =>
      if satis.None? then NoSalePrice
      else if m.None? then RemoveTypeError
      else if m.value > h.miktar then Insufficient(h.miktar)
      else
        var profit := SaleProfit(h, m.value, satis.value);
        if h.miktar - m.value == 0.0 then SoldOut(profit) else SoldPart(profit)
  }

  /** `satis_miktari * satis_fiyati - mevcut_miktar * mevcut_maliyet`. */
  function SaleProfit(h: Holding, m: real, satis: real): real
  {
    m * satis - h.miktar * h.maliyet
  }

  /** The recorded profit/loss falls short of the gain on the units sold by exactly the
      cost of the units kept; the two agree only when everything is sold or the kept
      units cost nothing. */
  lemma SaleProfitChargesWholeHolding(h: Holding, m: real, satis: real)
    requires m <= h.miktar
    ensures var r := Sale(Some(h), Some(m), Some(satis));
      (r.SoldOut? || r.SoldPart?) && r.profit + (h.miktar - m) * h.maliyet == m * (satis - h.maliyet)
    ensures Sale(Some(h), Some(m), Some(satis)).SoldOut? <==> m == h.miktar
  {
  }

  /** A partial sale leaves a positive quantity behind; selling exactly the holding
      deletes it. */
  lemma SaleLeavesPositiveRemainder(h: Holding, m: Option<real>, satis: Option<real>)
    ensures Sale(Some(h), m, satis).SoldPart? ==> m.Some? && h.miktar - m.value > 0.0
    ensures Sale(Some(h), m, satis).SoldOut? ==> m.Some? && m.value == h.miktar
    ensures Sale(Some(h), m, satis).Insufficient? ==> m.Some? && m.value > h.miktar
  {
  }

  /** `remove_wallet`. */
  method RemoveWallet(table: WalletTable, key: string, miktar: Option<real>, satis: Option<real>) returns (out: RemoveOutcome)
    requires table.Valid()
    modifies table
    ensures table.Valid()
    ensures out == Sale(HeldOf(old(table.rows), key), miktar, satis)
    ensures out.SoldOut? ==> table.rows == old(table.rows) - {key} && table.order == Without(old(table.order), key)
    ensures out.SoldPart? ==>
      && table.rows == Updated(old(table.rows), key, Some(Reported(old(table.rows)[key]).miktar - miktar.value), Some(out.profit))
      && table.order == old(table.order)
    ensures !out.SoldOut? && !out.SoldPart? ==> table.rows == old(table.rows) && table.order == old(table.order)
  {
    var data := table.Load(Some(key));
    LookupLoaded(table.rows, table.order, key);
    var held := Lookup(data, key);
    if held.None? {
      return NotHeld;
    }
    var h := held.value;
    if satis.None? {
      return NoSalePrice;
    }
    if miktar.None? {
      return RemoveTypeError;
    }
    if miktar.value > h.miktar {
      return Insufficient(h.miktar);
    }
    assert held == HeldOf(table.rows, key);
    var remaining := h.miktar - miktar.value;
    var profit := SaleProfit(h, miktar.value, satis.value);
    if remaining == 0.0 {
      table.Remove(key);
      out := SoldOut(profit);
    } else {
      table.Update(key, Some(remaining), Some(profit));
      out := SoldPart(profit);
    }
  }

  // ---------------------------------------------------------------- valuation

  /** The bid rate by name; None is the `KeyError` (the error dict has no rates). */
  function RateFor(rates: ExchangeRates, name: string): Option<real>
  {
    if rates.Rates? && name in rates.table then Some(rates.table[name]) else None
  }

  /** The price of one unit of an asset in TL: the bid rate for Dolar, Euro and Altın,
      1 for TL and anything else. */
  function PriceOf(asset: string, rates: ExchangeRates): Option<real>
  {
    if asset == AssetTypes[2] then RateFor(rates, "USDa")
    else if asset == AssetTypes[3] then RateFor(rates, "EURa")
    else if asset == AssetTypes[1] then RateFor(rates, "Gold_Gram_TLa")
    else Some(1.0)
  }

  /** What a row is worth at a price: `miktar * price`. */
  function Worth(h: Holding, price: real): real
  {
    h.miktar * price
  }

  /** A row's unrealised profit/loss at a price: `miktar * price - maliyet * miktar`. */
  function ProfitTerm(h: Holding, price: real): real
  {
    h.miktar * price - h.maliyet * h.miktar
  }

  /** A sum over the wallet's rows of a term of the row and its price; None as soon as
      one price is missing. */
  function Accumulate(data: seq<(string, Holding)>, rates: ExchangeRates, term: (Holding, real) -> real): Option<real>
  {
    if data == [] then Some(0.0)
    else
      var last := data[|data| - 1];
      match Accumulate(data[..|data| - 1], rates, term)
      case None => None
      case Some(t) =>
        match PriceOf(last.0, rates)
        case None => None
        case Some(p) => Some(t + term(last.1, p))
  }

  /** The sum is defined exactly when every row's asset has a price. */
  lemma {:induction false} AccumulateDefined(data: seq<(string, Holding)>, rates: ExchangeRates, term: (Holding, real) -> real)
    ensures Accumulate(data, rates, term).Some? <==> forall i :: 0 <= i < |data| ==> PriceOf(data[i].0, rates).Some?
  {
    if data != [] {
      var init := data[..|data| - 1];
      AccumulateDefined(init, rates, term);
      assert forall i :: 0 <= i < |init| ==> init[i] == data[i];
    }
  }

  /** `calculate_asset`'s total: quantity times price over every row. */
  function Valuation(data: seq<(string, Holding)>, rates: ExchangeRates): Option<real>
  {
    Accumulate(data, rates, Worth)
  }

  /** What was paid for the rows: quantity times unit cost. */
  function CostBasis(data: seq<(string, Holding)>): real
  {
    if data == [] then 0.0 else CostBasis(data[..|data| - 1]) + data[|data| - 1].1.maliyet * data[|data| - 1].1.miktar
  }

  /** `kar_zarar_anlik`'s total: current value less cost, row by row. */
  function Unrealised(data: seq<(string, Holding)>, rates: ExchangeRates): Option<real>
  {
    Accumulate(data, rates, ProfitTerm)
  }

  /** The unrealised profit/loss is the wallet's value less its cost, and it is defined
      exactly when the value is. */
  lemma {:induction false} UnrealisedIsValueLessCost(data: seq<(string, Holding)>, rates: ExchangeRates)
    ensures Unrealised(data, rates).Some? <==> Valuation(data, rates).Some?
    ensures Valuation(data, rates).Some? ==> Unrealised(data, rates).value == Valuation(data, rates).value - CostBasis(data)
  {
    if data != [] {
      UnrealisedIsValueLessCost(data[..|data| - 1], rates);
    }
  }

  /** The rates the market service produces price every asset: valuing a wallet never
      raises with them. */
  lemma MarketRatesPriceEveryWallet(data: seq<(string, Holding)>, resp: QuoteResponse, round2: Round)
    requires MarketData(resp, round2).Rates?
    ensures Valuation(data, MarketData(resp, round2)).Some?
    ensures Unrealised(data, MarketData(resp, round2)).Some?
  {
    var rates := MarketData(resp, round2);
    assert "USDa" in rates.table && "EURa" in rates.table && "Gold_Gram_TLa" in rates.table;
    AccumulateDefined(data, rates, Worth);
    UnrealisedIsValueLessCost(data, rates);
  }

  /** With the rates missing, only a wallet without Dolar, Euro and Altın rows can be
      valued, and then every row counts at its quantity. */
  lemma {:induction false} ValuationWithoutRates(data: seq<(string, Holding)>, rates: ExchangeRates)
    requires rates.RatesError?
    ensures Valuation(data, rates).Some? <==> forall i :: 0 <= i < |data| ==> data[i].0 !in AssetTypes[1..]
  {
    AccumulateDefined(data, rates, Worth);
    forall i | 0 <= i < |data|
      ensures PriceOf(data[i].0, rates).Some? <==> data[i].0 !in AssetTypes[1..]
    {
      assert AssetTypes[1..] == ["Altın", "Dolar", "Euro"];
    }
  }

  /** The loop shared by `calculate_asset` and `kar_zarar_anlik`. */
  method SumRows(data: seq<(string, Holding)>, rates: ExchangeRates, term: (Holding, real) -> real) returns (total: Option<real>)
    ensures total == Accumulate(data, rates, term)
  {
    var sum := 0.0;
    for i := 0 to |data|
      invariant Accumulate(data[..i], rates, term) == Some(sum)
    {
      assert data[..i + 1][..i] == data[..i];
      var (asset, h) := data[i];
      var price := PriceOf(asset, rates);
      if price.None? {
        AccumulateDefined(data, rates, term);
        return None;
      }
      sum := sum + term(h, price.value);
    }
    assert data[..|data|] == data;
    total := Some(sum);
  }

  /** `calculate_asset`: the value of every row at the bid rates. */
  method CalculateAsset(table: WalletTable, rates: ExchangeRates) returns (total: Option<real>)
    requires table.Valid()
    ensures total == Valuation(LoadOf(table.rows, table.order, None), rates)
  {
    var data := table.Load(None);
    total := SumRows(data, rates, Worth);
  }

  /** `kar_zarar_anlik`: the unrealised profit/loss of the rows loaded for `asset`. */
  method KarZararAnlik(table: WalletTable, asset: string, rates: ExchangeRates) returns (total: Option<real>)
    requires table.Valid()
    ensures total == Unrealised(LoadOf(table.rows, table.order, Some(asset)), rates)
  {
    var data := table.Load(Some(asset));
    total := SumRows(data, rates, ProfitTerm);
  }

  // ---------------------------------------------------------------- risk inputs

  /** The risk analysis key and the rate name of a wallet asset; TL and unknown assets
      have none. */
  function RiskAsset(asset: string): Option<(string, string)>
  {
    if asset == "Dolar" then Some(("USD", "USDa"))
    else if asset == "Euro" then Some(("EUR", "EURa"))
    else if asset == "Altın" then Some(("Gold_Gram_TL", "Gold_Gram_TLa"))
    else None
  }

  /** The entry one row contributes: its TL value under its risk key, when the row is a
      risk asset and its rate is present. */
  function RiskEntry(row: (string, Holding), table: map<string, real>): seq<(string, real)>
  {
    var names := RiskAsset(row.0);
    if names.Some? && names.value.1 in table then [(names.value.0, Worth(row.1, table[names.value.1]))] else []
  }

  /** `initial_asset_values` from the rows, in order. */
  function RiskEntries(data: seq<(string, Holding)>, table: map<string, real>): seq<(string, real)>
  {
    if data == [] then [] else RiskEntries(data[..|data| - 1], table) + RiskEntry(data[|data| - 1], table)
  }

  /** The mapping loop of `main`: it runs only when the wallet has rows and the rates
      are a non-empty dict without an "error" key. */
  function RiskInputsOf(data: seq<(string, Holding)>, rates: ExchangeRates): seq<(string, real)>
  {
    if data != [] && rates.Rates? && rates.table != map[] && "error" !in rates.table then RiskEntries(data, rates.table) else []
  }

  /** Every risk input is a Dolar, Euro or Altın row valued at its bid rate, under its
      risk key; TL never appears. */
  lemma {:induction false} RiskEntriesSound(data: seq<(string, Holding)>, table: map<string, real>)
    ensures forall e :: e in RiskEntries(data, table) ==> e.0 in {"USD", "EUR", "Gold_Gram_TL"}
    ensures forall e :: e in RiskEntries(data, table) ==>
      exists i :: 0 <= i < |data| && RiskAsset(data[i].0).Some? && RiskAsset(data[i].0).value.0 == e.0
        && RiskAsset(data[i].0).value.1 in table && e.1 == Worth(data[i].1, table[RiskAsset(data[i].0).value.1])
  {
    if data != [] {
      var init := data[..|data| - 1];
      RiskEntriesSound(init, table);
      assert forall i :: 0 <= i < |init| ==> init[i] == data[i];
    }
  }

  /** Every Dolar, Euro or Altın row whose rate is present gets its risk input. */
  lemma {:induction false} RiskEntriesComplete(data: seq<(string, Holding)>, table: map<string, real>, i: nat)
    requires i < |data| && RiskAsset(data[i].0).Some? && RiskAsset(data[i].0).value.1 in table
    ensures (RiskAsset(data[i].0).value.0, Worth(data[i].1, table[RiskAsset(data[i].0).value.1])) in RiskEntries(data, table)
  {
    var init := data[..|data| - 1];
    assert RiskEntries(data, table) == RiskEntries(init, table) + RiskEntry(data[|data| - 1], table);
    if i < |data| - 1 {
      assert init[i] == data[i];
      RiskEntriesComplete(init, table, i);
    }
  }

  /** Different assets never share a risk key. */
  lemma RiskAssetInjective(a: string, b: string)
    requires a != b && RiskAsset(a).Some? && RiskAsset(b).Some?
    ensures RiskAsset(a).value.0 != RiskAsset(b).value.0
  {
  }

  /** Every risk key comes from a row of the wallet. */
  lemma {:induction false} RiskKeyOrigin(data: seq<(string, Holding)>, table: map<string, real>, k: string)
    requires k in KeysOf(RiskEntries(data, table))
    ensures exists i :: 0 <= i < |data| && RiskAsset(data[i].0).Some? && RiskAsset(data[i].0).value.0 == k
  {
    var init := data[..|data| - 1];
    var last := data[|data| - 1];
    var rest := RiskEntries(init, table);
    assert RiskEntries(data, table) == rest + RiskEntry(last, table);
    assert KeysOf(rest + RiskEntry(last, table)) == KeysOf(rest) + KeysOf(RiskEntry(last, table));
    if k in KeysOf(rest) {
      RiskKeyOrigin(init, table, k);
      var i :| 0 <= i < |init| && RiskAsset(init[i].0).Some? && RiskAsset(init[i].0).value.0 == k;
      assert init[i] == data[i];
    } else {
      assert RiskAsset(data[|data| - 1].0).Some?;
    }
  }

  /** Distinct wallet rows give distinct risk keys, so no assignment of the loop
      overwrites an earlier one. */
  lemma {:induction false} RiskEntriesDistinct(data: seq<(string, Holding)>, table: map<string, real>)
    requires Distinct(KeysOf(data))
    ensures Distinct(KeysOf(RiskEntries(data, table)))
  {
    if data != [] {
      var init := data[..|data| - 1];
      var last := data[|data| - 1];
      assert Distinct(KeysOf(init)) by {
        assert forall i :: 0 <= i < |init| ==> KeysOf(init)[i] == KeysOf(data)[i];
      }
      RiskEntriesDistinct(init, table);
      var rest := RiskEntries(init, table);
      var e := RiskEntry(last, table);
      assert RiskEntries(data, table) == rest + e;
      if e != [] {
        var k := e[0].0;
        forall j | 0 <= j < |rest|
          ensures KeysOf(rest)[j] != k
        {
          RiskKeyOrigin(init, table, KeysOf(rest)[j]);
          var i :| 0 <= i < |init| && RiskAsset(init[i].0).Some? && RiskAsset(init[i].0).value.0 == KeysOf(rest)[j];
          assert KeysOf(data)[i] != KeysOf(data)[|data| - 1];
          RiskAssetInjective(init[i].0, last.0);
        }
        assert KeysOf(rest + e) == KeysOf(rest) + [k];
      } else {
        assert rest + e == rest;
      }
    }
  }

  /** The risk inputs of a wallet meet what the risk analysis expects of its wallet:
      distinct keys, listed in their own order. */
  lemma RiskInputsFitPipeline(data: seq<(string, Holding)>, rates: ExchangeRates)
    requires Distinct(KeysOf(data))
    ensures var inputs := RiskInputsOf(data, rates);
      Pipeline.WalletShape(inputs, KeysOf(inputs))
  {
    if data != [] && rates.Rates? {
      RiskEntriesDistinct(data, rates.table);
    }
  }

  /** The hand-over in `main`: `risk_analiz_yap` is called with the risk inputs only when
      `initial_asset_values` is non-empty; None is the skipped call. `order` is the
      iteration order of the inputs' key set. A call that is made never ends in the
      empty-wallet error. */
  function RiskAnalysisCall(data: seq<(string, Holding)>, rates: ExchangeRates, order: seq<string>, yearly: Pipeline.YearlyData, o: Pipeline.Oracles, draws: MonteCarlo.Draws): (r: Option<Pipeline.Outcome>)
    requires Pipeline.WalletShape(RiskInputsOf(data, rates), order)
    ensures r.Some? <==> RiskInputsOf(data, rates) != []
    ensures r.Some? ==> r.value == Pipeline.RiskAnalysis(RiskInputsOf(data, rates), order, yearly, o, draws)
    ensures r.Some? ==> r.value != Pipeline.Failed(Pipeline.EmptyWallet)
  {
    var inputs := RiskInputsOf(data, rates);
    if inputs == [] then None
    else
      Pipeline.EmptyWalletUnreachable(inputs, order, yearly, o, draws);
      Some(Pipeline.RiskAnalysis(inputs, order, yearly, o, draws))
  }

  /** The mapping loop of `main` over the loaded rows. */
  method RiskInputs(table: WalletTable, rates: ExchangeRates) returns (inputs: seq<(string, real)>)
    requires table.Valid()
    ensures inputs == RiskInputsOf(LoadOf(table.rows, table.order, None), rates)
  {
    var data := table.Load(None);
    inputs := [];
    if !(data != [] && rates.Rates? && rates.table != map[] && "error" !in rates.table) {
      return;
    }
    var t := rates.table;
    for i := 0 to |data|
      invariant inputs == RiskEntries(data[..i], t)
    {
      assert data[..i + 1][..i] == data[..i];
      var row := data[i];
      assert data[..i + 1][i] == row;
      var names := RiskAsset(row.0);
      if names.Some? && names.value.1 in t {
        inputs := inputs + [(names.value.0, Worth(row.1, t[names.value.1]))];
      }
      assert RiskEntries(data[..i + 1], t) == RiskEntries(data[..i], t) + RiskEntry(row, t);
    }
    assert data[..|data|] == data;
  }
}
