/** The market data service of `api.py`: the latest rates with the gram gold price
    derived from the ounce price, the daily bid series, and the weekly, monthly and
    yearly series dicts. HTTP is left out: what an endpoint answered is an input.
    Python's `round(x, 2)` on a float is an oracle. */
module Market {
  import opened Common
  import opened Returns

  type Round = real -> real

  /** Grams in a troy ounce. */
  const TroyOunceGrams: real := 31.1035

  /** The TL price of a gram of gold from the ounce price in USD and the USD rate. */
  function GramGold(xauUsd: real, usdTry: real, round2: Round): real
  {
    round2((xauUsd * usdTry) / TroyOunceGrams)
  }

  // ---------------------------------------------------------------- latest rates

  /** What the quotes endpoint answered: its HTTP status and, by currency pair, the
      quoted fields already converted to floats. */
  datatype QuoteResponse = QuoteResponse(status: int, data: map<string, map<string, real>>)

  datatype RatesFailure =
    | BadStatus(code: int)  // the quotes endpoint answered with another status than 200
    | MissingField          // a pair or a field is missing from the answer (`KeyError`)
    | ServiceFailed         // the local service could not be reached or answered an error

  /** The `exchange_rates` dict: the error dict, or the six rates by name. */
  datatype ExchangeRates = RatesError(reason: RatesFailure) | Rates(table: map<string, real>)

  /** `data[pair][field]`; None is the `KeyError`. */
  function Quote(data: map<string, map<string, real>>, pair: string, field: string): Option<real>
  {
    if pair in data && field in data[pair] then Some(data[pair][field]) else None
  }

  /** The six quotes `get_market_data` reads. */
  predicate HasQuotes(data: map<string, map<string, real>>)
  {
    && Quote(data, "USDTRY", "ask").Some? && Quote(data, "EURTRY", "ask").Some?
    && Quote(data, "XAUUSD", "ask").Some? && Quote(data, "XAUUSD", "bid").Some?
    && Quote(data, "USDTRY", "bid").Some? && Quote(data, "EURTRY", "bid").Some?
  }

  /** `get_market_data`: every quote rounded to two decimals, and both gram gold prices
      computed from the rounded ounce price and the rounded USD rate. */
  function MarketData(resp: QuoteResponse, round2: Round): (r: ExchangeRates)
    ensures resp.status != 200 ==> r == RatesError(BadStatus(resp.status))
    ensures resp.status == 200 ==> (r.Rates? <==> HasQuotes(resp.data))
    ensures r.RatesError? && resp.status == 200 ==> r.reason == MissingField
    ensures r.Rates? ==> r.table.Keys == {"USDs", "EURs", "Gold_Gram_TLs", "USDa", "EURa", "Gold_Gram_TLa"}
    ensures r.Rates? ==> r.table["USDs"] == round2(resp.data["USDTRY"]["ask"]) && r.table["USDa"] == round2(resp.data["USDTRY"]["bid"])
    ensures r.Rates? ==> r.table["EURs"] == round2(resp.data["EURTRY"]["ask"]) && r.table["EURa"] == round2(resp.data["EURTRY"]["bid"])
    ensures r.Rates? ==> r.table["Gold_Gram_TLa"] == GramGold(round2(resp.data["XAUUSD"]["bid"]), r.table["USDa"], round2)
    ensures r.Rates? ==> r.table["Gold_Gram_TLs"] == GramGold(round2(resp.data["XAUUSD"]["ask"]), r.table["USDs"], round2)
  {
    if resp.status != 200 then RatesError(BadStatus(resp.status))
    else if !HasQuotes(resp.data) then RatesError(MissingField)
    else
      var d := resp.data;
      var usdSell := round2(d["USDTRY"]["ask"]);
      var eurSell := round2(d["EURTRY"]["ask"]);
      var xauSell := round2(d["XAUUSD"]["ask"]);
      var xauBuy := round2(d["XAUUSD"]["bid"]);
      var usdBuy := round2(d["USDTRY"]["bid"]);
      var eurBuy := round2(d["EURTRY"]["bid"]);
      Rates(map[
        "USDs" := usdSell,
        "EURs" := eurSell,
        "Gold_Gram_TLs" := GramGold(xauSell, usdSell, round2),
        "USDa" := usdBuy,
        "EURa" := eurBuy,
        "Gold_Gram_TLa" := GramGold(xauBuy, usdBuy, round2)])
  }

  // ---------------------------------------------------------------- daily bids

  /** `float(item['bid'])`: a number, a `ValueError` (a string that does not parse) or a
      `TypeError` (None, a list or a dict). */
  datatype Bid = Parsed(value: real) | NotANumber | WrongType

  /** An element of the answer's list: its `bid` entry, if it has one. */
  datatype Item = Item(bid: Option<Bid>)

  /** What the daily endpoint gave `get_gecmis_veri`. */
  datatype DailyReply =
    | RequestFailed          // a connection error, an error status or an unreadable body
    | NotAList               // a JSON value that is not a list
    | Items(items: seq<Item>)

  predicate RaisesTypeError(item: Item)
  {
    item.bid == Some(WrongType)
  }

  /** The parsed bids of the items, in order. */
  function ParsedBids(items: seq<Item>): seq<real>
  {
    if items == [] then []
    else
      var last := items[|items| - 1];
      ParsedBids(items[..|items| - 1]) + (if last.bid.Some? && last.bid.value.Parsed? then [last.bid.value.value] else [])
  }

  /** `get_gecmis_veri`: the parsed bids; the empty list when the request failed, when
      the answer is not a list, or when one bid raised `TypeError`, which the outer
      handler catches after the loop has started. */
  function BidsOf(reply: DailyReply): (prices: seq<real>)
    ensures reply.RequestFailed? || reply.NotAList? ==> prices == []
    ensures reply.Items? && (exists i :: 0 <= i < |reply.items| && RaisesTypeError(reply.items[i])) ==> prices == []
  {
    match reply
    case RequestFailed => []
    case NotAList => []
    case Items(items) => if exists i :: 0 <= i < |items| && RaisesTypeError(items[i]) then [] else ParsedBids(items)
  }

  /** The loop of `get_gecmis_veri` over the answer's list. */
  method HistoricalBids(reply: DailyReply) returns (prices: seq<real>)
    ensures prices == BidsOf(reply)
  {
    prices := [];
    if !reply.Items? {
      return;
    }
    var items := reply.items;
    for i := 0 to |items|
      invariant prices == ParsedBids(items[..i])
      invariant forall j :: 0 <= j < i ==> !RaisesTypeError(items[j])
    {
      var item := items[i];
      assert items[..i + 1][..i] == items[..i];
      if item.bid.Some? {
        match item.bid.value
        case Parsed(v) =>
          prices := prices + [v];
        case NotANumber =>
        case WrongType =>
          return [];
      }
    }
    assert items[..|items|] == items;
  }

  lemma {:induction false} ParsedBidsAppend(a: seq<Item>, b: seq<Item>)
    ensures ParsedBids(a + b) == ParsedBids(a) + ParsedBids(b)
  {
    if b == [] {
      assert a + b == a;
    } else {
      var b' := b[..|b| - 1];
      assert (a + b)[..|a + b| - 1] == a + b';
      ParsedBidsAppend(a, b');
    }
  }

  /** Every price comes from an item whose bid parsed, and the items with parsed bids
      all contribute, in their order: an item whose bid parsed to `v` adds `v` exactly
      where it stands. */
  lemma {:induction false} ParsedBidsAt(before: seq<Item>, v: real, after: seq<Item>)
    ensures ParsedBids(before + [Item(Some(Parsed(v)))] + after) == ParsedBids(before) + [v] + ParsedBids(after)
  {
    var item := Item(Some(Parsed(v)));
    ParsedBidsAppend(before + [item], after);
    ParsedBidsAppend(before, [item]);
    ParsedBidsSingle(item);
  }

  /** Items without a parseable bid are skipped. */
  lemma {:induction false} ParsedBidsSkips(before: seq<Item>, item: Item, after: seq<Item>)
    requires item.bid.None? || item.bid.value.NotANumber?
    ensures ParsedBids(before + [item] + after) == ParsedBids(before) + ParsedBids(after)
  {
    ParsedBidsAppend(before + [item], after);
    ParsedBidsAppend(before, [item]);
    ParsedBidsSingle(item);
  }

  lemma ParsedBidsSingle(item: Item)
    ensures ParsedBids([item]) == if item.bid.Some? && item.bid.value.Parsed? then [item.bid.value.value] else []
  {
    assert [item][..0] == [];
  }

  /** No more prices than items. */
  lemma {:induction false} ParsedBidsBound(items: seq<Item>)
    ensures |ParsedBids(items)| <= |items|
  {
    if items != [] {
      ParsedBidsBound(items[..|items| - 1]);
    }
  }

  // ---------------------------------------------------------------- gold series

  /** The gram gold list of `haftalik_veri` and `aylik_veri`: built only when both
      series are non-empty and of one length. */
  function MatchedGoldOf(usd: seq<real>, xau: seq<real>, round2: Round): (gold: seq<real>)
    ensures gold != [] <==> usd != [] && xau != [] && |usd| == |xau|
  {
    if usd != [] && xau != [] && |usd| == |xau| then seq(|usd|, i requires 0 <= i < |usd| => GramGold(xau[i], usd[i], round2))
    else []
  }

  /** The gram gold list of `yillik_veri`: no length check, so the loop runs over the
      USD series and an index past the end of the gold series (`IndexError`, caught)
      gives None. */
  function YearlyGoldOf(usd: seq<real>, xau: seq<real>, round2: Round): (gold: Series)
    ensures usd == [] || xau == [] ==> gold == []
    ensures usd != [] && xau != [] ==> |gold| == |usd|
  {
    if usd != [] && xau != [] then
      seq(|usd|, i requires 0 <= i < |usd| => if i < |xau| then Some(GramGold(xau[i], usd[i], round2)) else None)
    else []
  }

  /** Float list to a list that may hold None. */
  function Lift(xs: seq<real>): (s: Series)
    ensures |s| == |xs| && forall i :: 0 <= i < |xs| ==> s[i] == Some(xs[i])
  {
    seq(|xs|, i requires 0 <= i < |xs| => Some(xs[i]))
  }

  /** Where the weekly check passes, the yearly construction gives the same list; where
      the gold series is shorter, its tail is None rather than missing. */
  lemma YearlyGoldAgreesWithMatched(usd: seq<real>, xau: seq<real>, round2: Round)
    ensures |usd| == |xau| ==> YearlyGoldOf(usd, xau, round2) == Lift(MatchedGoldOf(usd, xau, round2))
    ensures usd != [] && xau != [] ==> forall i :: |xau| <= i < |usd| ==> YearlyGoldOf(usd, xau, round2)[i] == None
    ensures usd != [] && xau != [] ==> forall i :: 0 <= i < |usd| && i < |xau| ==>
      YearlyGoldOf(usd, xau, round2)[i] == Some(GramGold(xau[i], usd[i], round2))
  {
    if |usd| == |xau| && usd != [] {
      var y := YearlyGoldOf(usd, xau, round2);
      var m := Lift(MatchedGoldOf(usd, xau, round2));
      assert forall i :: 0 <= i < |usd| ==> y[i] == m[i];
    }
  }

  /** The weekly and monthly gold loop. */
  method MatchedGold(usd: seq<real>, xau: seq<real>, round2: Round) returns (gold: seq<real>)
    ensures gold == MatchedGoldOf(usd, xau, round2)
  {
    gold := [];
    if usd != [] && xau != [] && |usd| == |xau| {
      for i := 0 to |usd|
        invariant gold == MatchedGoldOf(usd, xau, round2)[..i]
      {
        gold := gold + [GramGold(xau[i], usd[i], round2)];
      }
    }
  }

  /** The yearly gold loop. */
  method YearlyGold(usd: seq<real>, xau: seq<real>, round2: Round) returns (gold: Series)
    ensures gold == YearlyGoldOf(usd, xau, round2)
  {
    gold := [];
    if usd != [] && xau != [] {
      for i := 0 to |usd|
        invariant gold == YearlyGoldOf(usd, xau, round2)[..i]
      {
        if i < |xau| {
          gold := gold + [Some(GramGold(xau[i], usd[i], round2))];
        } else {
          gold := gold + [None];
        }
      }
    }
  }

  // ---------------------------------------------------------------- series dicts

  /** A series dict: the USD, EUR and gram gold series under keys with the period's
      suffix ("h" weekly, "a" monthly, "y" yearly). */
  function SeriesDict(suffix: string, usd: Series, eur: Series, gold: Series): (d: map<string, Series>)
    ensures d.Keys == {"USD" + suffix, "EUR" + suffix, "Gold_Gram_TL" + suffix}
  {
    map["USD" + suffix := usd, "EUR" + suffix := eur, "Gold_Gram_TL" + suffix := gold]
  }

  function WeeklyOf(usd: DailyReply, eur: DailyReply, xau: DailyReply, round2: Round): map<string, Series>
  {
    SeriesDict("h", Lift(BidsOf(usd)), Lift(BidsOf(eur)), Lift(MatchedGoldOf(BidsOf(usd), BidsOf(xau), round2)))
  }

  function MonthlyOf(usd: DailyReply, eur: DailyReply, xau: DailyReply, round2: Round): map<string, Series>
  {
    SeriesDict("a", Lift(BidsOf(usd)), Lift(BidsOf(eur)), Lift(MatchedGoldOf(BidsOf(usd), BidsOf(xau), round2)))
  }

  function YearlyOf(usd: DailyReply, eur: DailyReply, xau: DailyReply, round2: Round): map<string, Series>
  {
    SeriesDict("y", Lift(BidsOf(usd)), Lift(BidsOf(eur)), YearlyGoldOf(BidsOf(usd), BidsOf(xau), round2))
  }

  /** `haftalik_veri`, from the answers for the last 7 days. */
  method Weekly(usd: DailyReply, eur: DailyReply, xau: DailyReply, round2: Round) returns (d: map<string, Series>)
    ensures d == WeeklyOf(usd, eur, xau, round2)
  {
    var u := HistoricalBids(usd);
    var e := HistoricalBids(eur);
    var x := HistoricalBids(xau);
    var gold := MatchedGold(u, x, round2);
    d := SeriesDict("h", Lift(u), Lift(e), Lift(gold));
  }

  /** `aylik_veri`, from the answers for the last 30 days. */
  method Monthly(usd: DailyReply, eur: DailyReply, xau: DailyReply, round2: Round) returns (d: map<string, Series>)
    ensures d == MonthlyOf(usd, eur, xau, round2)
  {
    var u := HistoricalBids(usd);
    var e := HistoricalBids(eur);
    var x := HistoricalBids(xau);
    var gold := MatchedGold(u, x, round2);
    d := SeriesDict("a", Lift(u), Lift(e), Lift(gold));
  }

  /** `yillik_veri`, from the answers for the last 360 days. */
  method Yearly(usd: DailyReply, eur: DailyReply, xau: DailyReply, round2: Round) returns (d: map<string, Series>)
    ensures d == YearlyOf(usd, eur, xau, round2)
  {
    var u := HistoricalBids(usd);
    var e := HistoricalBids(eur);
    var x := HistoricalBids(xau);
    var gold := YearlyGold(u, x, round2);
    d := SeriesDict("y", Lift(u), Lift(e), gold);
  }

  /** The yearly dict carries a series under the "y" key of each of the three risk
      assets; the gold series is as long as the USD series, with None past the end of
      the ounce series, and empty when either is. */
  lemma YearlyServesRiskAssets(usd: DailyReply, eur: DailyReply, xau: DailyReply, round2: Round)
    ensures var d := YearlyOf(usd, eur, xau, round2);
      "USD" + "y" in d && "EUR" + "y" in d && "Gold_Gram_TL" + "y" in d
    ensures var d := YearlyOf(usd, eur, xau, round2);
      var u := BidsOf(usd);
      var x := BidsOf(xau);
      |d["Gold_Gram_TL" + "y"]| == (if u != [] && x != [] then |u| else 0)
  {
    var d := YearlyOf(usd, eur, xau, round2);
    assert "Gold_Gram_TL" + "y" == "Gold_Gram_TLy";
    assert d["Gold_Gram_TLy"] == YearlyGoldOf(BidsOf(usd), BidsOf(xau), round2);
  }
}
