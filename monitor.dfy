/**
 * `PriceMonitor`: the threshold test with its alert text, and the per-item
 * step that turns the provider's answer into an optional alert.
 */
module Monitor {
  import opened Wrappers
  import opened Text
  import opened Config
  import opened Provider

  const UpperPhrase := "上回りました↑↑🎉"
  const LowerPhrase := "下回りました↓↓🎉"

  /** The item's target has been reached: at or above an upper target, at or below a lower one. */
  predicate Reached(item: WatchItem, price: real)
  {
    if item.isUpperTarget then item.target <= price else price <= item.target
  }

  function DirectionPhrase(item: WatchItem): string
  {
    if item.isUpperTarget then UpperPhrase else LowerPhrase
  }

  /** The alert text: symbol, target and unit, direction phrase, then the observed price and unit in parentheses. */
  function AlertText(item: WatchItem, price: real, show: real -> string): string
  {
    item.symbol + "の価格が" + show(item.target) + item.unit + "を" + DirectionPhrase(item)
      + " (" + show(price) + item.unit + ")"
  }

  /** `checkPriceTarget`: the alert text when the target has been reached, `null` otherwise. */
  function CheckPriceTarget(item: WatchItem, price: real, show: real -> string): (r: Option<string>)
    ensures r.Some? <==> Reached(item, price)
    ensures r.Some? ==> r.value == AlertText(item, price, show)
  {
    var shouldNotify := if item.isUpperTarget then price >= item.target else price <= item.target;
    if !shouldNotify then None
    else Some(AlertText(item, price, show))
  }

  /** `processItem`: a thrown error or a price of 0 gives `null`; otherwise the threshold decides. */
  function ProcessItem(config: Config, host: Host, item: WatchItem): (r: Option<string>)
    ensures r.Some? <==>
      GetPrice(config, host, item).Price? && GetPrice(config, host, item).value != 0.0
      && Reached(item, GetPrice(config, host, item).value)
    ensures r.Some? ==> r.value == AlertText(item, GetPrice(config, host, item).value, host.show)
  {
    match GetPrice(config, host, item)
    case Thrown(_) => None
    case Price(price) =>
      if price == 0.0 then None
      else CheckPriceTarget(item, price, host.show)
  }

  /** At the boundary, a price equal to the target, both kinds of target fire. */
  lemma BoundaryFires(item: WatchItem, show: real -> string)
    ensures CheckPriceTarget(item.(isUpperTarget := true), item.target, show).Some?
    ensures CheckPriceTarget(item.(isUpperTarget := false), item.target, show).Some?
  {
  }

  /**
   * For one target and price, the upper or the lower variant of the item
   * fires, and both fire exactly when the price equals the target.
   */
  lemma OppositeTargets(item: WatchItem, price: real, show: real -> string)
    ensures CheckPriceTarget(item.(isUpperTarget := true), price, show).Some?
         || CheckPriceTarget(item.(isUpperTarget := false), price, show).Some?
    ensures (CheckPriceTarget(item.(isUpperTarget := true), price, show).Some?
         && CheckPriceTarget(item.(isUpperTarget := false), price, show).Some?) <==> price == item.target
  {
  }

  /** An upper target that fired keeps firing at higher prices; a lower one at lower prices. */
  lemma FiringIsMonotone(item: WatchItem, price: real, other: real, show: real -> string)
    requires CheckPriceTarget(item, price, show).Some?
    requires if item.isUpperTarget then price <= other else other <= price
    ensures CheckPriceTarget(item, other, show).Some?
  {
  }

  /** The alert names the symbol, the target, the unit, the direction and the observed price. */
  lemma AlertMentionsFields(item: WatchItem, price: real, show: real -> string)
    ensures Contains(AlertText(item, price, show), item.symbol)
    ensures Contains(AlertText(item, price, show), show(item.target))
    ensures Contains(AlertText(item, price, show), item.unit)
    ensures Contains(AlertText(item, price, show), DirectionPhrase(item))
    ensures Contains(AlertText(item, price, show), show(price))
  {
    var s, t, u, d, p := item.symbol, show(item.target), item.unit, DirectionPhrase(item), show(price);
    var a, b, c, e := "の価格が", "を", " (", ")";
    var m := AlertText(item, price, show);
    assert m == s + a + t + u + b + d + c + p + u + e;
    TemplateParts(s, a, t, u, b, d, c, p, e);
  }

  /** Each named part of a nine-part concatenation occurs in it. */
  lemma TemplateParts(s: string, a: string, t: string, u: string, b: string, d: string, c: string, p: string, e: string)
    ensures var m := s + a + t + u + b + d + c + p + u + e;
      Contains(m, s) && Contains(m, t) && Contains(m, u) && Contains(m, d) && Contains(m, p)
  {
    var m8 := s + a + t + u + b + d + c + p + u;
    var m7 := s + a + t + u + b + d + c + p;
    var m6 := s + a + t + u + b + d + c;
    var m5 := s + a + t + u + b + d;
    var m4 := s + a + t + u + b;
    var m3 := s + a + t + u;
    var m2 := s + a + t;
    var m1 := s + a;
    var m := m8 + e;
    ContainsLeft(m8, e);
    ContainsRight(m7, u);
    ContainsLeft(m7, u);
    ContainsRight(m6, p);
    ContainsTransitive(m, m8, m7);
    ContainsTransitive(m, m7, p);
    ContainsTransitive(m, m8, u);
    ContainsLeft(m6, p);
    ContainsLeft(m5, c);
    ContainsRight(m4, d);
    ContainsTransitive(m, m7, m6);
    ContainsTransitive(m, m6, m5);
    ContainsTransitive(m, m5, d);
    ContainsLeft(m4, d);
    ContainsLeft(m3, b);
    ContainsLeft(m2, u);
    ContainsRight(m1, t);
    ContainsLeft(m1, t);
    ContainsLeft(s, a);
    ContainsTransitive(m, m5, m4);
    ContainsTransitive(m, m4, m3);
    ContainsTransitive(m, m3, m2);
    ContainsTransitive(m, m2, t);
    ContainsTransitive(m, m2, m1);
    ContainsTransitive(m, m1, s);
  }

  /** The upper and the lower alert for the same item and price differ: the direction can be read off. */
  lemma AlertShowsDirection(item: WatchItem, price: real, show: real -> string)
    ensures AlertText(item.(isUpperTarget := true), price, show)
         != AlertText(item.(isUpperTarget := false), price, show)
  {
    var up, down := item.(isUpperTarget := true), item.(isUpperTarget := false);
    var lead := item.symbol + "の価格が" + show(item.target) + item.unit + "を";
    var rest := " (" + show(price) + item.unit + ")";
    assert AlertText(up, price, show) == lead + UpperPhrase + rest;
    assert AlertText(down, price, show) == lead + LowerPhrase + rest;
    assert (lead + UpperPhrase + rest)[|lead|] == '上';
    assert (lead + LowerPhrase + rest)[|lead|] == '下';
  }

  /** A type other than "stock" or "exchange" throws inside the provider and the item yields `null`. */
  lemma UnsupportedTypeIsNull(config: Config, host: Host, item: WatchItem)
    requires item.kind != "stock" && item.kind != "exchange"
    ensures ProcessItem(config, host, item) == None
  {
  }

  /**
   * A price of 0 is "unavailable" even where it would reach the target: a
   * lower target of 0 or more fires at 0, yet the item yields `null`.
   */
  lemma ZeroPriceIsUnavailable(config: Config, host: Host, item: WatchItem)
    requires GetPrice(config, host, item) == Price(0.0)
    requires !item.isUpperTarget && item.target >= 0.0
    ensures CheckPriceTarget(item, 0.0, host.show).Some?
    ensures ProcessItem(config, host, item) == None
  {
  }

  /** A stock response without its time series excludes the item. */
  lemma MissingSeriesIsNull(config: Config, host: Host, item: WatchItem, data: Json.Value)
    requires item.kind == "stock"
    requires host.fetch(BuildStockUrl(config, item.symbol)) == Body(data)
    requires Json.Get(data, TimeSeriesKey).None?
    ensures ProcessItem(config, host, item) == None
  {
    StockWithoutSeriesIsZero(config, host, item.symbol, data);
  }

  /** USD/JPY below 140 円 at 139.5: an alert naming the pair, both prices and the downward phrase. */
  lemma ScenarioUsdJpyBelowTarget(config: Config, host: Host)
    requires GetPrice(config, host, WatchList[0]) == Price(139.5)
    ensures ProcessItem(config, host, WatchList[0]).Some?
    ensures var m := ProcessItem(config, host, WatchList[0]).value;
      Contains(m, "USD/JPY") && Contains(m, host.show(140.0)) && Contains(m, host.show(139.5))
      && Contains(m, LowerPhrase)
  {
    AlertMentionsFields(WatchList[0], 139.5, host.show);
  }

  /** VOO above 600 $ at 599.9: no alert. */
  lemma ScenarioVooBelowUpperTarget(config: Config, host: Host)
    requires GetPrice(config, host, WatchList[3]) == Price(599.9)
    ensures ProcessItem(config, host, WatchList[3]) == None
  {
  }
}
