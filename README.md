# Stock-Price-Alert: price-alert job, modelled in Dafny

This project models the decision logic of the scheduled price-alert job in
`investment_alarm.js`. The job runs as a Google Apps Script on a timer. On a
weekday it walks the static watch list of stocks and currency pairs and asks
Alpha Vantage for each price. When a price has crossed its item's target, it
builds an alert text. It posts every alert to a Slack webhook and creates a
Todoist task for it.

Modules, one per part of the source:

- `Config` (`config.dfy`): the `CONFIG` object, the watch-list entry and the
  shipped `WATCH_LIST` fixture, and `validateConfig`.
- `Provider` (`provider.dfy`): `PriceProvider`. It builds the two request
  URLs, reads the price out of an already-parsed response, and dispatches on
  the item's `type`.
- `Monitor` (`monitor.dfy`): `PriceMonitor.checkPriceTarget` and
  `PriceMonitor.processItem`.
- `MonitoringSystem` (`system.dfy`): `isWeekend`, and `processWatchList`,
  `sendNotifications` and `run` from `PriceMonitoringSystem`.
- `Text` (`text.dfy`): the JavaScript string operations these rely on.
  `replace` with a string pattern rewrites only the first occurrence and
  honours the `$$`, `$&`, `` $` `` and `$'` patterns of the replacement.
  `split` is modelled for a one-character separator.
- `Json` (`json.dfy`): parsed response values, member lookup and JavaScript
  truthiness. `Wrappers` (`wrappers.dfy`) holds the `Option` type that stands
  for `null`/`undefined`.

Three things outside the model are parameters, bundled in `Provider.Host`:
- `fetch`: the network. It maps a URL to a parsed body, or to `Failed` when
  `UrlFetchApp.fetch` or `JSON.parse` throws.
- `parseFloat`.
- `show`: JavaScript's number-to-string conversion inside template literals.

The day of the week is a parameter instead of `new Date().getDay()`. Prices
are `real`. The job's outside effects are the sequence of requests it makes,
as `MonitoringSystem.Effect` values: the quote requests, then the Slack and
Todoist POSTs.

Some behaviours of the code that the model keeps as they are:
- The price comes from the first key of the time series
  (investment_alarm.js:59). That entry is the newest only if the API lists
  timestamps newest first.
- Only a price of exactly 0 counts as "unavailable"
  (investment_alarm.js:148). A negative price still reaches the threshold
  test.
- Every alert goes to Slack and then to Todoist (investment_alarm.js:296-302).
- The Todoist task is always due `"Today"`.

## Model

| member | source | states |
|---|---|---|
| Text.IndexOf | investment_alarm.js:100-112 | the position `replace` rewrites is the first occurrence of the placeholder: it occurs there and nowhere earlier, and `None` means it occurs nowhere |
| Text.ReplaceFirstLiteral | investment_alarm.js:100-112 | `replace` with a `$`-free replacement substitutes the first occurrence and keeps everything else, later occurrences included |
| Text.ReplaceFirstAbsent | investment_alarm.js:100-112 | `replace` leaves a string without the placeholder unchanged |
| Text.SubstitutionLiteral | investment_alarm.js:100-112 | a replacement string without `$` is inserted literally |
| Text.Split | investment_alarm.js:74 | `split("/")` yields at least one piece and no piece contains `/` |
| Text.JoinSplit | investment_alarm.js:74 | joining the pieces of `split` with the separator gives the original string |
| Text.SplitJoin | investment_alarm.js:74 | splitting a join of separator-free pieces gives those pieces back |
| Config.Unset | investment_alarm.js:319-333 | no more settings are reported unset than were inspected |
| Config.UnsetExact | investment_alarm.js:319-333 | a setting is reported unset exactly when it was inspected and its value is empty |
| Config.ValidateConfig | investment_alarm.js:316-342 | returns true iff all four settings are non-empty, iff no error was recorded; the errors are one message per empty setting in the order API key, Slack URL, Todoist key, project id |
| Config.AllSetIffNoneUnset | investment_alarm.js:335-341 | the validation passes exactly when no setting is empty |
| Config.DefaultConfigIncomplete | investment_alarm.js:7-19 | the shipped configuration leaves all four settings unset |
| Json.Find | investment_alarm.js:51-60 | property access on a parsed object: `undefined` exactly when no member has the key, otherwise the value of the last member with that key |
| Json.RepeatedKeyKeepsLast | investment_alarm.js:51 | of a key repeated in the body, `JSON.parse` keeps the last value |
| Provider.GetPriceReadsRequestUrl | investment_alarm.js:32-41 | the outcome depends on the network only through the URL the item requests, the one recorded in the run's trace |
| Provider.GetPrice | investment_alarm.js:32-41 | throws exactly for a type other than "stock" or "exchange", with the message naming the type; exactly then no request URL exists |
| Provider.StockUrlShape | investment_alarm.js:99-104 | the stock URL is the template with the symbol and then the API key in their slots |
| Provider.StockUrlPlaceholderInSymbol | investment_alarm.js:99-104 | only the first `{apiKey}` is replaced: a symbol that is the placeholder receives the key and the template's own slot stays |
| Provider.ExchangeUrlShape | investment_alarm.js:109-113 | the exchange URL is the template with from, to and the API key in their slots |
| Provider.CurrencyOperandsOfPair | investment_alarm.js:74 | "BASE/QUOTE" splits into the two codes |
| Provider.CurrencyOperandsWithoutSlash | investment_alarm.js:74-75 | a symbol without `/` leaves the quote currency `undefined`, which the URL then spells out |
| Provider.ExchangeRequestForPair | investment_alarm.js:73-75 | an exchange item requests the URL with its two currency codes in the template's slots |
| Provider.FailedRequestIsZero | investment_alarm.js:46-94 | a failed request or an unparsable body makes either fetcher return 0 rather than throw |
| Provider.StockWithoutSeriesIsZero | investment_alarm.js:53-57 | a response without "Time Series (5min)" gives 0 |
| Provider.StockPriceFromFirstEntry | investment_alarm.js:59-63 | otherwise the price is `parseFloat` of the "4. close" of the entry under the series' first key |
| Provider.StockPriceTakesFirstKey | investment_alarm.js:59-60 | the first key is taken even when a later key has the newer timestamp |
| Provider.ExchangeWithoutRateIsZero | investment_alarm.js:81-86 | a response without "5. Exchange Rate" under "Realtime Currency Exchange Rate" gives 0 |
| Provider.ExchangeRateFromField | investment_alarm.js:81-89 | otherwise the rate is `parseFloat` of that field |
| Monitor.CheckPriceTarget | investment_alarm.js:127-140 | an alert exactly when the target is reached (at or above an upper target, at or below a lower one), and then the fixed-template text |
| Monitor.BoundaryFires | investment_alarm.js:130-132 | a price equal to the target fires for both kinds of target |
| Monitor.OppositeTargets | investment_alarm.js:130-132 | for a target and a price, the upper or the lower variant fires, and both fire iff the price equals the target |
| Monitor.FiringIsMonotone | investment_alarm.js:130-132 | a fired upper target also fires at higher prices, a lower one at lower prices |
| Monitor.AlertMentionsFields | investment_alarm.js:138-139 | the alert contains the symbol, the shown target, the unit, the direction phrase and the shown price |
| Monitor.AlertShowsDirection | investment_alarm.js:138 | the upper and the lower alert for the same item and price differ |
| Monitor.ProcessItem | investment_alarm.js:145-160 | an alert iff the provider returned a non-zero price that reaches the target, and then the alert text for that price; a thrown error gives `null` |
| Monitor.UnsupportedTypeIsNull | investment_alarm.js:154-159 | an unsupported type's exception is caught and the item yields `null` |
| Monitor.ZeroPriceIsUnavailable | investment_alarm.js:147-151 | a price of 0 yields `null` even where 0 would reach the target |
| Monitor.MissingSeriesIsNull | investment_alarm.js:145-153 | a stock response without its time series excludes the item |
| Monitor.ScenarioUsdJpyBelowTarget | watch_list.js:2-8 | USD/JPY below 140 at 139.5 alerts, naming the pair, both prices and the downward phrase |
| Monitor.ScenarioVooBelowUpperTarget | watch_list.js:24 | VOO above 600 at 599.9 gives no alert |
| MonitoringSystem.DefaultWeekend | investment_alarm.js:255-258 | with the shipped `WEEKEND_DAYS`, a day is weekend iff it is Sunday (0) or Saturday (6) |
| MonitoringSystem.Present | investment_alarm.js:288-290 | the filter keeps exactly the non-`null` values and is no longer than its input |
| MonitoringSystem.PositionsIncrease | investment_alarm.js:288-290 | the positions of the kept values strictly increase, so the filter keeps input order |
| MonitoringSystem.PositionsAreExact | investment_alarm.js:288-290 | the kept positions are exactly those holding a value |
| MonitoringSystem.PresentAtPositions | investment_alarm.js:288-290 | the k-th kept value is the value at the k-th kept position |
| MonitoringSystem.ProcessWatchList | investment_alarm.js:287-291 | no more alerts than items; a text is an alert iff some item produced it |
| MonitoringSystem.WatchListOrder | investment_alarm.js:287-291 | the k-th alert comes from the k-th item that produced one, and those items keep watch-list order |
| MonitoringSystem.WatchListSplits | investment_alarm.js:287-291 | processing a list in two parts gives the parts' alerts in sequence |
| MonitoringSystem.FailingItemIsIsolated | investment_alarm.js:287-291 | an item that yields `null` leaves the alerts of the items around it unchanged |
| MonitoringSystem.OneRequestPerSupportedItem | investment_alarm.js:32-41 | every item of a supported type makes exactly one quote request |
| MonitoringSystem.SendNotifications | investment_alarm.js:296-302 | the requests sent are the deliveries of every alert, in order |
| MonitoringSystem.SlackOfOneAlert | investment_alarm.js:174-191 | one alert reaches Slack once, prefixed with `<!channel>`, exactly when the webhook URL is set |
| MonitoringSystem.TodoistOfOneAlert | investment_alarm.js:211-235 | one alert becomes one Todoist task with the alert as content exactly when the API key is set |
| MonitoringSystem.SlackReceivesEveryAlert | investment_alarm.js:174-191 | with a webhook URL, Slack receives every alert in order with the `<!channel>` mention; without one, nothing |
| MonitoringSystem.TodoistReceivesEveryAlert | investment_alarm.js:211-235 | with an API key, Todoist receives every alert in order as a task; without one, nothing |
| MonitoringSystem.NoDeliveriesWithoutCredentials | investment_alarm.js:296-302 | with neither credential, no alert is sent anywhere |
| MonitoringSystem.Run | investment_alarm.js:274-282 | on a weekend nothing is requested; otherwise the pass's quote requests, then the deliveries of its alerts |

## Left out

- Network I/O (`UrlFetchApp.fetch`), `JSON.parse`, `response.getContentText` and `parseFloat` are not modelled. The network and `parseFloat` are functions of `Host`.
- JavaScript's number-to-string conversion inside template literals is not modelled. It is `Host.show`.
- Floating point is not modelled: prices are exact `real` values, and `NaN` from a malformed number is left out.
- `Logger.log` is left out everywhere. It is diagnostics only. So `validateConfig`'s error list is returned next to its boolean instead of being logged.
- The clock (`new Date().getDay()`) is left out. The day is a parameter of `IsWeekend` and `Run`.
- Response codes and failures of the Slack and Todoist POSTs are not modelled. The source catches or logs them and never acts on them, so an attempted POST is recorded as an `Effect` whatever its outcome.
- JSON arrays, numbers and booleans are left out of parsed responses. The quote API sends every value as a string.
- The property order of `Object.keys` is left out. Members are kept in key order, which is insertion order for the non-numeric timestamp keys.
- Duplicate keys: member lookup takes the last member with the key, as `JSON.parse` does. `Object.keys` places a repeated key at its first position, and the model keeps that position.
- Provider.Host: the network is one function of the URL for the whole pass. Two requests for the same URL in one pass get the same answer. In the source they are separate `UrlFetchApp.fetch` calls (investment_alarm.js:50, 78), and the second can differ: the rate may move, or the API's rate limit may drop the field. The shipped watch list requests USD/JPY twice.
- `checkAndSendNotifications` is left out. It only constructs the system and calls `run`.
- watch_list.js carries no behaviour. It appears only as the `Config.WatchList` fixture.
