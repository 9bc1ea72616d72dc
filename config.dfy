/**
 * The job's configuration object and its static watch list, and the
 * start-up check that every secret has been filled in.
 */
module Config {

  /** One entry of the watch list; `kind` is the source's free-form `type` string. */
  datatype WatchItem = WatchItem(symbol: string, target: real, isUpperTarget: bool, kind: string, unit: string)

  datatype Config = Config(
    slackWebhookUrl: string,
    alphaVantageApiKey: string,
    todoistApiKey: string,
    todoProjectId: string,
    weekendDays: seq<int>,
    stockEndpoint: string,
    exchangeEndpoint: string)

  const ApiBase := "https://www.alphavantage.co/query"
  const StockEndpointHead := ApiBase + "?function=TIME_SERIES_INTRADAY" + "&symbol="
  const StockEndpointMiddle := "&interval=5min&apikey="
  const StockEndpoint := StockEndpointHead + "{symbol}" + StockEndpointMiddle + "{apiKey}"

  const ExchangeEndpointHead := ApiBase + "?function=CURRENCY_EXCHANGE_RATE" + "&from_currency="
  const ExchangeEndpointMiddle := "&to_currency="
  const ExchangeEndpointTail := "&apikey="
  const ExchangeEndpoint := ExchangeEndpointHead + "{from}" + ExchangeEndpointMiddle + "{to}" + ExchangeEndpointTail + "{apiKey}"

  lemma ApiBaseBraceFree()
    ensures '{' !in ApiBase
  {
  }

  /** The fixed parts of the stock template hold no placeholder brace. */
  lemma StockTemplateBraceFree()
    ensures '{' !in StockEndpointHead && '{' !in StockEndpointMiddle
  {
    ApiBaseBraceFree();
    assert '{' !in "?function=TIME_SERIES_INTRADAY";
  }

  lemma ExchangeHeadBraceFree()
    ensures '{' !in ExchangeEndpointHead
  {
    ApiBaseBraceFree();
    assert '{' !in "?function=CURRENCY_EXCHANGE_RATE";
  }

  /** The fixed parts of the exchange template hold no placeholder brace. */
  lemma ExchangeTemplateBraceFree()
    ensures '{' !in ExchangeEndpointHead && '{' !in ExchangeEndpointMiddle && '{' !in ExchangeEndpointTail
  {
    ExchangeHeadBraceFree();
  }

  /** The configuration as shipped: all secrets empty, Sunday (0) and Saturday (6) as weekend. */
  const DefaultConfig := Config("", "", "", "", [0, 6], StockEndpoint, ExchangeEndpoint)

  /** The shipped watch list, in its order. */
  const WatchList: seq<WatchItem> := [
    WatchItem("USD/JPY", 140.0, false, "exchange", "円"),
    WatchItem("USD/JPY", 148.0, true, "exchange", "円"),
    WatchItem("EUR/JPY", 170.0, false, "exchange", "円"),
    WatchItem("VOO", 600.0, true, "stock", "$"),
    WatchItem("TECL", 105.0, true, "stock", "$"),
    WatchItem("TSLA", 250.0, false, "stock", "$"),
    WatchItem("PYPL", 55.0, false, "stock", "$"),
    WatchItem("INTC", 40.0, true, "stock", "$")
  ]

  /** The four secrets, in the order the validation looks at them. */
  datatype Setting = AlphaVantageApiKey | SlackWebhookUrl | TodoistApiKey | TodoProjectId

  const SettingOrder := [AlphaVantageApiKey, SlackWebhookUrl, TodoistApiKey, TodoProjectId]

  function SettingValue(config: Config, s: Setting): string
  {
    match s
    case AlphaVantageApiKey => config.alphaVantageApiKey
    case SlackWebhookUrl => config.slackWebhookUrl
    case TodoistApiKey => config.todoistApiKey
    case TodoProjectId => config.todoProjectId
  }

  function SettingName(s: Setting): string
  {
    match s
    case AlphaVantageApiKey => "ALPHA_VANTAGE_API_KEY"
    case SlackWebhookUrl => "SLACK_WEBHOOK_URL"
    case TodoistApiKey => "TODOIST_API_KEY"
    case TodoProjectId => "TODO_PROJECT_ID"
  }

  /** The error recorded for a setting left empty. */
  function MissingMessage(s: Setting): string
  {
    SettingName(s) + "が設定されていません"
  }

  /** The settings of `settings` that are empty in `config`, in their order. */
  function Unset(config: Config, settings: seq<Setting>): (r: seq<Setting>)
    ensures |r| <= |settings|
    decreases |settings|
  {
    if |settings| == 0 then []
    else
      var rest := Unset(config, settings[1..]);
      if SettingValue(config, settings[0]) == "" then [settings[0]] + rest else rest
  }

  /** The unset settings are exactly the empty ones among those inspected. */
  lemma {:induction false} UnsetExact(config: Config, settings: seq<Setting>)
    ensures forall s :: s in Unset(config, settings) <==> s in settings && SettingValue(config, s) == ""
    decreases |settings|
  {
    if |settings| > 0 {
      UnsetExact(config, settings[1..]);
      assert forall s :: s in settings <==> s == settings[0] || s in settings[1..];
    }
  }

  /** The errors for the settings left empty, one per setting, in validation order. */
  function MissingMessages(settings: seq<Setting>): (r: seq<string>)
    ensures |r| == |settings|
  {
    seq(|settings|, i requires 0 <= i < |settings| => MissingMessage(settings[i]))
  }

  /** Inspecting one more setting appends it to the unset ones exactly when it is empty. */
  lemma {:induction false} UnsetSnoc(config: Config, settings: seq<Setting>, s: Setting)
    ensures Unset(config, settings + [s])
         == Unset(config, settings) + (if SettingValue(config, s) == "" then [s] else [])
    decreases |settings|
  {
    if |settings| == 0 {
      assert settings + [s] == [s];
      assert [s][1..] == [];
    } else {
      assert (settings + [s])[0] == settings[0];
      assert (settings + [s])[1..] == settings[1..] + [s];
      UnsetSnoc(config, settings[1..], s);
    }
  }

  /** Every setting is one of the four the validation inspects. */
  lemma SettingsListed(s: Setting)
    ensures s in SettingOrder
  {
    match s
    case AlphaVantageApiKey =>
    case SlackWebhookUrl =>
    case TodoistApiKey =>
    case TodoProjectId =>
  }

  lemma MissingMessagesAppend(settings: seq<Setting>, s: Setting)
    ensures MissingMessages(settings + [s]) == MissingMessages(settings) + [MissingMessage(s)]
  {
  }

  /** No setting is left empty exactly when every setting has a value. */
  lemma AllSetIffNoneUnset(config: Config)
    ensures Unset(config, SettingOrder) == [] <==> forall s :: SettingValue(config, s) != ""
  {
    UnsetExact(config, SettingOrder);
    if Unset(config, SettingOrder) == [] {
      forall s: Setting ensures SettingValue(config, s) != "" {
        SettingsListed(s);
        assert s !in Unset(config, SettingOrder);
      }
    } else {
      assert Unset(config, SettingOrder)[0] in Unset(config, SettingOrder);
    }
  }

  /** One inspection step of the validation keeps the errors in line with the unset settings. */
  lemma InspectSetting(config: Config, inspected: seq<Setting>, s: Setting, errors: seq<string>)
    requires errors == MissingMessages(Unset(config, inspected))
    ensures (if SettingValue(config, s) == "" then errors + [MissingMessage(s)] else errors)
         == MissingMessages(Unset(config, inspected + [s]))
  {
    UnsetSnoc(config, inspected, s);
    MissingMessagesAppend(Unset(config, inspected), s);
  }

  /**
   * `validateConfig`: `ok` holds iff all four settings are non-empty;
   * `errors` is the list the source logs, one message per empty setting in
   * the order API key, Slack URL, Todoist key, project id.
   */
  method ValidateConfig(config: Config) returns (ok: bool, errors: seq<string>)
    ensures ok <==> forall s :: SettingValue(config, s) != ""
    ensures ok <==> errors == []
    ensures errors == MissingMessages(Unset(config, SettingOrder))
  {
    ghost var inspected: seq<Setting> := [];
    errors := [];
    InspectSetting(config, inspected, AlphaVantageApiKey, errors);
    if config.alphaVantageApiKey == "" {
      errors := errors + [MissingMessage(AlphaVantageApiKey)];
    }
    inspected := inspected + [AlphaVantageApiKey];
    InspectSetting(config, inspected, SlackWebhookUrl, errors);
    if config.slackWebhookUrl == "" {
      errors := errors + [MissingMessage(SlackWebhookUrl)];
    }
    inspected := inspected + [SlackWebhookUrl];
    InspectSetting(config, inspected, TodoistApiKey, errors);
    if config.todoistApiKey == "" {
      errors := errors + [MissingMessage(TodoistApiKey)];
    }
    inspected := inspected + [TodoistApiKey];
    InspectSetting(config, inspected, TodoProjectId, errors);
    if config.todoProjectId == "" {
      errors := errors + [MissingMessage(TodoProjectId)];
    }
    inspected := inspected + [TodoProjectId];
    assert inspected == SettingOrder;
    ok := |errors| == 0;
    AllSetIffNoneUnset(config);
  }

  /** The shipped configuration fails validation with all four errors. */
  lemma DefaultConfigIncomplete()
    ensures Unset(DefaultConfig, SettingOrder) == SettingOrder
  {
  }
}
