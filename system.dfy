/**
 * `PriceMonitoringSystem`: the weekend gate, the pass over the watch list,
 * and the fan-out of every alert to the Slack webhook and to Todoist.
 *
 * The job's outside effects are modelled as the sequence of requests it
 * makes: the quote requests of the pass, then one POST per configured sink
 * and alert.
 */
module MonitoringSystem {
  import opened Wrappers
  import opened Config
  import opened Provider
  import opened Monitor

  /** `isWeekend`, with the day of the week (0 = Sunday) passed in rather than read from the clock. */
  predicate IsWeekend(config: Config, day: int)
  {
    day in config.weekendDays
  }

  /** With the shipped configuration, Saturday and Sunday are the weekend and Monday to Friday are not. */
  lemma DefaultWeekend(day: int)
    requires 0 <= day <= 6
    ensures IsWeekend(DefaultConfig, day) <==> day == 0 || day == 6
  {
  }

  /** `.filter((notification) => notification !== null)`: the present values, in order. */
  function Present<T(!new)>(s: seq<Option<T>>): (r: seq<T>)
    ensures |r| <= |s|
    ensures forall x :: x in r <==> Some(x) in s
    decreases |s|
  {
    if |s| == 0 then []
    else
      var rest := Present(s[1..]);
      assert forall y :: y in s <==> y == s[0] || y in s[1..];
      if s[0].Some? then [s[0].value] + rest else rest
  }

  /** Filtering distributes over concatenation. */
  lemma {:induction false} PresentAppend<T(!new)>(a: seq<Option<T>>, b: seq<Option<T>>)
    ensures Present(a + b) == Present(a) + Present(b)
    decreases |a|
  {
    if |a| == 0 {
      assert a + b == b;
    } else {
      assert (a + b)[0] == a[0] && (a + b)[1..] == a[1..] + b;
      PresentAppend(a[1..], b);
    }
  }

  predicate Increasing(idx: seq<nat>)
  {
    forall k, l :: 0 <= k < l < |idx| ==> idx[k] < idx[l]
  }

  /** Every position moved one place to the right. */
  function Shifted(idx: seq<nat>): (r: seq<nat>)
    ensures |r| == |idx| && forall k :: 0 <= k < |idx| ==> r[k] == idx[k] + 1
  {
    seq(|idx|, k requires 0 <= k < |idx| => idx[k] + 1)
  }

  /** The positions of the present values. */
  function PresentPositions<T(!new)>(s: seq<Option<T>>): (idx: seq<nat>)
    ensures forall k :: 0 <= k < |idx| ==> idx[k] < |s|
    decreases |s|
  {
    if |s| == 0 then []
    else
      var rest := Shifted(PresentPositions(s[1..]));
      if s[0].Some? then [0] + rest else rest
  }

  /** Shifting keeps positions increasing. */
  lemma ShiftedIncreasing(idx: seq<nat>)
    requires Increasing(idx)
    ensures Increasing(Shifted(idx))
  {
  }

  /** After a shift, position 0 is free and position j stands for j - 1. */
  lemma ShiftedMembership(idx: seq<nat>, j: nat)
    ensures 0 !in Shifted(idx)
    ensures j >= 1 ==> (j in Shifted(idx) <==> j - 1 in idx)
  {
    var r := Shifted(idx);
    if j >= 1 && j in r {
      var k :| 0 <= k < |r| && r[k] == j;
      assert idx[k] == j - 1;
    }
    if j >= 1 && j - 1 in idx {
      var k :| 0 <= k < |idx| && idx[k] == j - 1;
      assert r[k] == j;
    }
  }

  /** The positions of the present values increase. */
  lemma {:induction false} PositionsIncrease<T(!new)>(s: seq<Option<T>>)
    ensures Increasing(PresentPositions(s))
    decreases |s|
  {
    if |s| > 0 {
      var inner := PresentPositions(s[1..]);
      PositionsIncrease(s[1..]);
      ShiftedIncreasing(inner);
      ShiftedMembership(inner, 0);
      var rest := Shifted(inner);
      if s[0].Some? {
        var idx := [0] + rest;
        forall k, l | 0 <= k < l < |idx| ensures idx[k] < idx[l] {
          if k == 0 { assert idx[l] == rest[l - 1] && rest[l - 1] in rest; }
          else { assert idx[k] == rest[k - 1] && idx[l] == rest[l - 1]; }
        }
        assert PresentPositions(s) == idx;
      }
    }
  }

  /** The positions of the present values are exactly those that hold a value. */
  lemma {:induction false} PositionsAreExact<T(!new)>(s: seq<Option<T>>)
    ensures forall j :: 0 <= j < |s| ==> (j in PresentPositions(s) <==> s[j].Some?)
    decreases |s|
  {
    if |s| > 0 {
      var inner := PresentPositions(s[1..]);
      PositionsAreExact(s[1..]);
      var rest := Shifted(inner);
      assert PresentPositions(s) == if s[0].Some? then [0] + rest else rest;
      forall j | 0 <= j < |s| ensures j in PresentPositions(s) <==> s[j].Some? {
        ShiftedMembership(inner, j);
        if j >= 1 { assert s[1..][j - 1] == s[j]; }
      }
    }
  }

  /** Positions found in the tail of `s`, shifted by one, point at the same values in `s`. */
  lemma ShiftedPositions<T>(s: seq<Option<T>>, inner: seq<nat>, values: seq<T>)
    requires |s| > 0 && |inner| == |values|
    requires forall k :: 0 <= k < |values| ==> inner[k] < |s| - 1 && s[1..][inner[k]] == Some(values[k])
    ensures forall k :: 0 <= k < |values| ==> Shifted(inner)[k] < |s| && s[Shifted(inner)[k]] == Some(values[k])
  {
    forall k | 0 <= k < |values| ensures Shifted(inner)[k] < |s| && s[Shifted(inner)[k]] == Some(values[k]) {
      assert s[1..][inner[k]] == s[inner[k] + 1];
    }
  }

  /** The filter keeps exactly the present values, each taken from its position, in order. */
  lemma {:induction false} PresentAtPositions<T(!new)>(s: seq<Option<T>>)
    ensures |Present(s)| == |PresentPositions(s)|
    ensures forall k :: 0 <= k < |Present(s)| ==> s[PresentPositions(s)[k]] == Some(Present(s)[k])
    decreases |s|
  {
    if |s| > 0 {
      PresentAtPositions(s[1..]);
      var inner, values := PresentPositions(s[1..]), Present(s[1..]);
      var rest := Shifted(inner);
      ShiftedPositions(s, inner, values);
      if s[0].Some? {
        assert Present(s) == [s[0].value] + values;
        assert PresentPositions(s) == [0] + rest;
      } else {
        assert Present(s) == values;
        assert PresentPositions(s) == rest;
      }
    }
  }

  /** `WATCH_LIST.map((item) => this.priceMonitor.processItem(item))`. */
  function Results(config: Config, host: Host, list: seq<WatchItem>): (r: seq<Option<string>>)
    ensures |r| == |list|
    ensures forall i :: 0 <= i < |list| ==> r[i] == ProcessItem(config, host, list[i])
  {
    seq(|list|, i requires 0 <= i < |list| => ProcessItem(config, host, list[i]))
  }

  /**
   * `processWatchList`: the alerts of the items, in watch-list order, with
   * the `null`s removed; never longer than the list.
   */
  function ProcessWatchList(config: Config, host: Host, list: seq<WatchItem>): (r: seq<string>)
    ensures |r| <= |list|
    ensures forall m :: m in r <==> exists i :: 0 <= i < |list| && ProcessItem(config, host, list[i]) == Some(m)
  {
    var results := Results(config, host, list);
    assert forall m :: Some(m) in results <==> exists i :: 0 <= i < |list| && results[i] == Some(m);
    Present(results)
  }

  /**
   * The alerts are those of the items that produced one, in the items'
   * order: the k-th alert comes from the k-th such item.
   */
  lemma WatchListOrder(config: Config, host: Host, list: seq<WatchItem>)
    ensures var r, idx := ProcessWatchList(config, host, list), PresentPositions(Results(config, host, list));
      && |r| == |idx|
      && Increasing(idx)
      && (forall j :: 0 <= j < |list| ==> (j in idx <==> ProcessItem(config, host, list[j]).Some?))
      && (forall k :: 0 <= k < |r| ==> idx[k] < |list| && ProcessItem(config, host, list[idx[k]]) == Some(r[k]))
  {
    PresentAtPositions(Results(config, host, list));
    PositionsIncrease(Results(config, host, list));
    PositionsAreExact(Results(config, host, list));
  }

  /** Processing a list in two parts gives the two parts' alerts one after the other. */
  lemma WatchListSplits(config: Config, host: Host, a: seq<WatchItem>, b: seq<WatchItem>)
    ensures ProcessWatchList(config, host, a + b) == ProcessWatchList(config, host, a) + ProcessWatchList(config, host, b)
  {
    var whole, left, right := Results(config, host, a + b), Results(config, host, a), Results(config, host, b);
    assert whole == left + right by {
      forall i | 0 <= i < |a + b| ensures whole[i] == (left + right)[i] {
        if i < |a| { assert (a + b)[i] == a[i]; } else { assert (a + b)[i] == b[i - |a|]; }
      }
    }
    PresentAppend(Results(config, host, a), Results(config, host, b));
  }

  /**
   * Failure isolation: an item that yields `null` (for instance one whose
   * type makes the provider throw) leaves the alerts of the items before
   * and after it as they would be without it.
   */
  lemma FailingItemIsIsolated(config: Config, host: Host, a: seq<WatchItem>, x: WatchItem, b: seq<WatchItem>)
    requires ProcessItem(config, host, x) == None
    ensures ProcessWatchList(config, host, a + [x] + b) == ProcessWatchList(config, host, a) + ProcessWatchList(config, host, b)
  {
    WatchListSplits(config, host, a + [x], b);
    WatchListSplits(config, host, a, [x]);
    var single := Results(config, host, [x]);
    assert single == [None];
    assert Present(single) == Present(single[1..]);
    assert single[1..] == [];
  }

  /** A request the job makes. */
  datatype Effect =
    | Fetch(url: string)
    | SlackPost(webhookUrl: string, text: string)
    | TodoistTask(apiKey: string, content: string, dueString: string, priority: int, projectId: string)

  /** The quote requests of one pass, in watch-list order; an item of unsupported type makes none. */
  function PriceRequests(config: Config, list: seq<WatchItem>): (r: seq<Effect>)
    ensures |r| <= |list|
    decreases |list|
  {
    if |list| == 0 then []
    else
      (match RequestUrl(config, list[0]) case Some(url) => [Fetch(url)] case None => [])
        + PriceRequests(config, list[1..])
  }

  /** Every item of a supported type makes exactly one quote request. */
  lemma {:induction false} OneRequestPerSupportedItem(config: Config, list: seq<WatchItem>)
    requires forall i :: 0 <= i < |list| ==> list[i].kind == "stock" || list[i].kind == "exchange"
    ensures |PriceRequests(config, list)| == |list|
    decreases |list|
  {
    if |list| > 0 {
      OneRequestPerSupportedItem(config, list[1..]);
    }
  }

  /**
   * `slackNotifier.sendNotification` then `todoistTaskCreator.createTask`
   * for one alert: a sink whose credential is empty is skipped.
   */
  function Deliveries(config: Config, message: string): seq<Effect>
  {
    (if config.slackWebhookUrl != "" then [SlackPost(config.slackWebhookUrl, "<!channel> " + message)] else [])
      + (if config.todoistApiKey != "" then [TodoistTask(config.todoistApiKey, message, "Today", 4, config.todoProjectId)] else [])
  }

  /** The deliveries of all alerts, alert by alert. */
  function AllDeliveries(config: Config, messages: seq<string>): seq<Effect>
    decreases |messages|
  {
    if |messages| == 0 then [] else Deliveries(config, messages[0]) + AllDeliveries(config, messages[1..])
  }

  lemma {:induction false} AllDeliveriesAppend(config: Config, messages: seq<string>, m: string)
    ensures AllDeliveries(config, messages + [m]) == AllDeliveries(config, messages) + Deliveries(config, m)
    decreases |messages|
  {
    if |messages| > 0 {
      assert (messages + [m])[1..] == messages[1..] + [m];
      AllDeliveriesAppend(config, messages[1..], m);
    }
  }

  /** `sendNotifications`: every alert, in order, to each configured sink. */
  method SendNotifications(config: Config, notifications: seq<string>) returns (effects: seq<Effect>)
    ensures effects == AllDeliveries(config, notifications)
  {
    effects := [];
    for i := 0 to |notifications|
      invariant effects == AllDeliveries(config, notifications[..i])
    {
      AllDeliveriesAppend(config, notifications[..i], notifications[i]);
      assert notifications[..i + 1] == notifications[..i] + [notifications[i]];
      effects := effects + Deliveries(config, notifications[i]);
    }
    assert notifications[..|notifications|] == notifications;
  }

  /** The texts posted to Slack, in order. */
  function SlackTexts(effects: seq<Effect>): seq<string>
    decreases |effects|
  {
    if |effects| == 0 then []
    else (if effects[0].SlackPost? then [effects[0].text] else []) + SlackTexts(effects[1..])
  }

  /** The task contents sent to Todoist, in order. */
  function TodoistContents(effects: seq<Effect>): seq<string>
    decreases |effects|
  {
    if |effects| == 0 then []
    else (if effects[0].TodoistTask? then [effects[0].content] else []) + TodoistContents(effects[1..])
  }

  lemma {:induction false} SlackTextsAppend(a: seq<Effect>, b: seq<Effect>)
    ensures SlackTexts(a + b) == SlackTexts(a) + SlackTexts(b)
    decreases |a|
  {
    if |a| == 0 {
      assert a + b == b;
    } else {
      assert (a + b)[0] == a[0] && (a + b)[1..] == a[1..] + b;
      SlackTextsAppend(a[1..], b);
    }
  }

  lemma {:induction false} TodoistContentsAppend(a: seq<Effect>, b: seq<Effect>)
    ensures TodoistContents(a + b) == TodoistContents(a) + TodoistContents(b)
    decreases |a|
  {
    if |a| == 0 {
      assert a + b == b;
    } else {
      assert (a + b)[0] == a[0] && (a + b)[1..] == a[1..] + b;
      TodoistContentsAppend(a[1..], b);
    }
  }

  /** One alert reaches Slack once, with the mention, when the webhook URL is set. */
  lemma SlackOfOneAlert(config: Config, m: string)
    ensures SlackTexts(Deliveries(config, m))
         == if config.slackWebhookUrl == "" then [] else ["<!channel> " + m]
  {
    var first := if config.slackWebhookUrl != "" then [SlackPost(config.slackWebhookUrl, "<!channel> " + m)] else [];
    var second := if config.todoistApiKey != "" then [TodoistTask(config.todoistApiKey, m, "Today", 4, config.todoProjectId)] else [];
    SlackTextsAppend(first, second);
    assert SlackTexts(second) == [];
  }

  /** One alert reaches Todoist once, as a task's content, when the API key is set. */
  lemma TodoistOfOneAlert(config: Config, m: string)
    ensures TodoistContents(Deliveries(config, m))
         == if config.todoistApiKey == "" then [] else [m]
  {
    var first := if config.slackWebhookUrl != "" then [SlackPost(config.slackWebhookUrl, "<!channel> " + m)] else [];
    var second := if config.todoistApiKey != "" then [TodoistTask(config.todoistApiKey, m, "Today", 4, config.todoProjectId)] else [];
    TodoistContentsAppend(first, second);
    assert TodoistContents(first) == [];
  }

  /**
   * Slack receives every alert, in order, with the `<!channel>` mention,
   * when its webhook URL is set, and nothing otherwise.
   */
  lemma {:induction false} SlackReceivesEveryAlert(config: Config, messages: seq<string>)
    ensures SlackTexts(AllDeliveries(config, messages))
         == if config.slackWebhookUrl == "" then []
            else seq(|messages|, i requires 0 <= i < |messages| => "<!channel> " + messages[i])
    decreases |messages|
  {
    if |messages| > 0 {
      SlackReceivesEveryAlert(config, messages[1..]);
      SlackTextsAppend(Deliveries(config, messages[0]), AllDeliveries(config, messages[1..]));
      SlackOfOneAlert(config, messages[0]);
    }
  }

  /**
   * Todoist receives every alert, in order, as a task's content when its
   * API key is set, and nothing otherwise.
   */
  lemma {:induction false} TodoistReceivesEveryAlert(config: Config, messages: seq<string>)
    ensures TodoistContents(AllDeliveries(config, messages))
         == if config.todoistApiKey == "" then [] else messages
    decreases |messages|
  {
    if |messages| > 0 {
      TodoistReceivesEveryAlert(config, messages[1..]);
      TodoistContentsAppend(Deliveries(config, messages[0]), AllDeliveries(config, messages[1..]));
      TodoistOfOneAlert(config, messages[0]);
      assert [messages[0]] + messages[1..] == messages;
    }
  }

  /**
   * Without either credential no alert is sent anywhere; this is the case
   * of the shipped configuration.
   */
  lemma {:induction false} NoDeliveriesWithoutCredentials(config: Config, messages: seq<string>)
    requires config.slackWebhookUrl == "" && config.todoistApiKey == ""
    ensures AllDeliveries(config, messages) == []
    decreases |messages|
  {
    if |messages| > 0 {
      NoDeliveriesWithoutCredentials(config, messages[1..]);
    }
  }

  /**
   * `run`: on a weekend day nothing is requested at all; otherwise the pass
   * over the watch list is made and its alerts are dispatched.
   */
  method Run(config: Config, host: Host, watchList: seq<WatchItem>, day: int) returns (effects: seq<Effect>)
    ensures IsWeekend(config, day) ==> effects == []
    ensures !IsWeekend(config, day) ==>
      effects == PriceRequests(config, watchList) + AllDeliveries(config, ProcessWatchList(config, host, watchList))
  {
    if IsWeekend(config, day) {
      return [];
    }
    var results := ProcessWatchList(config, host, watchList);
    var sent := SendNotifications(config, results);
    effects := PriceRequests(config, watchList) + sent;
  }
}
