/** The alert decision procedure `processAlerts`
    (src/services/alert.service.ts): on each call it composes the message,
    fingerprints its content, and either delivers it over the webhook and
    records the fingerprint and time, or only logs, or does nothing. */
module Alerts {
  import opened Common
  import opened Indicators

  /** The user-edited part of the settings row. A missing string is "". */
  datatype Config = Config(
    webhookUrl: string,
    phoneNumber: string,
    autoAlerts: bool,
    customMessage: string,
    workStart: string,
    workEnd: string)

  /** The persisted change-detection state written after a delivery. */
  datatype Persisted = Persisted(lastAlertHash: Option<string>, lastAlertTime: Option<int>)

  /** One call of the webhook transport. */
  datatype Delivery = Delivery(webhookUrl: string, phoneNumber: string, msg: string)

  /** The clock readings of one call: epoch milliseconds, the São Paulo
      "HH:MM" reading, the server's local hour of day and the rendered
      time-of-day stamp appended to the message. */
  datatype Clock = Clock(nowMs: int, spTime: string, serverHour: nat, stamp: string)

  /** What one call did. */
  datatype Outcome =
    | NotConfigured     // returned at once: no send, no write, no log
    | OutsideHours      // outside the working window: no send, no write, no log
    | NoNewSignals      // nothing new: one info log
    | Delivered         // sent, state written, one success log
    | DeliveryFailed    // the send threw: one warning log, state untouched

  const ALERTS_TOKEN: string := "{{alerts}}"
  const SUGGESTIONS_TOKEN: string := "{{suggestions}}"
  const DEFAULT_TEMPLATE: string := "Sinais:\n{{alerts}}\n\nDicas:\n{{suggestions}}"
  const NO_OPPORTUNITY: string := "Nenhuma grande oportunidade no momento."
  const STAMP_PREFIX: string := "\n\n⏰ Horário da Análise: "

  const LOG_DYNAMIC: string := "🚀 Alerta dinâmico enviado!"
  const LOG_FIRST: string := "🚀 Primeiro boletim executado e enviado!"
  const LOG_FAILED: string := "❌ Falha ao tentar disparar a mensagem para a URL de Webhook configurada."
  const LOG_QUIET: string := "✅ Varredura concluída. Sem sinais novos. Aguardando a próxima hora cheia."

  // ---------------------------------------------------------------------
  // Message composition.

  /** The bullet of one suggestion; `money` renders the price as the source
      does with `toFixed(2)` and a decimal comma. */
  function Bullet(s: StockAnalysis, money: real -> string): string
  {
    "• [" + s.symbol + "] - Motivo: " + s.reason + " \n  (Preço: R$ " + money(s.price) + ")\n"
  }

  /** The bullets of all suggestions, in order. */
  function Bullets(ss: seq<StockAnalysis>, money: real -> string): string
  {
    if |ss| == 0 then "" else Bullets(ss[..|ss| - 1], money) + Bullet(ss[|ss| - 1], money)
  }

  function SuggestionsText(ss: seq<StockAnalysis>, money: real -> string): string
  {
    if |ss| > 0 then Bullets(ss, money) else NO_OPPORTUNITY
  }

  /** The `forEach` that appends one bullet per suggestion, or the fixed
      sentence when there are none. */
  method BuildSuggestionsText(ss: seq<StockAnalysis>, money: real -> string) returns (text: string)
    ensures text == SuggestionsText(ss, money)
    ensures |ss| == 0 ==> text == NO_OPPORTUNITY
    ensures |ss| > 0 ==> text == Bullets(ss[..|ss| - 1], money) + Bullet(ss[|ss| - 1], money)
  {
    text := "";
    if |ss| > 0 {
      var i := 0;
      while i < |ss|
        invariant 0 <= i <= |ss|
        invariant text == Bullets(ss[..i], money)
      {
        assert ss[..i + 1][..i] == ss[..i];
        text := text + Bullet(ss[i], money);
        i := i + 1;
      }
      assert ss[..|ss|] == ss;
    } else {
      text := NO_OPPORTUNITY;
    }
  }

  function AlertsText(alerts: seq<string>): string
  {
    Join(alerts, "\n")
  }

  /** The fingerprinted content: alerts text then suggestions text, without
      template or time stamp. */
  function ContentForHash(alerts: seq<string>, ss: seq<StockAnalysis>, money: real -> string): string
  {
    AlertsText(alerts) + SuggestionsText(ss, money)
  }

  /** The custom template, or the default one when it is empty. */
  function Template(c: Config): (t: string)
    ensures c.customMessage == "" ==> t == DEFAULT_TEMPLATE
    ensures c.customMessage != "" ==> t == c.customMessage
  {
    OrDefault(c.customMessage, DEFAULT_TEMPLATE)
  }

  /** The first `{{alerts}}`, then the first `{{suggestions}}`, replaced;
      then the time-stamp line appended. */
  function Compose(template: string, alertsText: string, suggestionsText: string, stamp: string): (msg: string)
    ensures |msg| >= |STAMP_PREFIX + stamp|
    ensures msg[|msg| - |STAMP_PREFIX + stamp|..] == STAMP_PREFIX + stamp
  {
    var body := ReplaceFirst(ReplaceFirst(template, ALERTS_TOKEN, alertsText), SUGGESTIONS_TOKEN, suggestionsText);
    SuffixOfConcat(body, STAMP_PREFIX + stamp);
    body + (STAMP_PREFIX + stamp)
  }

  lemma SuffixOfConcat(a: string, b: string)
    ensures (a + b)[|a + b| - |b|..] == b
  {
  }

  /** A template without either token is sent unchanged apart from the
      time-stamp line: the alerts and suggestions do not appear in it. */
  lemma ComposeWithoutTokens(template: string, alertsText: string, suggestionsText: string, stamp: string)
    requires IndexOf(template, ALERTS_TOKEN).None? && IndexOf(template, SUGGESTIONS_TOKEN).None?
    ensures Compose(template, alertsText, suggestionsText, stamp) == template + STAMP_PREFIX + stamp
  {
  }

  /** A second `{{alerts}}` in the template is left in the message. */
  lemma SecondAlertsTokenKept(template: string, alertsText: string, j: int)
    requires IndexOf(template, ALERTS_TOKEN).Some?
    requires IndexOf(template, ALERTS_TOKEN).value + |ALERTS_TOKEN| <= j
    requires OccursAt(template, ALERTS_TOKEN, j)
    ensures OccursAt(ReplaceFirst(template, ALERTS_TOKEN, alertsText), ALERTS_TOKEN, j - |ALERTS_TOKEN| + |alertsText|)
  {
    LaterOccurrenceSurvives(template, ALERTS_TOKEN, alertsText, j);
  }

  // ---------------------------------------------------------------------
  // The decision.

  /** Delivery is configured: URL and phone present and automatic alerts on. */
  predicate Configured(c: Config)
  {
    c.webhookUrl != "" && c.phoneNumber != "" && c.autoAlerts
  }

  predicate IsFirstTime(p: Persisted)
  {
    p.lastAlertTime.None?
  }

  predicate IsChanged(p: Persisted, activeHash: string)
  {
    p.lastAlertHash != Some(activeHash)
  }

  /** No previous time, or the current hour bucket is past the last one. */
  predicate IsNewHour(p: Persisted, nowMs: int)
  {
    p.lastAlertTime.None? || HourBucket(nowMs) > HourBucket(p.lastAlertTime.value)
  }

  predicate InWorkingHours(c: Config, spTime: string)
  {
    InWindow(spTime, OrDefault(c.workStart, DEFAULT_WORK_START), OrDefault(c.workEnd, DEFAULT_WORK_END))
  }

  /** The outcome of one call, given the send result `sendOk`. */
  function Decide(c: Config, p: Persisted, activeHash: string, clock: Clock, sendOk: bool): (o: Outcome)
    ensures o == NotConfigured <==> !Configured(c)
    ensures o == OutsideHours <==> Configured(c) && !InWorkingHours(c, clock.spTime)
    ensures (o == Delivered || o == DeliveryFailed) <==>
              Configured(c) && InWorkingHours(c, clock.spTime) &&
              (IsFirstTime(p) || IsChanged(p, activeHash) || IsNewHour(p, clock.nowMs))
    ensures o == Delivered ==> sendOk
    ensures o == DeliveryFailed ==> !sendOk
  {
    if !Configured(c) then NotConfigured
    else if !InWorkingHours(c, clock.spTime) then OutsideHours
    else if !(IsFirstTime(p) || IsChanged(p, activeHash) || IsNewHour(p, clock.nowMs)) then NoNewSignals
    else if sendOk then Delivered
    else DeliveryFailed
  }

  /** The state after the call: written only after a delivery. */
  function After(p: Persisted, o: Outcome, activeHash: string, nowMs: int): (q: Persisted)
    ensures o == Delivered ==> q == Persisted(Some(activeHash), Some(nowMs))
    ensures o != Delivered ==> q == p
  {
    if o == Delivered then Persisted(Some(activeHash), Some(nowMs)) else p
  }

  /** Which success log text a delivery writes. */
  datatype SuccessKind = FirstBulletin | HourlyBulletin | SignalsChanged | Dynamic

  /** Priority: first-time, then new-hour-and-unchanged, then changed. */
  function SuccessKindOf(p: Persisted, activeHash: string, nowMs: int): SuccessKind
  {
    if IsFirstTime(p) then FirstBulletin
    else if IsNewHour(p, nowMs) && !IsChanged(p, activeHash) then HourlyBulletin
    else if IsChanged(p, activeHash) then SignalsChanged
    else Dynamic
  }

  function SuccessText(k: SuccessKind, serverHour: nat, phone: string): string
  {
    match k
    case FirstBulletin => LOG_FIRST
    case HourlyBulletin => "🕘 Boletim das " + NatToString(serverHour) + "h enviado (Resumo de hora em hora)."
    case SignalsChanged => "🚀 Sinais detectados! Novo alerta enviado para (" + phone + ")."
    case Dynamic => LOG_DYNAMIC
  }

  /** The log rows one call appends. */
  function LogFor(o: Outcome, c: Config, p: Persisted, activeHash: string, clock: Clock): (rows: seq<LogEntry>)
    ensures o == NotConfigured || o == OutsideHours <==> rows == []
    ensures o == Delivered ==> rows[0].level == Success
    ensures o == DeliveryFailed ==> rows == [LogEntry(LOG_FAILED, Warning)]
    ensures o == NoNewSignals ==> rows == [LogEntry(LOG_QUIET, Info)]
    ensures |rows| <= 1
  {
    match o
    case NotConfigured => []
    case OutsideHours => []
    case NoNewSignals => [LogEntry(LOG_QUIET, Info)]
    case Delivered =>
      [LogEntry(SuccessText(SuccessKindOf(p, activeHash, clock.nowMs), clock.serverHour, c.phoneNumber), Success)]
    case DeliveryFailed => [LogEntry(LOG_FAILED, Warning)]
  }

  /** A delivery is only attempted when one of the three flags holds, so the
      generic success text is never written, and the kind follows the
      priority order of the flags. */
  lemma SuccessKindOfDelivery(c: Config, p: Persisted, activeHash: string, clock: Clock, sendOk: bool)
    requires Decide(c, p, activeHash, clock, sendOk) == Delivered
    ensures SuccessKindOf(p, activeHash, clock.nowMs) != Dynamic
    ensures SuccessKindOf(p, activeHash, clock.nowMs) == FirstBulletin <==> IsFirstTime(p)
    ensures SuccessKindOf(p, activeHash, clock.nowMs) == HourlyBulletin <==>
              !IsFirstTime(p) && IsNewHour(p, clock.nowMs) && !IsChanged(p, activeHash)
  {
  }

  /** Right after a delivery, the same content within the same clock hour
      is not sent again: the call only logs that nothing is new. */
  lemma RepeatInSameHourIsQuiet(c: Config, p: Persisted, activeHash: string, first: Clock, second: Clock, sendOk: bool)
    requires Decide(c, p, activeHash, first, true) == Delivered
    requires HourBucket(second.nowMs) == HourBucket(first.nowMs)
    requires InWorkingHours(c, second.spTime)
    ensures Decide(c, After(p, Delivered, activeHash, first.nowMs), activeHash, second, sendOk) == NoNewSignals
  {
  }

  /** A failed delivery leaves the state as it was, so a later call in the
      window with the same content attempts the delivery again. */
  lemma FailedDeliveryIsRetried(c: Config, p: Persisted, activeHash: string, first: Clock, second: Clock, sendOk: bool)
    requires Decide(c, p, activeHash, first, false) == DeliveryFailed
    requires first.nowMs <= second.nowMs
    requires InWorkingHours(c, second.spTime)
    ensures After(p, DeliveryFailed, activeHash, first.nowMs) == p
    ensures var o := Decide(c, p, activeHash, second, sendOk);
            o == Delivered || o == DeliveryFailed
  {
    if p.lastAlertTime.Some? {
      HourBucketMonotone(first.nowMs, second.nowMs);
    }
  }

  /** Changing content always triggers a send inside the window, whatever
      the hour. */
  lemma ChangedContentIsSent(c: Config, p: Persisted, activeHash: string, clock: Clock, sendOk: bool)
    requires Configured(c) && InWorkingHours(c, clock.spTime)
    requires p.lastAlertHash.Some? && p.lastAlertHash.value != activeHash
    ensures Decide(c, p, activeHash, clock, sendOk) == (if sendOk then Delivered else DeliveryFailed)
  {
  }

  // ---------------------------------------------------------------------
  // The engine.

  /** The settings row of one user, the system log and the webhook
      transport's record of calls. `hash` stands for MD5 and `money` for the
      price rendering; both are fixed for the engine's lifetime. */
  class AlertEngine {
    const hash: string -> string
    const money: real -> string
    var config: Config
    var lastAlertHash: Option<string>
    var lastAlertTime: Option<int>
    var logs: seq<LogEntry>
    var deliveries: seq<Delivery>

    function State(): Persisted
      reads this
    {
      Persisted(lastAlertHash, lastAlertTime)
    }

    constructor (hash: string -> string, money: real -> string, config: Config, state: Persisted)
      ensures this.hash == hash && this.money == money && this.config == config
      ensures State() == state && logs == [] && deliveries == []
    {
      this.hash := hash;
      this.money := money;
      this.config := config;
      lastAlertHash := state.lastAlertHash;
      lastAlertTime := state.lastAlertTime;
      logs := [];
      deliveries := [];
    }

    /** `processAlerts(alerts, suggestions, settings)`; `sendOk` is whether
        the webhook call returns rather than throws. */
    method ProcessAlerts(alerts: seq<string>, suggestions: seq<StockAnalysis>, clock: Clock, sendOk: bool)
      returns (outcome: Outcome)
      modifies this
      ensures config == old(config)
      ensures var h := hash(ContentForHash(alerts, suggestions, money));
              outcome == Decide(config, old(State()), h, clock, sendOk) &&
              State() == After(old(State()), outcome, h, clock.nowMs) &&
              logs == old(logs) + LogFor(outcome, config, old(State()), h, clock)
      ensures deliveries == old(deliveries) +
                if outcome == Delivered || outcome == DeliveryFailed
                then [Delivery(config.webhookUrl, config.phoneNumber,
                               Compose(Template(config), AlertsText(alerts),
                                       SuggestionsText(suggestions, money), clock.stamp))]
                else []
    {
      if config.webhookUrl == "" || config.phoneNumber == "" || !config.autoAlerts {
        return NotConfigured;
      }
      var finalMsg, activeHash := PrepareMessage(alerts, suggestions, clock.stamp);
      outcome := DecideAndSend(finalMsg, activeHash, clock, sendOk);
    }

    /** The composed message and the fingerprint of its content. */
    method PrepareMessage(alerts: seq<string>, suggestions: seq<StockAnalysis>, stamp: string)
      returns (finalMsg: string, activeHash: string)
      ensures finalMsg == Compose(Template(config), AlertsText(alerts), SuggestionsText(suggestions, money), stamp)
      ensures activeHash == hash(ContentForHash(alerts, suggestions, money))
    {
      var msgTemplate := OrDefault(config.customMessage, DEFAULT_TEMPLATE);
      var alertsText := Join(alerts, "\n");
      var suggestionsText := BuildSuggestionsText(suggestions, money);

      finalMsg := ReplaceFirst(ReplaceFirst(msgTemplate, ALERTS_TOKEN, alertsText), SUGGESTIONS_TOKEN, suggestionsText);
      finalMsg := finalMsg + STAMP_PREFIX + stamp;

      var contentForHash := alertsText + suggestionsText;
      activeHash := hash(contentForHash);
    }

    /** The time flags, the window check and the send / persist / log
        branches, once delivery is known to be configured. */
    method DecideAndSend(finalMsg: string, activeHash: string, clock: Clock, sendOk: bool)
      returns (outcome: Outcome)
      requires Configured(config)
      modifies this
      ensures config == old(config)
      ensures outcome == Decide(config, old(State()), activeHash, clock, sendOk)
      ensures State() == After(old(State()), outcome, activeHash, clock.nowMs)
      ensures logs == old(logs) + LogFor(outcome, config, old(State()), activeHash, clock)
      ensures deliveries == old(deliveries) +
                if outcome == Delivered || outcome == DeliveryFailed
                then [Delivery(config.webhookUrl, config.phoneNumber, finalMsg)]
                else []
    {
      ghost var before := State();
      var currentHourStart := HourBucket(clock.nowMs);
      var isFirstTime := lastAlertTime.None?;
      var isChanged := lastAlertHash != Some(activeHash);
      var isNewHour := lastAlertTime.None? || currentHourStart > HourBucket(lastAlertTime.value);

      var wStart := OrDefault(config.workStart, DEFAULT_WORK_START);
      var wEnd := OrDefault(config.workEnd, DEFAULT_WORK_END);
      var inWorkingHours := LexLe(wStart, clock.spTime) && LexLe(clock.spTime, wEnd);

      if inWorkingHours {
        if isFirstTime || isChanged || isNewHour {
          deliveries := deliveries + [Delivery(config.webhookUrl, config.phoneNumber, finalMsg)];
          if sendOk {
            lastAlertHash, lastAlertTime := Some(activeHash), Some(clock.nowMs);
            var kind := if isFirstTime then FirstBulletin
                        else if isNewHour && !isChanged then HourlyBulletin
                        else if isChanged then SignalsChanged
                        else Dynamic;
            assert kind == SuccessKindOf(before, activeHash, clock.nowMs);
            logs := logs + [LogEntry(SuccessText(kind, clock.serverHour, config.phoneNumber), Success)];
            outcome := Delivered;
          } else {
            logs := logs + [LogEntry(LOG_FAILED, Warning)];
            outcome := DeliveryFailed;
          }
        } else {
          logs := logs + [LogEntry(LOG_QUIET, Info)];
          outcome := NoNewSignals;
        }
      } else {
        outcome := OutsideHours;
      }
    }
  }
}
