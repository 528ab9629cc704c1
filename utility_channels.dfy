/** The channel and provider lookups of `UtilsLib/utility.py`: provider ids by name,
  * webhook URLs by provider, and the routing decision of get_next_dialog for channels
  * that deliver a whole run of dialogs as one message. */
module Channels {
  import opened Json
  import Variables

  /** ChannelIdEnum (the members the lookups use). */
  const Sms := 4
  const WhatsApp := 5

  /** WhatsappChannelProviderIdEnum. */
  const WaUnifonic := 2
  const WaTwilio := 3
  const WaGupshup := 4
  const WaDialog360 := 5
  const WaMeta := 8
  const WaDialog360Cloud := 10

  /** SMSChannelProviderIdEnum. */
  const SmsTwilio := 6
  const SmsTwilioManaged := 7
  const SmsTechAlpha := 9

  /** get_provider_id: the id of a provider given by its name on a channel; None for an
    * unknown channel or name. */
  function ProviderId(channel: int, provider: string): Option<int> {
    if channel == WhatsApp then
      if provider == "Twilio" then Some(WaTwilio)
      else if provider == "Gupshup" then Some(WaGupshup)
      else if provider == "360Dialog" then Some(WaDialog360)
      else if provider == "Unifonic" then Some(WaUnifonic)
      else if provider == "Meta" then Some(WaMeta)
      else if provider == "360Dialog Cloud" then Some(WaDialog360Cloud)
      else None
    else if channel == Sms then
      if provider == "Twilio" then Some(SmsTwilio)
      else if provider == "Twilio Managed" then Some(SmsTwilioManaged)
      else if provider == "TechAlpha" then Some(SmsTechAlpha)
      else None
    else None
  }

  /** The provider names of WhatsappChannelProviderNameEnum and
    * SMSChannelProviderNameEnum, by id: the inverse of get_provider_id. */
  function ProviderName(channel: int, id: int): Option<string> {
    if channel == WhatsApp then
      if id == WaTwilio then Some("Twilio")
      else if id == WaGupshup then Some("Gupshup")
      else if id == WaDialog360 then Some("360Dialog")
      else if id == WaUnifonic then Some("Unifonic")
      else if id == WaMeta then Some("Meta")
      else if id == WaDialog360Cloud then Some("360Dialog Cloud")
      else None
    else if channel == Sms then
      if id == SmsTwilio then Some("Twilio")
      else if id == SmsTwilioManaged then Some("Twilio Managed")
      else if id == SmsTechAlpha then Some("TechAlpha")
      else None
    else None
  }

  /** Name and id determine each other on every channel: no two names share an id. */
  lemma ProviderIdInverse(channel: int, name: string, id: int)
    ensures ProviderId(channel, name) == Some(id) <==> ProviderName(channel, id) == Some(name)
  {
  }

  /** The path after "{base_url}/incoming/" of each webhook URL builder. */
  function WebhookRoute(channel: int, provider: int): Option<string> {
    if channel == WhatsApp then
      if provider == WaTwilio then Some("twilio-message")
      else if provider == WaGupshup then Some("gupshup-message")
      else if provider == WaDialog360 then Some("360dialog-message")
      else if provider == WaUnifonic then Some("unifonic-message")
      else if provider == WaMeta then Some("whatsapp/meta-message")
      else if provider == WaDialog360Cloud then Some("360dialog-cloud-message")
      else None
    else if channel == Sms then
      if provider == SmsTwilio then Some("sms/twilio-message")
      else if provider == SmsTwilioManaged then Some("sms/twilio-managed-message")
      else if provider == SmsTechAlpha then Some("sms/tech-alpha")
      else None
    else None
  }

  /** get_channel_provider_webhook: the provider's webhook URL for the key, "" when the
    * channel has no builder for the provider. */
  function ChannelProviderWebhook(baseUrl: string, webhookKey: string, channel: int, provider: int): string {
    match WebhookRoute(channel, provider)
    case Some(route) => baseUrl + "/incoming/" + route + "/" + webhookKey
    case None => ""
  }

  /** The two tables cover the same providers: a provider id that get_provider_id can
    * return has a webhook, and one that has a webhook has a name. */
  lemma WebhookForEveryProvider(channel: int, id: int)
    ensures WebhookRoute(channel, id).Some? <==> ProviderName(channel, id).Some?
  {
  }

  lemma RoutesDistinct(c1: int, p1: int, c2: int, p2: int)
    requires WebhookRoute(c1, p1).Some? && WebhookRoute(c1, p1) == WebhookRoute(c2, p2)
    ensures c1 == c2 && p1 == p2
  {
  }

  /** Webhook URLs are distinct across providers, and every one ends with the key. */
  lemma WebhooksDistinct(baseUrl: string, webhookKey: string, c1: int, p1: int, c2: int, p2: int)
    requires ChannelProviderWebhook(baseUrl, webhookKey, c1, p1) != ""
    requires ChannelProviderWebhook(baseUrl, webhookKey, c1, p1) == ChannelProviderWebhook(baseUrl, webhookKey, c2, p2)
    ensures c1 == c2 && p1 == p2
  {
    var head := baseUrl + "/incoming/";
    var tail := "/" + webhookKey;
    var r1, r2 := WebhookRoute(c1, p1).value, WebhookRoute(c2, p2).value;
    var u := ChannelProviderWebhook(baseUrl, webhookKey, c1, p1);
    assert u == head + r1 + tail;
    assert u == head + r2 + tail;
    assert |r1| == |r2|;
    assert r1 == u[|head|..|head| + |r1|];
    assert r2 == u[|head|..|head| + |r2|];
    RoutesDistinct(c1, p1, c2, p2);
  }

  // ---------------------------------------------------------------------------
  // get_next_dialog

  /** The dialog types of DialogTypeEnum that WhatsApp delivers as one message. */
  const WhatsappDialogs: seq<string> :=
    ["send_message", "name", "email", "phone", "text", "file_upload", "button", "list"]

  /** get_supported_dialogs: the WhatsApp list for 360Dialog, Meta and 360Dialog Cloud,
    * nothing for any other channel or provider. */
  function SupportedDialogs(channel: int, provider: int): seq<string> {
    if channel == WhatsApp && (provider == WaDialog360 || provider == WaMeta || provider == WaDialog360Cloud)
    then WhatsappDialogs
    else []
  }

  /** A reply event: its type ("message", "typing", ...) and the type of its dialog. */
  datatype DialogEvent = DialogEvent(kind: string, dialogType: string)

  /** DialogEventType.MESSAGE. */
  const MessageEvent := "message"

  /** check_is_identified_at_least_single_supported_dialog: the events in order, stopping
    * at the first message event whose dialog type is supported. */
  function IdentifiesSupportedDialog(channel: int, provider: int, events: seq<DialogEvent>): (b: bool)
    ensures b <==> exists i | 0 <= i < |events| ::
      events[i].kind == MessageEvent && events[i].dialogType in SupportedDialogs(channel, provider)
  {
    if |events| == 0 then false
    else if events[0].kind == MessageEvent && events[0].dialogType in SupportedDialogs(channel, provider) then
      assert events[0] == events[0];
      true
    else
      var b := IdentifiesSupportedDialog(channel, provider, events[1..]);
      assert forall i | 1 <= i < |events| :: events[i] == events[1..][i - 1];
      b
  }

  /** The name of the "environment" system variable: SYSTEM_VARIABLE_FORMAT filled in. */
  const EnvironmentVariable := Variables.SystemPrefix + "environment" + Variables.Postfix

  /** Dialog360Environments.PRODUCTION. */
  const Production := JStr("PRODUCTION")

  /** check_is_single_message_channel: WhatsApp through Meta or 360Dialog Cloud, or through
    * 360Dialog when the conversation's environment variable says PRODUCTION. `variables`
    * maps each variable the conversation has to its value. */
  predicate IsSingleMessageChannel(channel: int, provider: int, variables: map<string, Json>) {
    channel == WhatsApp &&
    (provider == WaMeta || provider == WaDialog360Cloud ||
     (provider == WaDialog360 && EnvironmentVariable in variables && variables[EnvironmentVariable] == Production))
  }

  /** get_next_dialog: None (stop here) when the channel is single-message and the events
    * already hold a supported dialog; the next dialog's key otherwise. */
  function NextDialog(channel: int, provider: int, events: seq<DialogEvent>, nextDialogKey: Json,
                      variables: map<string, Json>): Option<Json>
  {
    if IsSingleMessageChannel(channel, provider, variables) && IdentifiesSupportedDialog(channel, provider, events)
    then None
    else Some(nextDialogKey)
  }

  /** The flow stops only on a single-message WhatsApp channel that has already queued a
    * supported dialog in a message event; it goes on to the next dialog otherwise. */
  lemma NextDialogStops(channel: int, provider: int, events: seq<DialogEvent>, nextDialogKey: Json,
                        variables: map<string, Json>)
    ensures NextDialog(channel, provider, events, nextDialogKey, variables).None? <==>
      channel == WhatsApp &&
      (provider == WaMeta || provider == WaDialog360Cloud ||
       (provider == WaDialog360 && EnvironmentVariable in variables && variables[EnvironmentVariable] == Production)) &&
      exists i | 0 <= i < |events| :: events[i].kind == MessageEvent && events[i].dialogType in WhatsappDialogs
    ensures NextDialog(channel, provider, events, nextDialogKey, variables).Some? ==>
      NextDialog(channel, provider, events, nextDialogKey, variables).value == nextDialogKey
  {
  }

  /** 360Dialog outside production (its sandbox, or no environment variable) never stops
    * the flow, whatever the events. */
  lemma Dialog360SandboxContinues(events: seq<DialogEvent>, nextDialogKey: Json, variables: map<string, Json>)
    requires EnvironmentVariable !in variables || variables[EnvironmentVariable] != Production
    ensures NextDialog(WhatsApp, WaDialog360, events, nextDialogKey, variables) == Some(nextDialogKey)
  {
  }
}
