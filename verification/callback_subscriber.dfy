/**
 The Elastic Email webhook handler of the Mautic plugin: the provider gate,
 the payload normaliser, the field defaults, the choice between the message-id
 ("hash") and the address path, the bounce/complaint/unsubscribe classifier
 and the reason texts. The handler's single side effect, a call into Mautic's
 TransportCallback, is returned here as an `Action` value, and the response it
 sets on the event is returned as an `Option<Response>`.
 */
module CallbackSubscriber {
  import opened Wrappers
  import opened Php
  import opened Tables

  /** A flat, string-valued request payload. */
  type Payload = map<string, string>

  /** The parts of the inbound request the handler reads. */
  datatype Request = Request(
    provider: Option<string>,  // what `$request->get('provider')` yields
    query: Payload,            // `$request->query->all()`
    form: Payload,             // `$request->request->all()`
    content: string)           // `$request->getContent()`

  /** The four recognised fields after defaulting. */
  datatype Fields = Fields(status: string, category: string, email: string, messageid: string)

  /** What a suppression is recorded against. */
  datatype Target = ByHashId(messageid: string) | ByAddress(email: string)

  /** The Mautic DoNotContact reasons the handler uses. */
  datatype ReasonCode = Bounced | Manual | Unsubscribed

  /** One call to `addFailureByHashId` or `addFailureByAddress`. */
  datatype Action = Action(target: Target, reason: string, code: ReasonCode)

  datatype Response = Response(body: string, status: int)

  /** Everything one callback produces: at most one action and at most one response. */
  datatype Outcome = Outcome(action: Option<Action>, response: Option<Response>)

  const ProviderName := "elasticemail"
  const HttpOk := 200
  const OkResponse := Response("OK", HttpOk)

  const ComplaintDefaultReason := "Spam complaint via Elastic Email"
  const UnsubscribeDefaultReason := "Unsubscribed via Elastic Email"

  /** The callback belongs to this plugin: a provider is given and lower-cases to "elasticemail". */
  predicate IsElasticEmail(provider: Option<string>)
  {
    provider.Some? && ToLower(provider.value) == ProviderName
  }

  /**
   The payload: the query parameters without `provider`; if none are left, the
   form parameters; if there are none, the decoded body when the body is not
   PHP-empty and `decode` (json_decode followed by is_array) accepts it;
   otherwise nothing.
   */
  function Normalise(query: Payload, form: Payload, content: string,
                     decode: string -> Option<Payload>): Payload
  {
    var fromQuery := query - {"provider"};
    if fromQuery != map[] then fromQuery
    else if form != map[] then form
    else if !Empty(content) then
      match decode(content)
      case Some(decoded) => decoded
      case None => map[]
    else map[]
  }

  /** Reads `status`, `category`, `to` and `messageid`, each defaulting to "". */
  function ReadFields(payload: Payload): (f: Fields)
    ensures "status" in payload ==> f.status == payload["status"]
    ensures "status" !in payload ==> f.status == ""
    ensures "category" in payload ==> f.category == payload["category"]
    ensures "category" !in payload ==> f.category == ""
    ensures "to" in payload ==> f.email == payload["to"]
    ensures "to" !in payload ==> f.email == ""
    ensures "messageid" in payload ==> f.messageid == payload["messageid"]
    ensures "messageid" !in payload ==> f.messageid == ""
  {
    Fields(OrDefault(payload, "status", ""), OrDefault(payload, "category", ""),
           OrDefault(payload, "to", ""), OrDefault(payload, "messageid", ""))
  }

  /** The categories that make an event a bounce, in `isBounce`'s order. */
  const BounceCategories: seq<string> := [
    "NotDelivered", "NoMailbox", "GreyListed", "Throttled", "Timeout",
    "ConnectionProblem", "SPFProblem", "AccountProblem", "DNSProblem",
    "WhitelistingProblem", "CodeError", "ManualCancel", "ConnectionTerminated",
    "ContentFilter"]

  predicate IsBounce(status: string, category: string)
  {
    status == "Error" || status == "Bounced" || category in BounceCategories
  }

  predicate IsComplaint(status: string, category: string)
  {
    status == "AbuseReport" || category == "Spam" || category == "BlackListed"
  }

  predicate IsUnsubscribe(status: string, category: string)
  {
    status == "Unsubscribed" || category == "Unsubscribed"
  }

  /** The delivery events the hash path only logs. */
  predicate IsSuccessEvent(status: string)
  {
    status == "Sent" || status == "Opened" || status == "Clicked"
  }

  /**
   The sentences of getBounceReasonFromCategory's switch, one entry per case
   in the order of `getBounceReasonFromCategory`'s cases.
   */
  const CategorySentences: seq<(string, string)> := [
    ("Spam", "Message was marked as spam"),
    ("BlackListed", "Sender is blacklisted"),
    ("NoMailbox", "Mailbox does not exist"),
    ("GreyListed", "Greylisted by recipient server"),
    ("Throttled", "Message throttled by recipient server"),
    ("Timeout", "Connection timed out"),
    ("ConnectionProblem", "Connection problem"),
    ("SPFProblem", "SPF validation failed"),
    ("AccountProblem", "Account problem"),
    ("DNSProblem", "DNS lookup failed"),
    ("WhitelistingProblem", "Whitelisting problem"),
    ("CodeError", "Code error"),
    ("ManualCancel", "Manually cancelled"),
    ("ConnectionTerminated", "Connection terminated"),
    ("ContentFilter", "Content filtered by recipient server"),
    ("NotDelivered", "Message could not be delivered"),
    ("Unknown", "Unknown delivery error")]

  /** The switch's default branch prefixes the category with this text. */
  const GenericPrefix := "Delivery error: "

  /** The sentence for a category; categories outside the table get the generic text. */
  function BounceReasonFromCategory(category: string): string
  {
    match Lookup(CategorySentences, category)
    case Some(sentence) => sentence
    case None => GenericPrefix + category
  }

  /**
   A bounce's reason: a non-empty payload `reason`; else, for a non-empty
   category, its sentence; else a text naming the status.
   */
  function BounceReason(status: string, category: string, payload: Payload): string
  {
    if NonEmptyAt(payload, "reason") then payload["reason"]
    else if !Empty(category) then BounceReasonFromCategory(category)
    else "Email delivery failed: " + status
  }

  /** processElasticEmailWebhookByHash: the first matching kind is recorded against the hash. */
  function ProcessByHash(messageid: string, status: string, category: string, payload: Payload): Option<Action>
  {
    if IsBounce(status, category) then
      Some(Action(ByHashId(messageid), BounceReason(status, category, payload), Bounced))
    else if IsComplaint(status, category) then
      Some(Action(ByHashId(messageid), OrDefault(payload, "reason", ComplaintDefaultReason), Manual))
    else if IsUnsubscribe(status, category) then
      Some(Action(ByHashId(messageid), OrDefault(payload, "reason", UnsubscribeDefaultReason), Unsubscribed))
    else
      // Sent, Opened and Clicked are only logged; anything else is dropped.
      None
  }

  /** processElasticEmailWebhookByAddress: the same rules, recorded against the address. */
  function ProcessByAddress(email: string, status: string, category: string, payload: Payload): Option<Action>
  {
    if IsBounce(status, category) then
      Some(Action(ByAddress(email), BounceReason(status, category, payload), Bounced))
    else if IsComplaint(status, category) then
      Some(Action(ByAddress(email), OrDefault(payload, "reason", ComplaintDefaultReason), Manual))
    else if IsUnsubscribe(status, category) then
      Some(Action(ByAddress(email), OrDefault(payload, "reason", UnsubscribeDefaultReason), Unsubscribed))
    else
      None
  }

  /** processElasticEmailWebhook: a non-empty message id wins; else a non-empty address; else nothing. */
  function ProcessWebhook(messageid: string, email: string, status: string, category: string,
                          payload: Payload): Option<Action>
  {
    if !Empty(messageid) then ProcessByHash(messageid, status, category, payload)
    else if !Empty(email) then ProcessByAddress(email, status, category, payload)
    else None
  }

  /**
   processCallbackRequest: callbacks of other providers and empty payloads
   end without a response; every other callback is processed and answered "OK".
   */
  function ProcessCallbackRequest(request: Request, decode: string -> Option<Payload>): (r: Outcome)
    ensures !IsElasticEmail(request.provider) ==> r == Outcome(None, None)
    ensures r.response.Some? <==>
              IsElasticEmail(request.provider) &&
              Normalise(request.query, request.form, request.content, decode) != map[]
    ensures r.response.Some? ==> r.response.value == Response("OK", 200)
    ensures r.action.Some? ==> r.response.Some?
    ensures var payload := Normalise(request.query, request.form, request.content, decode);
            var f := ReadFields(payload);
            IsElasticEmail(request.provider) && payload != map[] ==>
              r.action == ProcessWebhook(f.messageid, f.email, f.status, f.category, payload)
  {
    if !IsElasticEmail(request.provider) then Outcome(None, None)
    else
      var payload := Normalise(request.query, request.form, request.content, decode);
      if payload == map[] then Outcome(None, None)
      else
        var f := ReadFields(payload);
        Outcome(ProcessWebhook(f.messageid, f.email, f.status, f.category, payload), Some(OkResponse))
  }

  /** The kinds of event the handler distinguishes. */
  datatype Kind = BounceKind | ComplaintKind | UnsubscribeKind | SuccessKind | UnrecognisedKind

  /** The failure kind an event's status or category signals, by `isBounce`, `isComplaint` and `isUnsubscribe`. */
  predicate Signals(kind: Kind, status: string, category: string)
  {
    match kind
    case BounceKind => IsBounce(status, category)
    case ComplaintKind => IsComplaint(status, category)
    case UnsubscribeKind => IsUnsubscribe(status, category)
    case SuccessKind => false
    case UnrecognisedKind => false
  }

  /** Precedence among the failure kinds: a lower rank is tested first. */
  function Rank(kind: Kind): nat
  {
    match kind
    case BounceKind => 0
    case ComplaintKind => 1
    case UnsubscribeKind => 2
    case SuccessKind => 3
    case UnrecognisedKind => 4
  }

  /**
   The handler's if-chain over the three failure tests, with the kind of
   event it only logs (Sent, Opened, Clicked) added as a fourth step.
   */
  function Classify(status: string, category: string): Kind
  {
    if IsBounce(status, category) then BounceKind
    else if IsComplaint(status, category) then ComplaintKind
    else if IsUnsubscribe(status, category) then UnsubscribeKind
    else if IsSuccessEvent(status) then SuccessKind
    else UnrecognisedKind
  }

  /** The DoNotContact reason a kind is recorded with; success and unrecognised events record nothing. */
  function CodeOf(kind: Kind): Option<ReasonCode>
  {
    match kind
    case BounceKind => Some(Bounced)
    case ComplaintKind => Some(Manual)
    case UnsubscribeKind => Some(Unsubscribed)
    case SuccessKind => None
    case UnrecognisedKind => None
  }
}
