# Elastic Email mailer plugin for Mautic: webhook handler and transport factory

This project models the two pieces of logic in the Elastic Email mailer plugin for Mautic.

1. **The webhook handler** (`CallbackSubscriber`). Elastic Email reports delivery events by
   calling Mautic's shared transport webhook. The handler:
   - keeps only callbacks whose `provider` is `elasticemail`, in any letter case;
   - builds a flat payload from the query string, the form body or a JSON body;
   - reads `status`, `category`, `to` and `messageid`, each defaulting to `""`;
   - records at most one Do-Not-Contact failure: against the message id ("hash") when there is
     one, else against the address. A bounce is recorded as BOUNCED, else a complaint as
     MANUAL, else an unsubscribe as UNSUBSCRIBED. Each comes with a reason text. A bounce's is
     never PHP-empty. A complaint's or an unsubscribe's is the payload's `reason` whenever that
     key is present, even when it is empty.

   The call into Mautic's `TransportCallback` is returned as an `Action` value. The "OK" response
   the handler sets is returned as an `Option<Response>`.
2. **The transport factory** (`ElasticEmailTransportFactory::create`). The DSN scheme selects the
   HTTP API transport or the SMTP transport, or is refused. The DSN host `default` becomes
   `api.elasticemail.com` for the API transport.

Modules:
- `Wrappers`: `Option` and `Result`.
- `Php`: the PHP semantics the handler relies on. `empty()` on a string is true for `""` and
  `"0"`, `??` tests presence only, and `strtolower` lower-cases ASCII letters.
- `Tables`: first-match lookup in a sequence of (key, value) pairs. This is how the
  category→sentence `switch` selects its case.
- `CallbackSubscriber`: the handler, function by function as in the PHP class. It also has the
  five-kind classifier (`Classify`). It is the same if-chain as the hash path with the logged
  success kind added. `Signals` and `Rank` give an order-free view of the failure tests and of their precedence.
- `CallbackProperties`: lemmas about the handler.
- `TransportFactory`: `create`, `getSupportedSchemes` and lemmas about them.

Inputs the model takes as parameters:
- The request is a value with four parts: the provider that `Request::get('provider')` returns,
  the query map, the form map and the raw body.
- `json_decode` followed by the `is_array` test is the parameter `decode`. It returns `None` for
  invalid JSON and for non-array results.

Behaviour of the code that is easy to misread, kept as written:
- `provider` is removed from the query parameters only. A `provider` key in a form body or JSON
  body stays in the payload (`ProviderKeyOnlyFromFormOrBody`).
- `is_array` accepts JSON lists as well as JSON objects. A decoded list is a payload whose keys
  are its positions.
- An empty payload returns before the response is set, so no "OK" is sent on that path
  (`EmptyPayloadNoActionNoResponse`).
- Complaint and unsubscribe reasons use `??`. A `reason` key that is present but empty is
  therefore recorded as an empty reason text (`ComplaintKeepsPresentEmptyReason`,
  `ComplaintReasonEmptyIff`). Bounce reasons are never PHP-empty (`BounceReasonNeverEmpty`).
- A body of `"0"` is PHP-empty and is never decoded.

`in_array` and `switch` compare loosely in PHP. Every listed category is a non-numeric string,
so loose and strict string comparison agree, and the model uses plain equality.

## Model

| member | source | states |
|---|---|---|
| Php.ToLower | EventSubscriber/CallbackSubscriber.php:45 | `strtolower` keeps the length and lower-cases each character on its own |
| Tables.Lookup | EventSubscriber/CallbackSubscriber.php:281-318 | a `switch` takes the first case whose label matches; it returns nothing exactly when no label matches |
| CallbackSubscriber.IsElasticEmail | EventSubscriber/CallbackSubscriber.php:44-47 | `IsElasticEmail` has no contract of its own; `ProviderGateIgnoresCase`, `ProviderGateAcceptsAnyCase` and `ProviderGateRejectsOthers` state it |
| CallbackProperties.ProviderGateIgnoresCase | EventSubscriber/CallbackSubscriber.php:44-47 | a provider passes the gate iff it has the length of "elasticemail" and each character lower-cases to the matching character |
| CallbackProperties.ProviderGateAcceptsAnyCase | EventSubscriber/CallbackSubscriber.php:44-47 | "ElasticEmail", "ELASTICEMAIL" and "elasticEmail" pass the gate |
| CallbackProperties.ProviderGateRejectsOthers | EventSubscriber/CallbackSubscriber.php:44-47 | a missing provider, an empty one and "OtherESP" do not pass |
| CallbackProperties.OtherProviderShortCircuits | EventSubscriber/CallbackSubscriber.php:44-47 | a callback whose provider is missing or fails the gate ("OtherESP", say) gives no action and no response, whatever its payload |
| CallbackSubscriber.ProcessCallbackRequest | EventSubscriber/CallbackSubscriber.php:38-97 | a response is set iff the gate passes and the normalised payload is non-empty; that response is "OK" with status 200; an action is recorded only when a response is set; a rejected provider gives neither; an accepted callback with a non-empty payload records exactly what `processElasticEmailWebhook` computes from its four fields and the payload |
| CallbackSubscriber.Normalise | EventSubscriber/CallbackSubscriber.php:52-72 | `Normalise` has no contract of its own; `NormalisePriority` and `NormaliseEmptyIff` state it |
| CallbackProperties.NormalisePriority | EventSubscriber/CallbackSubscriber.php:52-72 | the payload is the query without `provider` if that is non-empty, else the form if non-empty, else the decoded body when the body is not PHP-empty and decodes to an array, else empty |
| CallbackProperties.NormaliseEmptyIff | EventSubscriber/CallbackSubscriber.php:52-72 | the payload is empty iff the query holds at most `provider`, the form is empty, and the body is PHP-empty or decodes to nothing or to an empty array |
| CallbackProperties.QueryDataShadowsOtherSources | EventSubscriber/CallbackSubscriber.php:52-60 | once the query holds a key other than `provider`, the form and the body have no influence |
| CallbackProperties.ProviderKeyOnlyFromFormOrBody | EventSubscriber/CallbackSubscriber.php:55-68 | a `provider` key left in the payload means the query held nothing else and the payload came from the form or from the decoded body |
| CallbackProperties.UndecodableBodyGivesEmptyPayload | EventSubscriber/CallbackSubscriber.php:63-70 | with no query data and no form data, a body that does not decode gives an empty payload, not an error |
| CallbackProperties.EmptyPayloadNoActionNoResponse | EventSubscriber/CallbackSubscriber.php:76-79 | an empty payload gives no action and no response |
| CallbackSubscriber.ReadFields | EventSubscriber/CallbackSubscriber.php:81-84 | each of `status`, `category`, `to` and `messageid` is the payload's value when present and "" when absent |
| CallbackProperties.ReadFieldsRoundTrip | EventSubscriber/CallbackSubscriber.php:81-84 | reading the fields from a payload that carries exactly those fields gives them back |
| CallbackProperties.ReadFieldsDefaults | EventSubscriber/CallbackSubscriber.php:81-84 | a payload without the four keys reads as four empty strings |
| CallbackSubscriber.ProcessWebhook | EventSubscriber/CallbackSubscriber.php:112-124 | `ProcessWebhook` has no contract of its own; `RecipientResolution` and `ActionTargetIsResolved` state it |
| CallbackProperties.RecipientResolution | EventSubscriber/CallbackSubscriber.php:112-124 | a message id that is not PHP-empty selects the hash path; otherwise an address that is not PHP-empty selects the address path; otherwise nothing is recorded |
| CallbackProperties.MessageIdWinsOverAddress | EventSubscriber/CallbackSubscriber.php:115-118 | with a non-empty message id the address cannot change the result, and any action targets the message id |
| CallbackProperties.ActionTargetIsResolved | EventSubscriber/CallbackSubscriber.php:112-124 | every action targets a non-empty message id, or a non-empty address when the message id is empty; with both empty there is no action |
| CallbackSubscriber.ProcessByHash | EventSubscriber/CallbackSubscriber.php:129-171 | `ProcessByHash` has no contract of its own; `HashPathDecision` and `ByHashRecordsHighestPrecedenceKind` state it |
| CallbackSubscriber.ProcessByAddress | EventSubscriber/CallbackSubscriber.php:176-210 | `ProcessByAddress` has no contract of its own; `AddressPathAgreesWithHashPath` states it |
| CallbackProperties.HashPathDecision | EventSubscriber/CallbackSubscriber.php:129-171 | BOUNCED iff a bounce; MANUAL iff a complaint and not a bounce; UNSUBSCRIBED iff an unsubscribe and neither of the others; bounce reason from the bounce rule; complaint and unsubscribe reasons are a present `reason`, else their fixed texts |
| CallbackProperties.AddressPathAgreesWithHashPath | EventSubscriber/CallbackSubscriber.php:176-210 | the address path records an action exactly when the hash path does, with the same reason and code, against the address |
| CallbackProperties.ByHashRecordsHighestPrecedenceKind | EventSubscriber/CallbackSubscriber.php:129-162 | the hash path records an action iff some failure kind is signalled, and then records the code of the signalled kind with the highest precedence (bounce, then complaint, then unsubscribe) |
| CallbackProperties.ByHashFollowsClassifier | EventSubscriber/CallbackSubscriber.php:129-171 | the hash path records an action iff the first-match classifier finds bounce, complaint or unsubscribe, with that kind's code |
| CallbackProperties.SuccessEventsRecordNothing | EventSubscriber/CallbackSubscriber.php:164-170 | Sent, Opened and Clicked with no failure category are success events and record nothing |
| CallbackSubscriber.IsBounce | EventSubscriber/CallbackSubscriber.php:215-240 | `IsBounce` has no contract of its own; `BounceStatusIsBounce`, `BounceCategoryIsBounce` and `UnlistedCategoryRecordsNothing` state it |
| CallbackSubscriber.IsComplaint | EventSubscriber/CallbackSubscriber.php:245-248 | `IsComplaint` has no contract of its own; `ComplaintSignalIsComplaint`, `HashPathDecision` and `BounceAndComplaintOnlyFromMixedSignals` state it |
| CallbackSubscriber.IsUnsubscribe | EventSubscriber/CallbackSubscriber.php:253-256 | `IsUnsubscribe` has no contract of its own; `UnsubscribeSignalIsUnsubscribe`, `HashPathDecision` and `ComplaintAndUnsubscribeOnlyFromMixedSignals` state it |
| CallbackProperties.BounceStatusIsBounce | EventSubscriber/CallbackSubscriber.php:217-219 | status Error or Bounced is a bounce whatever the category |
| CallbackProperties.BounceCategoryIsBounce | EventSubscriber/CallbackSubscriber.php:222-239 | each of the 14 bounce categories is a bounce whatever the status |
| CallbackProperties.ComplaintSignalIsComplaint | EventSubscriber/CallbackSubscriber.php:132-151 | a status of AbuseReport or a category of Spam or BlackListed is a complaint when no bounce signal is present |
| CallbackProperties.UnsubscribeSignalIsUnsubscribe | EventSubscriber/CallbackSubscriber.php:132-161 | Unsubscribed as the status or the category is an unsubscribe when no bounce or complaint signal is present |
| CallbackProperties.AbuseReportWithNoMailboxIsBounce | EventSubscriber/CallbackSubscriber.php:132-143 | AbuseReport with NoMailbox is recorded as a bounce: the bounce check comes first |
| CallbackProperties.UnlistedCategoryRecordsNothing | EventSubscriber/CallbackSubscriber.php:215-256 | an unlisted category ("FooBar") with no status is not classified and records nothing |
| CallbackProperties.CategoryListsDisjoint | EventSubscriber/CallbackSubscriber.php:222-255 | no bounce category is also a complaint or unsubscribe category |
| CallbackProperties.BounceAndComplaintOnlyFromMixedSignals | EventSubscriber/CallbackSubscriber.php:215-248 | an event that is both a bounce and a complaint has its bounce signal in one field and its complaint signal in the other |
| CallbackProperties.ComplaintAndUnsubscribeOnlyFromMixedSignals | EventSubscriber/CallbackSubscriber.php:245-256 | an event that is both a complaint and an unsubscribe has one signal in the status and the other in the category |
| CallbackSubscriber.BounceReason | EventSubscriber/CallbackSubscriber.php:261-274 | `BounceReason` has no contract of its own; `BounceReasonPriority`, `BounceReasonNeverEmpty` and `EmptyReasonFallsBackToStatus` state it |
| CallbackProperties.BounceReasonPriority | EventSubscriber/CallbackSubscriber.php:261-274 | a present non-empty `reason` wins; else a non-empty category's sentence; else "Email delivery failed: " followed by the status |
| CallbackProperties.BounceReasonNeverEmpty | EventSubscriber/CallbackSubscriber.php:261-318 | a bounce's reason is never PHP-empty: neither "" nor "0" |
| CallbackProperties.NoMailboxReason | EventSubscriber/CallbackSubscriber.php:286-287 | a NoMailbox bounce without a reason reads "Mailbox does not exist" |
| CallbackProperties.EmptyReasonFallsBackToStatus | EventSubscriber/CallbackSubscriber.php:263-273 | empty reason and category with status Bounced give "Email delivery failed: Bounced" |
| CallbackProperties.BounceSkipsZeroReason | EventSubscriber/CallbackSubscriber.php:263-273 | a bounce skips a `reason` of "0", which PHP counts as empty |
| CallbackProperties.ComplaintKeepsPresentEmptyReason | EventSubscriber/CallbackSubscriber.php:143-145 | a complaint keeps a present empty `reason` |
| CallbackProperties.UnsubscribeKeepsZeroReason | EventSubscriber/CallbackSubscriber.php:154-156 | an unsubscribe keeps a `reason` of "0" |
| CallbackProperties.ComplaintReasonEmptyIff | EventSubscriber/CallbackSubscriber.php:143-145 | a complaint's reason is empty iff the payload has a `reason` key whose value is "" |
| CallbackSubscriber.BounceReasonFromCategory | EventSubscriber/CallbackSubscriber.php:279-318 | `BounceReasonFromCategory` has no contract of its own; `GenericReasonIffNoSentence`, `CategoryReasonRoundTrip` and `CategoryReasonInjective` state it |
| CallbackProperties.CategoriesDistinct | EventSubscriber/CallbackSubscriber.php:281-315 | no category label occurs twice in the switch |
| CallbackProperties.SentencesDistinct | EventSubscriber/CallbackSubscriber.php:281-315 | no sentence occurs twice in the switch |
| CallbackProperties.SentencesNotGeneric | EventSubscriber/CallbackSubscriber.php:281-317 | no tabled sentence starts with the default's "Delivery error: " |
| CallbackProperties.FailureCategoriesHaveSentences | EventSubscriber/CallbackSubscriber.php:222-247 | every bounce category, Spam and BlackListed has a sentence of its own |
| CallbackProperties.GenericReasonIffNoSentence | EventSubscriber/CallbackSubscriber.php:281-318 | the text "Delivery error: " plus the category is produced iff the category has no case of its own |
| CallbackProperties.CategoryReasonRoundTrip | EventSubscriber/CallbackSubscriber.php:279-318 | the category can be recovered from its sentence |
| CallbackProperties.CategoryReasonInjective | EventSubscriber/CallbackSubscriber.php:279-318 | different categories give different sentences |
| CallbackProperties.CallbackActionFromPayload | EventSubscriber/CallbackSubscriber.php:38-124 | every action comes from an accepted, non-empty callback that is answered "OK"; for such a callback an action is recorded iff the fields classify as a failure and the message id or the address is not PHP-empty; the action targets the message id when it is not PHP-empty, else the address; its code is the classifier's; a bounce's reason is the bounce rule's, and complaint and unsubscribe reasons are a present `reason`, else their fixed texts |
| TransportFactory.ApiHost | Mailer/Factory/ElasticEmailTransportFactory.php:20 | a host other than "default" passes through unchanged |
| TransportFactory.Create | Mailer/Factory/ElasticEmailTransportFactory.php:16-39 | create succeeds iff the scheme is one of the supported schemes; otherwise the error carries the DSN, "elasticemail" and the supported list; the API transport is built iff the scheme is elasticemail or elasticemail+api |
| TransportFactory.ApiHostDefaulting | Mailer/Factory/ElasticEmailTransportFactory.php:20 | the host becomes api.elasticemail.com iff it is "default" or already that host; the host is changed iff it is "default" |
| TransportFactory.ApiSchemesBuildApiTransport | Mailer/Factory/ElasticEmailTransportFactory.php:22-24 | both API schemes build the API transport with the DSN user and the defaulted host |
| TransportFactory.SmtpSchemeIgnoresHost | Mailer/Factory/ElasticEmailTransportFactory.php:27-31 | elasticemail+smtp builds the SMTP transport from user and password, and the DSN host does not matter |
| TransportFactory.OtherSchemesRefused | Mailer/Factory/ElasticEmailTransportFactory.php:33 | examples: a near-miss scheme, a wrong-case scheme and the empty scheme are refused; the error lists the supported schemes |

## Left out

- Logging: every logger call only records what happened and does not change the outcome.
- The `try`/`catch` around the handler: PHP exceptions are not modelled. On that path no response
  is set.
- Symfony's `Request`, `Response` and `TransportWebhookEvent`: the request is the four values
  described above, and the response is a value in `Outcome`.
- JSON decoding: `decode` is a parameter and stands for `json_decode` followed by the `is_array` test.
- `TransportCallback::addFailureByHashId` and `addFailureByAddress`: these are Mautic's
  persistence. The model returns the call as an `Action` value.
- The numeric values of Mautic's `DoNotContact` constants: that class is not part of this model.
  The codes are an enumeration.
- Non-string payload values (nested query arrays, JSON numbers or objects): the payload is a map
  from strings to strings.
- `strtolower` before PHP 8.2 was locale-dependent. The model lower-cases ASCII letters only.
- Config/services.php: dependency-injection wiring only.
- Mailer/Transport/ElasticEmailSmtpTransport.php: a constructor that passes Elastic Email's SMTP
  host and port to Symfony's `EsmtpTransport`. The model keeps only the credentials.
- `AbstractTransportFactory::getUser` and `getPassword`, and the two transport constructors, are
  Symfony and plugin code that is not part of this model. The DSN's user and password are taken as
  given. Two exceptions are therefore not modelled: the `IncompleteDsnException` that `getUser`
  raises for any DSN without a user, and the one that `getPassword` raises for an
  `elasticemail+smtp` DSN without a password.
- TransportFactory.Create: its failures are only the unsupported schemes. With a missing user, or
  with the SMTP scheme and a missing password, `create` throws even for a supported scheme. The
  model does not cover those inputs because it takes the credentials as given.
- The ElasticEmailApiTransport class is not part of this model. The API transport is the tag
  `ApiTransport(apiKey, host)`.
- `getSubscribedEvents` and the constructor: registration and wiring only.
