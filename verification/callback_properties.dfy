/** Properties of the Elastic Email webhook handler modelled in CallbackSubscriber. */
module CallbackProperties {
  import opened Wrappers
  import opened Php
  import opened Tables
  import opened CallbackSubscriber

  // ---------------------------------------------------------------- provider gate

  /** The gate compares case-insensitively: each character lower-cases to the expected name's. */
  lemma ProviderGateIgnoresCase(p: string)
    ensures IsElasticEmail(Some(p)) <==>
              |p| == |ProviderName| && forall i :: 0 <= i < |p| ==> LowerChar(p[i]) == ProviderName[i]
  {
    if |p| == |ProviderName| && forall i :: 0 <= i < |p| ==> LowerChar(p[i]) == ProviderName[i] {
      var lower := ToLower(p);
      assert forall i :: 0 <= i < |lower| ==> lower[i] == ProviderName[i];
      assert lower == ProviderName;
    }
  }

  /** Mixed-case spellings of the provider pass the gate. */
  lemma ProviderGateAcceptsAnyCase(p: string)
    requires p == "ElasticEmail" || p == "ELASTICEMAIL" || p == "elasticEmail"
    ensures IsElasticEmail(Some(p))
  {
  }

  /** A missing provider, an empty one and another provider's name do not pass. */
  lemma ProviderGateRejectsOthers()
    ensures !IsElasticEmail(Some("OtherESP"))
    ensures !IsElasticEmail(Some(""))
    ensures !IsElasticEmail(None)
  {
  }

  /**
   A callback of another provider, or without one, is ignored whatever its
   payload: no action, no response; "OtherESP" is one such provider.
   */
  lemma OtherProviderShortCircuits(provider: Option<string>, query: Payload, form: Payload,
                                   content: string, decode: string -> Option<Payload>)
    requires !IsElasticEmail(provider)
    ensures ProcessCallbackRequest(Request(provider, query, form, content), decode) == Outcome(None, None)
    ensures ProcessCallbackRequest(Request(Some("OtherESP"), query, form, content), decode) == Outcome(None, None)
  {
    ProviderGateRejectsOthers();
  }

  // ---------------------------------------------------------------- payload normaliser

  /**
   Source priority: the query without `provider`; if that is empty, the form;
   if that is empty too, the decoded body, when the body is not PHP-empty and
   decodes to an array; otherwise nothing.
   */
  lemma NormalisePriority(query: Payload, form: Payload, content: string,
                          decode: string -> Option<Payload>)
    ensures var r := Normalise(query, form, content, decode);
            && (query - {"provider"} != map[] ==> r == query - {"provider"})
            && (query - {"provider"} == map[] && form != map[] ==> r == form)
            && (query - {"provider"} == map[] && form == map[] && !Empty(content) && decode(content).Some? ==>
                  r == decode(content).value)
            && (query - {"provider"} == map[] && form == map[] && (Empty(content) || decode(content).None?) ==>
                  r == map[])
  {
  }

  /** The normalised payload is empty exactly when no source supplies any data. */
  lemma NormaliseEmptyIff(query: Payload, form: Payload, content: string,
                          decode: string -> Option<Payload>)
    ensures Normalise(query, form, content, decode) == map[] <==>
              && query.Keys <= {"provider"}
              && form == map[]
              && (Empty(content) || decode(content) == None || decode(content) == Some(map[]))
  {
    var fromQuery := query - {"provider"};
    if query.Keys <= {"provider"} {
      assert fromQuery.Keys == {};
    } else {
      var k :| k in query.Keys && k != "provider";
      assert k in fromQuery;
    }
  }

  /** Query data other than `provider` shadows the form and the body entirely. */
  lemma QueryDataShadowsOtherSources(query: Payload, form: Payload, form': Payload,
                                     content: string, content': string,
                                     decode: string -> Option<Payload>)
    requires exists k :: k in query && k != "provider"
    ensures Normalise(query, form, content, decode) == Normalise(query, form', content', decode)
    ensures Normalise(query, form, content, decode) == query - {"provider"}
  {
    var k :| k in query && k != "provider";
    assert k in query - {"provider"};
  }

  /**
   Only the query is stripped of `provider`: when the payload still holds that
   key, it came from the form or from the decoded body.
   */
  lemma ProviderKeyOnlyFromFormOrBody(query: Payload, form: Payload, content: string,
                                      decode: string -> Option<Payload>)
    ensures var r := Normalise(query, form, content, decode);
            "provider" in r ==>
              && query.Keys <= {"provider"}
              && (r == form || (!Empty(content) && decode(content) == Some(r)))
  {
    NormaliseEmptyIff(query, form, content, decode);
    var fromQuery := query - {"provider"};
    if "provider" in Normalise(query, form, content, decode) {
      assert fromQuery == map[];
      assert fromQuery.Keys == query.Keys - {"provider"} == {};
    }
  }

  /** A body that is not JSON, with no query data and no form data, gives an empty payload, not an error. */
  lemma UndecodableBodyGivesEmptyPayload(query: Payload, content: string,
                                         decode: string -> Option<Payload>)
    requires query.Keys <= {"provider"}
    requires decode(content) == None
    ensures Normalise(query, map[], content, decode) == map[]
  {
    NormaliseEmptyIff(query, map[], content, decode);
  }

  /** An empty payload ends the callback with neither an action nor a response. */
  lemma EmptyPayloadNoActionNoResponse(request: Request, decode: string -> Option<Payload>)
    requires Normalise(request.query, request.form, request.content, decode) == map[]
    ensures ProcessCallbackRequest(request, decode) == Outcome(None, None)
  {
  }

  // ---------------------------------------------------------------- field defaults

  /** The payload that carries exactly the four recognised fields of `f`. */
  function FieldsPayload(f: Fields): Payload
  {
    map["status" := f.status, "category" := f.category, "to" := f.email, "messageid" := f.messageid]
  }

  /** Reading the fields back from the payload that carries them recovers them. */
  lemma ReadFieldsRoundTrip(f: Fields)
    ensures ReadFields(FieldsPayload(f)) == f
  {
  }

  /** Every absent field reads as "": a payload without them yields four empty strings. */
  lemma ReadFieldsDefaults(payload: Payload)
    requires "status" !in payload && "category" !in payload
    requires "to" !in payload && "messageid" !in payload
    ensures ReadFields(payload) == Fields("", "", "", "")
  {
  }

  // ---------------------------------------------------------------- classification

  /** A status of Error or Bounced makes a bounce whatever the category. */
  lemma BounceStatusIsBounce(status: string, category: string)
    requires status == "Error" || status == "Bounced"
    ensures Classify(status, category) == BounceKind
  {
  }

  /** A bounce category makes a bounce whatever the status. */
  lemma BounceCategoryIsBounce(status: string, category: string)
    requires category in BounceCategories
    ensures Classify(status, category) == BounceKind
  {
  }

  /** AbuseReport, Spam or BlackListed makes a complaint unless a bounce status or category is also present. */
  lemma ComplaintSignalIsComplaint(status: string, category: string)
    requires status == "AbuseReport" || category == "Spam" || category == "BlackListed"
    requires status != "Error" && status != "Bounced" && category !in BounceCategories
    ensures Classify(status, category) == ComplaintKind
  {
  }

  /** Unsubscribed in the status or the category makes an unsubscribe unless a bounce or complaint signal is also present. */
  lemma UnsubscribeSignalIsUnsubscribe(status: string, category: string)
    requires status == "Unsubscribed" || category == "Unsubscribed"
    requires status != "Error" && status != "Bounced" && category !in BounceCategories
    requires status != "AbuseReport" && category != "Spam" && category != "BlackListed"
    ensures Classify(status, category) == UnsubscribeKind
  {
  }

  /** Bounce checks precede complaint checks: AbuseReport with NoMailbox is a bounce. */
  lemma AbuseReportWithNoMailboxIsBounce()
    ensures Classify("AbuseReport", "NoMailbox") == BounceKind
    ensures ProcessByHash("h", "AbuseReport", "NoMailbox", map[]).Some?
    ensures ProcessByHash("h", "AbuseReport", "NoMailbox", map[]).value.code == Bounced
  {
  }

  /** An unlisted category with no status is not a bounce: it records nothing. */
  lemma UnlistedCategoryRecordsNothing(messageid: string)
    requires !Empty(messageid)
    ensures Classify("", "FooBar") == UnrecognisedKind
    ensures ProcessWebhook(messageid, "", "", "FooBar", map["category" := "FooBar"]) == None
  {
  }

  /** The category alone never points to two kinds: the category lists are disjoint. */
  lemma CategoryListsDisjoint(category: string)
    ensures category in BounceCategories ==> category != "Spam" && category != "BlackListed"
    ensures category in BounceCategories ==> category != "Unsubscribed"
  {
  }

  /**
   Precedence decides only mixed signals: an event that is both a bounce and a
   complaint has a bounce status with a complaint category, or the reverse.
   */
  lemma BounceAndComplaintOnlyFromMixedSignals(status: string, category: string)
    requires IsBounce(status, category) && IsComplaint(status, category)
    ensures || ((status == "Error" || status == "Bounced") && (category == "Spam" || category == "BlackListed"))
            || (status == "AbuseReport" && category in BounceCategories)
  {
    CategoryListsDisjoint(category);
  }

  /** An event that is both a complaint and an unsubscribe has one signal in the status and the other in the category. */
  lemma ComplaintAndUnsubscribeOnlyFromMixedSignals(status: string, category: string)
    requires IsComplaint(status, category) && IsUnsubscribe(status, category)
    ensures || (status == "AbuseReport" && category == "Unsubscribed")
            || (status == "Unsubscribed" && (category == "Spam" || category == "BlackListed"))
  {
  }

  // ---------------------------------------------------------------- dispatch

  /**
   The hash path records an action exactly when the classifier finds a
   failure kind, with that kind's DoNotContact reason.
   */
  lemma ByHashFollowsClassifier(messageid: string, status: string, category: string, payload: Payload)
    ensures ProcessByHash(messageid, status, category, payload).Some? <==> CodeOf(Classify(status, category)).Some?
    ensures ProcessByHash(messageid, status, category, payload).Some? ==>
              && ProcessByHash(messageid, status, category, payload).value.code == CodeOf(Classify(status, category)).value
              && ProcessByHash(messageid, status, category, payload).value.target == ByHashId(messageid)
  {
  }

  /**
   Independently of the order of the if-blocks: the hash path records an
   action exactly when some failure kind is signalled, and then records the
   code of the signalled kind of highest precedence (lowest rank).
   */
  lemma ByHashRecordsHighestPrecedenceKind(messageid: string, status: string, category: string,
                                           payload: Payload)
    ensures ProcessByHash(messageid, status, category, payload).Some? <==>
              exists k :: Signals(k, status, category)
    ensures ProcessByHash(messageid, status, category, payload).Some? ==>
              exists k :: && Signals(k, status, category)
                          && CodeOf(k) == Some(ProcessByHash(messageid, status, category, payload).value.code)
                          && forall k' :: Signals(k', status, category) ==> Rank(k) <= Rank(k')
  {
    var r := ProcessByHash(messageid, status, category, payload);
    if IsBounce(status, category) {
      assert Signals(BounceKind, status, category);
    } else if IsComplaint(status, category) {
      assert Signals(ComplaintKind, status, category);
      assert forall k' :: Signals(k', status, category) ==> Rank(ComplaintKind) <= Rank(k');
    } else if IsUnsubscribe(status, category) {
      assert Signals(UnsubscribeKind, status, category);
      assert forall k' :: Signals(k', status, category) ==> Rank(UnsubscribeKind) <= Rank(k');
    } else {
      assert forall k :: !Signals(k, status, category);
    }
  }

  /** The address path records the same reason and code as the hash path, against the address. */
  lemma AddressPathAgreesWithHashPath(messageid: string, email: string, status: string,
                                      category: string, payload: Payload)
    ensures ProcessByAddress(email, status, category, payload).Some? <==>
            ProcessByHash(messageid, status, category, payload).Some?
    ensures ProcessByAddress(email, status, category, payload).Some? ==>
              var a := ProcessByAddress(email, status, category, payload).value;
              var h := ProcessByHash(messageid, status, category, payload).value;
              a == Action(ByAddress(email), h.reason, h.code)
  {
  }

  /**
   The hash path's decision: a bounce is recorded as BOUNCED, else a complaint
   as MANUAL, else an unsubscribe as UNSUBSCRIBED, else nothing; complaints
   and unsubscribes take a present `reason`, else their fixed text.
   */
  lemma HashPathDecision(messageid: string, status: string, category: string, payload: Payload)
    ensures var r := ProcessByHash(messageid, status, category, payload);
            && (r.Some? && r.value.code == Bounced <==> IsBounce(status, category))
            && (r.Some? && r.value.code == Manual <==> !IsBounce(status, category) && IsComplaint(status, category))
            && (r.Some? && r.value.code == Unsubscribed <==>
                  !IsBounce(status, category) && !IsComplaint(status, category) && IsUnsubscribe(status, category))
            && (r.Some? && r.value.code == Bounced ==> r.value.reason == BounceReason(status, category, payload))
            && (r.Some? && r.value.code == Manual ==>
                  r.value.reason == if "reason" in payload then payload["reason"] else "Spam complaint via Elastic Email")
            && (r.Some? && r.value.code == Unsubscribed ==>
                  r.value.reason == if "reason" in payload then payload["reason"] else "Unsubscribed via Elastic Email")
  {
  }

  /** Sent, Opened and Clicked events whose category signals no failure record nothing. */
  lemma SuccessEventsRecordNothing(messageid: string, email: string, status: string,
                                   category: string, payload: Payload)
    requires IsSuccessEvent(status)
    requires category !in BounceCategories
    requires category != "Spam" && category != "BlackListed" && category != "Unsubscribed"
    ensures Classify(status, category) == SuccessKind
    ensures ProcessWebhook(messageid, email, status, category, payload) == None
  {
  }

  /** The message id is used when not PHP-empty, else the address, else nothing is recorded. */
  lemma RecipientResolution(messageid: string, email: string, status: string,
                            category: string, payload: Payload)
    ensures var r := ProcessWebhook(messageid, email, status, category, payload);
            && (!Empty(messageid) ==> r == ProcessByHash(messageid, status, category, payload))
            && (Empty(messageid) && !Empty(email) ==> r == ProcessByAddress(email, status, category, payload))
            && (Empty(messageid) && Empty(email) ==> r == None)
  {
  }

  /** A non-empty message id decides the target: the address is then irrelevant. */
  lemma MessageIdWinsOverAddress(messageid: string, email: string, email': string,
                                 status: string, category: string, payload: Payload)
    requires !Empty(messageid)
    ensures ProcessWebhook(messageid, email, status, category, payload)
            == ProcessWebhook(messageid, email', status, category, payload)
    ensures ProcessWebhook(messageid, email, status, category, payload).Some? ==>
              ProcessWebhook(messageid, email, status, category, payload).value.target == ByHashId(messageid)
  {
  }

  /** Every recorded action names a non-empty recipient taken from the inputs, hash first. */
  lemma ActionTargetIsResolved(messageid: string, email: string, status: string,
                               category: string, payload: Payload)
    ensures var r := ProcessWebhook(messageid, email, status, category, payload);
            r.Some? ==>
              || (!Empty(messageid) && r.value.target == ByHashId(messageid))
              || (Empty(messageid) && !Empty(email) && r.value.target == ByAddress(email))
    ensures Empty(messageid) && Empty(email) ==>
              ProcessWebhook(messageid, email, status, category, payload) == None
  {
  }

  // ---------------------------------------------------------------- reasons

  /** The category has a sentence of its own in the table. */
  predicate HasSentence(category: string)
  {
    Lookup(CategorySentences, category).Some?
  }

  /** The text begins with the default branch's "Delivery error: ". */
  predicate StartsWithGeneric(text: string)
  {
    |GenericPrefix| <= |text| && text[..|GenericPrefix|] == GenericPrefix
  }

  /** The table lists each category once. */
  lemma CategoriesDistinct()
    ensures DistinctKeys(CategorySentences)
  {
  }

  /** The table lists each sentence once. */
  lemma SentencesDistinct()
    ensures DistinctKeys(Swapped(CategorySentences))
  {
    var swapped := Swapped(CategorySentences);
    assert forall i :: 0 <= i < |swapped| ==> swapped[i].0 == CategorySentences[i].1;
  }

  /** No sentence starts like the generic text: each differs in its first or second character. */
  lemma SentencesNotGeneric()
    ensures forall i :: 0 <= i < |CategorySentences| ==>
              && |CategorySentences[i].1| >= 2
              && (CategorySentences[i].1[0] != GenericPrefix[0] || CategorySentences[i].1[1] != GenericPrefix[1])
    ensures forall i :: 0 <= i < |CategorySentences| ==> !StartsWithGeneric(CategorySentences[i].1)
  {
  }

  /** Every category that can make an event a bounce or a complaint has a sentence of its own. */
  lemma FailureCategoriesHaveSentences(category: string)
    requires category in BounceCategories || category == "Spam" || category == "BlackListed"
    ensures HasSentence(category)
  {
    // The bounce categories sit at positions 2-15 of the table, NotDelivered last.
    assert BounceCategories[0] == CategorySentences[15].0;
    assert forall k :: 1 <= k < |BounceCategories| ==> BounceCategories[k] == CategorySentences[k + 1].0;
    if category == "Spam" {
      assert CategorySentences[0].0 == category;
    } else if category == "BlackListed" {
      assert CategorySentences[1].0 == category;
    } else {
      var k :| 0 <= k < |BounceCategories| && BounceCategories[k] == category;
      if k == 0 {
        assert CategorySentences[15].0 == category;
      } else {
        assert CategorySentences[k + 1].0 == category;
      }
    }
  }

  /** The generic text is used exactly for the categories outside the table. */
  lemma GenericReasonIffNoSentence(category: string)
    ensures BounceReasonFromCategory(category) == GenericPrefix + category <==> !HasSentence(category)
  {
    var r := BounceReasonFromCategory(category);
    if HasSentence(category) {
      SentencesNotGeneric();
      if r == GenericPrefix + category {
        assert r[..|GenericPrefix|] == GenericPrefix;
        assert StartsWithGeneric(r);
      }
    }
  }

  /** Recovers the category from a bounce sentence: the inverse of the category table. */
  function CategoryOfReason(reason: string): string
  {
    if StartsWithGeneric(reason) then reason[|GenericPrefix|..]
    else
      match Lookup(Swapped(CategorySentences), reason)
      case Some(category) => category
      case None => reason
  }

  /** The sentence for any category leads back to that category. */
  lemma CategoryReasonRoundTrip(category: string)
    ensures CategoryOfReason(BounceReasonFromCategory(category)) == category
  {
    var r := BounceReasonFromCategory(category);
    SentencesNotGeneric();
    SentencesDistinct();
    if HasSentence(category) {
      SwappedLookupInverts(CategorySentences, category);
    } else {
      assert r == GenericPrefix + category;
      assert r[..|GenericPrefix|] == GenericPrefix;
      assert r[|GenericPrefix|..] == category;
    }
  }

  /** Different categories give different sentences: the reason text identifies the category. */
  lemma CategoryReasonInjective(a: string, b: string)
    requires BounceReasonFromCategory(a) == BounceReasonFromCategory(b)
    ensures a == b
  {
    CategoryReasonRoundTrip(a);
    CategoryReasonRoundTrip(b);
  }

  /**
   A bounce's reason: a present, non-empty `reason` wins; else a non-empty
   category's sentence; else the status text.
   */
  lemma BounceReasonPriority(status: string, category: string, payload: Payload)
    ensures var r := BounceReason(status, category, payload);
            && ("reason" in payload && !Empty(payload["reason"]) ==> r == payload["reason"])
            && (!NonEmptyAt(payload, "reason") && !Empty(category) ==> r == BounceReasonFromCategory(category))
            && (!NonEmptyAt(payload, "reason") && Empty(category) ==> r == "Email delivery failed: " + status)
  {
  }

  /** A bounce is always recorded with a reason PHP does not count as empty: neither "" nor "0". */
  lemma BounceReasonNeverEmpty(status: string, category: string, payload: Payload)
    ensures !Empty(BounceReason(status, category, payload))
  {
    SentencesNotGeneric();
  }

  /** A NoMailbox bounce without an explicit reason reads "Mailbox does not exist". */
  lemma NoMailboxReason()
    ensures BounceReason("Bounced", "NoMailbox", map["status" := "Bounced", "category" := "NoMailbox"])
            == "Mailbox does not exist"
  {
  }

  /** An empty reason and category fall back to the status text. */
  lemma EmptyReasonFallsBackToStatus()
    ensures BounceReason("Bounced", "", map["status" := "Bounced", "category" := "", "reason" := ""])
            == "Email delivery failed: Bounced"
  {
  }

  /** A complaint takes the payload's `reason` whenever the key is present, even when it is empty. */
  lemma ComplaintKeepsPresentEmptyReason(messageid: string)
    requires !Empty(messageid)
    ensures ProcessWebhook(messageid, "", "AbuseReport", "", map["reason" := ""])
            == Some(Action(ByHashId(messageid), "", Manual))
  {
  }

  /** An unsubscribe keeps a `reason` of "0", which PHP counts as empty. */
  lemma UnsubscribeKeepsZeroReason(messageid: string)
    requires !Empty(messageid)
    ensures ProcessWebhook(messageid, "", "Unsubscribed", "", map["reason" := "0"])
            == Some(Action(ByHashId(messageid), "0", Unsubscribed))
  {
  }

  /** A bounce skips a `reason` of "0" and falls back to the status text. */
  lemma BounceSkipsZeroReason(messageid: string)
    requires !Empty(messageid)
    ensures ProcessWebhook(messageid, "", "Bounced", "", map["reason" := "0"])
            == Some(Action(ByHashId(messageid), "Email delivery failed: Bounced", Bounced))
  {
    assert !NonEmptyAt(map["reason" := "0"], "reason");
    assert "Email delivery failed: " + "Bounced" == "Email delivery failed: Bounced";
  }

  /** A complaint's reason is empty exactly when the payload carries an empty `reason`. */
  lemma ComplaintReasonEmptyIff(messageid: string, status: string, category: string, payload: Payload)
    requires Classify(status, category) == ComplaintKind
    ensures ProcessByHash(messageid, status, category, payload).Some?
    ensures ProcessByHash(messageid, status, category, payload).value.reason == "" <==>
              "reason" in payload && payload["reason"] == ""
  {
  }

  // ---------------------------------------------------------------- whole callback

  /**
   End to end: an action is recorded exactly for a callback of this provider
   with a non-empty payload whose fields classify as a failure and name a
   recipient; it is recorded against the message id when there is one, else
   against the address, with the kind's code and reason text.
   */
  lemma CallbackActionFromPayload(request: Request, decode: string -> Option<Payload>)
    ensures var r := ProcessCallbackRequest(request, decode);
            var payload := Normalise(request.query, request.form, request.content, decode);
            var f := ReadFields(payload);
            r.action.Some? ==>
              && IsElasticEmail(request.provider)
              && payload != map[]
              && r.response == Some(OkResponse)
    ensures var r := ProcessCallbackRequest(request, decode);
            var payload := Normalise(request.query, request.form, request.content, decode);
            var f := ReadFields(payload);
            IsElasticEmail(request.provider) && payload != map[] ==>
              && (r.action.Some? <==>
                    CodeOf(Classify(f.status, f.category)).Some? && (!Empty(f.messageid) || !Empty(f.email)))
              && (r.action.Some? ==>
                    && CodeOf(Classify(f.status, f.category)) == Some(r.action.value.code)
                    && r.action.value.target ==
                         (if !Empty(f.messageid) then ByHashId(f.messageid) else ByAddress(f.email))
                    && (r.action.value.code == Bounced ==>
                          r.action.value.reason == BounceReason(f.status, f.category, payload))
                    && (r.action.value.code == Manual ==>
                          r.action.value.reason == OrDefault(payload, "reason", ComplaintDefaultReason))
                    && (r.action.value.code == Unsubscribed ==>
                          r.action.value.reason == OrDefault(payload, "reason", UnsubscribeDefaultReason)))
  {
    var payload := Normalise(request.query, request.form, request.content, decode);
    var f := ReadFields(payload);
    if IsElasticEmail(request.provider) && payload != map[] {
      ByHashFollowsClassifier(f.messageid, f.status, f.category, payload);
      AddressPathAgreesWithHashPath(f.messageid, f.email, f.status, f.category, payload);
    }
  }
}
