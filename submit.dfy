/**
 * The lead-capture function api/submit.js: phone validation, lead defaults, the
 * store writes of `storeLead`, the outbound call request of `triggerRetellCall`
 * and how each outcome is answered.
 */
module LeadPipeline {
  import opened Wrappers
  import opened JsObjects
  import opened Digits
  import opened KeyValueStore
  import opened Http
  import Ids
  import PV = PhoneValidation

  const LeadsAllKey := "leads:all"
  const PendingCall := "pending_call"
  const NotConfiguredError := "Retell AI not configured"
  const CallFailedMessage := "Lead captured, but call initiation failed. We will contact you soon."
  const CallInitiatedMessage := "Call initiated successfully"
  const StoreFailedMessage := "Failed to store lead"

  /** `leads:variant:<variant>`, the per-variant list of lead ids. */
  function VariantListKey(variant: string): string {
    "leads:variant:" + variant
  }

  /** The per-variant list is never the list of all leads, whatever the variant. */
  lemma VariantListIsNotAll(variant: string)
    ensures VariantListKey(variant) != LeadsAllKey
  {
    assert VariantListKey(variant)[6] == 'v';
    assert LeadsAllKey[6] == 'a';
  }

  /** The server-side digit check: after removing non-digits, 10 or 11 digits remain. */
  predicate DigitCountOk(phone: string) {
    10 <= |StripNonDigits(phone)| <= 11
  }

  /** The server accepts exactly the numbers the browser-side validator calls valid. */
  lemma ServerAgreesWithClient(phone: string)
    ensures DigitCountOk(phone) <==> PV.ValidatePhone(phone).valid
  {
  }

  /** `lead_${Date.now()}_${suffix}`. */
  function LeadId(clock: Clock, suffix: string): string {
    Ids.GeneratedId("lead", clock.nowMs, suffix)
  }

  /**
   * `leadData`: the phone exactly as submitted, the optional fields with their
   * defaults, and the client address.
   */
  function LeadData(req: Request, clock: Clock): (lead: Object)
    requires Truthy(req.body, "phone")
    ensures lead.Keys == {"phone", "variant", "visitorId", "timestamp", "userAgent", "referrer", "url", "ip"}
    ensures lead["phone"] == req.body["phone"] && lead["ip"] == ClientIp(req)
    ensures Truthy(lead, "variant") && Truthy(lead, "visitorId") && Truthy(lead, "referrer")
    ensures lead["variant"] == (if Truthy(req.body, "variant") then req.body["variant"] else "unknown")
    ensures lead["visitorId"] == (if Truthy(req.body, "visitorId") then req.body["visitorId"] else "unknown")
    ensures lead["timestamp"] == (if Truthy(req.body, "timestamp") then req.body["timestamp"] else clock.iso)
    ensures lead["userAgent"] == (if Truthy(req.body, "userAgent") then req.body["userAgent"] else "")
    ensures lead["referrer"] == (if Truthy(req.body, "referrer") then req.body["referrer"] else "direct")
    ensures lead["url"] == (if Truthy(req.body, "url") then req.body["url"] else "")
  {
    map["phone" := req.body["phone"],
        "variant" := OrElse(req.body, "variant", "unknown"),
        "visitorId" := OrElse(req.body, "visitorId", "unknown"),
        "timestamp" := OrElse(req.body, "timestamp", clock.iso),
        "userAgent" := OrElse(req.body, "userAgent", ""),
        "referrer" := OrElse(req.body, "referrer", "direct"),
        "url" := OrElse(req.body, "url", ""),
        "ip" := ClientIp(req)]
  }

  /** The writes of `storeLead`: the record with `createdAt` and `status`, then the id on both lists. */
  function StoreLeadCommands(lead: Object, leadId: string, iso: string): seq<Command>
    requires "variant" in lead
  {
    [SetRecord(leadId, lead["createdAt" := iso]["status" := PendingCall]),
     LPush(LeadsAllKey, leadId),
     LPush(VariantListKey(lead["variant"]), leadId)]
  }

  /** The fields the call outcome adds to the stored lead. */
  function CallFields(callId: string, callStatus: string): Object {
    map["retellCallId" := callId, "callStatus" := callStatus]
  }

  /** `RETELL_API_KEY` and `RETELL_AGENT_ID`, either of which may be unset. */
  datatype RetellConfig = RetellConfig(apiKey: Option<string>, agentId: Option<string>)

  predicate Configured(cfg: RetellConfig) {
    cfg.apiKey.Some? && cfg.apiKey.value != "" && cfg.agentId.Some? && cfg.agentId.value != ""
  }

  /**
   * The `create-phone-call` request: bearer key, agent, the digits of the phone and
   * the lead metadata. `from_number` is always null and is not represented.
   */
  datatype CallRequest = CallRequest(bearer: string, agentId: string, toNumber: string, metadata: Object)

  /** What the call service answers to a request that was sent. */
  datatype CallOutcome =
    | Accepted(callId: string, callStatus: string)
    | Rejected(reason: string)   // a non-ok response or a network error

  /** How `triggerRetellCall` returns: the response data, or the error it throws. */
  datatype CallResult = CallSucceeded(callId: string, callStatus: string) | CallThrew(message: string)

  function CallRequestFor(cfg: RetellConfig, phone: string, lead: Object): (req: CallRequest)
    requires Configured(cfg) && "variant" in lead && "visitorId" in lead && "timestamp" in lead
    ensures AllDigits(req.toNumber) && req.bearer == "Bearer " + cfg.apiKey.value && req.agentId == cfg.agentId.value
    ensures req.toNumber == StripNonDigits(phone)
    ensures req.metadata.Keys == {"lead_source", "variant", "visitor_id", "timestamp"}
    ensures req.metadata["lead_source"] == "landing_page" && req.metadata["variant"] == lead["variant"]
    ensures req.metadata["visitor_id"] == lead["visitorId"] && req.metadata["timestamp"] == lead["timestamp"]
  {
    CallRequest("Bearer " + cfg.apiKey.value, cfg.agentId.value, StripNonDigits(phone),
                map["lead_source" := "landing_page", "variant" := lead["variant"],
                    "visitor_id" := lead["visitorId"], "timestamp" := lead["timestamp"]])
  }

  /**
   * `triggerRetellCall(phone, leadData)`: without both credentials it throws before
   * any request; otherwise it sends one request and returns the answer or throws.
   */
  function TriggerRetellCall(cfg: RetellConfig, phone: string, lead: Object, outcome: CallOutcome): (r: (Option<CallRequest>, CallResult))
    requires "variant" in lead && "visitorId" in lead && "timestamp" in lead
    ensures r.0.Some? <==> Configured(cfg)
    ensures r.0.Some? ==> r.0.value == CallRequestFor(cfg, phone, lead)
    ensures !Configured(cfg) ==> r.1 == CallThrew(NotConfiguredError)
    ensures r.1.CallSucceeded? <==> Configured(cfg) && outcome.Accepted?
    ensures r.1.CallSucceeded? ==> r.1.callId == outcome.callId && r.1.callStatus == outcome.callStatus
  {
    if !Configured(cfg) then (None, CallThrew(NotConfiguredError))
    else
      var request := CallRequestFor(cfg, phone, lead);
      match outcome
      case Accepted(id, status) => (Some(request), CallSucceeded(id, status))
      case Rejected(reason) => (Some(request), CallThrew("Retell API error: " + reason))
  }

  /** The answers of the submit handler. */
  datatype SubmitReply =
    | Preflight                                  // 200, empty body
    | MethodNotAllowed                           // 405
    | PhoneRequired                              // 400 'Phone number is required'
    | InvalidPhone                               // 400 'Invalid phone number format'
    | StoreFailed                                // 500, message StoreFailedMessage
    | CallFailed(leadId: string)                 // 200, success, callStatus 'failed'
    | CallInitiated(leadId: string, callId: string)  // 200, success

  function SubmitStatus(r: SubmitReply): (code: int)
    ensures code == 200 <==> r.Preflight? || r.CallFailed? || r.CallInitiated?
    ensures code == 400 <==> r.PhoneRequired? || r.InvalidPhone?
  {
    match r
    case Preflight => 200
    case MethodNotAllowed => 405
    case PhoneRequired => 400
    case InvalidPhone => 400
    case StoreFailed => 500
    case CallFailed(_) => 200
    case CallInitiated(_, _) => 200
  }

  /** Every store command an accepted submission issues, given how the call went. */
  function SubmitCommands(lead: Object, leadId: string, iso: string, call: CallResult): seq<Command>
    requires "variant" in lead
  {
    StoreLeadCommands(lead, leadId, iso)
    + match call
      case CallSucceeded(id, status) => [MergeRecord(leadId, CallFields(id, status))]
      case CallThrew(_) => []
  }

  /**
   * The handler. The store throws from command `failFrom` on; `outcome` is what the
   * call service would answer. Returns the reply and the call request sent, if any.
   */
  method HandleSubmit(client: Client, req: Request, clock: Clock, suffix: string,
                      cfg: RetellConfig, outcome: CallOutcome, failFrom: nat)
    returns (reply: SubmitReply, sent: Option<CallRequest>)
    modifies client
    ensures req.httpMethod == "OPTIONS" ==> reply == Preflight
    ensures req.httpMethod != "OPTIONS" && req.httpMethod != "POST" ==> reply == MethodNotAllowed
    ensures req.httpMethod == "POST" && !Truthy(req.body, "phone") ==> reply == PhoneRequired
    ensures req.httpMethod == "POST" && Truthy(req.body, "phone") && !DigitCountOk(req.body["phone"]) ==> reply == InvalidPhone
    ensures reply in {Preflight, MethodNotAllowed, PhoneRequired, InvalidPhone} ==>
              sent == None && client.state == old(client.state)
    ensures req.httpMethod == "POST" && Truthy(req.body, "phone") && DigitCountOk(req.body["phone"]) ==>
              SubmitOutcome(client.state, old(client.state), reply, sent, req.body["phone"], LeadData(req, clock),
                       LeadId(clock, suffix), clock.iso, cfg, outcome, failFrom)
  {
    sent := None;
    if req.httpMethod == "OPTIONS" {
      return Preflight, sent;
    }
    if req.httpMethod != "POST" {
      return MethodNotAllowed, sent;
    }
    if !Truthy(req.body, "phone") {
      return PhoneRequired, sent;
    }
    var phone := req.body["phone"];
    var phoneDigits := StripNonDigits(phone);
    if |phoneDigits| < 10 || |phoneDigits| > 11 {
      return InvalidPhone, sent;
    }
    var lead := LeadData(req, clock);
    reply, sent := SubmitLead(client, phone, lead, LeadId(clock, suffix), clock.iso, cfg, outcome, failFrom);
  }

  /**
   * What an accepted submission does: the store ends as the submission's commands
   * before `failFrom` leave it; a failed `storeLead` answers 500 before any call;
   * otherwise the call request is sent when configured, and the answer says whether
   * the call started.
   */
  ghost predicate SubmitOutcome(s': Store, s: Store, reply: SubmitReply, sent: Option<CallRequest>, phone: string,
                           lead: Object, leadId: string, iso: string, cfg: RetellConfig, outcome: CallOutcome, failFrom: nat)
    requires "variant" in lead && "visitorId" in lead && "timestamp" in lead
  {
    var (request, call) := TriggerRetellCall(cfg, phone, lead, outcome);
    && s' == RunUntil(s, SubmitCommands(lead, leadId, iso, call), failFrom)
    && (failFrom < 3 ==> reply == StoreFailed && sent == None)
    && (failFrom >= 3 ==> sent == request)
    && (failFrom >= 3 && call.CallThrew? ==> reply == CallFailed(leadId))
    && (failFrom >= 3 && call.CallSucceeded? ==> reply == CallInitiated(leadId, call.callId))
  }

  /** `storeLead`, then `triggerRetellCall`, then the update of the lead with the call. */
  method SubmitLead(client: Client, phone: string, lead: Object, leadId: string, iso: string,
                    cfg: RetellConfig, outcome: CallOutcome, failFrom: nat)
    returns (reply: SubmitReply, sent: Option<CallRequest>)
    requires "variant" in lead && "visitorId" in lead && "timestamp" in lead
    modifies client
    ensures SubmitOutcome(client.state, old(client.state), reply, sent, phone, lead, leadId, iso, cfg, outcome, failFrom)
  {
    sent := None;
    var (request, call) := TriggerRetellCall(cfg, phone, lead, outcome);
    ghost var cmds := SubmitCommands(lead, leadId, iso, call);
    ghost var s0 := client.state;

    var ok := client.Issue(s0, cmds, SetRecord(leadId, lead["createdAt" := iso]["status" := PendingCall]), 0, failFrom);
    if !ok { return StoreFailed, sent; }
    ok := client.Issue(s0, cmds, LPush(LeadsAllKey, leadId), 1, failFrom);
    if !ok { return StoreFailed, sent; }
    ok := client.Issue(s0, cmds, LPush(VariantListKey(lead["variant"]), leadId), 2, failFrom);
    if !ok { return StoreFailed, sent; }

    sent := request;
    match call {
      case CallThrew(_) =>
        assert cmds[..3] == cmds;
        return CallFailed(leadId), sent;
      case CallSucceeded(callId, callStatus) =>
        // the update's failure is logged and ignored
        ok := client.Issue(s0, cmds, MergeRecord(leadId, CallFields(callId, callStatus)), 3, failFrom);
        if ok {
          assert cmds[..4] == cmds;
        }
        return CallInitiated(leadId, callId), sent;
    }
  }

  /**
   * A fully stored lead: the record carries the lead data, `createdAt` and status
   * `pending_call`, and its id heads both `leads:all` and its variant's list.
   */
  lemma LeadStored(s: Store, lead: Object, leadId: string, iso: string)
    requires "variant" in lead
    ensures var s' := Run(s, StoreLeadCommands(lead, leadId, iso));
            && s'.records == s.records[leadId := lead["createdAt" := iso]["status" := PendingCall]]
            && s'.lists == s.lists[LeadsAllKey := [leadId] + List(s, LeadsAllKey)]
                                  [VariantListKey(lead["variant"]) := [leadId] + List(s, VariantListKey(lead["variant"]))]
            && GetRecord(s', leadId) == Some(lead["createdAt" := iso]["status" := PendingCall])
            && List(s', LeadsAllKey) == [leadId] + List(s, LeadsAllKey)
            && List(s', VariantListKey(lead["variant"])) == [leadId] + List(s, VariantListKey(lead["variant"]))
            && s'.hashes == s.hashes && s'.sets == s.sets
  {
    var cmds := StoreLeadCommands(lead, leadId, iso);
    var s1 := Apply(s, cmds[0]);
    var s2 := Apply(s1, cmds[1]);
    assert Run(s, cmds[..1]) == s1 by { assert cmds[..1][..0] == []; }
    assert Run(s, cmds[..2]) == s2 by { assert cmds[..2][..1] == cmds[..1]; }
    assert Run(s, cmds) == Apply(s2, cmds[2]) by { assert cmds[..2] == cmds[..|cmds| - 1]; }
    VariantListIsNotAll(lead["variant"]);
    ApplyViews(s, cmds[0]);
    ApplyViews(s1, cmds[1]);
    ApplyViews(s2, cmds[2]);
  }

  /**
   * After a successful call and update, the lead keeps every stored field, status
   * `pending_call` included, and gains the call id and the call status.
   */
  lemma CallRecorded(s: Store, lead: Object, leadId: string, iso: string, callId: string, callStatus: string)
    requires "variant" in lead && "retellCallId" !in lead && "callStatus" !in lead
    ensures var s' := Run(s, SubmitCommands(lead, leadId, iso, CallSucceeded(callId, callStatus)));
            var stored := lead["createdAt" := iso]["status" := PendingCall];
            && GetRecord(s', leadId).Some?
            && GetRecord(s', leadId).value.Keys == stored.Keys + {"retellCallId", "callStatus"}
            && GetRecord(s', leadId).value["retellCallId"] == callId
            && GetRecord(s', leadId).value["callStatus"] == callStatus
            && forall k :: k in stored ==> GetRecord(s', leadId).value[k] == stored[k]
  {
    var store := StoreLeadCommands(lead, leadId, iso);
    var merge := MergeRecord(leadId, CallFields(callId, callStatus));
    LeadStored(s, lead, leadId, iso);
    assert SubmitCommands(lead, leadId, iso, CallSucceeded(callId, callStatus)) == store + [merge];
    RunConcat(s, store, [merge]);
    assert Run(Run(s, store), [merge]) == Apply(Run(s, store), merge) by { assert [merge][..0] == []; }
    ApplyViews(Run(s, store), merge);
    var stored := lead["createdAt" := iso]["status" := PendingCall];
    assert Run(s, store).records[leadId] == stored;
    var merged := stored + CallFields(callId, callStatus);
    assert GetRecord(Run(s, store + [merge]), leadId) == Some(merged);
  }

  /** When the call fails the lead stays exactly as `storeLead` wrote it, still `pending_call`. */
  lemma CallFailureLeavesPending(s: Store, lead: Object, leadId: string, iso: string, message: string)
    requires "variant" in lead
    ensures var s' := Run(s, SubmitCommands(lead, leadId, iso, CallThrew(message)));
            && GetRecord(s', leadId).Some? && "status" in GetRecord(s', leadId).value
            && GetRecord(s', leadId).value["status"] == PendingCall
  {
    LeadStored(s, lead, leadId, iso);
    assert SubmitCommands(lead, leadId, iso, CallThrew(message)) == StoreLeadCommands(lead, leadId, iso);
  }

  /** The lead data never carries the fields the call adds, so a recorded call adds both. */
  lemma LeadDataLacksCallFields(req: Request, clock: Clock)
    requires Truthy(req.body, "phone")
    ensures "retellCallId" !in LeadData(req, clock) && "callStatus" !in LeadData(req, clock)
  {
  }
}
