/** The request router (`handler.ServeHTTP`) as a pure function from one
    request and the current registry to a status code, the registry after
    the request, and the subscription URL fetched, if any. The stages run in
    order and the first one that decides the outcome ends the request:
    basic-auth gate, envelope dispatch, payload decode, event-type filter,
    sender resolution, and non-blocking enqueue of the recipients. */
module Router {
  import opened Wrappers
  import opened Text
  import opened BoundedQueue
  import opened Messages
  import opened Registry

  /** Only confirmation URLs containing this text are followed. */
  const TrustedDomain: string := "amazonaws.com"

  datatype Status = NoContent | BadRequest | Unauthorized {
    /** HTTP status code written to the response. */
    function Code(): int {
      match this
      case NoContent => 204
      case BadRequest => 400
      case Unauthorized => 401
    }
  }

  /** Basic-auth credentials configured at startup (`-user`, `-pass`). */
  datatype AuthConfig = AuthConfig(user: string, pass: string)

  /** Credentials carried by a request's Authorization header. */
  datatype Credentials = Credentials(user: string, pass: string)

  /** An inbound call: optional Basic credentials (None when the header is
      absent or unparsable) and the decoded body (None when the body is not
      a valid envelope). */
  datatype Request = Request(credentials: Option<Credentials>, envelope: Option<Envelope>)

  /** Outcome of one call: the status, the registry afterwards, and the URL
      of the confirmation GET issued, if one was. */
  datatype Response = Response(status: Status, registry: Senders, confirmed: Option<string>)

  /** The gate applies only when both configured credentials are non-empty. */
  predicate AuthRequired(auth: AuthConfig) {
    auth.user != "" && auth.pass != ""
  }

  /** The request presents exactly the configured credentials. */
  predicate Authorized(auth: AuthConfig, creds: Option<Credentials>) {
    creds.Some? && creds.value.user == auth.user && creds.value.pass == auth.pass
  }

  /** Offer the payload's recipients to the queue under `key`: the bounced
      ones (if permanent) first, then the complained ones. */
  function Dispatch(reg: Senders, key: string, p: Payload): Senders
    requires key in reg
  {
    reg[key := Offer(Offer(reg[key], BouncedAddresses(p)), ComplainedAddresses(p))]
  }

  /** `ServeHTTP`. `decodePayload` stands for the JSON decoding of the
      envelope's `Message` text into a payload. */
  function ServeHTTP(auth: AuthConfig, req: Request, decodePayload: string -> Option<Payload>, reg: Senders): (r: Response)
    ensures r.registry.Keys == reg.Keys
    ensures r.status.Code() == 401 <==> AuthRequired(auth) && !Authorized(auth, req.credentials)
    ensures r.status != NoContent ==> r.registry == reg && r.confirmed.None?
    ensures r.confirmed.Some? ==>
      && r.registry == reg
      && req.envelope.Some?
      && req.envelope.value.messageType == SubscriptionConfirmation
      && r.confirmed.value == req.envelope.value.subscribeUrl
      && Contains(r.confirmed.value, TrustedDomain)
    ensures forall k :: k in reg ==> reg[k] <= r.registry[k]
    ensures WellFormed(reg) ==> WellFormed(r.registry)
  {
    if AuthRequired(auth) && !Authorized(auth, req.credentials) then
      Response(Unauthorized, reg, None)
    else if req.envelope.None? then
      Response(BadRequest, reg, None)
    else
      var env := req.envelope.value;
      if env.messageType == SubscriptionConfirmation then
        Response(NoContent, reg, if Contains(env.subscribeUrl, TrustedDomain) then Some(env.subscribeUrl) else None)
      else if env.messageType != Notification then
        Response(BadRequest, reg, None)
      else match decodePayload(env.message)
        case None => Response(BadRequest, reg, None)
        case Some(p) =>
          if !Actionable(p) then
            Response(NoContent, reg, None)
          else match Resolve(reg, p.mail.source)
            case None => Response(NoContent, reg, None)
            case Some(key) => Response(NoContent, Dispatch(reg, key, p), None)
  }

  /** The request got past the basic-auth gate. */
  predicate PassesAuth(auth: AuthConfig, req: Request) {
    !AuthRequired(auth) || Authorized(auth, req.credentials)
  }

  /** The request is a decodable notification whose payload decodes too. */
  predicate DecodedNotification(req: Request, decodePayload: string -> Option<Payload>) {
    && req.envelope.Some?
    && req.envelope.value.messageType == Notification
    && decodePayload(req.envelope.value.message).Some?
  }

  /** With both credentials configured, absent or mismatching credentials
      get 401 and change nothing; with either one empty, no request is
      refused for its credentials. */
  lemma AuthGate(auth: AuthConfig, req: Request, decodePayload: string -> Option<Payload>, reg: Senders)
    ensures AuthRequired(auth) && !Authorized(auth, req.credentials) ==>
      ServeHTTP(auth, req, decodePayload, reg) == Response(Unauthorized, reg, None)
    ensures !AuthRequired(auth) ==> ServeHTTP(auth, req, decodePayload, reg).status != Unauthorized
  {
  }

  /** A body that is not a valid envelope gets 400 and changes nothing. */
  lemma MalformedEnvelope(auth: AuthConfig, req: Request, decodePayload: string -> Option<Payload>, reg: Senders)
    requires PassesAuth(auth, req)
    requires req.envelope.None?
    ensures ServeHTTP(auth, req, decodePayload, reg) == Response(BadRequest, reg, None)
  {
  }

  /** A notification whose Message text does not decode gets 400 and
      changes nothing. */
  lemma MalformedMessage(auth: AuthConfig, req: Request, decodePayload: string -> Option<Payload>, reg: Senders)
    requires PassesAuth(auth, req)
    requires req.envelope.Some? && req.envelope.value.messageType == Notification
    requires decodePayload(req.envelope.value.message).None?
    ensures ServeHTTP(auth, req, decodePayload, reg) == Response(BadRequest, reg, None)
  {
  }

  /** A subscription handshake gets 204 with no enqueue; the URL is fetched
      exactly when it contains the trusted domain. */
  lemma SubscriptionHandshake(auth: AuthConfig, req: Request, decodePayload: string -> Option<Payload>, reg: Senders)
    requires PassesAuth(auth, req)
    requires req.envelope.Some? && req.envelope.value.messageType == SubscriptionConfirmation
    ensures ServeHTTP(auth, req, decodePayload, reg).status == NoContent
    ensures ServeHTTP(auth, req, decodePayload, reg).registry == reg
    ensures ServeHTTP(auth, req, decodePayload, reg).confirmed.Some? <==>
      exists i: nat :: OccursAt(req.envelope.value.subscribeUrl, TrustedDomain, i)
  {
    ContainsIff(req.envelope.value.subscribeUrl, TrustedDomain);
  }

  /** Any envelope type other than the handshake or a notification gets
      400 and changes nothing. */
  lemma UnknownEnvelopeType(auth: AuthConfig, req: Request, decodePayload: string -> Option<Payload>, reg: Senders)
    requires PassesAuth(auth, req)
    requires req.envelope.Some?
    requires req.envelope.value.messageType != SubscriptionConfirmation
    requires req.envelope.value.messageType != Notification
    ensures ServeHTTP(auth, req, decodePayload, reg) == Response(BadRequest, reg, None)
  {
  }

  /** An event that is neither a bounce nor a complaint (a delivery, say) is
      accepted with 204 and changes nothing. */
  lemma NonActionableEvent(auth: AuthConfig, req: Request, decodePayload: string -> Option<Payload>, reg: Senders)
    requires PassesAuth(auth, req) && DecodedNotification(req, decodePayload)
    requires !Actionable(decodePayload(req.envelope.value.message).value)
    ensures ServeHTTP(auth, req, decodePayload, reg) == Response(NoContent, reg, None)
  {
  }

  /** A sender with neither its own queue nor a catch-all queue is dropped:
      204 and nothing changes. */
  lemma UnconfiguredSender(auth: AuthConfig, req: Request, decodePayload: string -> Option<Payload>, reg: Senders)
    requires PassesAuth(auth, req) && DecodedNotification(req, decodePayload)
    requires Actionable(decodePayload(req.envelope.value.message).value)
    requires decodePayload(req.envelope.value.message).value.mail.source !in reg
    requires DefaultKey !in reg
    ensures ServeHTTP(auth, req, decodePayload, reg) == Response(NoContent, reg, None)
  {
  }

  /** An actionable event for a configured sender (or with a catch-all
      queue) gets 204; the sender's own queue, or else the catch-all queue,
      receives the longest prefix of the candidate list that fits under the
      capacity, the rest being dropped; every other queue is unchanged. */
  lemma DispatchToResolvedQueue(auth: AuthConfig, req: Request, decodePayload: string -> Option<Payload>,
                                reg: Senders, p: Payload, key: string)
    requires PassesAuth(auth, req)
    requires req.envelope.Some? && req.envelope.value.messageType == Notification
    requires decodePayload(req.envelope.value.message) == Some(p)
    requires Actionable(p)
    requires key == (if p.mail.source in reg then p.mail.source else DefaultKey)
    requires key in reg
    ensures ServeHTTP(auth, req, decodePayload, reg) ==
      Response(NoContent, reg[key := reg[key] + Candidates(p)[..Room(reg[key], |Candidates(p)|)]], None)
  {
    OfferConcat(reg[key], BouncedAddresses(p), ComplainedAddresses(p));
  }

  /** The sub-objects are never checked against the event type: a complaint
      that also carries a permanent bounce enqueues both lists, the bounced
      addresses first, as long as the resolved queue has room for all. */
  lemma ComplaintWithPermanentBounce(auth: AuthConfig, req: Request, decodePayload: string -> Option<Payload>,
                                     reg: Senders, p: Payload, key: string)
    requires PassesAuth(auth, req)
    requires req.envelope.Some? && req.envelope.value.messageType == Notification
    requires decodePayload(req.envelope.value.message) == Some(p)
    requires p.notificationType == ComplaintType && PermanentBounce(p) && p.complaint.Some?
    requires key == (if p.mail.source in reg then p.mail.source else DefaultKey)
    requires key in reg
    requires |reg[key]| + |Candidates(p)| <= Capacity
    ensures ServeHTTP(auth, req, decodePayload, reg).status == NoContent
    ensures ServeHTTP(auth, req, decodePayload, reg).registry[key] ==
      reg[key] + BouncedAddresses(p) + ComplainedAddresses(p)
  {
    DispatchToResolvedQueue(auth, req, decodePayload, reg, p, key);
  }

  /** A concrete instance: one bounced and one complained address, both
      queued for the sender, bounced address first. */
  lemma ComplaintWithPermanentBounceExample(decodePayload: string -> Option<Payload>)
    requires decodePayload("m") == Some(Payload(ComplaintType, Mail("news@example.com"),
      Some(Bounce(Permanent, [BouncedRecipient("a@example.org", "550")])),
      Some(Complaint([ComplainedRecipient("b@example.org", "abuse")]))))
    ensures ServeHTTP(AuthConfig("", ""), Request(None, Some(Envelope(Notification, "", "m"))),
      decodePayload, map["news@example.com" := []])
      == Response(NoContent, map["news@example.com" := ["a@example.org", "b@example.org"]], None)
  {
    var p := decodePayload("m").value;
    assert BouncedAddresses(p) == ["a@example.org"];
    assert ComplainedAddresses(p) == ["b@example.org"];
    assert Offer([], ["a@example.org"]) == ["a@example.org"];
    assert Offer(["a@example.org"], ["b@example.org"]) == ["a@example.org", "b@example.org"];
  }
}
