/** The two layers of a notification as the handler decodes them: the SNS
    envelope (`snsMsg`) and, inside its `Message` string, the SES payload
    (`payload`). JSON decoding itself is not modelled; these are the shapes
    the decoder fills in. */
module Messages {
  import opened Wrappers

  /** Envelope type of a one-time subscription handshake. */
  const SubscriptionConfirmation: string := "SubscriptionConfirmation"
  /** Envelope type of a regular notification. */
  const Notification: string := "Notification"
  const BounceType: string := "Bounce"
  const ComplaintType: string := "Complaint"
  /** The only bounce classification that is acted on. */
  const Permanent: string := "Permanent"

  /** Outer layer: `Type`, `SubscribeURL`, and `Message`, which holds the
      inner payload as JSON text inside a JSON string. */
  datatype Envelope = Envelope(messageType: string, subscribeUrl: string, message: string)

  datatype Mail = Mail(source: string)

  datatype BouncedRecipient = BouncedRecipient(emailAddress: string, diagnosticCode: string)

  datatype Bounce = Bounce(bounceType: string, bouncedRecipients: seq<BouncedRecipient>)

  datatype ComplainedRecipient = ComplainedRecipient(emailAddress: string, complaintFeedbackType: string)

  datatype Complaint = Complaint(complainedRecipients: seq<ComplainedRecipient>)

  /** Inner layer. `bounce` and `complaint` are optional sub-objects (nil
      pointers in Go when absent); neither is checked against
      `notificationType`. */
  datatype Payload = Payload(
    notificationType: string,
    mail: Mail,
    bounce: Option<Bounce>,
    complaint: Option<Complaint>)

  /** Only bounces and complaints lead to any remediation. */
  predicate Actionable(p: Payload) {
    p.notificationType == BounceType || p.notificationType == ComplaintType
  }

  /** The payload carries a bounce sub-object classified as permanent. */
  predicate PermanentBounce(p: Payload) {
    p.bounce.Some? && p.bounce.value.bounceType == Permanent
  }

  /** Addresses contributed by the bounce sub-object. */
  function BouncedAddresses(p: Payload): (r: seq<string>)
    ensures !PermanentBounce(p) ==> r == []
    ensures PermanentBounce(p) ==>
      |r| == |p.bounce.value.bouncedRecipients| &&
      forall i :: 0 <= i < |r| ==> r[i] == p.bounce.value.bouncedRecipients[i].emailAddress
  {
    if PermanentBounce(p) then
      var rs := p.bounce.value.bouncedRecipients;
      seq(|rs|, i requires 0 <= i < |rs| => rs[i].emailAddress)
    else []
  }

  /** Addresses contributed by the complaint sub-object, whatever the bounce says. */
  function ComplainedAddresses(p: Payload): (r: seq<string>)
    ensures p.complaint.None? ==> r == []
    ensures p.complaint.Some? ==>
      |r| == |p.complaint.value.complainedRecipients| &&
      forall i :: 0 <= i < |r| ==> r[i] == p.complaint.value.complainedRecipients[i].emailAddress
  {
    if p.complaint.Some? then
      var rs := p.complaint.value.complainedRecipients;
      seq(|rs|, i requires 0 <= i < |rs| => rs[i].emailAddress)
    else []
  }

  /** Every address the router offers to the resolved queue, in offering order. */
  function Candidates(p: Payload): seq<string> {
    BouncedAddresses(p) + ComplainedAddresses(p)
  }

  /** The candidate list is the permanent bounce's recipients in list order,
      followed by every complaint recipient in list order. */
  lemma CandidatesOrder(p: Payload)
    ensures |Candidates(p)| == |BouncedAddresses(p)| + |ComplainedAddresses(p)|
    ensures forall i :: 0 <= i < |BouncedAddresses(p)| ==>
      Candidates(p)[i] == p.bounce.value.bouncedRecipients[i].emailAddress
    ensures p.complaint.Some? ==> forall i :: |BouncedAddresses(p)| <= i < |Candidates(p)| ==>
      Candidates(p)[i] == p.complaint.value.complainedRecipients[i - |BouncedAddresses(p)|].emailAddress
    ensures p.complaint.None? ==> Candidates(p) == BouncedAddresses(p)
    ensures !PermanentBounce(p) ==> Candidates(p) == ComplainedAddresses(p)
  {
  }
}
