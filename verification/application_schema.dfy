/** schemas/application.py: the request bodies for creating and updating an
    application, and the record sent back for one. */
module ApplicationSchema {
  import opened Common
  import opened Store

  /** `type`, `target_id` and `message` of a new application. */
  datatype ApplicationCreate = ApplicationCreate(kind: string, targetId: int, message: Option<string>)

  datatype ApplicationUpdate = ApplicationUpdate(message: Option<string>, status: Option<string>)

  const MaxMessageLength: nat := 1000

  /** The pattern `^(project|hackathon)$`, matched against the whole value. */
  predicate IsKind(s: string) {
    s == "project" || s == "hackathon"
  }

  /** The pattern `^(pending|approved|rejected)$`. */
  predicate IsStatus(s: string) {
    s == "pending" || s == "approved" || s == "rejected"
  }

  /** pydantic's message for a string that misses its `pattern`, which it
      quotes. */
  const KindPatternMessage := "String should match pattern '^(project|hackathon)$'"
  const StatusPatternMessage := "String should match pattern '^(pending|approved|rejected)$'"
  const TooLongMessage := "String should have at most 1000 characters"

  function MessageErrors(message: Option<string>): (e: seq<string>)
    ensures e == [] <==> message.None? || |message.value| <= MaxMessageLength
  {
    if message.Some? && |message.value| > MaxMessageLength then [TooLongMessage] else []
  }

  /** Validation of an `ApplicationCreate` body: `type` must be exactly
      "project" or "hackathon", and a message, when sent, is at most 1000
      characters. Both failures are reported together. */
  function ValidateCreate(kind: string, targetId: int, message: Option<string>): (r: Checked<ApplicationCreate>)
    ensures r.Accepted? <==> IsKind(kind) && (message.None? || |message.value| <= MaxMessageLength)
    ensures r.Accepted? ==> r.value == ApplicationCreate(kind, targetId, message)
    ensures r.Rejected? ==> 1 <= |r.errors| <= 2
  {
    var errors := (if IsKind(kind) then [] else [KindPatternMessage]) + MessageErrors(message);
    if errors == [] then Accepted(ApplicationCreate(kind, targetId, message)) else Rejected(errors)
  }

  /** Validation of an `ApplicationUpdate` body: both fields are optional; a
      status, when sent, is one of the three application statuses. */
  function ValidateUpdate(message: Option<string>, status: Option<string>): (r: Checked<ApplicationUpdate>)
    ensures r.Accepted? <==>
      (message.None? || |message.value| <= MaxMessageLength) && (status.None? || IsStatus(status.value))
    ensures r.Accepted? && r.value.status.Some? ==> r.value.status.value in ApplicationStatuses
  {
    var errors := MessageErrors(message) + (if status.None? || IsStatus(status.value) then [] else [StatusPatternMessage]);
    if errors == [] then Accepted(ApplicationUpdate(message, status)) else Rejected(errors)
  }

  /** An empty update body is accepted. */
  lemma EmptyUpdateAccepted()
    ensures ValidateUpdate(None, None) == Accepted(ApplicationUpdate(None, None))
  {
  }

  /** The summary of the applicant, project or hackathon attached to a
      response by the routes. */
  datatype Nested = Nested(fields: Payload)

  datatype ApplicationResponse = ApplicationResponse(
    id: nat, kind: string, targetId: int, applicantId: int, message: Option<string>,
    status: string, createdAt: int,
    applicant: Option<Nested>, project: Option<Nested>, hackathon: Option<Nested>)

  /** The response built from a stored application: the columns are copied
      and the nested records take their default, None. */
  function ResponseOf(a: Application): (r: ApplicationResponse)
    ensures r.applicant.None? && r.project.None? && r.hackathon.None?
  {
    ApplicationResponse(a.id, a.kind, a.targetId, a.applicantId, a.message, a.status, a.createdAt,
                        None, None, None)
  }

  /** The stored application a response describes. */
  function StoredOf(r: ApplicationResponse): Application {
    Application(r.id, r.kind, r.targetId, r.applicantId, r.message, r.status, r.createdAt)
  }

  /** A response carries every column of the application it was built from. */
  lemma ResponseRoundTrip(a: Application)
    ensures StoredOf(ResponseOf(a)) == a
  {
  }
}
