/**
 * The two lead endpoints of main.py: `create_lead` (POST /api/leads), which
 * stores a pending lead record and queues the two notifications, and
 * `confirm_waitlist` (GET /api/confirm), which is a fixed placeholder answer.
 * The document store behind `create_document` is a map from fresh ids to
 * documents; FastAPI's background-task list is a queue of task values.
 */
module Api {
  import opened Wrappers
  import opened Text
  import opened Mail
  import opened Schema
  import opened Notify

  // ---------------------------------------------------------------- records

  /** The keys `create_lead` lays over a dumped lead. */
  const OverlayKeys: set<string> := {"status", "confirm_token", "confirmed_at"}

  /** `data.update({"status": "pending", "confirm_token": token,
      "confirmed_at": None})` on a dumped lead. */
  function PendingRecord(data: Record, token: string): (r: Record)
    ensures r.Keys == data.Keys + {"status", "confirm_token", "confirmed_at"}
    ensures r["status"] == Str("pending")
    ensures r["confirm_token"] == Str(token)
    ensures r["confirmed_at"] == Null
    ensures forall k :: k in data && k !in OverlayKeys ==> r[k] == data[k]
  {
    data + map["status" := Str("pending"), "confirm_token" := Str(token), "confirmed_at" := Null]
  }

  /** The stored record of a lead still holds the whole lead. */
  lemma PendingRecordKeepsLead(lead: Lead, token: string)
    ensures Load(PendingRecord(Dump(lead), token)) == Some(lead)
  {
    var d := Dump(lead);
    var r := PendingRecord(d, token);
    assert "name" !in OverlayKeys && "company" !in OverlayKeys && "email" !in OverlayKeys;
    assert "interest" !in OverlayKeys && "purpose" !in OverlayKeys;
    assert "consent" !in OverlayKeys && "message" !in OverlayKeys;
    assert r["name"] == d["name"] && r["company"] == d["company"] && r["email"] == d["email"];
    assert r["interest"] == d["interest"] && r["purpose"] == d["purpose"];
    assert r["consent"] == d["consent"] && r["message"] == d["message"];
  }

  // ------------------------------------------------------------------ store

  /** The store's id for a document (`create_document`'s return value). */
  type DocId = nat

  datatype Document = Document(collection: string, data: Record)

  /** The document store behind `create_document`: documents by id, and the
      next id it will hand out. */
  class DocumentStore {
    var documents: map<DocId, Document>
    var nextId: DocId

    /** Every stored id is below the next one, so the next one is fresh. */
    ghost predicate Valid()
      reads this
    {
      forall id :: id in documents ==> id < nextId
    }

    constructor ()
      ensures Valid() && documents == map[]
    {
      documents := map[];
      nextId := 0;
    }

    /** `create_document(collection, data)`.  `error` is the exception the
        store raises on this call, if it raises one. */
    method CreateDocument(collection: string, data: Record, error: Option<string>)
      returns (r: Result<DocId, string>)
      requires Valid()
      modifies this
      ensures Valid()
      ensures error.Some? ==> r == Failure(error.value) && documents == old(documents)
      ensures error.None? ==>
        && r.Success? && r.value !in old(documents)
        && documents == old(documents)[r.value := Document(collection, data)]
    {
      match error {
        case Some(e) =>
          r := Failure(e);
        case None =>
          var id := nextId;
          documents := documents[id := Document(collection, data)];
          nextId := nextId + 1;
          r := Success(id);
      }
    }
  }

  // ----------------------------------------------------------------- tasks

  /** A queued call: `notify_admin_waitlist(lead)` or
      `send_double_opt_in(to_email, token)`. */
  datatype Task =
    | NotifyAdminTask(lead: Lead)
    | DoubleOptInTask(toEmail: string, token: string)

  /** FastAPI's background-task list for one request. */
  class BackgroundTasks {
    var tasks: seq<Task>

    constructor ()
      ensures tasks == []
    {
      tasks := [];
    }

    /** `background_tasks.add_task(...)`. */
    method AddTask(t: Task)
      modifies this
      ensures tasks == old(tasks) + [t]
    {
      tasks := tasks + [t];
    }
  }

  /** The mail a queued task composes when it runs. */
  function TaskMail(env: Env, t: Task): (m: Email)
    ensures t.NotifyAdminTask? ==>
      m == Email(AdminSubject, AdminBody(t.lead), AdminRecipient(env))
    ensures t.DoubleOptInTask? ==>
      m == Email(OptInSubject, OptInBody(ConfirmUrl(FrontendBase(env), t.token)), t.toEmail)
  {
    match t
    case NotifyAdminTask(lead) => AdminNotification(env, lead)
    case DoubleOptInTask(to, token) => DoubleOptInMail(env, to, token)
  }

  /** What running a queued task hands to the transport. */
  function RunTask(env: Env, t: Task): (d: Delivery)
    ensures d.ConsoleRecord? <==> !SmtpConfigured(env)
    ensures t.NotifyAdminTask? ==>
      && (d.ConsoleRecord? ==>
            d.text == FallbackText(AdminSubject, AdminBody(t.lead), AdminRecipient(env)))
      && (d.SmtpSubmission? ==>
            d.message == OutgoingMessage(AdminSubject, Sender(env), AdminRecipient(env), AdminBody(t.lead)))
    ensures t.DoubleOptInTask? ==>
      && (d.ConsoleRecord? ==>
            d.text == FallbackText(OptInSubject, OptInBody(ConfirmUrl(FrontendBase(env), t.token)), t.toEmail))
      && (d.SmtpSubmission? ==>
            d.message == OutgoingMessage(OptInSubject, Sender(env), t.toEmail,
                                         OptInBody(ConfirmUrl(FrontendBase(env), t.token))))
  {
    var m := TaskMail(env, t);
    SendEmail(env, m.subject, m.body, m.to)
  }

  // -------------------------------------------------------------- endpoints

  /** The body of a successful `create_lead` response. */
  datatype LeadCreated = LeadCreated(success: bool, id: DocId, doubleOptIn: bool)

  /** `HTTPException(status_code, detail)`. */
  datatype HttpException = HttpException(statusCode: int, detail: string)

  /** The collection leads are stored in. */
  const LeadCollection := "lead"

  /** `create_lead(lead, background_tasks)`.  `token` stands for
      `secrets.token_urlsafe(32)`; `storeError` is the exception
      `create_document` raises on this call, if any. */
  method CreateLead(store: DocumentStore, background: BackgroundTasks, lead: Lead,
                    token: string, storeError: Option<string>)
    returns (r: Result<LeadCreated, HttpException>)
    requires store.Valid()
    modifies store, background
    ensures store.Valid()
    ensures storeError.Some? ==>
      && r == Failure(HttpException(500, storeError.value))
      && store.documents == old(store.documents)
      && background.tasks == old(background.tasks)
    ensures storeError.None? ==>
      && r.Success? && r.value == LeadCreated(true, r.value.id, true)
      && r.value.id !in old(store.documents)
      && store.documents
         == old(store.documents)[r.value.id := Document(LeadCollection, PendingRecord(Dump(lead), token))]
      && background.tasks
         == old(background.tasks) + [NotifyAdminTask(lead), DoubleOptInTask(lead.email, token)]
  {
    var data := PendingRecord(Dump(lead), token);
    var created := store.CreateDocument(LeadCollection, data, storeError);
    match created {
      case Failure(e) =>
        r := Failure(HttpException(500, e));
      case Success(leadId) =>
        background.AddTask(NotifyAdminTask(lead));
        background.AddTask(DoubleOptInTask(lead.email, token));
        r := Success(LeadCreated(true, leadId, true));
    }
  }

  /** The admin task of a stored lead mails the configured admin address a
      summary whose seven lines are those of the lead read back from the
      stored record. */
  lemma AdminTaskSummarisesStoredLead(env: Env, lead: Lead, token: string)
    requires SingleLineFields(lead)
    ensures var stored := Load(PendingRecord(Dump(lead), token));
      var m := TaskMail(env, NotifyAdminTask(lead));
      && stored.Some?
      && m.to == AdminRecipient(env)
      && Split(m.body) == AdminLines(stored.value) + [""]
  {
    PendingRecordKeepsLead(lead, token);
    AdminBodyLines(lead);
  }

  /** The opt-in task of a stored lead mails the lead's own address, and the
      link on the fourth line of its text is built from the very token the
      record stores. */
  lemma OptInTaskCarriesStoredToken(env: Env, lead: Lead, token: string)
    requires '\n' !in FrontendBase(env) && '\n' !in token
    ensures var record := PendingRecord(Dump(lead), token);
      var m := TaskMail(env, DoubleOptInTask(lead.email, token));
      && record["confirm_token"].Str?
      && m.to == lead.email
      && |Split(m.body)| == 9
      && Split(m.body)[3] == ConfirmUrl(FrontendBase(env), record["confirm_token"].s)
  {
    OptInLinesLink(ConfirmUrl(FrontendBase(env), token));
  }

  /** Running the opt-in task addresses the transport to the lead: either the
      SMTP message's recipient, or the first line of the console record. */
  lemma OptInTaskReachesLead(env: Env, lead: Lead, token: string)
    requires '\n' !in lead.email
    ensures var d := RunTask(env, DoubleOptInTask(lead.email, token));
      && (d.SmtpSubmission? ==> d.message.to == lead.email && d.message.sender == Sender(env))
      && (d.ConsoleRecord? ==> Split(d.text)[0] == "[EMAIL-FALLBACK] To: " + lead.email)
  {
    var m := TaskMail(env, DoubleOptInTask(lead.email, token));
    FallbackFirstLine(m.subject, m.body, m.to);
  }

  /** The reply of `confirm_waitlist`: success and a fixed message. */
  datatype ConfirmResponse = ConfirmResponse(success: bool, message: string)

  const ConfirmedMessage := "Anmeldung bestätigt"

  /** `confirm_waitlist(token)`: a placeholder that reports success for every
      token.  It takes no store, so it neither reads nor changes one. */
  function ConfirmWaitlist(token: string): (r: ConfirmResponse)
    ensures r.success && r.message == ConfirmedMessage
  {
    ConfirmResponse(true, ConfirmedMessage)
  }
}
