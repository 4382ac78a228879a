/** The appointment handlers of the web server (`web_server::routes::appointment`):
    creating an appointment, reading one, and issuing a batch of invitations. */
module AppointmentRoutes {
  import opened Wrappers
  import opened Ints
  import opened Ids
  import opened Uris
  import opened Domain
  import opened Errors
  import opened Store
  import opened Clients

  // ---------------------------------------------------------------- add_appointment

  /** `add_appointment`: insert in a transaction, then commit. The id the database
      assigns is `freshId`. */
  method AddAppointment(db: Database, n: NewAppointment, freshId: Uuid, fault: TxFault)
    returns (r: Result<Uuid, CustomError>)
    requires db.Valid() && !HasId(db.appointments, freshId)
    modifies db
    ensures db.Valid() && db.invitations == old(db.invitations)
    ensures r.Ok? <==> fault.NoFault?
    ensures fault.NoFault? ==> r == Ok(freshId)
                               && db.appointments == old(db.appointments) + [AppointmentRow(n, freshId)]
    ensures !fault.NoFault? ==> db.appointments == old(db.appointments)
    ensures fault.BeginFails? ==> r == Err(Anyhow(POOL_CONTEXT))
    ensures fault.StatementFails? ==> r == Err(Anyhow(INSERT_APPOINTMENT_CONTEXT))
    ensures fault.CommitFails? ==> r == Err(Anyhow(COMMIT_CONTEXT))
  {
    if fault.BeginFails? {
      return Err(Anyhow(POOL_CONTEXT));
    }
    db.Begin();
    r := db.PreserveNewAppointment(n, freshId, if fault.StatementFails? then Some(fault.detail) else None);
    if r.Err? {
      return;
    }
    if fault.CommitFails? {
      db.RollBack();
      return Err(Anyhow(COMMIT_CONTEXT));
    }
  }

  // ---------------------------------------------------------------- get_appointment_by_id

  /** `get_appointment_by_id`: the first stored appointment with that id, or JSON `null`
      (still status 200) when there is none. */
  method GetAppointmentById(db: Database, id: Uuid, parseUrl: UrlParser)
    returns (r: Option<Appointment>)
    requires LinksParse(Where(db.appointments, AppointmentKey, Some(id)), parseUrl)
    ensures r.Some? <==> HasId(db.appointments, id)
    ensures r.Some? ==> r.value.id == id
    ensures r.Some? ==> exists row :: && row in db.appointments && row.id == id
                                      && LinkParses(row.link, parseUrl)
                                      && r.value == AppointmentFromDb(row, parseUrl)
    ensures r.Some? ==> && Where(db.appointments, AppointmentKey, Some(id)) != []
                        && r.value == AppointmentFromDb(Where(db.appointments, AppointmentKey, Some(id))[0], parseUrl)
    ensures r.Some? ==> && FirstIndex(db.appointments, AppointmentKey, id).Some?
                        && Where(db.appointments, AppointmentKey, Some(id))[0]
                           == db.appointments[FirstIndex(db.appointments, AppointmentKey, id).value]
  {
    var found := db.GetStoredAppointments(Some(id), parseUrl);
    ghost var rows := Where(db.appointments, AppointmentKey, Some(id));
    WhereFindsId(db.appointments, id);
    if |found| == 0 {
      return None;
    }
    assert rows[0] in db.appointments;
    WhereFirst(db.appointments, AppointmentKey, id);
    r := Some(found[0]);
  }

  /** With unique ids (`Database.Valid`), the appointment found is the one stored under that id. */
  lemma FoundAppointmentIsTheStoredOne(db: Database, id: Uuid, j: nat, parseUrl: UrlParser)
    requires db.Valid()
    requires j < |db.appointments| && db.appointments[j].id == id
    ensures Where(db.appointments, AppointmentKey, Some(id)) == [db.appointments[j]]
  {
    WhereUniqueId(db.appointments, id, j);
  }

  lemma {:induction false} WhereUniqueId(rows: seq<DBAppointment>, id: Uuid, j: nat)
    requires UniqueIds(rows)
    requires j < |rows| && rows[j].id == id
    ensures Where(rows, AppointmentKey, Some(id)) == [rows[j]]
  {
    if j == 0 {
      assert forall k :: 0 <= k < |rows[1..]| ==> rows[1..][k].id != id by {
        forall k | 0 <= k < |rows[1..]| ensures rows[1..][k].id != id {
          assert rows[1..][k] == rows[k + 1];
        }
      }
      WhereNone(rows[1..], id);
    } else {
      assert UniqueIds(rows[1..]) by {
        forall a, b | 0 <= a < b < |rows[1..]| ensures rows[1..][a].id != rows[1..][b].id {
          assert rows[1..][a] == rows[a + 1] && rows[1..][b] == rows[b + 1];
        }
      }
      assert rows[1..][j - 1] == rows[j];
      WhereUniqueId(rows[1..], id, j - 1);
    }
  }

  lemma WhereFindsId(rows: seq<DBAppointment>, id: Uuid)
    ensures Where(rows, AppointmentKey, Some(id)) != [] <==> HasId(rows, id)
  {
    if HasId(rows, id) {
      var j :| 0 <= j < |rows| && rows[j].id == id;
      assert rows[j] in Where(rows, AppointmentKey, Some(id));
    }
  }

  lemma WhereNone(rows: seq<DBAppointment>, id: Uuid)
    requires forall k :: 0 <= k < |rows| ==> rows[k].id != id
    ensures Where(rows, AppointmentKey, Some(id)) == []
  {
  }

  // ---------------------------------------------------------------- add_invitation

  /** The batch size K: the number of emails when the body lists them (`len() as i32`),
      otherwise the query `count`, 1 by default. */
  function BatchSize(params: InvitationParams, body: SendAppointmentEmails): I32 {
    match body.email
    case None => params.count.GetOr(1)
    case Some(emails) => UsizeAsI32(|emails|)
  }

  lemma BatchSizeSpec(params: InvitationParams, body: SendAppointmentEmails)
    ensures body.email.Some? && |body.email.value| < 0x8000_0000 ==>
              BatchSize(params, body) as int == |body.email.value|
    ensures body.email.None? ==> BatchSize(params, body) == if params.count.Some? then params.count.value else 1
  {
  }

  /** `0..count`: the batch has `max(K, 0)` entries. */
  function Entries(k: I32): nat {
    if k < 0 then 0 else k as int
  }

  /** The ids of the batch: the i-th `Uuid::new_v4()` is `mintId(i)`. */
  function BatchIds(k: I32, mintId: nat -> Uuid): seq<Uuid> {
    seq(Entries(k), i requires 0 <= i < Entries(k) => mintId(i))
  }

  /** The shortener reply for one id; its token is the hyphenated id. */
  function ShortUrlFor(id: Uuid, baseUrl: Uri, shorten: Shortener): Option<Uri> {
    shorten(LongUrl(baseUrl, Hyphenated(id)))
  }

  /** Some shortener call fails, so its future's `unwrap` panics. */
  predicate ShortenerFails(ids: seq<Uuid>, baseUrl: Uri, shorten: Shortener) {
    exists i :: 0 <= i < |ids| && ShortUrlFor(ids[i], baseUrl, shorten).None?
  }

  /** The drafts `add_invitation` builds: entry i pairs id i with its own short URL. */
  function Payload(appt: Uuid, ids: seq<Uuid>, baseUrl: Uri, shorten: Shortener): seq<NewInvitation>
    requires !ShortenerFails(ids, baseUrl, shorten)
  {
    seq(|ids|, i requires 0 <= i < |ids| =>
      NewInvitation(ids[i], appt, ShortUrlFor(ids[i], baseUrl, shorten).value))
  }

  /** The email addresses of the body; none when it has no list. */
  function Addresses(body: SendAppointmentEmails): seq<Email> {
    body.email.GetOr([])
  }

  function Min(a: nat, b: nat): nat { if a <= b then a else b }

  /** Index of the first of the first `n` drafts whose QR code cannot be produced. */
  function FirstRenderFailure(drafts: seq<NewInvitation>, n: nat, render: QrRenderer): (r: Option<nat>)
    requires n <= |drafts|
    ensures r.None? <==> forall i :: 0 <= i < n ==> render(drafts[i].shortUrl).Image?
    ensures r.Some? ==> && r.value < n
                        && !render(drafts[r.value].shortUrl).Image?
                        && forall i :: 0 <= i < r.value ==> render(drafts[i].shortUrl).Image?
  {
    if n == 0 then None
    else match FirstRenderFailure(drafts, n - 1, render)
      case Some(j) => Some(j)
      case None => if render(drafts[n - 1].shortUrl).Image? then None else Some(n - 1)
  }

  /** The message for one (email, draft) pair: the QR of the draft's short URL in the template. */
  function InvitationMail(to: Email, draft: NewInvitation, render: QrRenderer, template: string): Mail
    requires render(draft.shortUrl).Image?
  {
    Mail(to, INVITATION_SUBJECT, FillTemplate(template, render(draft.shortUrl).base64), INVITATION_PLAIN)
  }

  /** The messages for the first `n` pairs of `emails.iter().zip(payload.iter())`. */
  function Mails(emails: seq<Email>, drafts: seq<NewInvitation>, render: QrRenderer, template: string, n: nat)
    : (r: seq<Mail>)
    requires n <= |emails| && n <= |drafts|
    requires forall i :: 0 <= i < n ==> render(drafts[i].shortUrl).Image?
    ensures |r| == n
    ensures forall i :: 0 <= i < n ==> r[i] == InvitationMail(emails[i], drafts[i], render, template)
  {
    if n == 0 then [] else Mails(emails, drafts, render, template, n - 1)
                           + [InvitationMail(emails[n - 1], drafts[n - 1], render, template)]
  }

  /** A failed step's reply, retyped for the handler. */
  function Halted<T, U>(r: Reply<T>): Reply<U>
    requires !r.Done?
  {
    if r.Failed? then Failed(r.error) else Panicked(r.reason)
  }

  /** The transaction that stores the payload: begin, one INSERT, commit. */
  function TransactionReply(payload: seq<NewInvitation>, fault: TxFault): Reply<seq<NewInvitation>> {
    if fault.BeginFails? then Failed(Anyhow(POOL_CONTEXT))
    else if payload == [] then Panicked(EMPTY_VALUES)
    else if fault.StatementFails? then Failed(Sqlx(fault.detail))
    else if fault.CommitFails? then Failed(Anyhow(COMMIT_CONTEXT))
    else Done(payload)
  }

  /** The reply of `add_invitation`, step by step: shortener, QR codes, transaction. */
  function AddInvitationReply(req: InvitationRequest, mintId: nat -> Uuid, baseUrl: Uri,
                              shorten: Shortener, render: QrRenderer, fault: TxFault)
    : Reply<seq<NewInvitation>>
  {
    var ids := BatchIds(BatchSize(req.params, req.body), mintId);
    if ShortenerFails(ids, baseUrl, shorten) then Panicked(UNWRAP_ERR)
    else
      var payload := Payload(req.appointmentId, ids, baseUrl, shorten);
      var n := Min(|Addresses(req.body)|, |payload|);
      match FirstRenderFailure(payload, n, render)
      case Some(j) => Halted(QrCodeBase64(render, payload[j].shortUrl))
      case None => TransactionReply(payload, fault)
  }

  /** The messages `add_invitation` hands to the mail client, in order. */
  function AddInvitationOutbox(req: InvitationRequest, mintId: nat -> Uuid, baseUrl: Uri,
                               shorten: Shortener, render: QrRenderer, template: string)
    : seq<Mail>
  {
    var ids := BatchIds(BatchSize(req.params, req.body), mintId);
    if ShortenerFails(ids, baseUrl, shorten) then []
    else
      var payload := Payload(req.appointmentId, ids, baseUrl, shorten);
      var n := Min(|Addresses(req.body)|, |payload|);
      match FirstRenderFailure(payload, n, render)
      case Some(j) => Mails(Addresses(req.body), payload, render, template, j)
      case None => Mails(Addresses(req.body), payload, render, template, n)
  }

  /** The shortener calls (`join_all` of one future per new id, in order) and the
      payload loop: the drafts, or None when some call fails and its `unwrap` panics. */
  method ShortenAll(appt: Uuid, ids: seq<Uuid>, baseUrl: Uri, shorten: Shortener)
    returns (payload: Option<seq<NewInvitation>>)
    ensures payload.None? <==> ShortenerFails(ids, baseUrl, shorten)
    ensures payload.Some? ==> payload.value == Payload(appt, ids, baseUrl, shorten)
  {
    var results: seq<(Uuid, Uri)> := [];
    for i := 0 to |ids|
      invariant |results| == i
      invariant forall m :: 0 <= m < i ==>
                  results[m].0 == ids[m] && ShortUrlFor(ids[m], baseUrl, shorten) == Some(results[m].1)
    {
      var res := ShortUrlFor(ids[i], baseUrl, shorten);
      if res.None? {
        return None;
      }
      results := results + [(ids[i], res.value)];
    }
    var drafts: seq<NewInvitation> := [];
    for i := 0 to |results|
      invariant |drafts| == i
      invariant forall m :: 0 <= m < i ==> drafts[m] == NewInvitation(results[m].0, appt, results[m].1)
    {
      drafts := drafts + [NewInvitation(results[i].0, appt, results[i].1)];
    }
    payload := Some(drafts);
  }

  /** The email loop over `emails.iter().zip(payload.iter())`: one QR code and one message
      per pair, stopping at the first QR code that fails, whose index is returned. */
  method SendInvitationMails(emails: seq<Email>, payload: seq<NewInvitation>, render: QrRenderer,
                             template: string)
    returns (halt: Option<nat>, outbox: seq<Mail>)
    ensures halt == FirstRenderFailure(payload, Min(|emails|, |payload|), render)
    ensures halt.Some? ==> outbox == Mails(emails, payload, render, template, halt.value)
    ensures halt.None? ==> outbox == Mails(emails, payload, render, template, Min(|emails|, |payload|))
  {
    var n := Min(|emails|, |payload|);
    outbox := [];
    for i := 0 to n
      invariant FirstRenderFailure(payload, i, render).None?
      invariant outbox == Mails(emails, payload, render, template, i)
    {
      if !render(payload[i].shortUrl).Image? {
        return Some(i), outbox;
      }
      outbox := outbox + [InvitationMail(emails[i], payload[i], render, template)];
    }
    halt := None;
  }

  /** The transaction of `add_invitation`: begin, `preserve_new_invitations`, commit.
      Nothing is stored unless the commit succeeds. */
  method StoreBatch(db: Database, payload: seq<NewInvitation>, fault: TxFault)
    returns (reply: Reply<seq<NewInvitation>>)
    modifies db
    ensures reply == TransactionReply(payload, fault)
    ensures old(db.Valid()) ==> db.Valid()
    ensures db.appointments == old(db.appointments)
    ensures db.invitations == if reply.Done? then old(db.invitations) + InvitationRows(payload, db.usedDefault)
                              else old(db.invitations)
  {
    if fault.BeginFails? {
      return Failed(Anyhow(POOL_CONTEXT));
    }
    db.Begin();
    var inserted := db.PreserveNewInvitations(payload, if fault.StatementFails? then Some(fault.detail) else None);
    if !inserted.Done? {
      return Halted(inserted);
    }
    if fault.CommitFails? {
      db.RollBack();
      return Failed(Anyhow(COMMIT_CONTEXT));
    }
    reply := Done(payload);
  }

  /** `add_invitation`. The i-th `Uuid::new_v4()` is `mintId(i)`; `baseUrl` is the QR
      client's base URL; `template` is `templates/email.html`. Mail is handed to the mail
      client and its result ignored, so every message appears in `outbox`. */
  method AddInvitation(db: Database, req: InvitationRequest, mintId: nat -> Uuid, baseUrl: Uri,
                       shorten: Shortener, render: QrRenderer, template: string, fault: TxFault)
    returns (reply: Reply<seq<NewInvitation>>, outbox: seq<Mail>)
    modifies db
    ensures reply == AddInvitationReply(req, mintId, baseUrl, shorten, render, fault)
    ensures outbox == AddInvitationOutbox(req, mintId, baseUrl, shorten, render, template)
    ensures old(db.Valid()) ==> db.Valid()
    ensures db.appointments == old(db.appointments)
    ensures db.invitations == if reply.Done? then old(db.invitations) + InvitationRows(reply.value, db.usedDefault)
                              else old(db.invitations)
  {
    var ids := BatchIds(BatchSize(req.params, req.body), mintId);
    var drafts := ShortenAll(req.appointmentId, ids, baseUrl, shorten);
    if drafts.None? {
      return Panicked(UNWRAP_ERR), [];
    }
    var payload := drafts.value;
    var halt;
    halt, outbox := SendInvitationMails(Addresses(req.body), payload, render, template);
    if halt.Some? {
      return Halted(QrCodeBase64(render, payload[halt.value].shortUrl)), outbox;
    }
    reply := StoreBatch(db, payload, fault);
  }

  // ---------------------------------------------------------------- properties of add_invitation

  /** A failing shortener call panics before any QR code, message or row is produced. */
  lemma ShortenerFailurePanicsFirst(req: InvitationRequest, mintId: nat -> Uuid, baseUrl: Uri,
                                    shorten: Shortener, render: QrRenderer, template: string, fault: TxFault)
    requires ShortenerFails(BatchIds(BatchSize(req.params, req.body), mintId), baseUrl, shorten)
    ensures AddInvitationReply(req, mintId, baseUrl, shorten, render, fault) == Panicked(UNWRAP_ERR)
    ensures AddInvitationOutbox(req, mintId, baseUrl, shorten, render, template) == []
  {
  }

  /** The payload has `max(K, 0)` entries; entry i has the i-th new id, the path's
      appointment id and the short URL obtained for its own id. */
  lemma PayloadShape(appt: Uuid, k: I32, mintId: nat -> Uuid, baseUrl: Uri, shorten: Shortener)
    requires !ShortenerFails(BatchIds(k, mintId), baseUrl, shorten)
    ensures var p := Payload(appt, BatchIds(k, mintId), baseUrl, shorten);
      && |p| == (if k <= 0 then 0 else k as int)
      && forall i :: 0 <= i < |p| ==>
           && p[i].id == mintId(i)
           && p[i].appointmentId == appt
           && Some(p[i].shortUrl) == shorten(LongUrl(baseUrl, Hyphenated(mintId(i))))
  {
  }

  /** Exactly when `add_invitation` succeeds, and then it returns the payload. */
  lemma AddInvitationSuccess(req: InvitationRequest, mintId: nat -> Uuid, baseUrl: Uri,
                             shorten: Shortener, render: QrRenderer, fault: TxFault)
    ensures var ids := BatchIds(BatchSize(req.params, req.body), mintId);
      AddInvitationReply(req, mintId, baseUrl, shorten, render, fault).Done? <==>
        && !ShortenerFails(ids, baseUrl, shorten)
        && var payload := Payload(req.appointmentId, ids, baseUrl, shorten);
           && FirstRenderFailure(payload, Min(|Addresses(req.body)|, |payload|), render).None?
           && payload != []
           && fault.NoFault?
    ensures var ids := BatchIds(BatchSize(req.params, req.body), mintId);
      AddInvitationReply(req, mintId, baseUrl, shorten, render, fault).Done? ==>
        AddInvitationReply(req, mintId, baseUrl, shorten, render, fault).value
          == Payload(req.appointmentId, ids, baseUrl, shorten)
  {
  }

  /** What a successful `add_invitation` stores reads back as the invitations it returned:
      each row's short URL parses, and `Invitation::from` gives the draft's id, appointment
      and short URL with the column default for `used`. */
  lemma AddedInvitationsReadBack(req: InvitationRequest, mintId: nat -> Uuid, baseUrl: Uri,
                                 shorten: Shortener, render: QrRenderer, fault: TxFault,
                                 usedDefault: bool, parseUrl: UrlParser)
    requires ReturnsParsedUris(shorten, parseUrl)
    requires AddInvitationReply(req, mintId, baseUrl, shorten, render, fault).Done?
    ensures var payload := AddInvitationReply(req, mintId, baseUrl, shorten, render, fault).value;
      var rows := InvitationRows(payload, usedDefault);
      && ShortUrlsParse(rows, parseUrl)
      && forall i :: 0 <= i < |rows| ==>
           InvitationFromDb(rows[i], parseUrl)
             == Invitation(payload[i].id, payload[i].appointmentId, usedDefault, payload[i].shortUrl)
  {
    AddInvitationSuccess(req, mintId, baseUrl, shorten, render, fault);
    var ids := BatchIds(BatchSize(req.params, req.body), mintId);
    var payload := Payload(req.appointmentId, ids, baseUrl, shorten);
    var rows := InvitationRows(payload, usedDefault);
    forall i | 0 <= i < |rows|
      ensures ShortUrlParses(rows[i], parseUrl)
      ensures InvitationFromDb(rows[i], parseUrl)
                == Invitation(payload[i].id, payload[i].appointmentId, usedDefault, payload[i].shortUrl)
    {
      assert Valid(shorten(LongUrl(baseUrl, Hyphenated(ids[i]))).value, parseUrl);
      assert rows[i] == InvitationRow(payload[i], usedDefault);
      InvitationStoreLoad(payload[i], usedDefault, parseUrl);
    }
  }

  /** With a list of emails and every QR code rendered, each email i gets one message,
      whose image is the QR code of payload entry i's short URL. */
  lemma EveryEmailGetsItsOwnInvitation(req: InvitationRequest, mintId: nat -> Uuid, baseUrl: Uri,
                                       shorten: Shortener, render: QrRenderer, template: string)
    requires req.body.email.Some? && |req.body.email.value| < 0x8000_0000
    requires !ShortenerFails(BatchIds(BatchSize(req.params, req.body), mintId), baseUrl, shorten)
    requires var payload := Payload(req.appointmentId, BatchIds(BatchSize(req.params, req.body), mintId), baseUrl, shorten);
             forall i :: 0 <= i < |payload| ==> render(payload[i].shortUrl).Image?
    ensures var emails := req.body.email.value;
      var payload := Payload(req.appointmentId, BatchIds(BatchSize(req.params, req.body), mintId), baseUrl, shorten);
      var outbox := AddInvitationOutbox(req, mintId, baseUrl, shorten, render, template);
      && |payload| == |emails| && |outbox| == |emails|
      && forall i :: 0 <= i < |emails| ==>
           && outbox[i].to == emails[i]
           && outbox[i].subject == INVITATION_SUBJECT
           && outbox[i].html == FillTemplate(template, render(payload[i].shortUrl).base64)
  {
    var emails := req.body.email.value;
    assert BatchSize(req.params, req.body) as int == |emails|;
  }

  /** A QR code that cannot be produced stops the handler before the transaction: the
      messages before it have gone out, and no row is inserted. */
  lemma RenderFailureStoresNothing(req: InvitationRequest, mintId: nat -> Uuid, baseUrl: Uri,
                                   shorten: Shortener, render: QrRenderer, template: string,
                                   fault: TxFault, j: nat)
    requires !ShortenerFails(BatchIds(BatchSize(req.params, req.body), mintId), baseUrl, shorten)
    requires var payload := Payload(req.appointmentId, BatchIds(BatchSize(req.params, req.body), mintId), baseUrl, shorten);
             FirstRenderFailure(payload, Min(|Addresses(req.body)|, |payload|), render) == Some(j)
    ensures var payload := Payload(req.appointmentId, BatchIds(BatchSize(req.params, req.body), mintId), baseUrl, shorten);
      var reply := AddInvitationReply(req, mintId, baseUrl, shorten, render, fault);
      && |AddInvitationOutbox(req, mintId, baseUrl, shorten, render, template)| == j
      && (render(payload[j].shortUrl).EncodeError? ==> reply == Failed(Anyhow(render(payload[j].shortUrl).detail)))
      && (render(payload[j].shortUrl).DataTooLong? ==> reply == Panicked(UNWRAP_ERR))
  {
  }

  /** Messages go out before the transaction: a database failure leaves every message
      sent although the request fails. */
  lemma MailGoesOutBeforeTheInsert(req: InvitationRequest, mintId: nat -> Uuid, baseUrl: Uri,
                                   shorten: Shortener, render: QrRenderer, template: string, fault: TxFault)
    requires !ShortenerFails(BatchIds(BatchSize(req.params, req.body), mintId), baseUrl, shorten)
    requires var payload := Payload(req.appointmentId, BatchIds(BatchSize(req.params, req.body), mintId), baseUrl, shorten);
             FirstRenderFailure(payload, Min(|Addresses(req.body)|, |payload|), render).None?
    requires !fault.NoFault?
    ensures var payload := Payload(req.appointmentId, BatchIds(BatchSize(req.params, req.body), mintId), baseUrl, shorten);
      && !AddInvitationReply(req, mintId, baseUrl, shorten, render, fault).Done?
      && |AddInvitationOutbox(req, mintId, baseUrl, shorten, render, template)|
           == Min(|Addresses(req.body)|, |payload|)
  {
  }

  /** An empty batch (`count <= 0`, or an empty email list) reaches `push_values` with
      no tuple, whose debug assertion panics inside the open transaction. */
  lemma EmptyBatchPanics(req: InvitationRequest, mintId: nat -> Uuid, baseUrl: Uri,
                         shorten: Shortener, render: QrRenderer, template: string, fault: TxFault)
    requires BatchSize(req.params, req.body) <= 0
    requires !fault.BeginFails?
    ensures AddInvitationReply(req, mintId, baseUrl, shorten, render, fault) == Panicked(EMPTY_VALUES)
    ensures AddInvitationOutbox(req, mintId, baseUrl, shorten, render, template) == []
  {
    assert BatchIds(BatchSize(req.params, req.body), mintId) == [];
  }
}
