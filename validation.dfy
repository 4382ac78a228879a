/** `GET /validations/{id}`: redeeming an invitation (`web_server::routes::validation`). */
module Validation {
  import opened Wrappers
  import opened Chrono
  import opened Ids
  import opened Uris
  import opened Domain
  import opened Errors
  import opened Store

  /** The sqlx error text of `fetch_one` when the query returns no row. */
  const ROW_NOT_FOUND := "no rows returned by a query that expected to return at least one row"
  /** The sqlx error text when the LEFT JOIN finds no appointment and the non-null
      `format` column comes back NULL. */
  const NULL_FORMAT := "error occurred while decoding column \"format\": unexpected null; try decoding as an `Option`"
  const USED := "invitation has already been used"
  const OUTDATED := "The invitation date is outdated."
  const CONVERSION_PANIC := "Can't convert String to Url"
  const PREV_DAY_PANIC := "Failed to get the prev day"

  /** The joined row for one invitation and its appointment. */
  function Joined(inv: DBInvitation, appt: DBAppointment): DBAppointmentWithInvitation {
    DBAppointmentWithInvitation(inv.id, inv.appointmentId, inv.used, inv.shortUrl,
                                appt.format, appt.address, appt.link, appt.date)
  }

  /** `get_stored_invitation`: the LEFT JOIN of the invitation with that id and its
      appointment, by `fetch_one` (the first row). */
  function GetStoredInvitation(db: Database, id: Uuid): (r: Result<DBAppointmentWithInvitation, CustomError>)
    reads db
    ensures r.Err? ==> r.error.Sqlx?
    ensures (forall i :: 0 <= i < |db.invitations| ==> db.invitations[i].id != id)
            ==> r == Err(Sqlx(ROW_NOT_FOUND))
    ensures r.Ok? ==> exists i, j ::
              && 0 <= i < |db.invitations| && 0 <= j < |db.appointments|
              && db.invitations[i].id == id
              && db.appointments[j].id == db.invitations[i].appointmentId
              && r.value == Joined(db.invitations[i], db.appointments[j])
  {
    match FirstIndex(db.invitations, InvitationKey, id)
    case None => Err(Sqlx(ROW_NOT_FOUND))
    case Some(i) =>
      var inv := db.invitations[i];
      match FirstIndex(db.appointments, AppointmentKey, inv.appointmentId)
      case None => Err(Sqlx(NULL_FORMAT))
      case Some(j) => Ok(Joined(inv, db.appointments[j]))
  }

  /** A successful validation: a 308 redirect to the meeting link, or 200 with the record. */
  datatype Redemption =
    | PermanentRedirect(location: string)
    | Ticket(invitation: AppointmentWithInvitation)

  /** Midnight of the day before `now`, or None when `now` is on the first representable day. */
  function Yesterday(now: NaiveDateTime): Option<NaiveDateTime> {
    match PredDay(now.day)
    case None => None
    case Some(d) => Some(Midnight(d))
  }

  /** The checks of `validate_invitation_by_id` on an already converted record, at time `now`. */
  function Redeem(invitation: AppointmentWithInvitation, now: NaiveDateTime): Reply<Redemption> {
    if invitation.used then Failed(Forbidden(USED))
    else match Yesterday(now)
      case None => Panicked(PREV_DAY_PANIC)
      case Some(yesterday) =>
        if Before(invitation.date, yesterday) then Failed(Forbidden(OUTDATED))
        else match invitation.format
          case ONLINE =>
            if invitation.link.None? then Panicked(UNWRAP_NONE)
            else Done(PermanentRedirect(invitation.link.value.href))
          case OFFLINE => Done(Ticket(invitation))
  }

  /** `validate_invitation_by_id`. `now` is the server clock (`Utc::now`). The handler only
      reads the tables: nothing marks the invitation as used. */
  function ValidateInvitationById(db: Database, id: Uuid, now: NaiveDateTime, parseUrl: UrlParser)
    : (r: Reply<Redemption>)
    reads db
    ensures GetStoredInvitation(db, id).Err? ==> r == Failed(GetStoredInvitation(db, id).error)
  {
    match GetStoredInvitation(db, id)
    case Err(e) => Failed(e)
    case Ok(row) =>
      if !JoinedUrlsParse(row, parseUrl) then Panicked(CONVERSION_PANIC)
      else Redeem(AppointmentWithInvitationFromDb(row, parseUrl), now)
  }

  /** A used invitation is always refused with 403, whatever the time and format. */
  lemma UsedIsRefused(inv: AppointmentWithInvitation, now: NaiveDateTime)
    requires inv.used
    ensures Redeem(inv, now) == Failed(Forbidden(USED))
    ensures StatusCode(Redeem(inv, now).error) == FORBIDDEN
  {
  }

  /** Exactly when an invitation is redeemed, and what the response is. The cut-off is
      midnight of the previous day, inclusive: any date at or after it is accepted. */
  lemma {:induction false} RedeemSpec(inv: AppointmentWithInvitation, now: NaiveDateTime)
    ensures Redeem(inv, now).Done? <==>
              && !inv.used && now.day > 0
              && !Before(inv.date, Midnight(now.day - 1))
              && (inv.format.ONLINE? ==> inv.link.Some?)
    ensures Redeem(inv, now).Done? && inv.format.ONLINE? ==>
              Redeem(inv, now) == Done(PermanentRedirect(inv.link.value.href))
    ensures Redeem(inv, now).Done? && inv.format.OFFLINE? ==>
              Redeem(inv, now) == Done(Ticket(inv))
    ensures !inv.used && now.day > 0 && Before(inv.date, Midnight(now.day - 1)) ==>
              Redeem(inv, now) == Failed(Forbidden(OUTDATED))
  {
    assert Yesterday(now) == (if now.day > 0 then Some(Midnight(now.day - 1)) else None);
  }

  /** In nanoseconds: an invitation is outdated exactly when its date lies strictly
      before midnight of the previous day. */
  lemma OutdatedOnTimeline(inv: AppointmentWithInvitation, now: NaiveDateTime)
    requires !inv.used && now.day > 0
    ensures Redeem(inv, now) == Failed(Forbidden(OUTDATED))
            <==> Timeline(inv.date) < Timeline(Midnight(now.day - 1))
  {
    RedeemSpec(inv, now);
    BeforeMatchesTimeline(inv.date, Midnight(now.day - 1));
  }

  /** An unknown invitation id is a database error, reported as 500 rather than 404. */
  lemma UnknownInvitationIs500(db: Database, id: Uuid, now: NaiveDateTime, parseUrl: UrlParser)
    requires forall i :: 0 <= i < |db.invitations| ==> db.invitations[i].id != id
    ensures ValidateInvitationById(db, id, now, parseUrl) == Failed(Sqlx(ROW_NOT_FOUND))
    ensures StatusCode(Sqlx(ROW_NOT_FOUND)) == INTERNAL_SERVER_ERROR
  {
  }

  /** A stored invitation whose appointment is stored and whose URLs parse reaches the
      checks of `Redeem` with its stored fields. */
  lemma StoredInvitationReachesChecks(
    db: Database, id: Uuid, now: NaiveDateTime, parseUrl: UrlParser)
    requires GetStoredInvitation(db, id).Ok?
    requires JoinedUrlsParse(GetStoredInvitation(db, id).value, parseUrl)
    ensures ValidateInvitationById(db, id, now, parseUrl)
            == Redeem(AppointmentWithInvitationFromDb(GetStoredInvitation(db, id).value, parseUrl), now)
    ensures GetStoredInvitation(db, id).value.id == id
  {
  }
}
