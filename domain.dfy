/** `shared::domain`: appointments, invitations and e-mail addresses, in their
    database shape (`DB…`) and in their domain shape, and the conversions between them. */
module Domain {
  import opened Wrappers
  import opened Ints
  import opened Text
  import opened Chrono
  import opened Ids
  import opened Uris

  /** The two formats an appointment can have; nothing else is a format. */
  datatype AppointmentFormat = ONLINE | OFFLINE

  // ---------------------------------------------------------------- Email

  /** `Email`: a string newtype, ordered as the string. */
  datatype Email = Email(inner: string)

  /** `validator::validate_email`, not interpreted by this model. */
  type EmailValidator = string -> bool

  /** `Email::parse` */
  function ParseEmail(s: string, validateEmail: EmailValidator): (r: Result<Email, string>)
    ensures r.Ok? <==> validateEmail(s)
    ensures r.Ok? ==> r.value.inner == s
  {
    if validateEmail(s) then Ok(Email(s)) else Err(s + " is not a valid email string.")
  }

  /** The derived `Ord for Email` */
  predicate EmailLess(a: Email, b: Email) {
    StringLess(a.inner, b.inner)
  }

  // ---------------------------------------------------------------- Appointment

  /** Serialized form of a `Duration` field: its whole seconds. */
  function SerializeDuration(d: Duration): U64 {
    d.secs
  }

  /** `deserialize_duration`: `Duration::from_secs` of the number read. */
  function DeserializeDuration(secs: U64): Duration {
    FromSecs(secs)
  }

  /** The duration round trip keeps the whole seconds and drops the fraction. */
  lemma DurationRoundTrip(d: Duration)
    ensures DeserializeDuration(SerializeDuration(d)).secs == d.secs
    ensures DeserializeDuration(SerializeDuration(d)).subsecNanos == 0
    ensures DeserializeDuration(SerializeDuration(d)) == d <==> d.subsecNanos == 0
  {
  }

  /** Reading seconds and writing them again gives the same number. */
  lemma DurationSecondsRoundTrip(secs: U64)
    ensures SerializeDuration(DeserializeDuration(secs)) == secs
  {
  }

  /** The body of `POST /api/appointment`. */
  datatype NewAppointment = NewAppointment(
    title: string,
    description: string,
    format: AppointmentFormat,
    address: Option<string>,
    link: Option<Url>,
    date: NaiveDateTime,
    duration: Duration)

  /** A row of the `appointment` table. */
  datatype DBAppointment = DBAppointment(
    id: Uuid,
    title: string,
    description: string,
    format: AppointmentFormat,
    address: Option<string>,
    link: Option<string>,
    date: NaiveDateTime,
    duration: I64)

  datatype Appointment = Appointment(
    id: Uuid,
    title: string,
    description: string,
    format: AppointmentFormat,
    address: Option<string>,
    link: Option<Url>,
    date: NaiveDateTime,
    duration: Duration)

  /** The stored link, if any, is one `Url::from_str` accepts (otherwise the conversion panics). */
  predicate LinkParses(link: Option<string>, parseUrl: UrlParser) {
    link.None? || parseUrl(link.value).Some?
  }

  function ParseLink(link: Option<string>, parseUrl: UrlParser): (r: Option<Url>)
    requires LinkParses(link, parseUrl)
    ensures r.None? <==> link.None?
    ensures link.Some? ==> Some(r.value) == parseUrl(link.value)
  {
    match link
    case None => None
    case Some(s) => parseUrl(s)
  }

  /** `From<DBAppointment> for Appointment` */
  function AppointmentFromDb(db: DBAppointment, parseUrl: UrlParser): (a: Appointment)
    requires LinkParses(db.link, parseUrl)
    ensures a.id == db.id && a.title == db.title && a.description == db.description
    ensures a.format == db.format && a.address == db.address && a.date == db.date
    ensures a.link.None? <==> db.link.None?
    ensures db.link.Some? ==> Some(a.link.value) == parseUrl(db.link.value)
    ensures a.duration.subsecNanos == 0
    ensures db.duration >= 0 ==> a.duration.secs as int == db.duration as int
    ensures db.duration < 0 ==> a.duration.secs as int == db.duration as int + TWO_64
  {
    Appointment(db.id, db.title, db.description, db.format, db.address,
                ParseLink(db.link, parseUrl), db.date, FromSecs(I64AsU64(db.duration)))
  }

  /** A row of the invitation-and-appointment join read by validation. */
  datatype DBAppointmentWithInvitation = DBAppointmentWithInvitation(
    id: Uuid,
    appointmentId: Uuid,
    used: bool,
    shortUrl: string,
    format: AppointmentFormat,
    address: Option<string>,
    link: Option<string>,
    date: NaiveDateTime)

  datatype AppointmentWithInvitation = AppointmentWithInvitation(
    id: Uuid,
    appointmentId: Uuid,
    used: bool,
    shortUrl: Url,
    format: AppointmentFormat,
    address: Option<string>,
    link: Option<Url>,
    date: NaiveDateTime)

  /** Both URLs of the joined row parse (otherwise the conversion panics). */
  predicate JoinedUrlsParse(db: DBAppointmentWithInvitation, parseUrl: UrlParser) {
    LinkParses(db.link, parseUrl) && parseUrl(db.shortUrl).Some?
  }

  /** `From<DBAppointmentWithInvitation> for AppointmentWithInvitation` */
  function AppointmentWithInvitationFromDb(db: DBAppointmentWithInvitation, parseUrl: UrlParser)
    : (a: AppointmentWithInvitation)
    requires JoinedUrlsParse(db, parseUrl)
    ensures a.id == db.id && a.appointmentId == db.appointmentId && a.used == db.used
    ensures a.format == db.format && a.address == db.address && a.date == db.date
    ensures Some(a.shortUrl) == parseUrl(db.shortUrl)
    ensures a.link.None? <==> db.link.None?
    ensures db.link.Some? ==> Some(a.link.value) == parseUrl(db.link.value)
  {
    AppointmentWithInvitation(db.id, db.appointmentId, db.used, parseUrl(db.shortUrl).value,
                              db.format, db.address, ParseLink(db.link, parseUrl), db.date)
  }

  // ---------------------------------------------------------------- Invitation

  /** An invitation draft, as inserted and as returned by `POST …/invitation`:
      there is no `used` field, the table supplies it. */
  datatype NewInvitation = NewInvitation(id: Uuid, appointmentId: Uuid, shortUrl: Uri)

  /** A row of the `invitation` table. */
  datatype DBInvitation = DBInvitation(id: Uuid, appointmentId: Uuid, used: bool, shortUrl: string)

  datatype Invitation = Invitation(id: Uuid, appointmentId: Uuid, used: bool, shortUrl: Uri)

  /** The stored short URL is one `Uri::parse` accepts (otherwise the conversion panics). */
  predicate ShortUrlParses(db: DBInvitation, parseUrl: UrlParser) {
    Uris.Parse(db.shortUrl, parseUrl).Ok?
  }

  /** `From<DBInvitation> for Invitation` */
  function InvitationFromDb(db: DBInvitation, parseUrl: UrlParser): (inv: Invitation)
    requires ShortUrlParses(db, parseUrl)
    ensures inv.id == db.id && inv.appointmentId == db.appointmentId && inv.used == db.used
    ensures IntoInner(inv.shortUrl) == db.shortUrl && Valid(inv.shortUrl, parseUrl)
  {
    Invitation(db.id, db.appointmentId, db.used, Uris.Parse(db.shortUrl, parseUrl).value)
  }

  // ---------------------------------------------------------------- request bodies

  /** The query of `POST /api/appointment/{id}/invitation`. */
  datatype InvitationParams = InvitationParams(count: Option<I32>)

  /** The body of `POST /api/appointment/{id}/invitation`. */
  datatype SendAppointmentEmails = SendAppointmentEmails(email: Option<seq<Email>>)

  /** A whole `POST /api/appointment/{id}/invitation` request: path, query and body. */
  datatype InvitationRequest = InvitationRequest(
    appointmentId: Uuid, params: InvitationParams, body: SendAppointmentEmails)
}
