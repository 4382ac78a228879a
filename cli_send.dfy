/** `tickets_cli appointment send`: the list of recipients, from the command line or from
    standard input, sorted and deduplicated into the body of an invitation request. */
module SendCommand {
  import opened Wrappers
  import opened Ids
  import opened Text
  import opened Domain
  import opened Console
  import opened Ordering
  import AppointmentRoutes

  const PARSE_EMAIL_FAILURE := "Failed to parse Email"

  /** `Email::parse` as the list reader uses it. */
  function EmailParser(validateEmail: EmailValidator): string -> Option<Email> {
    line => if ParseEmail(line, validateEmail).Ok? then Some(ParseEmail(line, validateEmail).value) else None
  }

  /** The derived order of `Email` is a strict total order, so `sort` and `dedup` apply. */
  lemma EmailOrder()
    ensures StrictTotalOrder(EmailLess)
  {
    forall a: Email ensures !EmailLess(a, a) {
      StringLessIrreflexive(a.inner);
    }
    forall a: Email, b: Email, c: Email | EmailLess(a, b) && EmailLess(b, c)
      ensures EmailLess(a, c)
    {
      StringLessTransitive(a.inner, b.inner, c.inner);
    }
    forall a: Email, b: Email | a != b ensures EmailLess(a, b) || EmailLess(b, a) {
      StringLessTotal(a.inner, b.inner);
    }
  }

  /** `read_emails`: the lines before the first blank one, each a valid email as typed. */
  method ReadEmails(lines: seq<string>, validateEmail: EmailValidator)
    returns (r: Result<seq<Email>, IoError>)
    ensures r.Err? <==> exists i :: 0 <= i < |BeforeBlank(lines)| && !validateEmail(BeforeBlank(lines)[i])
    ensures r.Err? ==> r.error == InvalidData(PARSE_EMAIL_FAILURE)
    ensures r.Ok? ==> |r.value| == |BeforeBlank(lines)|
                      && forall i :: 0 <= i < |r.value| ==> r.value[i] == Email(BeforeBlank(lines)[i])
  {
    r := ReadList(lines, EmailParser(validateEmail), PARSE_EMAIL_FAILURE);
  }

  /** `send_invitation_letter_handler` up to the request it posts: the given emails, or
      those read from standard input when none are given, sorted and deduplicated. */
  method SendInvitationLetter(apptId: Uuid, email: seq<Email>, lines: seq<string>,
                              validateEmail: EmailValidator)
    returns (r: Result<InvitationRequest, IoError>)
    ensures email != [] ==> r.Ok?
    ensures email == [] ==>
              (r.Err? <==> exists i :: 0 <= i < |BeforeBlank(lines)| && !validateEmail(BeforeBlank(lines)[i]))
    ensures r.Err? ==> r.error == InvalidData(PARSE_EMAIL_FAILURE)
    ensures r.Ok? ==>
              && r.value.appointmentId == apptId
              && r.value.params == InvitationParams(None)
              && r.value.body.email.Some?
              && StrictlyIncreasing(r.value.body.email.value, EmailLess)
              && (email != [] ==> forall e :: e in r.value.body.email.value <==> e in email)
              && (email == [] ==> forall e :: e in r.value.body.email.value <==>
                                    e.inner in BeforeBlank(lines))
  {
    var emailList := email;
    if email == [] {
      var read := ReadEmails(lines, validateEmail);
      if read.Err? {
        return Err(read.error);
      }
      emailList := read.value;
      forall e ensures e in emailList <==> e.inner in BeforeBlank(lines) {
        if e.inner in BeforeBlank(lines) {
          var i :| 0 <= i < |BeforeBlank(lines)| && BeforeBlank(lines)[i] == e.inner;
          assert emailList[i] == e;
        }
      }
    }
    EmailOrder();
    var sorted := SortDedup(emailList, EmailLess);
    r := Ok(InvitationRequest(apptId, InvitationParams(None), SendAppointmentEmails(Some(sorted))));
  }

  /** The server makes one invitation per distinct email of the request. */
  lemma BatchIsOnePerDistinctEmail(emails: seq<Email>, sorted: seq<Email>)
    requires StrictlyIncreasing(sorted, EmailLess)
    requires forall e :: e in sorted <==> e in emails
    requires |set e | e in emails| < 0x8000_0000
    ensures AppointmentRoutes.BatchSize(InvitationParams(None), SendAppointmentEmails(Some(sorted))) as int
              == |set e | e in emails|
  {
    EmailOrder();
    StrictlyIncreasingCount(sorted, EmailLess);
    assert (set e | e in sorted) == (set e | e in emails);
  }

  /** The request does not depend on the order or the repetitions of the emails given. */
  lemma RequestIgnoresOrder(a: seq<Email>, b: seq<Email>, ra: seq<Email>, rb: seq<Email>)
    requires StrictlyIncreasing(ra, EmailLess) && (forall e :: e in ra <==> e in a)
    requires StrictlyIncreasing(rb, EmailLess) && (forall e :: e in rb <==> e in b)
    requires forall e :: e in a <==> e in b
    ensures ra == rb
  {
    EmailOrder();
    StrictlyIncreasingUnique(ra, rb, EmailLess);
  }
}
