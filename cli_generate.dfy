/** `tickets_cli appointment generate`: ask the server for a batch of invitations without
    emails, then save one QR image per invitation, stopping at the first failure. */
module GenerateCommand {
  import opened Wrappers
  import opened Ints
  import opened Ids
  import opened Domain
  import opened Clients
  import AppointmentRoutes

  /** `fetch_invitations`' request and reply (network, status and JSON errors as a text). */
  type InvitationFetcher = InvitationRequest -> Result<seq<NewInvitation>, string>

  const CONFIGURATION_FAILURE := "Failed to get configuration: "

  /** `count.unwrap_or(1)` */
  function CountOrDefault(count: Option<I32>): (k: I32)
    ensures count.None? ==> k == 1
    ensures count.Some? ==> k == count.value
  {
    count.GetOr(1)
  }

  /** The request `fetch_invitations` posts: `?count={count}` and `{"email": null}`. */
  function FetchRequest(apptId: Uuid, count: I32): (req: InvitationRequest)
    ensures req.appointmentId == apptId && req.body.email.None?
  {
    InvitationRequest(apptId, InvitationParams(Some(count)), SendAppointmentEmails(None))
  }

  /** The server makes as many invitations as the command asks for, one when it names no
      count (and none for a count below one). */
  lemma ServerMakesCount(apptId: Uuid, count: Option<I32>)
    ensures var req := FetchRequest(apptId, CountOrDefault(count));
            && AppointmentRoutes.BatchSize(req.params, req.body) == CountOrDefault(count)
            && AppointmentRoutes.Entries(AppointmentRoutes.BatchSize(req.params, req.body))
                 == if count.None? then 1 else if count.value < 0 then 0 else count.value as int
  {
  }

  /** The image path of each invitation, in order. */
  function QrFilePaths(invitations: seq<NewInvitation>, basePath: string): (paths: seq<string>)
    ensures |paths| == |invitations|
    ensures forall i :: 0 <= i < |invitations| ==>
              paths[i] == QrFilePath(basePath, invitations[i].appointmentId, invitations[i].id)
  {
    seq(|invitations|, i requires 0 <= i < |invitations| =>
      QrFilePath(basePath, invitations[i].appointmentId, invitations[i].id))
  }

  predicate QrFails(inv: NewInvitation, basePath: string, write: QrFileWriter) {
    GenerateQrCode(write, basePath, inv.shortUrl, inv.appointmentId, inv.id).Err?
  }

  /** The position of the first invitation whose image cannot be saved. */
  function FirstQrFailure(invitations: seq<NewInvitation>, basePath: string, write: QrFileWriter)
    : (r: Option<nat>)
    ensures r.None? <==> forall i :: 0 <= i < |invitations| ==> !QrFails(invitations[i], basePath, write)
    ensures r.Some? ==> r.value < |invitations| && QrFails(invitations[r.value], basePath, write)
                        && forall i :: 0 <= i < r.value ==> !QrFails(invitations[i], basePath, write)
  {
    if invitations == [] then None
    else if QrFails(invitations[0], basePath, write) then Some(0)
    else match FirstQrFailure(invitations[1..], basePath, write)
      case None => None
      case Some(k) => Some(k + 1)
  }

  /** `generate_qr_codes_for_invitations`: images are saved one after the other, and
      the first error ends the loop. `attempted` lists the paths the loop got to. */
  method GenerateQrCodes(invitations: seq<NewInvitation>, basePath: string, write: QrFileWriter)
    returns (r: Result<seq<string>, string>, attempted: seq<string>)
    ensures match FirstQrFailure(invitations, basePath, write)
            case None => r == Ok(QrFilePaths(invitations, basePath)) && attempted == r.value
            case Some(k) =>
              && attempted == QrFilePaths(invitations[..k + 1], basePath)
              && r.Err?
              && Some(r.error) == write(attempted[k], invitations[k].shortUrl)
  {
    var results: seq<string> := [];
    attempted := [];
    for i := 0 to |invitations|
      invariant results == attempted == QrFilePaths(invitations[..i], basePath)
      invariant forall j :: 0 <= j < i ==> !QrFails(invitations[j], basePath, write)
    {
      var inv := invitations[i];
      QrFilePathsSnoc(invitations, basePath, i);
      attempted := attempted + [QrFilePath(basePath, inv.appointmentId, inv.id)];
      var result := GenerateQrCode(write, basePath, inv.shortUrl, inv.appointmentId, inv.id);
      if result.Err? {
        FirstFailureAt(invitations, basePath, write, i);
        return Err(result.error), attempted;
      }
      results := results + [result.value];
    }
    assert invitations[..|invitations|] == invitations;
    r := Ok(results);
  }

  lemma QrFilePathsSnoc(invitations: seq<NewInvitation>, basePath: string, i: nat)
    requires i < |invitations|
    ensures QrFilePaths(invitations[..i + 1], basePath)
            == QrFilePaths(invitations[..i], basePath)
               + [QrFilePath(basePath, invitations[i].appointmentId, invitations[i].id)]
  {
    var a, b := QrFilePaths(invitations[..i + 1], basePath), QrFilePaths(invitations[..i], basePath);
    assert forall j :: 0 <= j < i ==> a[j] == b[j];
  }

  /** The first failure is where the loop meets it. */
  lemma {:induction false} FirstFailureAt(invitations: seq<NewInvitation>, basePath: string,
                                          write: QrFileWriter, k: nat)
    requires k < |invitations| && QrFails(invitations[k], basePath, write)
    requires forall j :: 0 <= j < k ==> !QrFails(invitations[j], basePath, write)
    ensures FirstQrFailure(invitations, basePath, write) == Some(k)
    decreases k
  {
    if k > 0 {
      var tail := invitations[1..];
      forall j | 0 <= j < k - 1 ensures !QrFails(tail[j], basePath, write) {
        assert tail[j] == invitations[j + 1];
      }
      FirstFailureAt(tail, basePath, write, k - 1);
    }
  }

  /** `generate_invitation_handler`: configuration, then the request, then the images.
      Returns the saved paths, the request posted (if any) and the paths attempted. */
  method GenerateInvitation(apptId: Uuid, count: Option<I32>, configFault: Option<string>,
                            fetch: InvitationFetcher, basePath: string, write: QrFileWriter)
    returns (r: Result<seq<string>, string>, posted: Option<InvitationRequest>, attempted: seq<string>)
    ensures configFault.Some? ==>
              r == Err(CONFIGURATION_FAILURE + configFault.value) && posted.None? && attempted == []
    ensures configFault.None? ==> posted == Some(FetchRequest(apptId, CountOrDefault(count)))
    ensures configFault.None? && fetch(posted.value).Err? ==>
              r == Err(fetch(posted.value).error) && attempted == []
    ensures configFault.None? && fetch(posted.value).Ok? ==>
              var invitations := fetch(posted.value).value;
              match FirstQrFailure(invitations, basePath, write)
              case None => r == Ok(QrFilePaths(invitations, basePath)) && attempted == r.value
              case Some(k) =>
                && attempted == QrFilePaths(invitations[..k + 1], basePath)
                && r.Err?
                && Some(r.error) == write(attempted[k], invitations[k].shortUrl)
  {
    if configFault.Some? {
      return Err(CONFIGURATION_FAILURE + configFault.value), None, [];
    }
    var k := CountOrDefault(count);
    var request := FetchRequest(apptId, k);
    posted := Some(request);
    var invitations := fetch(request);
    if invitations.Err? {
      return Err(invitations.error), posted, [];
    }
    r, attempted := GenerateQrCodes(invitations.value, basePath, write);
  }
}
