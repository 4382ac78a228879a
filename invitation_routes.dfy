/** The invitation handlers of the web server (`web_server::routes::invitation`):
    an invitation as JSON and as a page with its QR code. Neither handler writes. */
module InvitationRoutes {
  import opened Wrappers
  import opened Ids
  import opened Uris
  import opened Domain
  import opened Errors
  import opened Store
  import opened Clients

  const OK := 200

  /** A successful HTML response. */
  datatype Page = Page(status: int, contentType: string, body: string)

  /** `get_stored_invitations` of the routes module: the same query as the repository's,
      with the results pushed one by one. */
  method GetStoredInvitations(db: Database, filter: Option<Uuid>, parseUrl: UrlParser)
    returns (result: seq<Invitation>)
    requires ShortUrlsParse(Where(db.invitations, InvitationKey, filter), parseUrl)
    ensures result == db.StoredInvitations(filter, parseUrl)
  {
    var records := Where(db.invitations, InvitationKey, filter);
    result := [];
    for i := 0 to |records|
      invariant |result| == i
      invariant forall k :: 0 <= k < i ==> result[k] == InvitationFromDb(records[k], parseUrl)
    {
      result := result + [InvitationFromDb(records[i], parseUrl)];
    }
  }

  /** `get_invitation_by_id`: the first invitation with that id, or JSON `null` (status
      200, not an error) when there is none. */
  method GetInvitationById(db: Database, id: Uuid, parseUrl: UrlParser) returns (r: Option<Invitation>)
    requires ShortUrlsParse(Where(db.invitations, InvitationKey, Some(id)), parseUrl)
    ensures r.None? <==> FirstIndex(db.invitations, InvitationKey, id).None?
    ensures r.Some? ==> var k := FirstIndex(db.invitations, InvitationKey, id).value;
                        && ShortUrlParses(db.invitations[k], parseUrl)
                        && r.value == InvitationFromDb(db.invitations[k], parseUrl)
  {
    var found := GetStoredInvitations(db, Some(id), parseUrl);
    FirstMatchFound(db, id, parseUrl);
    if |found| == 0 {
      return None;
    }
    r := Some(found[0]);
  }

  /** The first row of the filtered lookup is the first stored row with that id. */
  lemma FirstMatchFound(db: Database, id: Uuid, parseUrl: UrlParser)
    requires ShortUrlsParse(Where(db.invitations, InvitationKey, Some(id)), parseUrl)
    ensures (|db.StoredInvitations(Some(id), parseUrl)| == 0) <==> FirstIndex(db.invitations, InvitationKey, id).None?
    ensures FirstIndex(db.invitations, InvitationKey, id).Some? ==>
              var k := FirstIndex(db.invitations, InvitationKey, id).value;
              && Where(db.invitations, InvitationKey, Some(id))[0] == db.invitations[k]
              && ShortUrlParses(db.invitations[k], parseUrl)
              && db.StoredInvitations(Some(id), parseUrl)[0] == InvitationFromDb(db.invitations[k], parseUrl)
  {
    if FirstIndex(db.invitations, InvitationKey, id).Some? {
      WhereFirst(db.invitations, InvitationKey, id);
    } else {
      WhereAbsent(db.invitations, InvitationKey, id);
    }
  }

  /** `get_invitation_qr`: 404 when no invitation has that id; otherwise the QR code of the
      first one's short URL, put in place of every `{IMAGE_STRING}` of `templates/qr.html`. */
  method GetInvitationQr(db: Database, id: Uuid, parseUrl: UrlParser, render: QrRenderer, template: string)
    returns (r: Reply<Page>)
    requires ShortUrlsParse(Where(db.invitations, InvitationKey, Some(id)), parseUrl)
    ensures FirstIndex(db.invitations, InvitationKey, id).None? ==>
              r == Failed(NotFound("Not found for " + Hyphenated(id)))
    ensures FirstIndex(db.invitations, InvitationKey, id).Some? ==>
              var shortUrl := Uri(db.invitations[FirstIndex(db.invitations, InvitationKey, id).value].shortUrl);
              match QrCodeBase64(render, shortUrl)
              case Done(image) => r == Done(Page(OK, HTML_CONTENT_TYPE, FillTemplate(template, image)))
              case Failed(e) => r == Failed(e)
              case Panicked(why) => r == Panicked(why)
  {
    var response := GetStoredInvitations(db, Some(id), parseUrl);
    FirstMatchFound(db, id, parseUrl);
    if |response| == 0 {
      return Failed(NotFound("Not found for " + Hyphenated(id)));
    }
    var invitation := response[0];
    var image := QrCodeBase64(render, invitation.shortUrl);
    match image
    case Done(b64) => r := Done(Page(OK, HTML_CONTENT_TYPE, FillTemplate(template, b64)));
    case Failed(e) => r := Failed(e);
    case Panicked(why) => r := Panicked(why);
  }
}
