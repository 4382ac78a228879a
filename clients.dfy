/** The outside services the handlers call, as inputs: the URL shortener, the QR
    renderer (`shared::qr_client`) and the mailer, plus the HTML templates. */
module Clients {
  import opened Wrappers
  import opened Ids
  import opened Uris
  import opened Text
  import opened Domain
  import opened Errors

  /** `get_short_url`: posts the long URL and returns the short one from the reply,
      or fails (network, status or JSON errors). */
  type Shortener = string -> Option<Uri>

  /** The reply's `short_url` is deserialized through `Uri::parse`, so every short URL
      the shortener hands back is one `parse` accepts. */
  ghost predicate ReturnsParsedUris(shorten: Shortener, parseUrl: UrlParser) {
    forall text :: shorten(text).Some? ==> Valid(shorten(text).value, parseUrl)
  }

  /** The long URL sent to the shortener for one token: `{base_url}/{token}`. */
  function LongUrl(baseUrl: Uri, token: string): string {
    ToString(baseUrl) + "/" + token
  }

  /** What the `qrcode`, `image` and `base64` crates make of one URL. */
  datatype QrImage =
    | Image(base64: string)      // the PNG, base64-encoded
    | EncodeError(detail: string) // writing the PNG failed
    | DataTooLong                 // the URL does not fit in a QR code

  type QrRenderer = Uri -> QrImage

  /** `generate_qr_code_base64`: `QrCode::new(..).unwrap()` panics when the data is too
      long; a PNG encoding error is returned through `?` as an anyhow error. */
  function QrCodeBase64(render: QrRenderer, shortUrl: Uri): (r: Reply<string>)
    ensures r.Done? <==> render(shortUrl).Image?
    ensures r.Done? ==> r.value == render(shortUrl).base64
    ensures r.Failed? <==> render(shortUrl).EncodeError?
    ensures r.Failed? ==> r.error == Anyhow(render(shortUrl).detail)
    ensures r.Panicked? ==> r.reason == UNWRAP_ERR
  {
    match render(shortUrl)
    case Image(b) => Done(b)
    case EncodeError(d) => Failed(Anyhow(d))
    case DataTooLong => Panicked(UNWRAP_ERR)
  }

  /** The placeholder both templates carry for the image. */
  const IMAGE_PLACEHOLDER := "{IMAGE_STRING}"

  /** `template.replace("{IMAGE_STRING}", image)` */
  function FillTemplate(template: string, image: string): string {
    Replace(template, IMAGE_PLACEHOLDER, image)
  }

  /** A template holding the placeholder once, with it nowhere else, gets the image in
      its place and is otherwise kept. */
  lemma OnePlaceholderFilled(before: string, after: string, image: string)
    requires forall i: nat :: i < |before| ==> !OccursAt(before + IMAGE_PLACEHOLDER + after, IMAGE_PLACEHOLDER, i)
    requires forall i: nat :: !OccursAt(after, IMAGE_PLACEHOLDER, i)
    ensures FillTemplate(before + IMAGE_PLACEHOLDER + after, image) == before + image + after
  {
    ReplaceFirst(before, IMAGE_PLACEHOLDER, after, image);
    ReplaceAbsent(after, IMAGE_PLACEHOLDER, image);
  }

  /** A template without the placeholder is sent as it is. */
  lemma NoPlaceholderUnchanged(template: string, image: string)
    requires forall i: nat :: !OccursAt(template, IMAGE_PLACEHOLDER, i)
    ensures FillTemplate(template, image) == template
  {
    ReplaceAbsent(template, IMAGE_PLACEHOLDER, image);
  }

  /** Where `generate_qr_code` saves the image of one invitation:
      `{base_image_path}/{appointment id}/{invitation id}.png`. */
  function QrFilePath(basePath: string, apptId: Uuid, invitationId: Uuid): string {
    basePath + "/" + Hyphenated(apptId) + "/" + Hyphenated(invitationId) + ".png"
  }

  /** Under one base directory, no two invitations share an image file. */
  lemma QrFilePathInjective(basePath: string, a1: Uuid, i1: Uuid, a2: Uuid, i2: Uuid)
    requires QrFilePath(basePath, a1, i1) == QrFilePath(basePath, a2, i2)
    ensures a1 == a2 && i1 == i2
  {
    var p1, p2 := QrFilePath(basePath, a1, i1), QrFilePath(basePath, a2, i2);
    var n := |basePath| + 1;
    assert p1[n..n + 36] == Hyphenated(a1);
    assert p2[n..n + 36] == Hyphenated(a2);
    assert p1[n + 37..n + 73] == Hyphenated(i1);
    assert p2[n + 37..n + 73] == Hyphenated(i2);
    HyphenatedInjective(a1, a2);
    HyphenatedInjective(i1, i2);
  }

  /** Creating the directory, encoding the QR code and saving the PNG at a path, done by
      `tokio::fs`, `qrcode` and `image`: an error text, or nothing on success. */
  type QrFileWriter = (string, Uri) -> Option<string>

  /** `generate_qr_code`: the path of the saved image, or the first error on the way. */
  function GenerateQrCode(write: QrFileWriter, basePath: string, shortUrl: Uri,
                          apptId: Uuid, invitationId: Uuid): (r: Result<string, string>)
    ensures r.Ok? <==> write(QrFilePath(basePath, apptId, invitationId), shortUrl).None?
    ensures r.Ok? ==> r.value == QrFilePath(basePath, apptId, invitationId)
  {
    var path := QrFilePath(basePath, apptId, invitationId);
    match write(path, shortUrl)
    case None => Ok(path)
    case Some(e) => Err(e)
  }

  /** One message handed to the mail client (`send_email(to, subject, html, plain)`). */
  datatype Mail = Mail(to: Email, subject: string, html: string, plain: string)

  const INVITATION_SUBJECT := "You invitation"
  const INVITATION_PLAIN := "Hello dear customer."
}
