/** `shared::domain::Uri`: a string accepted as an absolute http(s) URL. */
module Uris {
  import opened Wrappers
  import opened Text

  /** `url::Url`, known here only by its serialization. */
  datatype Url = Url(href: string)

  /** `url::Url::parse`. The WHATWG parser is not part of this model: every
      operation that needs it takes it as a parameter. */
  type UrlParser = string -> Option<Url>

  /** `validator::validate_url`, which accepts exactly what `Url::parse` accepts. */
  predicate ValidateUrl(s: string, parseUrl: UrlParser) {
    parseUrl(s).Some?
  }

  /** The newtype; its field is private, so outside `Parse` no `Uri` is built. */
  datatype Uri = Uri(inner: string)

  predicate HasHttpScheme(s: string) {
    StartsWith(s, "http://") || StartsWith(s, "https://")
  }

  /** `Uri::parse` */
  function Parse(s: string, parseUrl: UrlParser): (r: Result<Uri, string>)
    ensures r.Ok? ==> r.value.inner == s
  {
    if ValidateUrl(s, parseUrl) && HasHttpScheme(s) then Ok(Uri(s))
    else Err(s + " is not a valid URI.")
  }

  /** A `Uri` that `parse` would produce from its own text. */
  predicate Valid(u: Uri, parseUrl: UrlParser) {
    Parse(u.inner, parseUrl).Ok?
  }

  /** `parse` accepts exactly the strings that pass the validator and start with a
      http(s) scheme; it keeps the string as it is, and its error names the input. */
  lemma ParseSpec(s: string, parseUrl: UrlParser)
    ensures Parse(s, parseUrl).Ok? <==> ValidateUrl(s, parseUrl) && HasHttpScheme(s)
    ensures Parse(s, parseUrl).Ok? ==> Parse(s, parseUrl).value == Uri(s)
    ensures Parse(s, parseUrl).Err? ==> Parse(s, parseUrl).error == s + " is not a valid URI."
  {
  }

  /** The empty string and a misspelt scheme fail on the prefix alone, whatever the validator says. */
  lemma ParseRejectsWithoutScheme(parseUrl: UrlParser)
    ensures Parse("", parseUrl).Err?
    ensures Parse("htp://www.example.com", parseUrl).Err?
  {
    var s := "htp://www.example.com";
    assert s[2] == 'p' && "http://"[2] == 't' && "https://"[2] == 't';
    assert s[..7][2] == s[2] && s[..8][2] == s[2];
  }

  /** "https://" has the scheme but no host: it is rejected as soon as the URL
      parser rejects it, which the `url` crate does. */
  lemma ParseRejectsMissingDomain(parseUrl: UrlParser)
    requires parseUrl("https://").None?
    ensures Parse("https://", parseUrl).Err?
  {
  }

  /** `into_inner` */
  function IntoInner(u: Uri): string { u.inner }

  /** `AsRef<str>` */
  function AsRef(u: Uri): string { u.inner }

  /** `Display` */
  function ToString(u: Uri): string { u.inner }

  /** The three views of a parsed `Uri` all give back exactly the parsed input. */
  lemma ViewsGiveParsedInput(s: string, parseUrl: UrlParser)
    requires Parse(s, parseUrl).Ok?
    ensures IntoInner(Parse(s, parseUrl).value) == s
    ensures AsRef(Parse(s, parseUrl).value) == s
    ensures ToString(Parse(s, parseUrl).value) == s
  {
  }

  /** `Serialize`: the inner string as a JSON string. */
  function Serialize(u: Uri): string { u.inner }

  /** `Deserialize`: a JSON string, checked with `parse`; the parse error becomes the serde error. */
  function Deserialize(json: string, parseUrl: UrlParser): Result<Uri, string> {
    Parse(json, parseUrl)
  }

  /** Serializing a valid `Uri` and reading it back gives the same `Uri`. */
  lemma SerdeRoundTrip(u: Uri, parseUrl: UrlParser)
    requires Valid(u, parseUrl)
    ensures Deserialize(Serialize(u), parseUrl) == Ok(u)
  {
  }

  /** `FromStr` */
  function FromStr(s: string, parseUrl: UrlParser): Result<Uri, string> {
    Parse(s, parseUrl)
  }

  /** `From<String>`: `parse(..).expect(..)`, so it may only be given what `parse` accepts. */
  function FromString(s: string, parseUrl: UrlParser): (u: Uri)
    requires Parse(s, parseUrl).Ok?
    ensures Valid(u, parseUrl) && u.inner == s
  {
    Parse(s, parseUrl).value
  }

  /** `from_str` agrees with `parse` on every input, and `from` succeeds on a string
      exactly when `from_str` does, with the same `Uri`. */
  lemma ConversionsAgree(s: string, parseUrl: UrlParser)
    ensures FromStr(s, parseUrl) == Parse(s, parseUrl)
    ensures Parse(s, parseUrl).Ok? ==> FromString(s, parseUrl) == FromStr(s, parseUrl).value
  {
  }
}
