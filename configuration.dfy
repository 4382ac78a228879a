/** `shared::configuration`: the run-time environment name, the database SSL choice
    and the client time-outs. Reading files and environment variables is not modelled. */
module Configuration {
  import opened Wrappers
  import opened Ints
  import opened Text
  import opened Chrono

  /** The possible run-time environments of the application. */
  datatype Environment = Development | Production | Local

  /** `Environment::as_str` */
  function AsStr(e: Environment): string {
    match e
    case Development => "development"
    case Production => "production"
    case Local => "local"
  }

  /** `TryFrom<String> for Environment`: the lower-cased input must name an environment. */
  function TryFromString(s: string): Result<Environment, string> {
    var lowered := ToLowercase(s);
    if lowered == "development" then Ok(Development)
    else if lowered == "production" then Ok(Production)
    else if lowered == "local" then Ok(Local)
    else Err(lowered + " is not a supported environment. Use either `development` or `production`.")
  }

  lemma AsStrIsLowercase(e: Environment)
    ensures ToLowercase(AsStr(e)) == AsStr(e)
  {
    var s := AsStr(e);
    assert forall i :: 0 <= i < |s| ==> 'a' <= s[i] <= 'z';
    ToLowercaseFixed(s);
  }

  /** Every environment survives the trip through its name. */
  lemma EnvironmentRoundTrip(e: Environment)
    ensures TryFromString(AsStr(e)) == Ok(e)
  {
    AsStrIsLowercase(e);
  }

  /** Matching ignores case: an input and its lower-cased form are read alike. */
  lemma TryFromIgnoresCase(s: string)
    ensures TryFromString(s) == TryFromString(ToLowercase(s))
  {
    ToLowercaseIdempotent(s);
  }

  /** An input is accepted exactly when its lower-cased form is the name of an environment,
      and then it is that environment; otherwise the error quotes the lower-cased input. */
  lemma TryFromSpec(s: string)
    ensures TryFromString(s).Ok? <==> exists e :: ToLowercase(s) == AsStr(e)
    ensures TryFromString(s).Ok? ==> AsStr(TryFromString(s).value) == ToLowercase(s)
    ensures TryFromString(s).Err? ==>
              TryFromString(s).error[..|ToLowercase(s)|] == ToLowercase(s)
  {
    var lowered := ToLowercase(s);
    if TryFromString(s).Ok? {
      assert lowered == AsStr(TryFromString(s).value);
    } else {
      forall e ensures lowered != AsStr(e) {
        match e
        case Development =>
        case Production =>
        case Local =>
      }
    }
  }

  // ---------------------------------------------------------------- database

  datatype PgSslMode = Disable | Allow | Prefer | Require | VerifyCa | VerifyFull

  datatype DatabaseSettings = DatabaseSettings(
    username: string, password: string, port: int, host: string,
    databaseName: string, requireSsl: bool)

  /** The connection options the source builds; `database` is set only by `connection_options_with_db`. */
  datatype PgConnectOptions = PgConnectOptions(
    host: string, username: string, password: string, port: int,
    sslMode: PgSslMode, database: Option<string>)

  /** `DatabaseSettings::connection_options_base` */
  function ConnectionOptionsBase(s: DatabaseSettings): (o: PgConnectOptions)
    ensures o.host == s.host && o.username == s.username
    ensures o.password == s.password && o.port == s.port && o.database.None?
    ensures o.sslMode == Require <==> s.requireSsl
    ensures o.sslMode == Prefer <==> !s.requireSsl
  {
    var sslMode := if s.requireSsl then Require else Prefer;
    PgConnectOptions(s.host, s.username, s.password, s.port, sslMode, None)
  }

  /** `DatabaseSettings::connection_options_with_db` */
  function ConnectionOptionsWithDb(s: DatabaseSettings): (o: PgConnectOptions)
    ensures o.database == Some(s.databaseName)
    ensures o.(database := None) == ConnectionOptionsBase(s)
  {
    ConnectionOptionsBase(s).(database := Some(s.databaseName))
  }

  // ---------------------------------------------------------------- clients

  datatype QRClientSettings = QRClientSettings(
    apiUrl: string, apiKey: string, baseUrl: string, baseImagePath: string,
    timeoutMilliseconds: U64)

  datatype EmailClientSettings = EmailClientSettings(
    baseUrl: string, senderEmail: string, authorizationToken: string,
    timeoutMilliseconds: U64)

  /** `QRClientSettings::timeout` */
  function QrTimeout(s: QRClientSettings): Duration {
    FromMillis(s.timeoutMilliseconds)
  }

  /** `EmailClientSettings::timeout` */
  function EmailTimeout(s: EmailClientSettings): Duration {
    FromMillis(s.timeoutMilliseconds)
  }

  /** Both time-outs are the configured milliseconds, exactly. */
  lemma TimeoutsAreConfiguredMillis(q: QRClientSettings, m: EmailClientSettings)
    ensures QrTimeout(q).secs as int * 1000 + QrTimeout(q).subsecNanos / 1_000_000
            == q.timeoutMilliseconds as int
    ensures EmailTimeout(m).secs as int * 1000 + EmailTimeout(m).subsecNanos / 1_000_000
            == m.timeoutMilliseconds as int
  {
    FromMillisExact(q.timeoutMilliseconds);
    FromMillisExact(m.timeoutMilliseconds);
  }
}
