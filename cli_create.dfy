/** `tickets_cli appointment create`: the prompts that assemble a `NewAppointment` from the
    lines typed on standard input. Each prompt is a retry loop around one decision on the
    trimmed line; the decisions are pure and the loops run on `Console.Stdin`. */
module CreateCommand {
  import opened Wrappers
  import opened Ints
  import opened Text
  import opened Chrono
  import opened Uris
  import opened Domain
  import opened Console

  /** The panic of `value * 60` in a debug build when the product leaves `u64`. */
  const MULTIPLY_OVERFLOW := "attempt to multiply with overflow"

  /** What reading a new appointment ends in: the appointment, a prompt that never gets an
      answer because input ended, or the overflow panic of the duration prompt. */
  datatype Creation = Created(appointment: NewAppointment) | Stalled | Panicked(reason: string)

  /** `read_non_empty_input`: any non-empty line. */
  function DecideNonEmpty(line: string): (r: Option<string>)
    ensures r.Some? <==> line != ""
    ensures r.Some? ==> r.value == line
  {
    if line != "" then Some(line) else None
  }

  /** `read_appointment_format`: the digit of the choice, nothing else. */
  function DecideFormat(line: string): (r: Option<AppointmentFormat>)
  {
    if line == "0" then Some(ONLINE)
    else if line == "1" then Some(OFFLINE)
    else None
  }

  /** The format prompt accepts exactly "0" (ONLINE) and "1" (OFFLINE); the words its
      message offers are asked again. */
  lemma FormatChoices(line: string)
    ensures DecideFormat(line).Some? <==> line == "0" || line == "1"
    ensures DecideFormat(line) == Some(ONLINE) <==> line == "0"
    ensures DecideFormat(line) == Some(OFFLINE) <==> line == "1"
    ensures DecideFormat("online") == None && DecideFormat("offline") == None
  {
  }

  /** `read_optional_address` for an OFFLINE appointment: "none" asks again, any other
      line, the empty one included, is the address. */
  function DecideAddress(line: string): (r: Option<string>)
    ensures r.None? <==> line == "none"
    ensures r.Some? ==> r.value == line
  {
    if line == "none" then None else Some(line)
  }

  /** `read_uri_input` for an ONLINE appointment: "none" (after trimming once more) is no
      link, a line `Url::parse` accepts is the link, and anything else asks again. */
  function DecideUri(line: string, parseUrl: UrlParser): Option<Option<Url>> {
    if Trim(line) == "none" then Some(None)
    else if parseUrl(line).Some? then Some(Some(parseUrl(line).value))
    else None
  }

  function UriDecision(parseUrl: UrlParser): Decision<Option<Url>> {
    line => DecideUri(line, parseUrl)
  }

  /** The URI prompt sees lines `read_line` has already trimmed, so its second `trim` changes
      nothing: "none" means no link, and otherwise the line's own parse decides. */
  lemma UriDecisionOnReadLine(raw: string, parseUrl: UrlParser)
    ensures var line := Trim(raw);
            && (line == "none" ==> DecideUri(line, parseUrl) == Some(None))
            && (line != "none" && parseUrl(line).Some? ==>
                  DecideUri(line, parseUrl) == Some(Some(parseUrl(line).value)))
            && (line != "none" && parseUrl(line).None? ==> DecideUri(line, parseUrl) == None)
  {
    TrimIdempotent(raw);
  }

  /** `read_datetime_input`: a `yyyy/mm/dd hh:mm` reading wins; otherwise an RFC 3339 reading
      converted to UTC; otherwise ask again. Both chrono parsers are parameters. */
  function DecideDate(line: string, parseLocal: string -> Option<NaiveDateTime>,
                      parseRfc3339: string -> Option<NaiveDateTime>): (r: Option<NaiveDateTime>)
    ensures r.Some? <==> parseLocal(line).Some? || parseRfc3339(line).Some?
    ensures parseLocal(line).Some? ==> r == parseLocal(line)
    ensures parseLocal(line).None? ==> r == parseRfc3339(line)
  {
    if parseLocal(line).Some? then parseLocal(line) else parseRfc3339(line)
  }

  function DateDecision(parseLocal: string -> Option<NaiveDateTime>,
                        parseRfc3339: string -> Option<NaiveDateTime>): Decision<NaiveDateTime> {
    line => DecideDate(line, parseLocal, parseRfc3339)
  }

  predicate IsDigit(c: char) { '0' <= c <= '9' }

  predicate AllDigits(s: string) {
    forall i :: 0 <= i < |s| ==> IsDigit(s[i])
  }

  /** The number a string of decimal digits denotes. */
  function DigitsValue(s: string): nat
    requires AllDigits(s)
  {
    if s == [] then 0 else DigitsValue(s[..|s| - 1]) * 10 + (s[|s| - 1] as int - '0' as int)
  }

  /** `str::parse::<u64>`: an optional `+`, then at least one decimal digit, for a value
      below 2^64. */
  function ParseU64(s: string): (r: Option<U64>)
    ensures r.Some? ==> s != [] && s != "+"
  {
    var digits := if s != [] && s[0] == '+' then s[1..] else s;
    if digits == [] || !AllDigits(digits) || DigitsValue(digits) >= TWO_64 then None
    else Some(DigitsValue(digits) as U64)
  }

  /** The shortest decimal rendering of `n`, as `u64::to_string` writes it. */
  function Decimal(n: nat): (r: string)
    ensures r != [] && AllDigits(r)
    decreases n
  {
    if n < 10 then [('0' as int + n) as char] else Decimal(n / 10) + [('0' as int + n % 10) as char]
  }

  lemma {:induction false} DecimalValue(n: nat)
    ensures DigitsValue(Decimal(n)) == n
    decreases n
  {
    if n >= 10 {
      var s := Decimal(n);
      DecimalValue(n / 10);
      assert s[..|s| - 1] == Decimal(n / 10);
    }
  }

  /** Every `u64` written in decimal, with or without a `+`, parses back to itself; the
      empty line, a lone sign and a negative number do not parse. */
  lemma ParseU64OfDecimal(n: U64)
    ensures ParseU64(Decimal(n as nat)) == Some(n)
    ensures ParseU64("+" + Decimal(n as nat)) == Some(n)
    ensures ParseU64("") == None && ParseU64("+") == None
    ensures ParseU64("-" + Decimal(n as nat)) == None
  {
    var d := Decimal(n as nat);
    DecimalValue(n as nat);
    assert ("+" + d)[1..] == d;
    assert !IsDigit(("-" + d)[0]);
  }

  /** `Duration::from_secs(value * 60)`, or the debug-build overflow panic. */
  function MinutesToDuration(minutes: U64): (r: Option<Duration>)
    ensures r.Some? <==> minutes as int * 60 < TWO_64
    ensures r.Some? ==> r.value.secs as int == minutes as int * 60 && r.value.subsecNanos == 0
  {
    if minutes as int * 60 < TWO_64 then Some(FromSecs((minutes as int * 60) as U64)) else None
  }

  /** The address prompt: nothing is read for an ONLINE appointment. */
  function AskAddress(lines: seq<string>, format: AppointmentFormat): (r: Asked<(Option<string>, nat)>)
    ensures r.Answer? ==> r.value.1 <= |lines|
    ensures format == ONLINE ==> r == Answer((None, 0))
    ensures format == OFFLINE && r.Answer? ==> r.value.0.Some?
  {
    match format
    case ONLINE => Answer((None, 0))
    case OFFLINE =>
      match Ask(lines, DecideAddress)
      case NeverAnswered => NeverAnswered
      case Answer((a, k)) => Answer((Some(a), k))
  }

  /** The URI prompt: nothing is read for an OFFLINE appointment. */
  function AskUri(lines: seq<string>, format: AppointmentFormat, parseUrl: UrlParser)
    : (r: Asked<(Option<Url>, nat)>)
    ensures r.Answer? ==> r.value.1 <= |lines|
    ensures format == OFFLINE ==> r == Answer((None, 0))
  {
    match format
    case OFFLINE => Answer((None, 0))
    case ONLINE => Ask(lines, UriDecision(parseUrl))
  }

  /** From the answer to the date prompt on: the duration prompt and the assembly. */
  function AssembleFrom(lines: seq<string>, title: string, description: string,
                        format: AppointmentFormat, address: Option<string>, link: Option<Url>,
                        date: NaiveDateTime): (c: Creation)
    ensures c.Created? ==>
              && c.appointment == NewAppointment(title, description, format, address, link, date,
                                                 c.appointment.duration)
              && c.appointment.duration.secs as int % 60 == 0
              && c.appointment.duration.subsecNanos == 0
  {
    match Ask(lines, ParseU64)
    case NeverAnswered => Stalled
    case Answer((minutes, _)) =>
      match MinutesToDuration(minutes)
      case None => Panicked(MULTIPLY_OVERFLOW)
      case Some(duration) =>
        Created(NewAppointment(title, description, format, address, link, date, duration))
  }

  /** `read_new_appointment_from_stdin` on the given input: title, description, format,
      address, URI, start date and duration, each prompt reading where the last stopped. */
  function AppointmentFromInput(lines: seq<string>, parseUrl: UrlParser,
                                parseLocal: string -> Option<NaiveDateTime>,
                                parseRfc3339: string -> Option<NaiveDateTime>): Creation
  {
    match Ask(lines, DecideNonEmpty)
    case NeverAnswered => Stalled
    case Answer((title, n1)) =>
      var l1 := lines[n1..];
      match Ask(l1, DecideNonEmpty)
      case NeverAnswered => Stalled
      case Answer((description, n2)) =>
        var l2 := l1[n2..];
        match Ask(l2, DecideFormat)
        case NeverAnswered => Stalled
        case Answer((format, n3)) =>
          var l3 := l2[n3..];
          match AskAddress(l3, format)
          case NeverAnswered => Stalled
          case Answer((address, n4)) =>
            var l4 := l3[n4..];
            match AskUri(l4, format, parseUrl)
            case NeverAnswered => Stalled
            case Answer((link, n5)) =>
              var l5 := l4[n5..];
              match Ask(l5, DateDecision(parseLocal, parseRfc3339))
              case NeverAnswered => Stalled
              case Answer((date, n6)) =>
                AssembleFrom(l5[n6..], title, description, format, address, link, date)
  }

  /** An assembled appointment: title and description are non-empty, an OFFLINE one has an
      address and no link, an ONLINE one has no address, and the duration is a whole number
      of minutes. */
  lemma CreatedIsConsistent(lines: seq<string>, parseUrl: UrlParser,
                            parseLocal: string -> Option<NaiveDateTime>,
                            parseRfc3339: string -> Option<NaiveDateTime>)
    ensures var c := AppointmentFromInput(lines, parseUrl, parseLocal, parseRfc3339);
            c.Created? ==>
              && c.appointment.title != "" && c.appointment.description != ""
              && (c.appointment.format == OFFLINE ==>
                    c.appointment.link.None? && c.appointment.address.Some?)
              && (c.appointment.format == ONLINE ==> c.appointment.address.None?)
              && c.appointment.duration.secs as int % 60 == 0
              && c.appointment.duration.subsecNanos == 0
  {
    AskTakesFirstAccepted(lines, DecideNonEmpty);
    match Ask(lines, DecideNonEmpty)
    case NeverAnswered =>
    case Answer((title, n1)) =>
      var l1 := lines[n1..];
      AskTakesFirstAccepted(l1, DecideNonEmpty);
      match Ask(l1, DecideNonEmpty)
      case NeverAnswered =>
      case Answer((description, n2)) =>
        var l2 := l1[n2..];
        match Ask(l2, DecideFormat)
        case NeverAnswered =>
        case Answer((format, n3)) =>
          var l3 := l2[n3..];
          match AskAddress(l3, format)
          case NeverAnswered =>
          case Answer((address, n4)) =>
            var l4 := l3[n4..];
            match AskUri(l4, format, parseUrl)
            case NeverAnswered =>
            case Answer((link, n5)) =>
              var l5 := l4[n5..];
              match Ask(l5, DateDecision(parseLocal, parseRfc3339))
              case NeverAnswered =>
              case Answer((date, n6)) =>
                assert title != "" && description != "";
  }

  /** The title is the first line that is not empty once trimmed; input that has no such
      line leaves the first prompt asking forever. */
  lemma TitleIsFirstFilledLine(lines: seq<string>)
    ensures Ask(lines, DecideNonEmpty).Answer? ==>
              var (title, k) := Ask(lines, DecideNonEmpty).value;
              && 0 < k <= |lines| && title == Trim(lines[k - 1]) && title != ""
              && forall i :: 0 <= i < k - 1 ==> Trim(lines[i]) == ""
    ensures Ask(lines, DecideNonEmpty).NeverAnswered? <==>
              forall i :: 0 <= i < |lines| ==> Trim(lines[i]) == ""
  {
    AskTakesFirstAccepted(lines, DecideNonEmpty);
  }

  /** The URI prompt, guarded by the format. */
  method ReadUriInput(stdin: Stdin, format: AppointmentFormat, parseUrl: UrlParser)
    returns (r: Asked<Option<Url>>)
    modifies stdin
    ensures match AskUri(old(stdin.rest), format, parseUrl)
            case NeverAnswered => r == NeverAnswered && stdin.rest == []
            case Answer(p) => r == Answer(p.0) && stdin.rest == old(stdin.rest)[p.1..]
  {
    match format {
      case OFFLINE =>
        return Answer(None);
      case ONLINE =>
        r := stdin.Prompt(UriDecision(parseUrl));
    }
  }

  /** The address prompt, guarded by the format. */
  method ReadOptionalAddress(stdin: Stdin, format: AppointmentFormat)
    returns (r: Asked<Option<string>>)
    modifies stdin
    ensures match AskAddress(old(stdin.rest), format)
            case NeverAnswered => r == NeverAnswered && stdin.rest == []
            case Answer(p) => r == Answer(p.0) && stdin.rest == old(stdin.rest)[p.1..]
  {
    match format {
      case ONLINE =>
        return Answer(None);
      case OFFLINE =>
        var a := stdin.Prompt(DecideAddress);
        match a {
          case NeverAnswered => return NeverAnswered;
          case Answer(s) => return Answer(Some(s));
        }
    }
  }

  /** The duration prompt and the conversion that follows. */
  method ReadDurationInMinutes(stdin: Stdin) returns (r: Asked<Option<Duration>>)
    modifies stdin
    ensures match Ask(old(stdin.rest), ParseU64)
            case NeverAnswered => r == NeverAnswered
            case Answer(p) => r == Answer(MinutesToDuration(p.0))
  {
    var m := stdin.Prompt(ParseU64);
    match m {
      case NeverAnswered => return NeverAnswered;
      case Answer(minutes) => return Answer(MinutesToDuration(minutes));
    }
  }

  /** `read_new_appointment_from_stdin`. */
  method ReadNewAppointment(stdin: Stdin, parseUrl: UrlParser,
                            parseLocal: string -> Option<NaiveDateTime>,
                            parseRfc3339: string -> Option<NaiveDateTime>)
    returns (r: Creation)
    modifies stdin
    ensures r == AppointmentFromInput(old(stdin.rest), parseUrl, parseLocal, parseRfc3339)
  {
    ghost var lines := stdin.rest;
    var title := stdin.Prompt(DecideNonEmpty);
    if title.NeverAnswered? { return Stalled; }
    ghost var l1 := stdin.rest;
    var description := stdin.Prompt(DecideNonEmpty);
    if description.NeverAnswered? { return Stalled; }
    ghost var l2 := stdin.rest;
    var format := stdin.Prompt(DecideFormat);
    if format.NeverAnswered? { return Stalled; }
    ghost var l3 := stdin.rest;
    var address := ReadOptionalAddress(stdin, format.value);
    if address.NeverAnswered? { return Stalled; }
    ghost var l4 := stdin.rest;
    var link := ReadUriInput(stdin, format.value, parseUrl);
    if link.NeverAnswered? { return Stalled; }
    ghost var l5 := stdin.rest;
    var date := stdin.Prompt(DateDecision(parseLocal, parseRfc3339));
    if date.NeverAnswered? { return Stalled; }
    ghost var l6 := stdin.rest;
    var duration := ReadDurationInMinutes(stdin);
    match duration {
      case NeverAnswered => r := Stalled;
      case Answer(None) => r := Panicked(MULTIPLY_OVERFLOW);
      case Answer(Some(d)) =>
        r := Created(NewAppointment(title.value, description.value, format.value,
                                    address.value, link.value, date.value, d));
    }
  }
}
