/** Standard input of the command-line tool, as the sequence of lines still to be read
    (without their line terminators). */
module Console {
  import opened Wrappers
  import opened Text

  /** What a prompt yields: an answer, or nothing because input has ended and the prompt
      rejects the empty line that every further read returns, so it asks forever. */
  datatype Asked<+T> = Answer(value: T) | NeverAnswered

  /** The retry decision of one prompt for one (trimmed) line: a value, or ask again. */
  type Decision<!T> = string -> Option<T>

  /** The answer a prompt gets from `lines`, and how many lines it reads for it. */
  function Ask<T>(lines: seq<string>, decide: Decision<T>): (r: Asked<(T, nat)>)
    ensures r.Answer? ==> r.value.1 <= |lines|
    decreases |lines|
  {
    if lines == [] then
      if decide("").Some? then Answer((decide("").value, 0)) else NeverAnswered
    else if decide(Trim(lines[0])).Some? then Answer((decide(Trim(lines[0])).value, 1))
    else match Ask(lines[1..], decide)
      case NeverAnswered => NeverAnswered
      case Answer(p) => Answer((p.0, p.1 + 1))
  }

  /** A prompt's answer comes from the first line it accepts, after which it stops
      reading; or, when it rejects every line, from the empty line read at the end. */
  lemma {:induction false} AskTakesFirstAccepted<T>(lines: seq<string>, decide: Decision<T>)
    ensures Ask(lines, decide).Answer? ==>
              var (v, k) := Ask(lines, decide).value;
              || (&& 0 < k <= |lines|
                  && (forall i :: 0 <= i < k - 1 ==> decide(Trim(lines[i])).None?)
                  && decide(Trim(lines[k - 1])) == Some(v))
              || (&& k == |lines|
                  && (forall i :: 0 <= i < |lines| ==> decide(Trim(lines[i])).None?)
                  && decide("") == Some(v))
    ensures Ask(lines, decide).NeverAnswered? <==>
              (forall i :: 0 <= i < |lines| ==> decide(Trim(lines[i])).None?) && decide("").None?
    decreases |lines|
  {
    if lines != [] && decide(Trim(lines[0])).None? {
      var tail := lines[1..];
      AskTakesFirstAccepted(tail, decide);
      forall i | 1 <= i < |lines| ensures lines[i] == tail[i - 1] { }
    }
  }

  class Stdin {
    /** The lines not read yet. */
    var rest: seq<string>

    constructor (lines: seq<string>)
      ensures rest == lines
    {
      rest := lines;
    }

    /** `read_line` of the creation prompts: the next line, trimmed. At the end of input
        `read_line` reads nothing, so the result is the empty string. */
    method ReadLine() returns (line: string)
      modifies this
      ensures old(rest) == [] ==> line == "" && rest == []
      ensures old(rest) != [] ==> line == Trim(old(rest)[0]) && rest == old(rest)[1..]
    {
      if rest == [] {
        return "";
      }
      line := Trim(rest[0]);
      rest := rest[1..];
    }

    /** One `loop { read_line; match … }` prompt: reads lines until `decide` accepts one.
        When input has ended and the empty line is rejected, the source loops forever; the
        model stops there and reports `NeverAnswered`. */
    method Prompt<T>(decide: Decision<T>) returns (r: Asked<T>)
      modifies this
      ensures match Ask(old(rest), decide)
              case NeverAnswered => r == NeverAnswered && rest == []
              case Answer(p) => r == Answer(p.0) && rest == old(rest)[p.1..]
    {
      ghost var lines := rest;
      ghost var read := 0;
      while true
        invariant read <= |lines| && rest == lines[read..]
        invariant forall i :: 0 <= i < read ==> decide(Trim(lines[i])).None?
        invariant Ask(lines, decide) == AskFrom(lines, read, decide)
        decreases |rest|
      {
        var atEnd := rest == [];
        var line := ReadLine();
        var d := decide(line);
        if d.Some? {
          return Answer(d.value);
        }
        if atEnd {
          return NeverAnswered;
        }
        AskStep(lines, read, decide);
        read := read + 1;
      }
    }
  }

  /** `Ask` on `lines`, for a prompt that has already rejected the first `read` lines. */
  function AskFrom<T>(lines: seq<string>, read: nat, decide: Decision<T>): Asked<(T, nat)>
    requires read <= |lines|
  {
    match Ask(lines[read..], decide)
    case NeverAnswered => NeverAnswered
    case Answer(p) => Answer((p.0, p.1 + read))
  }

  lemma AskStep<T>(lines: seq<string>, read: nat, decide: Decision<T>)
    requires read < |lines|
    requires decide(Trim(lines[read])).None?
    ensures AskFrom(lines, read, decide) == AskFrom(lines, read + 1, decide)
  {
    assert lines[read..][1..] == lines[read + 1..];
  }

  /** The kinds of `io::Error` the list readers return. */
  datatype IoError = InvalidData(message: string)

  /** The lines a list reader parses: those before the first line that is blank after
      trimming (or all of them). */
  function BeforeBlank(lines: seq<string>): (r: seq<string>)
    ensures r <= lines
    ensures forall i :: 0 <= i < |r| ==> !IsBlank(r[i])
    ensures |r| < |lines| ==> IsBlank(lines[|r|])
  {
    if lines == [] || IsBlank(lines[0]) then []
    else [lines[0]] + BeforeBlank(lines[1..])
  }

  /** `read_emails` / `read_uuids`: `for line in stdin.lines()`, stop at a blank line,
      parse each line as it is (untrimmed), and fail the whole read with `InvalidData`
      at the first line that does not parse. */
  method ReadList<T>(lines: seq<string>, parse: string -> Option<T>, message: string)
    returns (r: Result<seq<T>, IoError>)
    ensures r.Err? <==> exists i :: 0 <= i < |BeforeBlank(lines)| && parse(BeforeBlank(lines)[i]).None?
    ensures r.Err? ==> r.error == InvalidData(message)
    ensures r.Ok? ==> |r.value| == |BeforeBlank(lines)|
                      && forall i :: 0 <= i < |r.value| ==> parse(BeforeBlank(lines)[i]) == Some(r.value[i])
  {
    ghost var before := BeforeBlank(lines);
    var items: seq<T> := [];
    var i := 0;
    while i < |lines|
      invariant i <= |before| && |items| == i
      invariant forall k :: 0 <= k < i ==> parse(before[k]) == Some(items[k])
    {
      if IsBlank(lines[i]) {
        break;
      }
      var item := parse(lines[i]);
      if item.None? {
        return Err(InvalidData(message));
      }
      items := items + [item.value];
      i := i + 1;
    }
    r := Ok(items);
  }
}
