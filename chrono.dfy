/** `chrono::NaiveDateTime` and `std::time::Duration`, as far as the source uses them. */
module Chrono {
  import opened Wrappers
  import opened Ints

  const SECONDS_PER_DAY: int := 86400
  const NANOS_PER_SECOND: int := 1_000_000_000

  type SecondOfDay = s: nat | s < 86400
  type Nanos = n: nat | n < 1_000_000_000

  /** A date and a time of day without time zone. The date is a day number counted
      from chrono's earliest representable date (`NaiveDate::MIN` is day 0). */
  datatype NaiveDateTime = NaiveDateTime(day: nat, secs: SecondOfDay, nanos: Nanos)

  /** `<` on `NaiveDateTime`: by date, then by time of day. */
  predicate Before(a: NaiveDateTime, b: NaiveDateTime) {
    a.day < b.day
    || (a.day == b.day && (a.secs < b.secs || (a.secs == b.secs && a.nanos < b.nanos)))
  }

  /** Nanoseconds from the start of day 0: an independent reading of the same instant. */
  function Timeline(t: NaiveDateTime): nat {
    (t.day * SECONDS_PER_DAY + t.secs) * NANOS_PER_SECOND + t.nanos
  }

  lemma BeforeMatchesTimeline(a: NaiveDateTime, b: NaiveDateTime)
    ensures Before(a, b) <==> Timeline(a) < Timeline(b)
  {
    var sa, sb := a.day * SECONDS_PER_DAY + a.secs, b.day * SECONDS_PER_DAY + b.secs;
    assert sa < sb <==> a.day < b.day || (a.day == b.day && a.secs < b.secs) by {
      if a.day < b.day {
        LessMultiple(a.day, b.day, SECONDS_PER_DAY);
      } else if a.day > b.day {
        LessMultiple(b.day, a.day, SECONDS_PER_DAY);
      }
    }
    if sa < sb {
      LessMultiple(sa, sb, NANOS_PER_SECOND);
    } else if sb < sa {
      LessMultiple(sb, sa, NANOS_PER_SECOND);
    }
  }

  /** Helper: a smaller multiple of a unit, plus less than one unit, stays below. */
  lemma LessMultiple(x: nat, y: nat, unit: nat)
    requires x < y && unit > 0
    ensures x * unit + unit <= y * unit
    decreases y
  {
    if x + 1 < y {
      LessMultiple(x, y - 1, unit);
      assert y * unit == (y - 1) * unit + unit;
    } else {
      assert y * unit == x * unit + unit;
    }
  }

  /** `NaiveDate::pred_opt`: the previous day, or None on the earliest date. */
  function PredDay(day: nat): (r: Option<nat>)
    ensures r.Some? <==> day > 0
    ensures r.Some? ==> r.value + 1 == day
  {
    if day == 0 then None else Some(day - 1)
  }

  /** `NaiveDateTime::new(date, 00:00:00)` */
  function Midnight(day: nat): (t: NaiveDateTime)
    ensures t.day == day
    ensures forall u: NaiveDateTime :: u.day == day ==> !Before(u, t)
  {
    NaiveDateTime(day, 0, 0)
  }

  /** `std::time::Duration`: whole seconds and a sub-second part. */
  datatype Duration = Duration(secs: U64, subsecNanos: Nanos)

  /** `Duration::from_secs` */
  function FromSecs(s: U64): (d: Duration)
    ensures d.secs == s && d.subsecNanos == 0
  {
    Duration(s, 0)
  }

  /** `Duration::from_millis` */
  function FromMillis(ms: U64): (d: Duration)
  {
    Duration((ms as int / 1000) as U64, (ms as int % 1000) * 1_000_000)
  }

  /** `from_millis` spreads the milliseconds over seconds and nanoseconds without loss. */
  lemma FromMillisExact(ms: U64)
    ensures FromMillis(ms).secs as int * 1000 + FromMillis(ms).subsecNanos / 1_000_000 == ms as int
    ensures FromMillis(ms).subsecNanos % 1_000_000 == 0
  {
  }
}
