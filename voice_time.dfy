/**
 * `format_voice_time`: a number of seconds written as days, hours, minutes
 * and seconds, every unit printed, zeros included ("0d 0h 2m 5s").
 */
module VoiceTime {
  import opened Common
  import opened Decimal

  const SecondsPerMinute: int := 60
  const SecondsPerHour: int := 3600
  const SecondsPerDay: int := 86400

  /** The four numbers the text shows, in the order it shows them. */
  datatype Duration = Duration(days: int, hours: int, minutes: int, seconds: int)

  /**
   * The four divisions of `format_voice_time` in `main.py`. Python's `//`
   * and `%` round toward negative infinity; with a positive divisor that is exactly Dafny's
   * Euclidean `/` and `%`, so a negative total decomposes as Python does it.
   */
  function Decompose(total: int): Duration {
    Duration(total / SecondsPerDay,
             (total % SecondsPerDay) / SecondsPerHour,
             (total % SecondsPerHour) / SecondsPerMinute,
             total % SecondsPerMinute)
  }

  /** The value the four units denote. */
  function TotalSeconds(d: Duration): int {
    d.days * SecondsPerDay + d.hours * SecondsPerHour + d.minutes * SecondsPerMinute + d.seconds
  }

  /** Hours, minutes and seconds each below the next unit up. */
  predicate Canonical(d: Duration) {
    0 <= d.hours < 24 && 0 <= d.minutes < 60 && 0 <= d.seconds < 60
  }

  lemma Distribute(d: int, a: int, b: int)
    ensures d * a - d * b == d * (a - b)
  {
  }

  lemma {:induction false} MulAtLeast(d: int, k: int)
    requires d > 0 && k >= 1
    ensures d * k >= d
    decreases k
  {
    if k > 1 {
      MulAtLeast(d, k - 1);
      Distribute(d, k, 1);
    }
  }

  /** Euclidean division is determined by its quotient and remainder. */
  lemma DivModOf(x: int, d: int, q: int, r: int)
    requires d > 0 && x == d * q + r && 0 <= r < d
    ensures x / d == q && x % d == r
  {
    var q', r' := x / d, x % d;
    assert x == d * q' + r' && 0 <= r' < d;
    Distribute(d, q, q');
    Distribute(d, q', q);
    if q' < q {
      MulAtLeast(d, q - q');
    } else if q' > q {
      MulAtLeast(d, q' - q);
    }
  }

  /** The decomposition loses nothing and is canonical; days carry the sign. */
  lemma {:induction false} DecomposeExact(total: int)
    ensures Canonical(Decompose(total))
    ensures TotalSeconds(Decompose(total)) == total
    ensures Decompose(total).days >= 0 <==> total >= 0
  {
    var q, r1 := total / 86400, total % 86400;
    var h, r2 := r1 / 3600, r1 % 3600;
    var m, r3 := r2 / 60, r2 % 60;
    DivModOf(total, 3600, 24 * q + h, r2);
    DivModOf(total, 60, 1440 * q + 60 * h + m, r3);
  }

  /** Two canonical decompositions of the same total are the same. */
  lemma {:induction false} DecomposeUnique(d: Duration)
    requires Canonical(d)
    ensures Decompose(TotalSeconds(d)) == d
  {
    var total := TotalSeconds(d);
    var rest := d.hours * 3600 + d.minutes * 60 + d.seconds;
    DivModOf(total, 86400, d.days, rest);
    DivModOf(rest, 3600, d.hours, d.minutes * 60 + d.seconds);
    DivModOf(total, 3600, 24 * d.days + d.hours, d.minutes * 60 + d.seconds);
    DivModOf(d.minutes * 60 + d.seconds, 60, d.minutes, d.seconds);
    DivModOf(total, 60, 1440 * d.days + 60 * d.hours + d.minutes, d.seconds);
  }

  /** `f"{d}d {h}h {m}m {s}s"`: each field followed by its unit letter, separated by single spaces. */
  function DurationText(d: Duration): string {
    IntToString(d.days) + "d " + (IntToString(d.hours) + "h " + (IntToString(d.minutes) + "m " + (IntToString(d.seconds) + "s")))
  }

  /**
   * `format_voice_time`: the text of the decomposition of a number of
   * seconds. It always shows all four units and reads back to the number of
   * seconds it was given.
   */
  function FormatVoiceTime(total: int): (s: string)
    ensures Canonical(Decompose(total)) && s == DurationText(Decompose(total))
    ensures ParseVoiceTime(s) == Some(total)
  {
    var d := Decompose(total);
    DurationTextRoundTrip(d);
    DecomposeExact(total);
    DurationText(d)
  }

  /** Reads one number up to its unit letter; gives the number and what follows the letter. */
  function ParseField(t: string, unit: char): Option<(int, string)> {
    match IndexOf(t, unit)
    case None => None
    case Some(i) =>
      match ParseInt(t[..i])
      case None => None
      case Some(v) => Some((v, t[i + 1..]))
  }

  /** Reads one number, its unit letter and the single space after it; gives the number and the rest. */
  function ParseSpaced(t: string, unit: char): Option<(int, string)> {
    match ParseField(t, unit)
    case Some((v, rest)) => if |rest| > 0 && rest[0] == ' ' then Some((v, rest[1..])) else None
    case None => None
  }

  /** Reads a voice time text back into seconds. */
  function ParseVoiceTime(t: string): Option<int> {
    match ParseSpaced(t, 'd')
    case None => None
    case Some((d, r1)) =>
      match ParseSpaced(r1, 'h')
      case None => None
      case Some((h, r2)) =>
        match ParseSpaced(r2, 'm')
        case None => None
        case Some((m, r3)) =>
          match ParseField(r3, 's')
          case None => None
          case Some((s, r4)) => if r4 == [] then Some(TotalSeconds(Duration(d, h, m, s))) else None
  }

  predicate IsUnitLetter(c: char) {
    !IsDigit(c) && c != '-' && c != ' '
  }

  lemma ParseFieldOf(v: int, unit: char, rest: string)
    requires IsUnitLetter(unit)
    ensures ParseField(IntToString(v) + [unit] + rest, unit) == Some((v, rest))
  {
    var a := IntToString(v);
    IntTextHasNo(v, unit);
    IndexOfAfter(a, unit, rest);
    var t := a + [unit] + rest;
    assert t[..|a|] == a && t[|a| + 1..] == rest;
    IntRoundTrip(v);
  }

  lemma ParseSpacedOf(v: int, unit: char, tail: string)
    requires IsUnitLetter(unit)
    ensures ParseSpaced(IntToString(v) + [unit, ' '] + tail, unit) == Some((v, tail))
  {
    var rest := [' '] + tail;
    assert IntToString(v) + [unit, ' '] + tail == IntToString(v) + [unit] + rest;
    ParseFieldOf(v, unit, rest);
    assert |rest| > 0 && rest[0] == ' ' && rest[1..] == tail;
  }

  /** Every text `DurationText` writes reads back to the total of its four fields. */
  lemma {:induction false} DurationTextRoundTrip(d: Duration)
    ensures ParseVoiceTime(DurationText(d)) == Some(TotalSeconds(d))
  {
    var t4 := IntToString(d.seconds) + "s";
    var t3 := IntToString(d.minutes) + "m " + t4;
    var t2 := IntToString(d.hours) + "h " + t3;
    ParseSpacedOf(d.days, 'd', t2);
    ParseSpacedOf(d.hours, 'h', t3);
    ParseSpacedOf(d.minutes, 'm', t4);
    assert t4 == IntToString(d.seconds) + ['s'] + "";
    ParseFieldOf(d.seconds, 's', "");
  }
}
