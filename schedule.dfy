/** The daily posting time: `parse_time` turns an `"HH:MM"` setting into an
    hour and a minute, with the checks that Python's `int()` and
    `datetime.time` make. The time zone it attaches is not modelled. */
module Schedule {
  import opened Wrappers
  import opened Text

  datatype TimeOfDay = TimeOfDay(hour: nat, minute: nat)

  /** Why `parse_time` raises `ValueError`. */
  datatype TimeError =
    | NotAnInteger(part: string)     // int() rejected a piece
    | WrongPartCount(count: nat)     // the unpacking `hh, mm = ...` failed
    | HourOutOfRange(hour: int)      // time() wants 0 <= hour < 24
    | MinuteOutOfRange(minute: int)  // time() wants 0 <= minute < 60

  /** `[int(x) for x in parts]`: every piece converted, in order, failing at
      the first piece `int()` rejects. */
  function ParseAll(parts: seq<string>): (r: Result<seq<int>, string>)
    ensures r.Success? ==> |r.value| == |parts|
    ensures r.Success? ==> forall i :: 0 <= i < |parts| ==> ParseInt(parts[i]) == Some(r.value[i])
    ensures r.Failure? <==> exists i :: 0 <= i < |parts| && ParseInt(parts[i]).None?
    ensures r.Failure? ==> exists i ::
              && 0 <= i < |parts| && parts[i] == r.error && ParseInt(parts[i]).None?
              && forall k :: 0 <= k < i ==> ParseInt(parts[k]).Some?
    decreases |parts|
  {
    if |parts| == 0 then Success([])
    else match ParseInt(parts[0])
      case None => Failure(parts[0])
      case Some(v) =>
        match ParseAll(parts[1..])
        case Failure(p) =>
          assert exists i ::
                   && 0 <= i < |parts| && parts[i] == p && ParseInt(parts[i]).None?
                   && forall k :: 0 <= k < i ==> ParseInt(parts[k]).Some? by {
            var i :| 0 <= i < |parts[1..]| && parts[1..][i] == p && ParseInt(parts[1..][i]).None?
                     && forall k :: 0 <= k < i ==> ParseInt(parts[1..][k]).Some?;
            assert forall k :: 0 <= k < i + 1 ==> ParseInt(parts[k]).Some? by {
              forall k | 0 <= k < i + 1 ensures ParseInt(parts[k]).Some? {
                if k > 0 { assert parts[k] == parts[1..][k - 1]; }
              }
            }
            assert parts[i + 1] == p;
          }
          Failure(p)
        case Success(vs) => Success([v] + vs)
  }

  /** `parse_time(hhmm)` without the time zone. */
  function ParseTime(hhmm: string): (r: Result<TimeOfDay, TimeError>)
    ensures r.Success? ==> r.value.hour < 24 && r.value.minute < 60
    ensures r.Success? <==>
      var parts := Split(hhmm, ':');
      && |parts| == 2
      && ParseInt(parts[0]).Some? && 0 <= ParseInt(parts[0]).value < 24
      && ParseInt(parts[1]).Some? && 0 <= ParseInt(parts[1]).value < 60
    ensures r.Success? ==>
      var parts := Split(hhmm, ':');
      && ParseInt(parts[0]) == Some(r.value.hour as int)
      && ParseInt(parts[1]) == Some(r.value.minute as int)
  {
    var parts := Split(hhmm, ':');
    match ParseAll(parts)
    case Failure(p) => Failure(NotAnInteger(p))
    case Success(values) =>
      if |values| != 2 then Failure(WrongPartCount(|values|))
      else if !(0 <= values[0] < 24) then Failure(HourOutOfRange(values[0]))
      else if !(0 <= values[1] < 60) then Failure(MinuteOutOfRange(values[1]))
      else Success(TimeOfDay(values[0], values[1]))
  }

  /** Two decimal digits, with a leading zero below ten. */
  function Pad2(n: nat): (s: string)
    requires n < 100
    ensures |s| == 2 && AllDigits(s)
  {
    [DigitChar(n / 10), DigitChar(n % 10)]
  }

  /** The `"HH:MM"` spelling of a time of day. */
  function FormatTime(t: TimeOfDay): string
    requires t.hour < 24 && t.minute < 60
  {
    Pad2(t.hour) + ":" + Pad2(t.minute)
  }

  lemma ParsePad2(n: nat)
    requires n < 100
    ensures ParseInt(Pad2(n)) == Some(n)
  {
    var s := Pad2(n);
    StripUnspaced(s);
    assert s[..1][..0] == [];
    assert DigitsValue(s[..1]) == n / 10;
    assert DigitsValue(s) == (n / 10) * 10 + n % 10;
  }

  /** Every valid time of day, written as `"HH:MM"`, parses back to itself. */
  lemma ParseFormatTime(t: TimeOfDay)
    requires t.hour < 24 && t.minute < 60
    ensures ParseTime(FormatTime(t)) == Success(t)
  {
    var h, m := Pad2(t.hour), Pad2(t.minute);
    SplitAtSep(h, ':', m);
    SplitNoSep(m, ':');
    assert FormatTime(t) == h + [':'] + m;
    ParsePad2(t.hour);
    ParsePad2(t.minute);
  }
}
