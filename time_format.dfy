/** The time labels under the seek slider: `ms_to_minsec` (amp.py:709-713, repeated at
    amp.py:733-737) and the rule of `update_time_labels` (amp.py:714-718, repeated for the
    status bar at amp.py:738-741). Python's `//` and `%` by a positive divisor round toward
    minus infinity, as Dafny's `/` and `%` do, so a negative position renders as Python does. */
module TimeFormat {
  import opened Wrappers
  import opened Decimal
  import opened PyText

  /** `f"{n:02d}"` for a number of seconds below a minute. */
  function TwoDigits(n: nat): (r: string)
    requires n < 100
    ensures |r| == 2 && AllDigits(r) && DigitsValue(r) == n
  {
    var r := [DigitChar(n / 10), DigitChar(n % 10)];
    assert r[..1] == [r[0]] && r[..1][..0] == [];
    assert DigitsValue(r[..1]) == n / 10;
    r
  }

  /** `ms_to_minsec(ms)`: whole minutes, a colon, then the leftover seconds on two digits. */
  function MsToMinSec(ms: int): (r: string)
    ensures |r| >= 4 && r[|r| - 3] == ':' && AllDigits(r[|r| - 2..])
    ensures r[..|r| - 3] == IntToString(ms / 60000)
    ensures DigitsValue(r[|r| - 2..]) == ms / 1000 % 60
  {
    var s := ms / 1000;
    var m := s / 60;
    var ss := s % 60;
    WholeMinutes(ms);
    LabelParts(IntToString(m), TwoDigits(ss));
    IntToString(m) + ":" + TwoDigits(ss)
  }

  /** Whole minutes of whole seconds are the whole minutes of the milliseconds. */
  lemma WholeMinutes(ms: int)
    ensures ms / 1000 / 60 == ms / 60000
  {
    var s := ms / 1000;
    var m := s / 60;
    assert ms == 60000 * m + (1000 * (s % 60) + ms % 1000);
    DivUnique(ms, 60000, m, 1000 * (s % 60) + ms % 1000);
  }

  lemma DivUnique(a: int, d: int, q: int, r: int)
    requires d > 0 && 0 <= r < d && a == d * q + r
    ensures a / d == q
  {
    var q' := a / d;
    if q' > q {
      MulGap(d, q', q);
      assert false;
    } else if q' < q {
      MulGap(d, q, q');
      assert false;
    }
  }

  lemma {:induction false} MulGap(d: int, hi: int, lo: int)
    requires d > 0 && hi > lo
    ensures d * hi >= d * lo + d
    decreases hi - lo
  {
    assert d * hi == d * (hi - 1) + d;
    if hi - 1 > lo {
      MulGap(d, hi - 1, lo);
    }
  }

  /** Reads an "m:ss" label back as a number of seconds. */
  function ReadMinSec(r: string): Option<int> {
    if |r| >= 4 && r[|r| - 3] == ':' && AllDigits(r[|r| - 2..]) && DigitsValue(r[|r| - 2..]) < 60 then
      match ParseSigned(r[..|r| - 3])
      case Some(m) => Some(m * 60 + DigitsValue(r[|r| - 2..]))
      case None => None
    else None
  }

  /** The label names exactly the whole second `ms` falls in. */
  lemma MinSecRoundTrip(ms: int)
    ensures ReadMinSec(MsToMinSec(ms)) == Some(ms / 1000)
  {
    var s := ms / 1000;
    var m := s / 60;
    var ss := s % 60;
    assert m * 60 + ss == s;
    assert MsToMinSec(ms) == IntToString(m) + ":" + TwoDigits(ss);
    ParseSignedOfIntToString(m);
    ReadMinSecParts(IntToString(m), m, ss);
  }

  lemma ReadMinSecParts(minutes: string, m: int, ss: nat)
    requires |minutes| > 0 && ss < 60 && ParseSigned(minutes) == Some(m)
    ensures ReadMinSec(minutes + ":" + TwoDigits(ss)) == Some(m * 60 + ss)
  {
    var secs := TwoDigits(ss);
    var r := minutes + ":" + secs;
    LabelParts(minutes, secs);
    assert r[|r| - 2..] == secs && DigitsValue(secs) == ss;
    assert r[..|r| - 3] == minutes;
  }

  /** Where the pieces of a label sit. */
  lemma LabelParts(minutes: string, secs: string)
    requires |secs| == 2
    ensures var r := minutes + ":" + secs;
      |r| >= 3 && r[|r| - 3] == ':' && r[|r| - 2..] == secs && r[..|r| - 3] == minutes
  {
  }

  /** Two times get the same label exactly when they fall in the same whole second. */
  lemma MinSecSameLabel(a: int, b: int)
    ensures MsToMinSec(a) == MsToMinSec(b) <==> a / 1000 == b / 1000
  {
    MinSecRoundTrip(a);
    MinSecRoundTrip(b);
  }

  /** `update_time_labels(position, duration)`: the elapsed and the total label. */
  function TimeLabels(position: int, duration: int): (string, string) {
    (MsToMinSec(position), if duration > 0 then MsToMinSec(duration) else "0:00")
  }

  /** The total reads "0:00" exactly when the duration is unknown (not positive) or under a second. */
  lemma TotalLabelZero(position: int, duration: int)
    ensures TimeLabels(position, duration).1 == "0:00" <==> duration < 1000
  {
    assert IntToString(0) == "0";
    assert MsToMinSec(0) == "0:00";
    MinSecSameLabel(duration, 0);
  }
}
