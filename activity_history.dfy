/**
 * The duration label of the activity history list: whole hours and
 * leftover whole minutes of a moving time given in seconds.
 */
module ActivityHistory {
  import opened Wrappers
  import opened Text

  /** `a % b` in JavaScript: the remainder carries the sign of the dividend. */
  function JsRem(a: int, b: int): (r: int)
    requires b > 0
    ensures a >= 0 ==> 0 <= r < b
    ensures a < 0 ==> -b < r <= 0
  {
    if a >= 0 then a % b else -((-a) % b)
  }

  /**
   * `Math.floor(seconds / 3600)` and `Math.floor((seconds % 3600) / 60)`;
   * Dafny's `/` by a positive divisor already rounds toward negative infinity.
   */
  function DurationParts(seconds: int): (p: (int, int))
    ensures seconds >= 0 ==> 0 <= p.0 && 0 <= p.1 < 60
    ensures seconds >= 0 ==> 3600 * p.0 + 60 * p.1 <= seconds < 3600 * p.0 + 60 * p.1 + 60
    ensures p.0 > 0 <==> seconds >= 3600
  {
    (seconds / 3600, JsRem(seconds, 3600) / 60)
  }

  /** `formatDuration`: "{h}h {m}m" when there is a whole hour, "{m}m" otherwise. */
  function FormatDuration(seconds: int): (r: string)
    ensures seconds >= 3600 ==>
              r == IntToString(seconds / 3600) + "h " + IntToString(DurationParts(seconds).1) + "m"
    ensures seconds < 3600 ==> r == IntToString(DurationParts(seconds).1) + "m"
  {
    var (hours, minutes) := DurationParts(seconds);
    if hours > 0 then IntToString(hours) + "h " + IntToString(minutes) + "m"
    else IntToString(minutes) + "m"
  }

  /** The hours part is shown exactly for durations of an hour or more. */
  lemma HoursShownIffAnHour(seconds: nat)
    ensures 'h' in FormatDuration(seconds) <==> seconds >= 3600
  {
    var (hours, minutes) := DurationParts(seconds);
    var r := FormatDuration(seconds);
    if seconds >= 3600 {
      assert r[|IntToString(hours)|] == 'h';
    } else {
      assert r == NatToString(minutes) + "m";
      forall i | 0 <= i < |r| ensures r[i] != 'h' {
        if i < |r| - 1 { assert IsDecimalDigit(NatToString(minutes)[i]); }
      }
    }
  }

  /** The label starts with the number it shows first: hours when shown, else minutes. */
  lemma LabelLeadingNumber(seconds: int)
    ensures ParseInt(FormatDuration(seconds)) == Some(if seconds >= 3600 then seconds / 3600 else DurationParts(seconds).1)
  {
    var p := DurationParts(seconds);
    var shown := FormatDuration(seconds);
    if p.0 > 0 {
      var rest := "h " + IntToString(p.1) + "m";
      assert shown == IntToString(p.0) + rest;
      ParseIntOfIntToString(p.0, rest);
    } else {
      assert shown == IntToString(p.1) + "m";
      ParseIntOfIntToString(p.1, "m");
    }
  }
}
