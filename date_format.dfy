/** `chatFormatDate`, defined identically in the group chat and the
    announcement dialog: the local date as `MM/DD/YYYY`. The clock is not
    part of the model; the month (0-based, as `getMonth` returns it), the day
    of the month and the full year are parameters. */
module DateFormat {
  import opened Strings

  function ChatFormatDate(month0: nat, day: nat, year: int): (s: string)
    requires month0 < 12 && 1 <= day <= 31
    ensures |s| >= 7
  {
    TwoDigits(month0 + 1);
    TwoDigits(day);
    PadStart2(NatToString(month0 + 1)) + "/" + PadStart2(NatToString(day)) + "/" + IntToString(year)
  }

  /** The formatted date reads back field by field: two digits of the 1-based
      month, a slash, two digits of the day, a slash and the year. */
  lemma ChatFormatDateFields(month0: nat, day: nat, year: int)
    requires month0 < 12 && 1 <= day <= 31
    ensures var s := ChatFormatDate(month0, day, year);
      && s[2] == '/' && s[5] == '/'
      && (forall k :: 0 <= k < 2 || 3 <= k < 5 ==> IsDigit(s[k]))
      && DigitsValue(s[..2]) == month0 + 1
      && DigitsValue(s[3..5]) == day
      && s[6..] == IntToString(year)
  {
    var m := PadStart2(NatToString(month0 + 1));
    var d := PadStart2(NatToString(day));
    TwoDigits(month0 + 1);
    TwoDigits(day);
    var s := ChatFormatDate(month0, day, year);
    assert s == m + "/" + d + "/" + IntToString(year);
    assert s[..2] == m;
    assert s[3..5] == d;
  }

  /** Different dates never format to the same string. */
  lemma ChatFormatDateInjective(m1: nat, d1: nat, y1: int, m2: nat, d2: nat, y2: int)
    requires m1 < 12 && 1 <= d1 <= 31 && m2 < 12 && 1 <= d2 <= 31
    requires ChatFormatDate(m1, d1, y1) == ChatFormatDate(m2, d2, y2)
    ensures m1 == m2 && d1 == d2 && y1 == y2
  {
    ChatFormatDateFields(m1, d1, y1);
    ChatFormatDateFields(m2, d2, y2);
    IntToStringInjective(y1, y2);
  }
}
