/**
 * The local-time stamp both download buttons put in a file name
 * (components/image-actions.tsx and app/library/page.tsx): `MM-DD-YYYY h-mm-ss AM|PM`, with a
 * 12-hour clock. The clock reading is an input; calendars and time zones are not modelled.
 */
module Clock12 {
  import opened Text

  /** A wall-clock reading as `Date`'s getters return it: `month0` is `getMonth()`, counted from 0. */
  datatype LocalTime = LocalTime(year: nat, month0: nat, day: nat, hours: nat, minutes: nat, seconds: nat)

  predicate ValidTime(t: LocalTime) {
    t.month0 < 12 && 1 <= t.day <= 31 && t.hours < 24 && t.minutes < 60 && t.seconds < 60
  }

  /** `String(n).padStart(2, '0')`. */
  function Field2(n: nat): (r: string)
    ensures n < 100 ==> |r| == 2
    ensures forall i :: 0 <= i < |r| ==> IsDigit(r[i])
  {
    PadStart2(Decimal(n))
  }

  /** A two-digit field reads back as its number. */
  lemma Field2RoundTrip(n: nat)
    requires n < 100
    ensures ParseDecimal(Field2(n)) == n
  {
    DecimalRoundTrip(n);
    var d := Decimal(n);
    if n < 10 {
      var r := Field2(n);
      assert r == "0" + d && r[..1] == "0";
      assert ParseDecimal(r[..1]) == 0 by {
        assert r[..1][..0] == [];
      }
    }
  }

  /** `hours % 12 || 12`: the hour on a 12-hour dial. */
  function DisplayHour(hours: nat): (h: nat)
    ensures 1 <= h <= 12
    ensures h % 12 == hours % 12
  {
    if hours % 12 == 0 then 12 else hours % 12
  }

  /** `hours >= 12 ? 'PM' : 'AM'`. */
  function Meridiem(hours: nat): (m: string)
    ensures m == "PM" <==> hours >= 12
    ensures m == "AM" <==> hours < 12
  {
    if hours >= 12 then "PM" else "AM"
  }

  /** Reading a 12-hour dial back onto the 24-hour clock. */
  function Hours24(h: nat, m: string): nat {
    if m == "PM" then (if h == 12 then 12 else h + 12)
    else (if h == 12 then 0 else h)
  }

  /** The 12-hour form loses nothing: the dial hour and the suffix give back the hour of the day. */
  lemma TwelveHourRoundTrip(hours: nat)
    requires hours < 24
    ensures Hours24(DisplayHour(hours), Meridiem(hours)) == hours
  {
  }

  /** The stamp `${month}-${day}-${year} ${displayHours}-${minutes}-${seconds} ${ampm}`. */
  function Stamp(t: LocalTime): string {
    DatePart(t) + YearAndHour(t) + TimePart(t)
  }

  /** `YYYY h-`: the variable-width middle of a stamp. */
  function YearAndHour(t: LocalTime): string {
    Decimal(t.year) + " " + Decimal(DisplayHour(t.hours)) + "-"
  }

  /** `MM-DD-`: the fixed-width front of a stamp. */
  function DatePart(t: LocalTime): string {
    Field2(t.month0 + 1) + "-" + Field2(t.day) + "-"
  }

  /** `mm-ss AM|PM`: the fixed-width back of a stamp. */
  function TimePart(t: LocalTime): string {
    Field2(t.minutes) + "-" + Field2(t.seconds) + " " + Meridiem(t.hours)
  }

  /** The date part is six characters wide, and its month (counted from 1) and day read back. */
  lemma DatePartReadsBack(t: LocalTime)
    requires ValidTime(t)
    ensures var f := DatePart(t);
            |f| == 6 && ParseDecimal(f[0..2]) == t.month0 + 1 && f[2] == '-' && ParseDecimal(f[3..5]) == t.day && f[5] == '-'
  {
    var f := DatePart(t);
    assert f[0..2] == Field2(t.month0 + 1);
    assert f[3..5] == Field2(t.day);
    Field2RoundTrip(t.month0 + 1);
    Field2RoundTrip(t.day);
  }

  /** The time part is eight characters wide: minutes and seconds that read back, then the suffix. */
  lemma TimePartReadsBack(t: LocalTime)
    requires ValidTime(t)
    ensures var b := TimePart(t);
            && |b| == 8 && ParseDecimal(b[0..2]) == t.minutes && b[2] == '-'
            && ParseDecimal(b[3..5]) == t.seconds && b[5] == ' ' && b[6..] == Meridiem(t.hours)
  {
    var mm, ss, m := Field2(t.minutes), Field2(t.seconds), Meridiem(t.hours);
    assert |mm| == 2 && |ss| == 2 && |m| == 2;
    FieldsOfTimePart(mm, ss, m);
    Field2RoundTrip(t.minutes);
    Field2RoundTrip(t.seconds);
  }

  /** Where the two fields and the suffix of a time part sit. */
  lemma FieldsOfTimePart(mm: string, ss: string, m: string)
    requires |mm| == 2 && |ss| == 2 && |m| == 2
    ensures var b := mm + "-" + ss + " " + m;
            |b| == 8 && b[0..2] == mm && b[2] == '-' && b[3..5] == ss && b[5] == ' ' && b[6..] == m
  {
  }

  /** The ends of `front + middle + back` are the ends of `front` and `back`. */
  lemma EndsOfConcat(front: string, middle: string, back: string)
    requires |front| == 6 && |back| == 8
    ensures var s := front + middle + back;
            s[..6] == front && s[|s| - 8..] == back
  {
  }

  /**
   * A stamp opens with its date part and closes with its time part, whatever the widths of the
   * year and the hour between them; both parts read back by the lemmas above.
   */
  lemma StampLayout(t: LocalTime)
    requires ValidTime(t)
    ensures var s := Stamp(t);
            |s| >= 14 && s[..6] == DatePart(t) && s[|s| - 8..] == TimePart(t)
  {
    var front, back := DatePart(t), TimePart(t);
    DatePartReadsBack(t);
    TimePartReadsBack(t);
    assert |front| == 6 && |back| == 8;
    EndsOfConcat(front, YearAndHour(t), back);
  }
}
