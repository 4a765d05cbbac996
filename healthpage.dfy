/**
 * The health page's formatting: the uptime as days, hours and minutes,
 * and the icon and colour that classify each status string.
 */
module HealthPage {
  import opened Wrappers
  import opened Js
  import opened Arith

  // ---------------------------------------------------------------------
  // Uptime

  function Days(seconds: nat): nat { seconds / 86400 }
  function Hours(seconds: nat): nat { (seconds % 86400) / 3600 }
  function Minutes(seconds: nat): nat { (seconds % 3600) / 60 }

  /** `formatUptime(seconds)` for a whole number of seconds. */
  function FormatUptime(seconds: nat): string {
    Layout(Days(seconds), Hours(seconds), Minutes(seconds))
  }

  /** The template `formatUptime` fills in: a unit is shown once it or a larger one is non-zero. */
  function Layout(days: nat, hours: nat, minutes: nat): string {
    if days > 0 then NatToString(days) + "d " + NatToString(hours) + "h " + NatToString(minutes) + "m"
    else if hours > 0 then NatToString(hours) + "h " + NatToString(minutes) + "m"
    else NatToString(minutes) + "m"
  }

  /**
   * The three figures split the seconds into days, hours below a day,
   * minutes below an hour and a remainder under a minute.
   */
  lemma UptimeDecomposition(seconds: nat)
    ensures Hours(seconds) < 24 && Minutes(seconds) < 60
    ensures seconds == Days(seconds) * 86400 + Hours(seconds) * 3600 + Minutes(seconds) * 60 + seconds % 60
    ensures Days(seconds) * 1440 + Hours(seconds) * 60 + Minutes(seconds) == seconds / 60
  {
    var m := seconds / 60;
    var r := seconds % 60;
    var k := m % 1440;
    QuotientIs(m, 1440, m / 1440);
    QuotientIs(k, 60, k / 60);
    QuotientIs(m, 60, m / 60);
    QuotientIs(seconds, 86400, m / 1440);
    QuotientIs(seconds % 86400, 3600, k / 60);
    QuotientIs(seconds, 3600, m / 60);
    QuotientIs(seconds % 3600, 60, m % 60);
    QuotientIs(m, 60, m / 1440 * 24 + k / 60);
  }

  /** The figures, each with its unit, that the layout shows, separated by spaces. */
  function LayoutFields(days: nat, hours: nat, minutes: nat): seq<string> {
    if days > 0 then [NatToString(days) + "d", NatToString(hours) + "h", NatToString(minutes) + "m"]
    else if hours > 0 then [NatToString(hours) + "h", NatToString(minutes) + "m"]
    else [NatToString(minutes) + "m"]
  }

  lemma LayoutIsJoin(days: nat, hours: nat, minutes: nat)
    ensures Layout(days, hours, minutes) == Join(LayoutFields(days, hours, minutes), " ")
  {
    var d, h, m := NatToString(days), NatToString(hours), NatToString(minutes);
    if days > 0 {
      JoinThree(d + "d", h + "h", m + "m");
    } else if hours > 0 {
      JoinTwo(h + "h", m + "m");
    }
  }

  lemma JoinThree(a: string, b: string, c: string)
    ensures Join([a, b, c], " ") == a + " " + b + " " + c
  {
    assert [a, b, c][1..] == [b, c];
    JoinTwo(b, c);
    assert a + " " + (b + " " + c) == a + " " + b + " " + c;
  }

  lemma JoinTwo(a: string, b: string)
    ensures Join([a, b], " ") == a + " " + b
  {
    assert [a, b][1..] == [b];
  }

  /** One field: a decimal number and the one-letter unit after it. */
  function ReadField(field: string, unit: char): Option<nat> {
    if |field| >= 2 && field[|field| - 1] == unit && forall i :: 0 <= i < |field| - 1 ==> IsDigit(field[i])
    then Some(DigitsValue(field[..|field| - 1]))
    else None
  }

  /** Reads a formatted uptime back as whole minutes. */
  function ReadUptime(text: string): Option<nat> {
    ReadFields(SplitOn(text, ' '))
  }

  function ReadFields(fields: seq<string>): Option<nat> {
    if |fields| == 3 then
      match (ReadField(fields[0], 'd'), ReadField(fields[1], 'h'), ReadField(fields[2], 'm'))
      case (Some(d), Some(h), Some(m)) => Some(d * 1440 + h * 60 + m)
      case _ => None
    else if |fields| == 2 then
      match (ReadField(fields[0], 'h'), ReadField(fields[1], 'm'))
      case (Some(h), Some(m)) => Some(h * 60 + m)
      case _ => None
    else if |fields| == 1 then
      ReadField(fields[0], 'm')
    else None
  }

  lemma ReadFieldOf(n: nat, unit: char)
    requires !IsDigit(unit) && unit != ' '
    ensures ReadField(NatToString(n) + [unit], unit) == Some(n)
    ensures ' ' !in NatToString(n) + [unit]
  {
    var f := NatToString(n) + [unit];
    assert f[..|f| - 1] == NatToString(n);
    NatToStringRoundTrip(n);
    forall i | 0 <= i < |f| ensures f[i] != ' ' {
      if i < |f| - 1 {
        assert f[i] == NatToString(n)[i];
      }
    }
  }

  /** Whatever the layout, reading it back gives the minutes it stands for. */
  lemma ReadLayout(days: nat, hours: nat, minutes: nat)
    ensures ReadUptime(Layout(days, hours, minutes)) == Some(days * 1440 + hours * 60 + minutes)
  {
    var f := LayoutFields(days, hours, minutes);
    LayoutIsJoin(days, hours, minutes);
    FieldsRead(days, hours, minutes);
    assert " " == [' '];
    SplitJoin(f, ' ');
  }

  lemma FieldsRead(days: nat, hours: nat, minutes: nat)
    ensures forall i :: 0 <= i < |LayoutFields(days, hours, minutes)| ==> ' ' !in LayoutFields(days, hours, minutes)[i]
    ensures ReadFields(LayoutFields(days, hours, minutes)) == Some(days * 1440 + hours * 60 + minutes)
  {
    ReadFieldOf(days, 'd');
    ReadFieldOf(hours, 'h');
    ReadFieldOf(minutes, 'm');
  }

  /**
   * The text gives back exactly the whole minutes of the uptime: no two
   * uptimes in different minutes are shown alike.
   */
  lemma ReadFormattedUptime(seconds: nat)
    ensures ReadUptime(FormatUptime(seconds)) == Some(seconds / 60)
  {
    ReadLayout(Days(seconds), Hours(seconds), Minutes(seconds));
    UptimeDecomposition(seconds);
  }

  /** Two uptimes read the same exactly when they fall in the same minute. */
  lemma SameTextSameMinute(s1: nat, s2: nat)
    ensures FormatUptime(s1) == FormatUptime(s2) <==> s1 / 60 == s2 / 60
  {
    ReadFormattedUptime(s1);
    ReadFormattedUptime(s2);
    if s1 / 60 == s2 / 60 {
      MinuteFixesFigures(s1, s2);
    }
  }

  lemma MinuteFixesFigures(s1: nat, s2: nat)
    requires s1 / 60 == s2 / 60
    ensures Days(s1) == Days(s2) && Hours(s1) == Hours(s2) && Minutes(s1) == Minutes(s2)
  {
    UptimeDecomposition(s1);
    UptimeDecomposition(s2);
    var m := s1 / 60;
    QuotientIs(m, 1440, Days(s1));
    QuotientIs(m, 1440, Days(s2));
    QuotientIs(m % 1440, 60, Hours(s1));
    QuotientIs(m % 1440, 60, Hours(s2));
  }

  // ---------------------------------------------------------------------
  // Status classes

  datatype Tone = Good | Bad | Unknown

  /** The statuses the page lists under each case of its two switches. */
  const GoodStatuses: set<string> := {"healthy", "connected", "available"}
  const BadStatuses: set<string> := {"unhealthy", "disconnected", "unavailable"}

  function StatusTone(status: string): Tone {
    if status in GoodStatuses then Good else if status in BadStatuses then Bad else Unknown
  }

  datatype IconShape = CheckCircle | XCircle | Activity
  datatype Icon = Icon(shape: IconShape, className: string)

  /** `getStatusIcon(status)`. */
  function StatusIcon(status: string): Icon {
    if status == "healthy" || status == "connected" || status == "available" then
      Icon(CheckCircle, "h-5 w-5 text-green-500")
    else if status == "unhealthy" || status == "disconnected" || status == "unavailable" then
      Icon(XCircle, "h-5 w-5 text-red-500")
    else
      Icon(Activity, "h-5 w-5 text-yellow-500")
  }

  /** `getStatusColor(status)`. */
  function StatusColor(status: string): string {
    if status == "healthy" || status == "connected" || status == "available" then "text-green-600 bg-green-50"
    else if status == "unhealthy" || status == "disconnected" || status == "unavailable" then "text-red-600 bg-red-50"
    else "text-yellow-600 bg-yellow-50"
  }

  function IconTone(icon: Icon): Tone {
    match icon.shape
    case CheckCircle => Good
    case XCircle => Bad
    case Activity => Unknown
  }

  function ColorTone(className: string): Tone {
    if className == "text-green-600 bg-green-50" then Good
    else if className == "text-red-600 bg-red-50" then Bad
    else Unknown
  }

  /**
   * Icon and colour classify every status alike: green for the three
   * good statuses, red for the three bad ones, yellow for anything else.
   */
  lemma StatusClassesAgree(status: string)
    ensures IconTone(StatusIcon(status)) == StatusTone(status)
    ensures ColorTone(StatusColor(status)) == StatusTone(status)
    ensures StatusTone(status) == Good <==> status in GoodStatuses
    ensures StatusTone(status) == Bad <==> status in BadStatuses
  {
    assert "text-red-600 bg-red-50" != "text-green-600 bg-green-50" by {
      assert "text-red-600 bg-red-50"[5] != "text-green-600 bg-green-50"[5];
    }
    assert "text-yellow-600 bg-yellow-50" != "text-green-600 bg-green-50" by {
      assert "text-yellow-600 bg-yellow-50"[5] != "text-green-600 bg-green-50"[5];
    }
    assert "text-yellow-600 bg-yellow-50" != "text-red-600 bg-red-50" by {
      assert "text-yellow-600 bg-yellow-50"[5] != "text-red-600 bg-red-50"[5];
    }
  }
}
