/** The confession history list of src/app/components/confessions-history.tsx:
    how old each confession is said to be, the karma badge of a completed
    confession, its title and its one-line preview. */
module History {
  import opened Wrappers
  import opened Text
  import opened Kv

  const MsPerMinute := 60000
  const MsPerHour := 3600000
  const MsPerDay := 86400000

  /** The four ways `formatDate` describes an age. */
  datatype Age = MinutesAgo(n: int) | HoursAgo(n: int) | DaysAgo(n: int) | CalendarDate

  /** `formatDate` on the gap `now - createdAt` in milliseconds; JavaScript's
      `Math.floor` of a positive divisor is Dafny's `/`. */
  function FormatAge(diffMs: int): (a: Age)
    ensures a.MinutesAgo? <==> diffMs < MsPerHour
    ensures a.HoursAgo? <==> MsPerHour <= diffMs < MsPerDay
    ensures a.DaysAgo? <==> MsPerDay <= diffMs < 7 * MsPerDay
    ensures a.CalendarDate? <==> 7 * MsPerDay <= diffMs
    ensures a.MinutesAgo? ==> a.n * MsPerMinute <= diffMs < (a.n + 1) * MsPerMinute && a.n < 60
    ensures a.HoursAgo? ==> a.n * MsPerHour <= diffMs < (a.n + 1) * MsPerHour && 1 <= a.n < 24
    ensures a.DaysAgo? ==> a.n * MsPerDay <= diffMs < (a.n + 1) * MsPerDay && 1 <= a.n < 7
  {
    var mins := diffMs / MsPerMinute;
    var hours := diffMs / MsPerHour;
    var days := diffMs / MsPerDay;
    if mins < 60 then MinutesAgo(mins)
    else if hours < 24 then HoursAgo(hours)
    else if days < 7 then DaysAgo(days)
    else CalendarDate
  }

  function AgeRank(a: Age): nat {
    match a
    case MinutesAgo(_) => 0
    case HoursAgo(_) => 1
    case DaysAgo(_) => 2
    case CalendarDate => 3
  }

  /** An older confession never gets a finer-grained description. */
  lemma FormatAgeMonotone(d1: int, d2: int)
    requires d1 <= d2
    ensures AgeRank(FormatAge(d1)) <= AgeRank(FormatAge(d2))
  {
  }

  /** A creation time ahead of the viewer's clock reads as a negative number
      of minutes. */
  lemma FutureReadsNegativeMinutes(diffMs: int)
    requires diffMs < 0
    ensures FormatAge(diffMs).MinutesAgo? && FormatAge(diffMs).n < 0
  {
  }

  /** The text shown for the first three ages; the calendar date is the
      browser's locale formatting and is not modelled. */
  function AgeText(a: Age): Option<string> {
    match a
    case MinutesAgo(n) => Some(IntToString(n) + " мин назад")
    case HoursAgo(n) => Some(IntToString(n) + " ч назад")
    case DaysAgo(n) => Some(IntToString(n) + " дн назад")
    case CalendarDate => None
  }

  // ------------------------------------------------------------------ badge

  datatype Trend = Up | Down | Flat

  datatype Badge = Badge(trend: Trend, text: string)

  /** The karma badge: only completed confessions carry one; a gain is shown
      with an explicit '+'. */
  function KarmaBadge(c: Confession): (b: Option<Badge>)
    ensures b.Some? <==> c.completed
    ensures b.Some? ==> (b.value.trend == Up <==> c.karmaChange > 0)
    ensures b.Some? ==> (b.value.trend == Down <==> c.karmaChange < 0)
  {
    if !c.completed then None
    else
      var k := c.karmaChange;
      var trend := if k > 0 then Up else if k < 0 then Down else Flat;
      Some(Badge(trend, (if k > 0 then "+" else "") + IntToString(k) + " карма"))
  }

  /** The badge's first character tells its trend: '+' up, '-' down, a digit flat. */
  lemma BadgeSignShowsTrend(c: Confession)
    requires c.completed
    ensures var b := KarmaBadge(c).value;
      && (b.text[0] == '+' <==> b.trend == Up)
      && (b.text[0] == '-' <==> b.trend == Down)
      && (b.text[0] == '0' <==> b.trend == Flat)
  {
    var k := c.karmaChange;
    var digits := IntToString(k);
    if k > 0 {
      assert KarmaBadge(c).value.text[0] == '+';
    } else {
      assert KarmaBadge(c).value.text == digits + " карма";
      assert KarmaBadge(c).value.text[0] == digits[0];
    }
  }

  // ---------------------------------------------------------- title, preview

  /** `confession.summary || "Духовная беседа"` */
  function Title(c: Confession): (t: string)
    ensures c.summary != "" ==> t == c.summary
    ensures t != ""
  {
    if c.summary != "" then c.summary else "Духовная беседа"
  }

  /** The preview line: the last message's text, or a placeholder. */
  function Preview(c: Confession): (p: string)
    ensures c.messages != [] ==> p == c.messages[|c.messages| - 1].content
    ensures c.messages == [] ==> p == "Нет сообщений"
  {
    if |c.messages| > 0 then c.messages[|c.messages| - 1].content else "Нет сообщений"
  }

  /** Appending a message to a conversation makes it the preview. */
  lemma PreviewFollowsLastMessage(c: Confession, m: Message)
    ensures Preview(c.(messages := c.messages + [m])) == m.content
  {
  }
}
