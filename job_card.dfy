/**
 * The job card's text (JobCard.tsx): the salary line, the posting age, the
 * location label and the skill chips. `toLocaleString` is a parameter: its
 * output depends on the runtime's locale.
 */
module JobCard {
  import opened Wrappers
  import opened Text
  import opened Jobs

  const NotSpecified := "Salary not specified"

  /** A salary bound as `formatSalary` tests it: present and not 0. */
  predicate Given(x: Option<int>) {
    x.Some? && x.value != 0
  }

  /** `formatSalary(min, max)`: both, only min ("$min+"), only max ("Up to $max"), or neither. */
  function FormatSalary(min: Option<int>, max: Option<int>, locale: int -> string): (r: string)
    ensures r == NotSpecified <==> !Given(min) && !Given(max)
    ensures |r| > 0 && (r[0] == '$' <==> Given(min))
    ensures Given(min) && !Given(max) ==> r == "$" + locale(min.value) + "+"
    ensures !Given(min) && Given(max) ==> r == "Up to $" + locale(max.value)
    ensures Given(min) && Given(max) ==> r == "$" + locale(min.value) + " - $" + locale(max.value)
  {
    if !Given(min) && !Given(max) then NotSpecified
    else if !Given(max) then
      var from := "$" + locale(min.value) + "+";
      assert from[0] != NotSpecified[0];
      from
    else if !Given(min) then
      var up := "Up to $" + locale(max.value);
      assert up[0] != NotSpecified[0];
      up
    else
      var both := "$" + locale(min.value) + " - $" + locale(max.value);
      assert both[0] != NotSpecified[0];
      both
  }

  const DayMs := 1000 * 60 * 60 * 24

  /** `Math.floor((now - postedAt) / 86400000)`: whole days elapsed, rounding down also for a future date. */
  function DaysSince(now: int, postedAt: int): (d: int)
    ensures d * DayMs <= now - postedAt < (d + 1) * DayMs
  {
    (now - postedAt) / DayMs
  }

  /** The age buckets `formatDate` distinguishes. */
  datatype Age = Today | Yesterday | DaysAgo(days: int) | WeeksAgo(weeks: int) | MonthsAgo(months: int)

  function AgeOf(days: int): (a: Age)
    ensures a == Today <==> days == 0
    ensures a == Yesterday <==> days == 1
    ensures a.DaysAgo? <==> days < 7 && days != 0 && days != 1
    ensures a.DaysAgo? ==> a.days == days
    ensures a.WeeksAgo? <==> 7 <= days < 30
    ensures a.WeeksAgo? ==> 1 <= a.weeks <= 4 && a.weeks * 7 <= days < (a.weeks + 1) * 7
    ensures a.MonthsAgo? <==> days >= 30
    ensures a.MonthsAgo? ==> a.months >= 1 && a.months * 30 <= days < (a.months + 1) * 30
  {
    if days == 0 then Today
    else if days == 1 then Yesterday
    else if days < 7 then DaysAgo(days)
    else if days < 30 then WeeksAgo(days / 7)
    else MonthsAgo(days / 30)
  }

  /**
   * The age as it reads on the card: "Today" and "Yesterday" are never
   * produced for any other age, and the three counted forms are the count
   * followed by their unit.
   */
  function AgeText(a: Age): (r: string)
    ensures r == "Today" <==> a == Today
    ensures r == "Yesterday" <==> a == Yesterday
    ensures a.DaysAgo? ==> r == IntToString(a.days) + " days ago"
    ensures a.WeeksAgo? ==> r == IntToString(a.weeks) + " weeks ago"
    ensures a.MonthsAgo? ==> r == IntToString(a.months) + " months ago"
  {
    match a
    case Today => "Today"
    case Yesterday => "Yesterday"
    case DaysAgo(d) => IntToString(d) + " days ago"
    case WeeksAgo(w) => IntToString(w) + " weeks ago"
    case MonthsAgo(m) => IntToString(m) + " months ago"
  }

  /** Two counts followed by the same unit read the same only when the counts are equal. */
  lemma CountTextInjective(x: int, y: int, unit: string)
    requires IntToString(x) + unit == IntToString(y) + unit
    ensures x == y
  {
    var r := IntToString(x) + unit;
    assert r[..|r| - |unit|] == IntToString(x);
    assert r[..|r| - |unit|] == IntToString(y);
    IntToStringInjective(x, y);
  }

  /** Different ages read differently: the text determines the bucket and its count. */
  lemma AgeTextInjective(a: Age, b: Age)
    requires AgeText(a) == AgeText(b)
    ensures a == b
  {
    var r := AgeText(a);
    match a
    case Today =>
    case Yesterday =>
    case DaysAgo(d) =>
      assert r[|r| - 6] == 'y';
      if b.DaysAgo? {
        CountTextInjective(d, b.days, " days ago");
      }
    case WeeksAgo(w) =>
      assert r[|r| - 6] == 'k';
      if b.WeeksAgo? {
        CountTextInjective(w, b.weeks, " weeks ago");
      }
    case MonthsAgo(m) =>
      assert r[|r| - 6] == 'h';
      if b.MonthsAgo? {
        CountTextInjective(m, b.months, " months ago");
      }
  }

  /**
   * `formatDate(job.postedAt)` at time `now`: "Today" exactly for postings
   * less than a day old, "Yesterday" exactly for those one to two days old.
   */
  function FormatDate(now: int, postedAt: int): (r: string)
    ensures r == "Today" <==> 0 <= now - postedAt < DayMs
    ensures r == "Yesterday" <==> DayMs <= now - postedAt < 2 * DayMs
  {
    AgeText(AgeOf(DaysSince(now, postedAt)))
  }

  /**
   * A posting `n` whole days old reads in days below a week, in whole weeks
   * below 30 days, and in whole 30-day months after that; a posting dated in
   * the future reads as a negative number of days.
   */
  lemma FormatDateOlder(now: int, postedAt: int, n: int)
    requires n * DayMs <= now - postedAt < (n + 1) * DayMs
    ensures 2 <= n < 7 ==> FormatDate(now, postedAt) == IntToString(n) + " days ago"
    ensures 7 <= n < 30 ==> FormatDate(now, postedAt) == IntToString(n / 7) + " weeks ago"
    ensures 30 <= n ==> FormatDate(now, postedAt) == IntToString(n / 30) + " months ago"
    ensures n < 0 ==> FormatDate(now, postedAt) == IntToString(n) + " days ago"
                      && FormatDate(now, postedAt)[0] == '-'
  {
    assert DaysSince(now, postedAt) == n;
  }

  /** The location line. */
  function LocationLabel(job: JobListing): (r: string)
    ensures job.remote ==> r == "Remote"
    ensures !job.remote ==> r == job.location
  {
    if job.remote then "Remote" else job.location
  }

  const MaxSkillChips := 5

  /** `skills.slice(0, 5)` */
  function VisibleSkills(skills: seq<string>): (r: seq<string>)
    ensures |r| <= MaxSkillChips && r <= skills
    ensures |skills| <= MaxSkillChips ==> r == skills
  {
    if |skills| <= MaxSkillChips then skills else skills[..MaxSkillChips]
  }

  /** The "+n more" chip, shown exactly when there are more than five skills. */
  function MoreChip(skills: seq<string>): (r: Option<string>)
    ensures r.Some? <==> |skills| > MaxSkillChips
  {
    if |skills| > MaxSkillChips then Some("+" + NatToString(|skills| - MaxSkillChips) + " more") else None
  }

  /** The visible chips and the count in the "+n more" chip account for every skill exactly once. */
  lemma SkillChipsCover(skills: seq<string>)
    ensures |VisibleSkills(skills)| + (if |skills| > MaxSkillChips then |skills| - MaxSkillChips else 0) == |skills|
    ensures VisibleSkills(skills) + skills[|VisibleSkills(skills)|..] == skills
  {
  }
}
