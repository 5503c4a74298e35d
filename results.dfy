/**
 * What the end of a quiz shows: the percentage and achievement tier of
 * `showEndModal`, `formatTime`, `formatTimeAgo`, and the ranked rows that
 * `fetchLeaderboard` renders.
 */
module Results {
  import opened Wrappers
  import opened Text

  /**
   * `Math.round(score / total * 100)` on exact rationals. `None` is the `NaN`
   * an empty question list produces. Rounding is half up: the result is the
   * integer within half a point of `100 * score / total`, ties going up.
   */
  function Percentage(score: nat, total: nat): (p: Option<int>)
    ensures total == 0 <==> p.None?
    ensures p.Some? ==> 2 * total * p.value - total <= 200 * score < 2 * total * p.value + total
  {
    if total == 0 then None
    else
      var q := (200 * score + total) / (2 * total);
      DivBounds(200 * score + total, 2 * total);
      Some(q)
  }

  lemma DivBounds(a: nat, b: nat)
    requires b > 0
    ensures b * (a / b) <= a < b * (a / b) + b
  {
  }

  /** The rounding condition has one solution: the percentage is fully determined by it. */
  lemma PercentageUnique(score: nat, total: nat, x: int)
    requires total > 0
    requires 2 * total * x - total <= 200 * score < 2 * total * x + total
    ensures Percentage(score, total) == Some(x)
  {
    var p := Percentage(score, total).value;
    assert 2 * total * (p - x) < 2 * total * 1;
    assert 2 * total * (x - p) < 2 * total * 1;
    MulCancel(2 * total, p - x, 1);
    MulCancel(2 * total, x - p, 1);
  }

  lemma MulCancel(c: int, a: int, b: int)
    requires c > 0 && c * a < c * b
    ensures a < b
  {
    if a >= b {
      MulMonotone(c, b, a);
    }
  }

  lemma MulMonotone(c: nat, a: int, b: int)
    requires a <= b
    ensures c * a <= c * b
  {
  }

  /** A score no larger than the question count gives a percentage between 0 and 100. */
  lemma PercentageInRange(score: nat, total: nat)
    requires 0 < total && score <= total
    ensures 0 <= Percentage(score, total).value <= 100
  {
    var p := Percentage(score, total).value;
    if p < 0 {
      MulMonotone(2 * total, p, -1);
    } else if p > 100 {
      MulMonotone(2 * total, 101, p);
    }
  }

  /** A higher score never gives a lower percentage. */
  lemma PercentageMonotone(s1: nat, s2: nat, total: nat)
    requires 0 < total && s1 <= s2
    ensures Percentage(s1, total).value <= Percentage(s2, total).value
  {
    var p1, p2 := Percentage(s1, total).value, Percentage(s2, total).value;
    if p1 > p2 {
      MulMonotone(2 * total, p2 + 1, p1);
    }
  }

  /** The achievement banners of the end screen, best first. */
  datatype Tier = MasterCoder | SharpShooter | RisingStar | Learning | KeepTrying

  /** The rank of a tier: 4 for the best banner, 0 for the last. */
  function TierLevel(t: Tier): nat {
    match t
    case MasterCoder => 4
    case SharpShooter => 3
    case RisingStar => 2
    case Learning => 1
    case KeepTrying => 0
  }

  function TierTitle(t: Tier): string {
    match t
    case MasterCoder => "🏆 MASTER CODER!"
    case SharpShooter => "🎯 SHARP SHOOTER!"
    case RisingStar => "⭐ RISING STAR!"
    case Learning => "🌱 LEARNING!"
    case KeepTrying => "💪 KEEP TRYING!"
  }

  /** Each tier has a banner text of its own. */
  lemma TierTitlesDistinct(a: Tier, b: Tier)
    ensures TierTitle(a) == TierTitle(b) <==> a == b
  {
  }

  /** The tier chain of `showEndModal` (thresholds 90, 75, 60, 40); `NaN` fails every test. */
  function Achievement(p: Option<int>): Tier {
    if p.None? then KeepTrying
    else if p.value >= 90 then MasterCoder
    else if p.value >= 75 then SharpShooter
    else if p.value >= 60 then RisingStar
    else if p.value >= 40 then Learning
    else KeepTrying
  }

  /** Each tier is won on exactly one band of percentages. */
  lemma AchievementBands(p: int)
    ensures Achievement(Some(p)) == MasterCoder <==> 90 <= p
    ensures Achievement(Some(p)) == SharpShooter <==> 75 <= p < 90
    ensures Achievement(Some(p)) == RisingStar <==> 60 <= p < 75
    ensures Achievement(Some(p)) == Learning <==> 40 <= p < 60
    ensures Achievement(Some(p)) == KeepTrying <==> p < 40
  {
  }

  /** The tier is monotone in the percentage. */
  lemma AchievementMonotone(p: int, q: int)
    requires p <= q
    ensures TierLevel(Achievement(Some(p))) <= TierLevel(Achievement(Some(q)))
  {
  }

  /** The tier is monotone in the score, for a fixed number of questions. */
  lemma AchievementMonotoneInScore(s1: nat, s2: nat, total: nat)
    requires 0 < total && s1 <= s2
    ensures TierLevel(Achievement(Percentage(s1, total))) <= TierLevel(Achievement(Percentage(s2, total)))
  {
    PercentageMonotone(s1, s2, total);
  }

  /** `formatTime`: whole minutes, a colon, then two digits of remaining seconds. */
  function FormatTime(seconds: nat): (r: string)
    ensures |r| >= 4 && r[|r| - 3] == ':'
    ensures r[..|r| - 3] == DecimalString(seconds / 60)
    ensures TimeShaped(r)
  {
    var padded := PadStart(DecimalString(seconds % 60), 2, '0');
    PaddedSeconds(seconds % 60);
    var r := DecimalString(seconds / 60) + ":" + padded;
    assert r[|r| - 2..] == padded;
    r
  }

  /** Two-digit padding of a number below 60 reads back as that number. */
  lemma PaddedSeconds(n: nat)
    requires n < 60
    ensures var t := PadStart(DecimalString(n), 2, '0'); |t| == 2 && AllDigits(t) && DecimalValue(t) == n
  {
    DecimalRoundTrip(n);
    var d := DecimalString(n);
    var t := PadStart(d, 2, '0');
    if n < 10 {
      assert t == ['0'] + d;
      assert t[..1] == ['0'];
    } else {
      assert n / 10 < 10;
      assert |d| == 2;
    }
  }

  /** The last two characters of `formatTime` are the seconds past the whole minutes. */
  lemma FormatTimeSeconds(seconds: nat)
    ensures var t := FormatTime(seconds); DecimalValue(t[|t| - 2..]) == seconds % 60
  {
    var t := FormatTime(seconds);
    var padded := PadStart(DecimalString(seconds % 60), 2, '0');
    PaddedSeconds(seconds % 60);
    assert t == DecimalString(seconds / 60) + ":" + padded;
    assert t[|t| - 2..] == padded;
  }

  /** A `m:ss` text: digits, a colon, two digits. */
  predicate TimeShaped(t: string) {
    |t| >= 4 && AllDigits(t[..|t| - 3]) && t[|t| - 3] == ':' && AllDigits(t[|t| - 2..])
  }

  /** Reads a `m:ss` text back as seconds. */
  function ParseTime(t: string): nat
    requires TimeShaped(t)
  {
    60 * DecimalValue(t[..|t| - 3]) + DecimalValue(t[|t| - 2..])
  }

  /** `formatTime` loses nothing: its text reads back as the same number of seconds. */
  lemma FormatTimeRoundTrip(seconds: nat)
    ensures ParseTime(FormatTime(seconds)) == seconds
  {
    FormatTimeSeconds(seconds);
    ParseTimeFields(FormatTime(seconds), seconds);
  }

  /** A text whose fields are the minutes and the seconds of `seconds` reads back as `seconds`. */
  lemma ParseTimeFields(t: string, seconds: nat)
    requires TimeShaped(t) && t[..|t| - 3] == DecimalString(seconds / 60)
    requires DecimalValue(t[|t| - 2..]) == seconds % 60
    ensures ParseTime(t) == seconds
  {
    DecimalRoundTrip(seconds / 60);
  }

  /** The units of `formatTimeAgo`. */
  datatype TimeUnit = Second | Minute | Hour | Day | Week | Month

  function UnitSeconds(u: TimeUnit): nat {
    match u
    case Second => 1
    case Minute => 60
    case Hour => 3600
    case Day => 86400
    case Week => 604800
    case Month => 2592000
  }

  function UnitName(u: TimeUnit): string {
    match u
    case Second => "second"
    case Minute => "minute"
    case Hour => "hour"
    case Day => "day"
    case Week => "week"
    case Month => "month"
  }

  datatype TimeAgo = TimeAgo(count: int, unit: TimeUnit)

  /**
   * The bucket of `formatTimeAgo` for an age in whole seconds: seconds below a
   * minute (a negative age too), then the largest unit that fits, months
   * without upper bound; the count is the number of whole units in the age.
   */
  function Ago(diff: int): (a: TimeAgo)
    ensures a.unit == Second <==> diff < 60
    ensures a.unit == Minute <==> 60 <= diff < 3600
    ensures a.unit == Hour <==> 3600 <= diff < 86400
    ensures a.unit == Day <==> 86400 <= diff < 604800
    ensures a.unit == Week <==> 604800 <= diff < 2592000
    ensures a.unit == Month <==> 2592000 <= diff
    ensures a.unit == Second ==> a.count == diff
    ensures a.unit != Second ==> 1 <= a.count && a.count * UnitSeconds(a.unit) <= diff < (a.count + 1) * UnitSeconds(a.unit)
  {
    if diff < 60 then TimeAgo(diff, Second)
    else if diff < 3600 then TimeAgo(diff / 60, Minute)
    else if diff < 86400 then TimeAgo(diff / 3600, Hour)
    else if diff < 604800 then TimeAgo(diff / 86400, Day)
    else if diff < 2592000 then TimeAgo(diff / 604800, Week)
    else TimeAgo(diff / 2592000, Month)
  }

  /** The text of a bucket: the count, the unit, a plural `s` unless the count is 1, then "ago". */
  function TimeAgoText(a: TimeAgo): string {
    IntString(a.count) + " " + UnitName(a.unit) + (if a.count == 1 then "" else "s") + " ago"
  }

  /** The text ends in " ago", starts with the count, and has a plural `s` exactly when the count is not 1. */
  lemma TimeAgoTextShape(a: TimeAgo)
    ensures var t := TimeAgoText(a);
      && |t| >= 6
      && t[|t| - 4..] == " ago"
      && t[..|IntString(a.count)| + 1] == IntString(a.count) + " "
      && t[..|IntString(a.count)| + 1 + |UnitName(a.unit)|] == IntString(a.count) + " " + UnitName(a.unit)
      && |t| == |IntString(a.count)| + 1 + |UnitName(a.unit)| + (if a.count == 1 then 0 else 1) + 4
      && (t[|t| - 5] == 's' <==> a.count != 1)
  {
    var t := TimeAgoText(a);
    var n := IntString(a.count);
    var u := UnitName(a.unit);
    assert u[|u| - 1] != 's';
    if a.count == 1 {
      assert t == n + " " + u + " ago";
      assert t[|t| - 5] == u[|u| - 1];
    } else {
      assert t == n + " " + u + "s" + " ago";
    }
    assert t[..|n| + 1] == n + " ";
    assert t[..|n| + 1 + |u|] == n + " " + u;
  }

  /**
   * `formatTimeAgo`: the age of a timestamp, both instants in milliseconds,
   * floored to whole seconds.
   */
  function FormatTimeAgo(nowMs: int, playedMs: int): string {
    TimeAgoText(Ago((nowMs - playedMs) / 1000))
  }

  /** A leaderboard row as the service returns it. */
  datatype Row = Row(username: string, score: int, playedAt: int)

  /** What one rendered row shows: its rank, the podium class for the first three, the player, the age and the score. */
  datatype RankedRow = RankedRow(rank: nat, podium: Option<nat>, username: string, age: string, score: int)

  /** The leaderboard service's reply; `FetchFailed` is a thrown request or a reply that is not JSON. */
  datatype LeaderboardReply = Reply(success: bool, leaderboard: seq<Row>) | FetchFailed

  datatype LeaderboardView = Listing(rows: seq<RankedRow>) | NoScores | LoadError

  /** The `map((row, index) => …)` of `fetchLeaderboard`: row `i` is rendered from the `i`-th row of the reply, in service order. */
  function RankRows(rows: seq<Row>, nowMs: int): (r: seq<RankedRow>)
    ensures |r| == |rows|
    ensures forall i :: 0 <= i < |r| ==> r[i] == RankRow(rows[i], i, nowMs)
  {
    seq(|rows|, i requires 0 <= i < |rows| => RankRow(rows[i], i, nowMs))
  }

  function RankRow(row: Row, index: nat, nowMs: int): RankedRow {
    RankedRow(index + 1, if index < 3 then Some(index + 1) else None, row.username,
              FormatTimeAgo(nowMs, row.playedAt), row.score)
  }

  /** Rank is the position plus one, the first three carry their podium place, and each row keeps its player, age and score. */
  lemma RankRowsShow(rows: seq<Row>, nowMs: int)
    ensures var r := RankRows(rows, nowMs);
      && |r| == |rows|
      && (forall i :: 0 <= i < |r| ==> r[i].rank == i + 1)
      && (forall i :: 0 <= i < |r| ==> r[i].podium == (if i < 3 then Some(i + 1) else None))
      && (forall i :: 0 <= i < |r| ==>
            && r[i].username == rows[i].username
            && r[i].score == rows[i].score
            && r[i].age == FormatTimeAgo(nowMs, rows[i].playedAt))
  {
  }

  /**
   * The view `fetchLeaderboard` renders: a listing for a successful reply with
   * rows, "No scores yet" for an empty or unsuccessful reply, an error when
   * the request or its decoding failed.
   */
  function Leaderboard(reply: LeaderboardReply, nowMs: int): (v: LeaderboardView)
    ensures v.Listing? <==> reply.Reply? && reply.success && |reply.leaderboard| > 0
    ensures v.LoadError? <==> reply.FetchFailed?
    ensures v.NoScores? <==> reply.Reply? && (!reply.success || reply.leaderboard == [])
    ensures v.Listing? ==> |v.rows| == |reply.leaderboard| && v.rows[0].rank == 1
  {
    match reply
    case FetchFailed => LoadError
    case Reply(success, rows) =>
      if success && |rows| > 0 then Listing(RankRows(rows, nowMs)) else NoScores
  }
}
