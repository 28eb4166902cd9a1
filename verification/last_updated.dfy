/** The "time ago" label of the last-updated hook: elapsed milliseconds bucketed into
    "Just now", whole minutes or whole hours, with the singular word for a count of one. */
module LastUpdated {
  import opened Wrappers
  import Decimal

  const MillisPerSecond: int := 1000
  const MillisPerMinute: int := 60 * MillisPerSecond
  const MillisPerHour: int := 60 * MillisPerMinute

  /** `Math.floor(a / b)` for a positive divisor. */
  function FloorDiv(a: int, b: int): (q: int)
    requires b > 0
    ensures b * q <= a < b * q + b
  {
    a / b
  }

  /** The label's meaning, before it is spelled out. */
  datatype TimeAgo = Blank | JustNow | MinutesAgo(minutes: nat) | HoursAgo(hours: nat)

  /** A timestamp counts only when present and non-zero (`!timestamp` is false). */
  predicate Stamped(timestamp: Option<int>) {
    timestamp.Some? && timestamp.value != 0
  }

  /** `updateTime` at clock reading `now`: whole seconds elapsed, then the bucket. Elapsed time
      below a minute, negative elapsed time included, is "Just now". */
  function Bucket(timestamp: Option<int>, now: int): (t: TimeAgo)
    ensures t.Blank? <==> !Stamped(timestamp)
    ensures t.JustNow? <==> Stamped(timestamp) && now - timestamp.value < MillisPerMinute
    ensures t.MinutesAgo? <==>
              Stamped(timestamp) && MillisPerMinute <= now - timestamp.value < MillisPerHour
    ensures t.MinutesAgo? ==>
              && 1 <= t.minutes <= 59
              && t.minutes * MillisPerMinute <= now - timestamp.value < (t.minutes + 1) * MillisPerMinute
    ensures t.HoursAgo? ==>
              && t.hours >= 1
              && t.hours * MillisPerHour <= now - timestamp.value < (t.hours + 1) * MillisPerHour
  {
    if !Stamped(timestamp) then Blank
    else
      var seconds := FloorDiv(now - timestamp.value, MillisPerSecond);
      if seconds < 60 then JustNow
      else if seconds < 3600 then MinutesAgo(FloorDiv(seconds, 60))
      else HoursAgo(FloorDiv(seconds, 3600))
  }

  /** `"<n> minute"`/`"<n> minutes"` and the like: the word is singular exactly for one. */
  function Counted(n: nat, singular: string): (r: string)
    ensures |r| > 0 && Decimal.IsDigit(r[0])
  {
    Decimal.Show(n) + " " + (if n == 1 then singular else singular + "s") + " ago"
  }

  /** The label text: empty only for the blank label, "Just now" only within a minute, and a
      label led by its count otherwise. */
  function Render(t: TimeAgo): (r: string)
    ensures r == "" <==> t.Blank?
    ensures r == "Just now" <==> t.JustNow?
  {
    match t
    case Blank => ""
    case JustNow => "Just now"
    case MinutesAgo(m) => Counted(m, "minute")
    case HoursAgo(h) => Counted(h, "hour")
  }

  /** The label shown for `timestamp` at `now`: empty exactly when there is no usable timestamp,
      which is what hides the card's "Updated" line, and "Just now" exactly within a minute. */
  function TimeAgoText(timestamp: Option<int>, now: int): (r: string)
    ensures r == "" <==> !Stamped(timestamp)
    ensures r == "Just now" <==> Stamped(timestamp) && now - timestamp.value < MillisPerMinute
  {
    Render(Bucket(timestamp, now))
  }

  /** The singular word is used exactly when the count is one. */
  lemma SingularIffOne(n: nat, singular: string)
    ensures Counted(n, singular) == Decimal.Show(n) + " " + singular + " ago" <==> n == 1
  {
    if n != 1 {
      assert |Counted(n, singular)| == |Decimal.Show(n) + " " + singular + " ago"| + 1;
    }
  }

  /** Distinct buckets read differently: the label determines the bucket and its count. */
  lemma RenderInjective(a: TimeAgo, b: TimeAgo)
    ensures Render(a) == Render(b) ==> a == b
  {
    if Render(a) == Render(b) {
      match a
      case Blank =>
        assert |Render(b)| == 0;
        if !b.Blank? { CountedShape(b); }
      case JustNow =>
        if b.MinutesAgo? || b.HoursAgo? {
          CountedShape(b);
        }
      case MinutesAgo(m) =>
        CountedShape(a);
        if b.MinutesAgo? || b.HoursAgo? {
          CountedShape(b);
          Decimal.ShowPrefixUnique(Count(a), Count(b), Tail(a), Tail(b));
          assert Tail(a)[1] == 'm';
        }
      case HoursAgo(h) =>
        CountedShape(a);
        if b.MinutesAgo? || b.HoursAgo? {
          CountedShape(b);
          Decimal.ShowPrefixUnique(Count(a), Count(b), Tail(a), Tail(b));
          assert Tail(a)[1] == 'h';
        }
    }
  }

  function Count(t: TimeAgo): nat
    requires t.MinutesAgo? || t.HoursAgo?
  {
    if t.MinutesAgo? then t.minutes else t.hours
  }

  /** The text after the numeral of a counted label. */
  function Tail(t: TimeAgo): string
    requires t.MinutesAgo? || t.HoursAgo?
  {
    var word := if t.MinutesAgo? then "minute" else "hour";
    " " + (if Count(t) == 1 then word else word + "s") + " ago"
  }

  lemma CountedShape(t: TimeAgo)
    requires t.MinutesAgo? || t.HoursAgo?
    ensures Render(t) == Decimal.Show(Count(t)) + Tail(t)
    ensures Tail(t)[0] == ' ' && !Decimal.IsDigit(Tail(t)[0])
    ensures Decimal.IsDigit(Render(t)[0])
  {
  }
}
