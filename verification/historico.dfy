/**
 * The 30-day check-in calendar of src/app/historico/page.tsx. Calendar days
 * are day numbers since the epoch; a check-in's day is the UTC date of its
 * `created_at` (what `toISOString().split('T')[0]` yields), and entry `i` of
 * the calendar is the day `today - i`.
 */
module Historico {
  import opened Text

  const MsPerDay: int := 86400000
  const HistoryDays: nat := 30

  /** A row of `check_ins`; `createdAt` is milliseconds since the epoch. */
  datatype CheckIn = CheckIn(id: string, userId: string, createdAt: int)

  /** The UTC calendar day of a timestamp (floor division, also before the epoch). */
  function DayOf(ms: int): (d: int)
    ensures d * MsPerDay <= ms < (d + 1) * MsPerDay
  {
    ms / MsPerDay
  }

  /** One calendar entry: the day and whether a check-in falls on it. */
  datatype DayEntry = DayEntry(day: int, hasCheckIn: bool)

  /** `checkIns.some(c => same day)`: scans the fetched rows in order. */
  function HasCheckInOn(checkIns: seq<CheckIn>, day: int): (r: bool)
    ensures r <==> exists k :: 0 <= k < |checkIns| && DayOf(checkIns[k].createdAt) == day
  {
    if checkIns == [] then false
    else if DayOf(checkIns[0].createdAt) == day then true
    else
      var r := HasCheckInOn(checkIns[1..], day);
      assert forall k :: 1 <= k < |checkIns| ==> checkIns[k] == checkIns[1..][k - 1];
      r
  }

  /** `checkIns?.some(...) || false`: a failed fetch leaves `checkIns` null, which marks no day. */
  function FetchedHasCheckInOn(fetched: Option<seq<CheckIn>>, day: int): bool
  {
    fetched.Some? && HasCheckInOn(fetched.value, day)
  }

  /** The order in which the rows arrive does not matter. */
  lemma HasCheckInOnIgnoresOrder(a: seq<CheckIn>, b: seq<CheckIn>, day: int)
    requires multiset(a) == multiset(b)
    ensures HasCheckInOn(a, day) == HasCheckInOn(b, day)
  {
    if HasCheckInOn(a, day) {
      var k :| 0 <= k < |a| && DayOf(a[k].createdAt) == day;
      assert a[k] in multiset(b);
      var k' :| 0 <= k' < |b| && b[k'] == a[k];
    }
    if HasCheckInOn(b, day) {
      var k :| 0 <= k < |b| && DayOf(b[k].createdAt) == day;
      assert b[k] in multiset(a);
      var k' :| 0 <= k' < |a| && a[k'] == b[k];
    }
  }

  /** The loop of `loadHistory` that builds `last30Days`, newest day first. */
  method LastThirtyDays(today: int, fetched: Option<seq<CheckIn>>) returns (days: seq<DayEntry>)
    ensures |days| == HistoryDays
    ensures forall i :: 0 <= i < |days| ==> days[i].day == today - i
    ensures forall i :: 0 <= i < |days| ==>
              (days[i].hasCheckIn <==>
                 fetched.Some? && exists c :: c in fetched.value && DayOf(c.createdAt) == days[i].day)
    ensures forall i, j :: 0 <= i < j < |days| ==> days[i].day > days[j].day
    ensures fetched.None? ==> forall i :: 0 <= i < |days| ==> !days[i].hasCheckIn
  {
    days := [];
    for i := 0 to HistoryDays
      invariant |days| == i
      invariant forall k :: 0 <= k < i ==> days[k].day == today - k
      invariant forall k :: 0 <= k < i ==> days[k].hasCheckIn == FetchedHasCheckInOn(fetched, today - k)
    {
      var date := today - i;
      var hasCheckIn := FetchedHasCheckInOn(fetched, date);
      days := days + [DayEntry(date, hasCheckIn)];
    }
    forall i | 0 <= i < |days|
      ensures days[i].hasCheckIn <==>
                fetched.Some? && exists c :: c in fetched.value && DayOf(c.createdAt) == days[i].day
    {
      if fetched.Some? && days[i].hasCheckIn {
        var k :| 0 <= k < |fetched.value| && DayOf(fetched.value[k].createdAt) == today - i;
        assert fetched.value[k] in fetched.value;
      }
    }
  }
}
