/**
 * The activities page: the activity list, the status each activity is shown
 * with (completed, needs an update, upcoming), the notification counts, the
 * search and status filters, the date ordering, the list updates and the
 * Outlook compose link of an activity.
 */
module ActivitiesPage {
  import opened Wrappers
  import opened Text
  import opened Dates
  import opened Seqs

  /**
   * A query parameter of an Outlook compose link. An instant is written by
   * `toISOString`; a missing instant (an Invalid Date) is written as "".
   */
  datatype ParamValue = Str(text: string) | At(instant: Option<int>)
  datatype Param = Param(key: string, value: ParamValue)

  /** An activity's stored Outlook link: none yet (""), or a compose link. */
  datatype OutlookUrl = NoUrl | Compose(params: seq<Param>)

  /**
   * An activity. Missing text (null, undefined or "") is "", a missing
   * status is None; `proof` and `mom` are uploaded files, kept as their names.
   */
  datatype Activity = Activity(
    id: int, title: string, kind: string, date: string, time: string, location: string,
    topic: string, description: string, withCustomer: bool, customer: string,
    invitees: seq<string>, status: Option<string>, createdBy: string,
    proof: Option<string>, mom: Option<string>, outlookAdded: bool, outlookUrl: OutlookUrl)

  datatype Status = Completed | PerluUpdate | Upcoming

  /** The status value the list compares with the status filter. */
  function StatusName(s: Status): string {
    match s
    case Completed => "completed"
    case PerluUpdate => "perluUpdate"
    case Upcoming => "upcoming"
  }

  // ------------------------------------------------------------ instants

  /**
   * `parseActivityDate` in a zone `zone` milliseconds east of UTC: no date
   * gives None; with a time the text is `date` + "T" + `time`, without one
   * the date alone, which is read as UTC midnight.
   */
  function PageInstantIn(a: Activity, zone: int): Option<int> {
    if a.date == "" then None
    else ParseInstantIn(if a.time != "" then a.date + "T" + a.time else a.date, zone)
  }

  /** `parseActivityDate` at UTC, the reading the statuses below are computed from. */
  function PageInstant(a: Activity): Option<int> {
    PageInstantIn(a, 0)
  }

  /**
   * `parseActivityDate` as evidently intended: a date without a time read
   * as local midnight, as the card, the detail modal and the form read
   * every date.
   */
  function LocalPageInstantIn(a: Activity, zone: int): Option<int> {
    if a.date == "" then None
    else ParseInstantIn(a.date + "T" + (if a.time != "" then a.time else "00:00"), zone)
  }

  /** At UTC the intended reading is the one the statuses are computed from. */
  lemma LocalPageAtUtc(a: Activity)
    requires a.time != "" || |a.date| == 10
    ensures LocalPageInstantIn(a, 0) == PageInstant(a)
  {
    if a.time == "" {
      assert a.date + "T" + "00:00" == a.date + "T00:00";
      DateOnlyIsMidnight(a.date, 0);
    }
  }

  /** The stored status, lower-cased, is "completed". */
  predicate StoredCompleted(a: Activity) {
    a.status.Some? && Lower(a.status.value) == "completed"
  }

  /** The computed status of an activity at instant `now`. */
  function ComputedStatus(a: Activity, now: int): Status {
    if StoredCompleted(a) then Completed
    else match PageInstant(a)
      case None => Upcoming
      case Some(t) => if t < now then PerluUpdate else Upcoming
  }

  /** A stored "completed", in any letter case, wins over every date. */
  lemma CompletedWins(a: Activity, now: int, now': int)
    requires StoredCompleted(a)
    ensures ComputedStatus(a, now) == Completed && ComputedStatus(a, now') == Completed
  {
  }

  /** A pending activity with no date, or a date that does not parse, is upcoming. */
  lemma NoInstantIsUpcoming(a: Activity, now: int)
    requires !StoredCompleted(a) && PageInstant(a).None?
    ensures ComputedStatus(a, now) == Upcoming
  {
  }

  /** A pending activity needs an update iff its instant lies before now. */
  lemma PastNeedsUpdate(a: Activity, now: int)
    requires !StoredCompleted(a) && PageInstant(a).Some?
    ensures ComputedStatus(a, now) == PerluUpdate <==> PageInstant(a).value < now
    ensures ComputedStatus(a, now) != Completed
  {
  }

  /** A pending activity stops being upcoming once, and for as long as, now passes its instant. */
  lemma StatusMonotone(a: Activity, now: int, later: int)
    requires now <= later && ComputedStatus(a, now) == PerluUpdate
    ensures ComputedStatus(a, later) == PerluUpdate
  {
  }

  // -------------------------------------------------------- notifications

  /** The number of activities with computed status `st`. */
  function CountStatus(acts: seq<Activity>, now: int, st: Status): (n: nat)
    ensures n <= |acts|
  {
    if |acts| == 0 then 0
    else CountStatus(acts[..|acts| - 1], now, st) + (if ComputedStatus(acts[|acts| - 1], now) == st then 1 else 0)
  }

  /** `notificationStats`: one pass over the list with one `now`. */
  method NotificationStats(acts: seq<Activity>, now: int) returns (perluUpdate: nat, upcoming: nat)
    ensures perluUpdate == CountStatus(acts, now, PerluUpdate)
    ensures upcoming == CountStatus(acts, now, Upcoming)
  {
    perluUpdate, upcoming := 0, 0;
    for i := 0 to |acts|
      invariant perluUpdate == CountStatus(acts[..i], now, PerluUpdate)
      invariant upcoming == CountStatus(acts[..i], now, Upcoming)
    {
      assert acts[..i + 1][..i] == acts[..i];
      var computed := ComputedStatus(acts[i], now);
      if computed == PerluUpdate {
        perluUpdate := perluUpdate + 1;
      }
      if computed == Upcoming {
        upcoming := upcoming + 1;
      }
    }
    assert acts[..|acts|] == acts;
  }

  /** Every activity has exactly one computed status. */
  lemma {:induction false} CountsPartition(acts: seq<Activity>, now: int)
    ensures CountStatus(acts, now, PerluUpdate) + CountStatus(acts, now, Upcoming)
      + CountStatus(acts, now, Completed) == |acts|
  {
    if |acts| > 0 {
      CountsPartition(acts[..|acts| - 1], now);
    }
  }

  /** The two notification counts add up to the activities not computed completed. */
  lemma NotificationsArePending(acts: seq<Activity>, now: int)
    ensures CountStatus(acts, now, PerluUpdate) + CountStatus(acts, now, Upcoming)
      == |acts| - CountStatus(acts, now, Completed)
  {
    CountsPartition(acts, now);
  }

  /** A status count is positive iff some activity has that status. */
  lemma {:induction false} CountPositive(acts: seq<Activity>, now: int, st: Status)
    ensures CountStatus(acts, now, st) > 0 <==> exists i :: 0 <= i < |acts| && ComputedStatus(acts[i], now) == st
  {
    if |acts| > 0 {
      var init := acts[..|acts| - 1];
      CountPositive(init, now, st);
      if exists i :: 0 <= i < |init| && ComputedStatus(init[i], now) == st {
        var i :| 0 <= i < |init| && ComputedStatus(init[i], now) == st;
        assert acts[i] == init[i];
      }
      if exists i :: 0 <= i < |acts| && ComputedStatus(acts[i], now) == st {
        var i :| 0 <= i < |acts| && ComputedStatus(acts[i], now) == st;
        if i < |init| {
          assert init[i] == acts[i];
        }
      }
    }
  }

  /** `hasNotifications` holds iff some listed activity is not computed completed. */
  lemma HasNotifications(acts: seq<Activity>, now: int)
    ensures CountStatus(acts, now, PerluUpdate) > 0 || CountStatus(acts, now, Upcoming) > 0
      <==> exists i :: 0 <= i < |acts| && ComputedStatus(acts[i], now) != Completed
  {
    CountPositive(acts, now, PerluUpdate);
    CountPositive(acts, now, Upcoming);
  }

  // --------------------------------------------------------------- search

  /** The case-insensitive match of a lower-cased query; a missing customer never matches. */
  predicate MatchesQuery(a: Activity, q: string) {
    Contains(Lower(a.title), q) || Contains(Lower(a.kind), q) || Contains(Lower(a.topic), q)
    || (a.customer != "" && Contains(Lower(a.customer), q))
  }

  /** `filteredActivities`: an empty query keeps the list. */
  function Search(acts: seq<Activity>, query: string): (r: seq<Activity>)
    ensures query == "" ==> r == acts
    ensures forall i :: 0 <= i < |r| ==> r[i] in acts
  {
    if query == "" then acts
    else
      var q := Lower(query);
      var r := Filter(acts, a => MatchesQuery(a, q));
      assert forall i :: 0 <= i < |r| ==> r[i] in acts by {
        forall i | 0 <= i < |r| ensures r[i] in acts {
          FilterMembers(acts, a => MatchesQuery(a, q), r[i]);
        }
      }
      r
  }

  /** With a query, an activity is kept iff it is listed and matches the lower-cased query. */
  lemma SearchMembers(acts: seq<Activity>, query: string, a: Activity)
    requires query != ""
    ensures a in Search(acts, query) <==> a in acts && MatchesQuery(a, Lower(query))
  {
    FilterMembers(acts, x => MatchesQuery(x, Lower(query)), a);
  }

  /** The letter case of the query does not matter. */
  lemma SearchIgnoresCase(acts: seq<Activity>, query: string)
    ensures Search(acts, Lower(query)) == Search(acts, query)
  {
    LowerIdempotent(query);
  }

  // ------------------------------------------------- status filter and sort

  /** A list entry: the activity and its computed status. */
  datatype Listed = Listed(activity: Activity, computed: Status)

  function WithComputed(acts: seq<Activity>, now: int): (r: seq<Listed>)
    ensures |r| == |acts|
    ensures forall i :: 0 <= i < |r| ==> r[i] == Listed(acts[i], ComputedStatus(acts[i], now))
  {
    seq(|acts|, i requires 0 <= i < |acts| => Listed(acts[i], ComputedStatus(acts[i], now)))
  }

  /** The status filter: "all" keeps every entry, any other value the entries with that status. */
  function ByStatus(s: seq<Listed>, filter: string): (r: seq<Listed>)
    ensures filter == "all" ==> r == s
    ensures filter != "all" ==> forall i :: 0 <= i < |r| ==> StatusName(r[i].computed) == filter
  {
    if filter == "all" then s else Filter(s, (l: Listed) => StatusName(l.computed) == filter)
  }

  lemma ByStatusMembers(s: seq<Listed>, filter: string, l: Listed)
    requires filter != "all"
    ensures l in ByStatus(s, filter) <==> l in s && StatusName(l.computed) == filter
  {
    FilterMembers(s, (x: Listed) => StatusName(x.computed) == filter, l);
  }

  /** A filter value that names no status keeps nothing. */
  lemma UnknownFilterEmpty(s: seq<Listed>, filter: string)
    requires filter !in {"all", "completed", "perluUpdate", "upcoming"}
    ensures ByStatus(s, filter) == []
  {
    assert forall st: Status :: StatusName(st) != filter;
  }

  function Key(l: Listed): Option<int> {
    PageInstant(l.activity)
  }

  /** The sort comparator: 0 when either instant is missing, else their difference. */
  function Compare(a: Listed, b: Listed): int {
    if Key(a).None? || Key(b).None? then 0 else Key(a).value - Key(b).value
  }

  /** Inserts x before the first entry that compares greater than it. */
  function Insert(s: seq<Listed>, x: Listed): (r: seq<Listed>)
    ensures multiset(r) == multiset(s) + multiset{x}
  {
    if |s| == 0 then [x]
    else if Compare(x, s[0]) < 0 then [x] + s
    else
      assert s == [s[0]] + s[1..];
      [s[0]] + Insert(s[1..], x)
  }

  /**
   * The stable sort by the comparator. The order among entries with a
   * missing instant depends on the engine's algorithm; this is insertion sort.
   */
  function SortByInstant(s: seq<Listed>): (r: seq<Listed>)
    ensures multiset(r) == multiset(s)
  {
    if |s| == 0 then []
    else
      assert s == s[..|s| - 1] + [s[|s| - 1]];
      Insert(SortByInstant(s[..|s| - 1]), s[|s| - 1])
  }

  predicate AllTimed(s: seq<Listed>) {
    forall i :: 0 <= i < |s| ==> Key(s[i]).Some?
  }

  /** Each entry's instant is at most the next one's. */
  predicate Ascending(s: seq<Listed>)
    requires AllTimed(s)
  {
    forall i :: 0 <= i < |s| - 1 ==> Key(s[i]).value <= Key(s[i + 1]).value
  }

  /** Ascending entry by entry means ascending between any two positions. */
  lemma {:induction false} AscendingPairs(s: seq<Listed>, i: nat, j: nat)
    requires AllTimed(s) && Ascending(s) && i <= j < |s|
    ensures Key(s[i]).value <= Key(s[j]).value
    decreases j - i
  {
    if i < j {
      AscendingPairs(s, i + 1, j);
    }
  }

  lemma {:induction false} InsertTimed(s: seq<Listed>, x: Listed)
    requires AllTimed(s) && Key(x).Some?
    ensures AllTimed(Insert(s, x))
  {
    var r := Insert(s, x);
    forall k | 0 <= k < |r| ensures Key(r[k]).Some? {
      assert r[k] in multiset(s) + multiset{x};
    }
  }

  lemma {:induction false} InsertAscending(s: seq<Listed>, x: Listed)
    requires AllTimed(s) && Ascending(s) && Key(x).Some?
    ensures AllTimed(Insert(s, x)) && Ascending(Insert(s, x))
  {
    InsertTimed(s, x);
    if |s| > 0 && Compare(x, s[0]) >= 0 {
      var t := Insert(s[1..], x);
      InsertAscending(s[1..], x);
      assert t[0] == x || t[0] == s[1];
      assert Insert(s, x) == [s[0]] + t;
    }
  }

  /** When every entry has an instant, the sort puts the entries in ascending order of instant. */
  lemma {:induction false} SortAscending(s: seq<Listed>)
    requires AllTimed(s)
    ensures AllTimed(SortByInstant(s)) && Ascending(SortByInstant(s))
  {
    if |s| > 0 {
      SortAscending(s[..|s| - 1]);
      InsertAscending(SortByInstant(s[..|s| - 1]), s[|s| - 1]);
    }
  }

  /** `listActivities`: computed status, status filter, then the sort. */
  function ListActivities(acts: seq<Activity>, now: int, filter: string): (r: seq<Listed>)
    ensures multiset(r) == multiset(ByStatus(WithComputed(acts, now), filter))
  {
    SortByInstant(ByStatus(WithComputed(acts, now), filter))
  }

  /** With every instant present, the list is ascending and holds exactly the entries the filter keeps. */
  lemma ListSorted(acts: seq<Activity>, now: int, filter: string)
    requires forall i :: 0 <= i < |acts| ==> PageInstant(acts[i]).Some?
    ensures AllTimed(ListActivities(acts, now, filter)) && Ascending(ListActivities(acts, now, filter))
  {
    var w := WithComputed(acts, now);
    var s := ByStatus(w, filter);
    forall i | 0 <= i < |s| ensures Key(s[i]).Some? {
      if filter != "all" {
        ByStatusMembers(w, filter, s[i]);
      }
      var k :| 0 <= k < |w| && w[k] == s[i];
      assert Key(s[i]) == PageInstant(acts[k]);
    }
    SortAscending(s);
  }

  // ---------------------------------------------------------- Outlook link

  /** The time the page's compose link falls back to when an activity has none. */
  const DefaultTime: string := "09:00"

  /**
   * The start of the page's compose link: the date at the hour and minute
   * `parseInt` reads from the time, with 09 and 00 standing in for a part
   * that is not a number. Without a time the clock of `DefaultTime` is used
   * (`DefaultClock` shows that is 9:00). The text handed to `new Date` is
   * valid iff the date is and the hour and minute are in range.
   */
  function LinkStart(date: string, time: string): Option<int> {
    var clock := if time != "" then LinkClock(time) else (9, 0);
    StartAt(date, clock.0, clock.1)
  }

  /** The hour and minute `parseInt` reads from the two parts of a time, 9 and 0 when not a number. */
  function LinkClock(time: string): (int, int) {
    var parts := Split(time, {':'});
    (ParseInt(parts[0]).GetOr(9), (if |parts| > 1 then ParseInt(parts[1]) else None).GetOr(0))
  }

  /** The instant of `${date}T${HH}:${MM}:00`, None for an Invalid Date. */
  function StartAt(date: string, h: int, m: int): (r: Option<int>)
    ensures r.Some? <==> ParseDate(date).Some? && 0 <= h < 24 && 0 <= m < 60
  {
    match ParseDate(date)
    case None => None
    case Some(day) => if 0 <= h < 24 && 0 <= m < 60 then Some(InstantOf(day, h * 60 + m)) else None
  }

  const HourMs: int := 60 * MinuteMs

  /** The page's `buildOutlookDeeplink`, as its ordered query parameters. */
  function PageDeeplink(a: Activity): (ps: seq<Param>)
    ensures |ps| == 7 + (if |a.invitees| > 0 then 1 else 0)
    ensures ps[5] == Param("startdt", At(LinkStart(a.date, a.time)))
    ensures ps[6] == Param("enddt", At(
      if LinkStart(a.date, a.time).Some? then Some(LinkStart(a.date, a.time).value + HourMs) else None))
    ensures ps[2] == Param("subject", Str(if a.title != "" then a.title else "Aktivitas Baru"))
    ensures ps[4] == Param("location", Str(a.location))
    ensures |a.invitees| > 0 ==> ps[7] == Param("attendees", Str(Join(a.invitees, ";")))
  {
    var start := LinkStart(a.date, a.time);
    var end := if start.Some? then Some(start.value + HourMs) else None;
    var body := (if a.topic != "" then "Topik: " + a.topic + "\n" else "")
      + (if a.description != "" then a.description else "Detail aktivitas")
      + "\n\n(Simulated Outlook entry)";
    [ Param("path", Str("/calendar/action/compose")),
      Param("rru", Str("addevent")),
      Param("subject", Str(if a.title != "" then a.title else "Aktivitas Baru")),
      Param("body", Str(body)),
      Param("location", Str(a.location)),
      Param("startdt", At(start)),
      Param("enddt", At(end)) ]
    + (if |a.invitees| > 0 then [Param("attendees", Str(Join(a.invitees, ";")))] else [])
  }

  /** For a valid `HH:MM` time, the link starts at the instant the page derives the status from. */
  lemma LinkStartAgrees(a: Activity)
    requires |a.date| == 10 && ParseTime(a.time).Some?
    ensures LinkStart(a.date, a.time) == PageInstant(a)
  {
    var t := a.time;
    assert |t| == 5 && t[2] == ':' && AllDigits(t[0..2]) && AllDigits(t[3..5]);
    var h, m := DecimalValue(t[0..2]), DecimalValue(t[3..5]);
    assert h < 24 && m < 60 && ParseTime(t) == Some(h * 60 + m);
    ClockOfTime(t);
    LinkStartAt(a.date, t, h, m);
    PageInstantAt(a);
  }

  /** The link starts at the date and the clock read from a non-empty time. */
  lemma LinkStartAt(date: string, t: string, h: int, m: int)
    requires t != "" && LinkClock(t) == (h, m) && 0 <= h < 24 && 0 <= m < 60
    ensures LinkStart(date, t) ==
      if ParseDate(date).Some? then Some(InstantOf(ParseDate(date).value, h * 60 + m)) else None
  {
  }

  /** With a ten-character date and a valid time, the page's instant is the two added up. */
  lemma PageInstantAt(a: Activity)
    requires |a.date| == 10 && ParseTime(a.time).Some?
    ensures PageInstant(a) ==
      if ParseDate(a.date).Some? then Some(InstantOf(ParseDate(a.date).value, ParseTime(a.time).value)) else None
  {
    ParseJoined(a.date, a.time);
  }

  /** `parseInt` reads the default time as hour 9 and minute 0. */
  lemma DefaultClock()
    ensures LinkClock(DefaultTime) == (9, 0)
  {
    DefaultClockOf(DefaultTime);
  }

  /** Any text spelling "09:00" is read as 9:00. */
  lemma DefaultClockOf(t: string)
    requires |t| == 5 && t[0] == '0' && t[1] == '9' && t[2] == ':' && t[3] == '0' && t[4] == '0'
    ensures LinkClock(t) == (9, 0)
  {
    assert AllDigits(t[0..2]) && DecimalValue(t[0..2]) == 9 by {
      TwoDigits(t[0..2]);
    }
    assert AllDigits(t[3..5]) && DecimalValue(t[3..5]) == 0 by {
      TwoDigits(t[3..5]);
    }
    ClockOfTime(t);
  }

  /** A valid `HH:MM` time is read as its hour and minute. */
  lemma ClockOfTime(t: string)
    requires |t| == 5 && t[2] == ':' && AllDigits(t[0..2]) && AllDigits(t[3..5])
    ensures LinkClock(t) == (DecimalValue(t[0..2]), DecimalValue(t[3..5]))
  {
    SplitTime(t);
    ClockOfDigits(t, t[0..2], t[3..5]);
  }

  /** Two digit runs split by the colon parse as their decimal values. */
  lemma ClockOfDigits(t: string, hh: string, mm: string)
    requires Split(t, {':'}) == [hh, mm]
    requires |hh| > 0 && AllDigits(hh) && |mm| > 0 && AllDigits(mm)
    ensures LinkClock(t) == (DecimalValue(hh), DecimalValue(mm))
  {
    ParseIntDigits(hh);
    ParseIntDigits(mm);
    ClockOfParts(t, hh, mm);
  }

  lemma ClockOfParts(t: string, hh: string, mm: string)
    requires Split(t, {':'}) == [hh, mm] && ParseInt(hh).Some? && ParseInt(mm).Some?
    ensures LinkClock(t) == (ParseInt(hh).value, ParseInt(mm).value)
  {
  }

  // ---------------------------------------------------------- list updates

  /** `handleCreateActivity`: the stored form of a new activity. */
  function Created(draft: Activity, freshId: int): (a: Activity)
    ensures a.id == freshId && a.status == Some("upcoming") && a.createdBy == "Current User"
    ensures a.proof.None? && a.mom.None? && !a.outlookAdded && a.outlookUrl == Compose(PageDeeplink(draft))
    ensures a.title == draft.title && a.date == draft.date && a.time == draft.time && a.customer == draft.customer
    ensures a.withCustomer == draft.withCustomer && a.invitees == draft.invitees && a.topic == draft.topic
  {
    draft.(id := freshId, status := Some("upcoming"), createdBy := "Current User",
           proof := None, mom := None, outlookAdded := false, outlookUrl := Compose(PageDeeplink(draft)))
  }

  /** A new activity is pending; without a date or time in the past it is computed upcoming. */
  lemma CreatedIsPending(draft: Activity, freshId: int, now: int)
    ensures !StoredCompleted(Created(draft, freshId))
    ensures PageInstant(draft).None? ==> ComputedStatus(Created(draft, freshId), now) == Upcoming
  {
    assert Lower("upcoming") == "upcoming";
  }

  /** `markOutlookAdded` on one activity: the flag is set and an existing link is kept. */
  function Marked(a: Activity): (r: Activity)
    ensures r.outlookAdded
    ensures a.outlookUrl != NoUrl ==> r.outlookUrl == a.outlookUrl
    ensures a.outlookUrl == NoUrl ==> r.outlookUrl == Compose(PageDeeplink(a))
    ensures r.(outlookAdded := a.outlookAdded, outlookUrl := a.outlookUrl) == a
  {
    a.(outlookAdded := true, outlookUrl := if a.outlookUrl != NoUrl then a.outlookUrl else Compose(PageDeeplink(a)))
  }

  /** Marking twice is marking once. */
  lemma MarkedIdempotent(a: Activity)
    ensures Marked(Marked(a)) == Marked(a)
  {
  }

  /** The activity list: the page's `activities` state. */
  class ActivityBoard {
    var activities: seq<Activity>

    constructor (seed: seq<Activity>)
      ensures activities == seed
    {
      activities := seed;
    }

    /** `handleCreateActivity`, with `Date.now()` given as `freshId`. */
    method Create(draft: Activity, freshId: int)
      modifies this
      ensures activities == old(activities) + [Created(draft, freshId)]
    {
      activities := activities + [Created(draft, freshId)];
    }

    /** `handleUpdateActivity`: every element with the updated id is replaced. */
    method Update(updated: Activity)
      modifies this
      ensures |activities| == |old(activities)|
      ensures forall i :: 0 <= i < |activities| ==>
        activities[i] == if old(activities)[i].id == updated.id then updated else old(activities)[i]
    {
      var before := activities;
      activities := seq(|before|, i requires 0 <= i < |before| =>
        if before[i].id == updated.id then updated else before[i]);
    }

    /** `handleDeleteActivity`. */
    method Delete(id: int)
      modifies this
      ensures activities == Filter(old(activities), (a: Activity) => a.id != id)
      ensures forall a :: a in activities <==> a in old(activities) && a.id != id
    {
      var before := activities;
      activities := Filter(activities, (a: Activity) => a.id != id);
      forall a ensures a in activities <==> a in before && a.id != id {
        FilterMembers(before, (x: Activity) => x.id != id, a);
      }
    }

    /** `markOutlookAdded`: the activities with that id are marked; the others are kept. */
    method MarkOutlookAdded(id: int)
      modifies this
      ensures |activities| == |old(activities)|
      ensures forall i :: 0 <= i < |activities| ==>
        activities[i] == if old(activities)[i].id == id then Marked(old(activities)[i]) else old(activities)[i]
    {
      var before := activities;
      activities := seq(|before|, i requires 0 <= i < |before| =>
        if before[i].id == id then Marked(before[i]) else before[i]);
    }

    /** `handleAddToOutlook`: the link opened (its stored one, else a new one), then the mark. */
    method AddToOutlook(a: Activity) returns (url: OutlookUrl)
      modifies this
      ensures url == if a.outlookUrl != NoUrl then a.outlookUrl else Compose(PageDeeplink(a))
      ensures |activities| == |old(activities)|
      ensures forall i :: 0 <= i < |activities| ==>
        activities[i] == if old(activities)[i].id == a.id then Marked(old(activities)[i]) else old(activities)[i]
    {
      url := if a.outlookUrl != NoUrl then a.outlookUrl else Compose(PageDeeplink(a));
      MarkOutlookAdded(a.id);
    }
  }
}
