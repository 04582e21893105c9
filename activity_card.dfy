/**
 * The activity card: the status badge it shows and its Outlook button. The
 * card derives its instant on its own, with a missing time read as `00:00`,
 * and tests the stored status for "completed" with its letter case.
 */
module ActivityCard {
  import opened Wrappers
  import opened Text
  import opened Dates
  import opened ActivitiesPage

  /** The time the card reads a missing time as. */
  const MidnightText: string := "00:00"

  /**
   * The instant of `${date}T${time || '00:00'}` in a zone `zone`
   * milliseconds east of UTC, None for an Invalid Date.
   */
  function CardInstantIn(a: Activity, zone: int): Option<int> {
    ParseInstantIn(a.date + "T" + (if a.time != "" then a.time else MidnightText), zone)
  }

  /** The card's instant at UTC. */
  function CardInstant(a: Activity): Option<int> {
    CardInstantIn(a, 0)
  }

  /** The instant lies before now; an Invalid Date is never before anything. */
  predicate CardPast(a: Activity, now: int) {
    CardInstant(a).Some? && CardInstant(a).value < now
  }

  /** The stored status is exactly "completed", letter case included. */
  predicate IsCompleted(a: Activity) {
    a.status == Some("completed")
  }

  /** The three badges of an activity. */
  datatype Badge = Selesai | PerluUpdateBadge | AkanDatang

  function BadgeText(b: Badge): string {
    match b
    case Selesai => "Selesai"
    case PerluUpdateBadge => "Perlu Update"
    case AkanDatang => "Akan Datang"
  }

  /** A badge chosen by priority: completed first, then past, then upcoming. */
  function BadgeOf(completed: bool, past: bool): (b: Badge)
    ensures b == Selesai <==> completed
    ensures b == PerluUpdateBadge <==> !completed && past
    ensures b == AkanDatang <==> !completed && !past
  {
    if completed then Selesai else if past then PerluUpdateBadge else AkanDatang
  }

  /** `getStatusBadge`. */
  function CardBadge(a: Activity, now: int): Badge {
    BadgeOf(IsCompleted(a), CardPast(a, now))
  }

  /** The label of the Outlook button. */
  function OutlookLabel(a: Activity): (s: string)
    ensures s == "Outlook" <==> a.outlookAdded
    ensures !a.outlookAdded ==> s == "Add to Outlook"
  {
    if a.outlookAdded then "Outlook" else "Add to Outlook"
  }

  /** The customer shown on the card's meta row, if any. */
  function CustomerLine(a: Activity): (r: Option<string>)
    ensures r.Some? <==> a.withCustomer && a.customer != ""
    ensures r.Some? ==> r.value == a.customer
  {
    if a.withCustomer && a.customer != "" then Some(a.customer) else None
  }

  /** The badge names the page's status when the status is stored in lower case. */
  function BadgeStatus(b: Badge): Status {
    match b
    case Selesai => Completed
    case PerluUpdateBadge => PerluUpdate
    case AkanDatang => Upcoming
  }

  /** A stored status already in lower case is "completed" for the card iff it is for the page. */
  lemma LowerCaseCompleted(a: Activity)
    requires a.status.None? || Lower(a.status.value) == a.status.value
    ensures IsCompleted(a) <==> StoredCompleted(a)
  {
  }

  /** With a time present, the card and the page read the same instant in every zone. */
  lemma CardInstantWithTime(a: Activity, zone: int)
    requires a.time != "" && (a.date != "" || |a.time| == 5)
    ensures CardInstantIn(a, zone) == PageInstantIn(a, zone)
  {
    if a.date == "" {
      assert |a.date + "T" + a.time| == 6;
    }
  }

  /**
   * Without a time, the card reads a ten-character date as local midnight
   * and the page as UTC midnight: valid together, and the card's instant
   * lies `zone` before the page's.
   */
  lemma CardInstantWithoutTime(a: Activity, zone: int)
    requires a.time == "" && |a.date| == 10
    ensures CardInstantIn(a, zone).Some? <==> PageInstantIn(a, zone).Some?
    ensures CardInstantIn(a, zone).Some? ==>
      CardInstantIn(a, zone).value == PageInstantIn(a, zone).value - zone
  {
    assert a.date + "T" + MidnightText == a.date + "T00:00";
    DateOnlyIsMidnight(a.date, zone);
  }

  /**
   * East of UTC, an activity with a date and no time is already past on
   * the card for `zone` milliseconds during which the page's instant is
   * not yet reached, so the page still counts it as upcoming.
   */
  lemma CardAheadOfPage(a: Activity, zone: int, now: int)
    requires a.time == "" && |a.date| == 10 && CardInstantIn(a, zone).Some?
    requires CardInstantIn(a, zone).value < now <= CardInstantIn(a, zone).value + zone
    ensures PageInstantIn(a, zone).Some? && now <= PageInstantIn(a, zone).value
  {
    CardInstantWithoutTime(a, zone);
  }

  /** The intended page reading and the card's agree on every activity in every zone. */
  lemma CardMatchesLocalPage(a: Activity, zone: int)
    ensures CardInstantIn(a, zone) == LocalPageInstantIn(a, zone)
  {
    if a.date == "" {
      var s := a.date + "T" + (if a.time != "" then a.time else MidnightText);
      assert s[0] == 'T';
      if |s| == 10 {
        assert s[0..4][0] == 'T';
      } else if |s| > 11 {
        assert s[..10][0..4][0] == 'T';
      }
    }
  }

  /**
   * When the instants agree and the status is stored in lower case, the
   * card's badge is the page's computed status.
   */
  lemma CardMatchesPage(a: Activity, now: int)
    requires CardInstant(a) == PageInstant(a)
    requires a.status.None? || Lower(a.status.value) == a.status.value
    ensures BadgeStatus(CardBadge(a, now)) == ComputedStatus(a, now)
  {
    LowerCaseCompleted(a);
  }

  /** A status stored as "Completed" is completed for the page but not for the card. */
  lemma CapitalisedCompletedDiffers(a: Activity)
    requires a.status == Some("Completed")
    ensures StoredCompleted(a) && !IsCompleted(a)
  {
    assert Lower("Completed") == "completed" by {
      assert Lower("Completed")[0] == 'c';
    }
  }
}
