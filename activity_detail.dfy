/**
 * The activity detail dialog: whether the activity is past, the seven-day
 * window in which its proof photo and minutes of meeting may be uploaded,
 * the buttons it offers and the activity it hands back on save.
 */
module ActivityDetail {
  import opened Wrappers
  import opened Text
  import opened Dates
  import opened ActivitiesPage
  import opened ActivityCard

  /** The days after an activity during which its documents stay editable. */
  const EditWindowDays: int := 7

  /**
   * The instant of `${date}T${time}`: unlike the page and the card, a missing
   * time is joined as it is, which is an Invalid Date.
   */
  function ModalInstant(a: Activity): Option<int> {
    ParseInstant(a.date + "T" + a.time)
  }

  /** `activityDateTime < now`; an Invalid Date is never past. */
  predicate ModalPast(a: Activity, now: int) {
    ModalInstant(a).Some? && ModalInstant(a).value < now
  }

  /** `Math.ceil(ms / day)` for a non-negative duration: the whole days that cover it. */
  function CeilDays(ms: nat): (d: nat)
    ensures d * DayMs >= ms
    ensures d > 0 ==> (d - 1) * DayMs < ms
  {
    (ms + DayMs - 1) / DayMs
  }

  /** `diffDays`: the days covering the distance between now and the instant, None when it is NaN. */
  function DiffDays(a: Activity, now: int): Option<nat> {
    match ModalInstant(a)
    case None => None
    case Some(t) => Some(CeilDays(if now >= t then now - t else t - now))
  }

  /** `isWithin7Days`; NaN compares false. */
  predicate Within7Days(a: Activity, now: int) {
    DiffDays(a, now).Some? && DiffDays(a, now).value <= EditWindowDays
  }

  /** `canEditDocs`. */
  predicate CanEditDocs(a: Activity, now: int) {
    ModalPast(a, now) && a.withCustomer && Within7Days(a, now)
  }

  /** `showDocSection`. */
  predicate ShowDocSection(a: Activity, now: int) {
    ModalPast(a, now) && a.withCustomer
  }

  /**
   * Documents can be edited iff the activity involves a customer, has a valid
   * instant, and now lies after it by at most seven whole days.
   */
  lemma CanEditWindow(a: Activity, now: int)
    ensures CanEditDocs(a, now) <==>
      a.withCustomer && ModalInstant(a).Some?
      && ModalInstant(a).value < now <= ModalInstant(a).value + EditWindowDays * DayMs
  {
    if ModalInstant(a).Some? && ModalInstant(a).value < now {
      var t := ModalInstant(a).value;
      var d := CeilDays(now - t);
      if d <= EditWindowDays {
        assert d * DayMs <= EditWindowDays * DayMs;
      } else {
        assert (d - 1) * DayMs >= EditWindowDays * DayMs;
      }
    }
  }

  /** Whoever may edit the documents also sees their section. */
  lemma CanEditShowsSection(a: Activity, now: int)
    requires CanEditDocs(a, now)
    ensures ShowDocSection(a, now)
  {
  }

  /** The remaining-days badge: `7 - diffDays`. */
  function RemainingDays(a: Activity, now: int): int
    requires CanEditDocs(a, now)
  {
    EditWindowDays - DiffDays(a, now).value
  }

  /** While documents are editable, between zero and six days remain. */
  lemma RemainingDaysBound(a: Activity, now: int)
    requires CanEditDocs(a, now)
    ensures 0 <= RemainingDays(a, now) <= EditWindowDays - 1
  {
    var t := ModalInstant(a).value;
    assert now - t > 0;
    assert DiffDays(a, now).value > 0;
  }

  /** Without a time the dialog's instant is invalid, so the activity is never past nor editable. */
  lemma NoTimeNeverEditable(a: Activity, now: int)
    requires a.time == ""
    ensures !ModalPast(a, now) && !CanEditDocs(a, now) && !ShowDocSection(a, now)
  {
    MissingTimeIsInvalid(a.date);
    assert a.date + "T" + a.time == a.date + "T";
  }

  /** With a time present, the dialog, the card and the page read the same instant. */
  lemma ModalInstantWithTime(a: Activity)
    requires a.time != "" && (a.date != "" || |a.time| == 5)
    ensures ModalInstant(a) == CardInstant(a) == PageInstant(a)
  {
    CardInstantWithTime(a, 0);
  }

  /** The header badge, with the same priority as the card but the dialog's own instant. */
  function HeaderBadge(a: Activity, now: int): Badge {
    BadgeOf(IsCompleted(a), ModalPast(a, now))
  }

  /** With a time present the header badge is the card's badge. */
  lemma HeaderMatchesCard(a: Activity, now: int)
    requires a.time != "" && (a.date != "" || |a.time| == 5)
    ensures HeaderBadge(a, now) == CardBadge(a, now)
  {
    ModalInstantWithTime(a);
  }

  /** Without a time a pending activity is upcoming in the dialog, whatever the card shows. */
  lemma HeaderWithoutTime(a: Activity, now: int)
    requires a.time == "" && !IsCompleted(a)
    ensures HeaderBadge(a, now) == AkanDatang
  {
    NoTimeNeverEditable(a, now);
  }

  /** The save button is enabled once a proof or a minutes file is present. */
  predicate SaveEnabled(proof: Option<string>, mom: Option<string>) {
    proof.Some? || mom.Some?
  }

  /** The save button's caption. */
  function SaveCaption(a: Activity): (s: string)
    ensures IsCompleted(a) ==> s == "Simpan Perubahan"
    ensures !IsCompleted(a) ==> s == "Simpan & Tandai Selesai"
  {
    if IsCompleted(a) then "Simpan Perubahan" else "Simpan & Tandai Selesai"
  }

  /** The manual mark-complete button is offered only for a pending activity without a customer. */
  predicate MarkCompleteOffered(a: Activity) {
    !IsCompleted(a) && !a.withCustomer
  }

  /** `handleSaveProofAndMom`: the activity with the new files and completed. */
  function SavedDocs(a: Activity, proof: Option<string>, mom: Option<string>): (r: Activity)
    ensures r.proof == proof && r.mom == mom && r.status == Some("completed")
    ensures r.(proof := a.proof, mom := a.mom, status := a.status) == a
  {
    a.(proof := proof, mom := mom, status := Some("completed"))
  }

  /** `handleMarkComplete`: only the status changes. */
  function MarkedComplete(a: Activity): (r: Activity)
    ensures r.status == Some("completed") && r.(status := a.status) == a
  {
    a.(status := Some("completed"))
  }

  /** A saved or marked activity is completed for the page, the card and the dialog alike. */
  lemma SavedIsCompleted(a: Activity, proof: Option<string>, mom: Option<string>, now: int)
    ensures ComputedStatus(SavedDocs(a, proof, mom), now) == Completed
    ensures ComputedStatus(MarkedComplete(a), now) == Completed
    ensures HeaderBadge(SavedDocs(a, proof, mom), now) == Selesai
    ensures CardBadge(MarkedComplete(a), now) == Selesai && !MarkCompleteOffered(MarkedComplete(a))
  {
    assert Lower("completed") == "completed";
  }

  /** The dialog's own state: the proof and minutes files shown, seeded from the activity. */
  class DetailDialog {
    const activity: Activity
    var proof: Option<string>
    var mom: Option<string>

    constructor (a: Activity)
      ensures activity == a && proof == a.proof && mom == a.mom
    {
      activity := a;
      proof := a.proof;
      mom := a.mom;
    }

    /**
     * `handleProofChange` (or `handleMomChange` when `isProof` is false): a
     * picked file replaces the current one. The file input is disabled
     * outside the edit window.
     */
    method PickFile(isProof: bool, file: Option<string>, now: int)
      modifies this
      ensures var take := CanEditDocs(activity, now) && file.Some?;
        proof == (if take && isProof then file else old(proof))
        && mom == (if take && !isProof then file else old(mom))
    {
      if CanEditDocs(activity, now) && file.Some? {
        if isProof {
          proof := file;
        } else {
          mom := file;
        }
      }
    }

    /** The remove button of a file box, shown only inside the edit window. */
    method RemoveFile(isProof: bool, now: int)
      modifies this
      ensures var act := CanEditDocs(activity, now);
        proof == (if act && isProof then None else old(proof))
        && mom == (if act && !isProof then None else old(mom))
    {
      if CanEditDocs(activity, now) {
        if isProof {
          proof := None;
        } else {
          mom := None;
        }
      }
    }

    /** The save button: offered inside the edit window, enabled with a file present. */
    method Save(now: int) returns (r: Option<Activity>)
      ensures r.Some? <==> CanEditDocs(activity, now) && SaveEnabled(proof, mom)
      ensures r.Some? ==> r.value == SavedDocs(activity, proof, mom)
    {
      if CanEditDocs(activity, now) && SaveEnabled(proof, mom) {
        r := Some(SavedDocs(activity, proof, mom));
      } else {
        r := None;
      }
    }

    /** The mark-complete button, offered for a pending activity without a customer. */
    method MarkComplete() returns (r: Option<Activity>)
      ensures r.Some? <==> MarkCompleteOffered(activity)
      ensures r.Some? ==> r.value == MarkedComplete(activity)
    {
      if MarkCompleteOffered(activity) {
        r := Some(MarkedComplete(activity));
      } else {
        r := None;
      }
    }
  }
}
