/**
 * The activity form: the state it opens with, its validation, its field
 * edits, its submission and the Outlook compose link it previews.
 */
module ActivityForm {
  import opened Wrappers
  import opened Text
  import opened Dates
  import opened Seqs
  import opened ActivitiesPage

  /** A customer: a record with a name, or a plain string (a locked customer may be either). */
  datatype Customer = Record(name: string) | Named(text: string)

  /** An invitee of the meeting. */
  datatype Invitee = Invitee(name: string, email: string)

  /** JavaScript truthiness of a customer slot: an object always, a string when non-empty. */
  predicate Truthy(c: Option<Customer>) {
    c.Some? && (c.value.Record? || c.value.text != "")
  }

  /** The form's fields; missing text is "". */
  datatype Form = Form(
    title: string, kind: string, date: string, time: string, duration: int,
    location: string, topic: string, description: string, outcome: string, followUpDate: string,
    withCustomer: bool, customer: Option<Customer>, invitees: seq<Invitee>)

  /**
   * The data a form is opened with; missing text is "", a missing duration 0,
   * and `invitees` is None when it is not an array.
   */
  datatype Draft = Draft(
    title: string, kind: string, date: string, time: string, duration: int,
    location: string, topic: string, description: string, outcome: string, followUpDate: string,
    withCustomer: bool, customer: Option<Customer>, invitees: Option<seq<Invitee>>)

  const FormTime: string := "09:00"
  const FormDuration: int := 60

  /** `EMPTY_FORM`; `today` is the date part of the clock when the module was loaded. */
  function EmptyForm(today: string): Form {
    Form("", "", today, FormTime, FormDuration, "", "", "", "", "", false, None, [])
  }

  /** `buildFormState`: the empty form overridden by the data, with the defaults restored where falsy. */
  function BuildFormState(data: Option<Draft>, today: string): (f: Form)
    ensures data.None? ==> f == EmptyForm(today)
    ensures data.Some? ==> f.withCustomer == (data.value.withCustomer || Truthy(data.value.customer))
    ensures data.Some? ==> f.invitees == data.value.invitees.GetOr([])
    ensures data.Some? ==> f.title == data.value.title && f.location == data.value.location
    ensures data.Some? ==> var d := data.value;
      && f.kind == d.kind && f.topic == d.topic && f.description == d.description
      && f.outcome == d.outcome && f.followUpDate == d.followUpDate
    ensures data.Some? ==> var d := data.value;
      && f.date == (if d.date != "" then d.date else today)
      && f.time == (if d.time != "" then d.time else FormTime)
      && f.duration == (if d.duration != 0 then d.duration else FormDuration)
    ensures data.Some? ==> f.customer == (if Truthy(data.value.customer) then data.value.customer else None)
    ensures today != "" ==> f.date != ""
    ensures f.time != "" && f.duration != 0
    ensures f.customer.None? || Truthy(f.customer)
  {
    match data
    case None => EmptyForm(today)
    case Some(d) =>
      Form(d.title, d.kind,
        if d.date != "" then d.date else today,
        if d.time != "" then d.time else FormTime,
        if d.duration != 0 then d.duration else FormDuration,
        d.location, d.topic, d.description, d.outcome, d.followUpDate,
        d.withCustomer || Truthy(d.customer),
        if Truthy(d.customer) then d.customer else None,
        d.invitees.GetOr([]))
  }

  /** A form handed back as data. */
  function DraftOf(f: Form): Draft {
    Draft(f.title, f.kind, f.date, f.time, f.duration, f.location, f.topic, f.description,
      f.outcome, f.followUpDate, f.withCustomer, f.customer, Some(f.invitees))
  }

  /** Opening a form with a form it built gives that form again. */
  lemma BuildFormStable(data: Option<Draft>, today: string)
    requires today != ""
    ensures var f := BuildFormState(data, today); BuildFormState(Some(DraftOf(f)), today) == f
  {
  }

  /** The data a locked customer opens the form with: `{ withCustomer: true, customer }`. */
  function LockedDraft(c: Customer): Draft {
    Draft("", "", "", "", 0, "", "", "", "", "", true, Some(c), None)
  }

  /** What the form opens with: the initial data, else the locked customer, else nothing. */
  function OpeningData(initial: Option<Draft>, locked: Option<Customer>): Option<Draft> {
    if initial.Some? then initial else if Truthy(locked) then Some(LockedDraft(locked.value)) else None
  }

  /** A locked customer opens the empty form with that customer selected. */
  lemma LockedOpening(locked: Option<Customer>, today: string)
    requires Truthy(locked)
    ensures BuildFormState(OpeningData(None, locked), today)
      == EmptyForm(today).(withCustomer := true, customer := locked)
  {
  }

  // ------------------------------------------------------------ validation

  predicate InRange(c: char, lo: char, hi: char) {
    lo <= c <= hi
  }

  /** `/^([01]?[0-9]|2[0-3]):[0-5][0-9]$/`. */
  predicate IsFormTime(s: string) {
    || (|s| == 4 && IsDigit(s[0]) && s[1] == ':' && InRange(s[2], '0', '5') && IsDigit(s[3]))
    || (|s| == 5 && s[2] == ':' && InRange(s[3], '0', '5') && IsDigit(s[4])
        && ((InRange(s[0], '0', '1') && IsDigit(s[1])) || (s[0] == '2' && InRange(s[1], '0', '3'))))
  }

  /** A five-character time passes the form's pattern iff it is a valid `HH:MM` clock time. */
  lemma FormTimeIsClock(s: string)
    requires |s| == 5
    ensures IsFormTime(s) <==> ParseTime(s).Some?
  {
    assert s[0..2][0] == s[0] && s[0..2][1] == s[1] && s[3..5][0] == s[3] && s[3..5][1] == s[4];
    if IsDigit(s[0]) && IsDigit(s[1]) && IsDigit(s[3]) && IsDigit(s[4]) {
      TwoDigits(s[0..2]);
      TwoDigits(s[3..5]);
    }
  }

  /** The outcomes that need a follow-up date. */
  const FollowUpOutcomes: seq<string> := ["Follow-up Required", "Proposal Sent", "Needs More Info"]

  /** The keys of the form's fields, which are also the keys of its error map. */
  datatype Field = Title | Kind | Date | Time | Duration | Location | Topic | Description
    | Outcome | FollowUpDate | CustomerField

  /** The fields that hold text. */
  predicate IsText(field: Field) {
    field != Duration && field != CustomerField
  }

  /** The messages `validateForm` records, one per failed check. */
  datatype Problem = TitleRequired | KindRequired | DateRequired | TimeRequired | TimeMalformed
    | LocationRequired | TopicRequired | CustomerRequired | FollowUpRequired

  /** The text shown under the field for each message. */
  function MessageText(p: Problem): (s: string)
    ensures |s| > 0
  {
    match p
    case TitleRequired => "Judul aktivitas wajib diisi"
    case KindRequired => "Tipe aktivitas wajib dipilih"
    case DateRequired => "Tanggal wajib diisi"
    case TimeRequired => "Waktu wajib diisi"
    case TimeMalformed => "Format waktu tidak valid (HH:mm)"
    case LocationRequired => "Lokasi wajib diisi"
    case TopicRequired => "Topik wajib diisi"
    case CustomerRequired => "Customer wajib dipilih"
    case FollowUpRequired => "Tanggal follow-up wajib diisi untuk outcome ini"
  }

  /** The error `validateForm` records under a key, if any. */
  function ErrorFor(f: Form, key: Field): (e: Option<Problem>) {
    match key
    case Title => if IsBlank(f.title) then Some(TitleRequired) else None
    case Kind => if f.kind == "" then Some(KindRequired) else None
    case Date => if f.date == "" then Some(DateRequired) else None
    case Time =>
      if f.time == "" then Some(TimeRequired)
      else if !IsFormTime(f.time) then Some(TimeMalformed)
      else None
    case Location => if IsBlank(f.location) then Some(LocationRequired) else None
    case Topic => if IsBlank(f.topic) then Some(TopicRequired) else None
    case CustomerField => if f.withCustomer && !Truthy(f.customer) then Some(CustomerRequired) else None
    case FollowUpDate =>
      if f.outcome != "" && f.followUpDate == "" && f.outcome in FollowUpOutcomes
      then Some(FollowUpRequired)
      else None
    case _ => None
  }

  /** No key carries an error. */
  predicate Valid(f: Form) {
    forall key: Field :: ErrorFor(f, key).None?
  }

  /** The form is valid iff every required field is filled and the time is well formed. */
  lemma ValidIff(f: Form)
    ensures Valid(f) <==>
      !IsBlank(f.title) && f.kind != "" && f.date != "" && IsFormTime(f.time)
      && !IsBlank(f.location) && !IsBlank(f.topic)
      && (f.withCustomer ==> Truthy(f.customer))
      && (f.outcome in FollowUpOutcomes ==> f.followUpDate != "")
  {
    assert Valid(f) ==>
      ErrorFor(f, Title).None? && ErrorFor(f, Kind).None? && ErrorFor(f, Date).None?
      && ErrorFor(f, Time).None? && ErrorFor(f, Location).None? && ErrorFor(f, Topic).None?
      && ErrorFor(f, CustomerField).None? && ErrorFor(f, FollowUpDate).None?;
  }

  /** The error map `validateForm` fills in, one check after another. */
  function ErrorMap(f: Form): map<Field, Problem> {
    var e0: map<Field, Problem> := map[];
    var e1 := if IsBlank(f.title) then e0[Title := TitleRequired] else e0;
    var e2 := if f.kind == "" then e1[Kind := KindRequired] else e1;
    var e3 := if f.date == "" then e2[Date := DateRequired] else e2;
    var e4 :=
      if f.time == "" then e3[Time := TimeRequired]
      else if !IsFormTime(f.time) then e3[Time := TimeMalformed]
      else e3;
    var e5 := if IsBlank(f.location) then e4[Location := LocationRequired] else e4;
    var e6 := if IsBlank(f.topic) then e5[Topic := TopicRequired] else e5;
    var e7 := if f.withCustomer && !Truthy(f.customer) then e6[CustomerField := CustomerRequired] else e6;
    if f.outcome != "" && f.followUpDate == "" && f.outcome in FollowUpOutcomes
    then e7[FollowUpDate := FollowUpRequired]
    else e7
  }

  /** The map holds exactly the keys that carry an error, each with its message. */
  lemma ErrorMapExact(f: Form)
    ensures forall key :: key in ErrorMap(f) <==> ErrorFor(f, key).Some?
    ensures forall key :: key in ErrorMap(f) ==> ErrorMap(f)[key] == ErrorFor(f, key).value
  {
    forall key: Field
      ensures key in ErrorMap(f) <==> ErrorFor(f, key).Some?
      ensures key in ErrorMap(f) ==> ErrorMap(f)[key] == ErrorFor(f, key).value
    {
      ErrorAt(f, key);
    }
  }

  /** One key of the error map. */
  lemma ErrorAt(f: Form, key: Field)
    ensures key in ErrorMap(f) <==> ErrorFor(f, key).Some?
    ensures key in ErrorMap(f) ==> ErrorMap(f)[key] == ErrorFor(f, key).value
  {
    if key == Title || key == Kind || key == Date || key == Time || key == Duration {
      ErrorAtFirst(f, key);
    } else {
      ErrorAtLast(f, key);
    }
  }

  /** The keys checked first. */
  lemma ErrorAtFirst(f: Form, key: Field)
    requires key == Title || key == Kind || key == Date || key == Time || key == Duration
    ensures key in ErrorMap(f) <==> ErrorFor(f, key).Some?
    ensures key in ErrorMap(f) ==> ErrorMap(f)[key] == ErrorFor(f, key).value
  {
    match key
    case Title =>
    case Kind =>
    case Date =>
    case Time =>
    case Duration =>
  }

  /** The keys checked last, and those never checked. */
  lemma ErrorAtLast(f: Form, key: Field)
    requires key != Title && key != Kind && key != Date && key != Time && key != Duration
    ensures key in ErrorMap(f) <==> ErrorFor(f, key).Some?
    ensures key in ErrorMap(f) ==> ErrorMap(f)[key] == ErrorFor(f, key).value
  {
    match key
    case Location =>
    case Topic =>
    case Description =>
    case Outcome =>
    case FollowUpDate =>
    case CustomerField =>
  }

  /** `Object.keys(newErrors).length === 0` iff the form is valid. */
  lemma ErrorMapEmpty(f: Form)
    ensures |ErrorMap(f)| == 0 <==> Valid(f)
  {
    ErrorMapExact(f);
    if |ErrorMap(f)| != 0 {
      var key :| key in ErrorMap(f);
    }
  }

  /** `{ ...prev, [field]: value }` for a text field. */
  function WithText(f: Form, field: Field, v: string): Form
    requires IsText(field)
  {
    match field
    case Title => f.(title := v)
    case Kind => f.(kind := v)
    case Date => f.(date := v)
    case Time => f.(time := v)
    case Location => f.(location := v)
    case Topic => f.(topic := v)
    case Description => f.(description := v)
    case Outcome => f.(outcome := v)
    case FollowUpDate => f.(followUpDate := v)
  }

  /** Editing one field leaves the error of every other key as it was. */
  lemma EditKeepsOtherErrors(f: Form, field: Field, v: string, key: Field)
    requires IsText(field) && key != field
    requires field == Outcome ==> key != FollowUpDate
    ensures ErrorFor(WithText(f, field, v), key) == ErrorFor(f, key)
  {
  }

  /**
   * The time input's filter: only digits and ':' are kept, and a bare pair of
   * digits gets its ':' appended.
   */
  function FormatTime(raw: string): (r: string)
    ensures forall i :: 0 <= i < |r| ==> IsDigit(r[i]) || r[i] == ':'
  {
    var kept := Filter(raw, (c: char) => IsDigit(c) || c == ':');
    if |kept| == 2 && ':' !in kept then kept + ":" else kept
  }

  /** Formatting what the filter already produced changes nothing. */
  lemma FormatTimeIdempotent(raw: string)
    ensures FormatTime(FormatTime(raw)) == FormatTime(raw)
  {
    var p := (c: char) => IsDigit(c) || c == ':';
    var r := FormatTime(raw);
    FilterAllPass(r, p);
    assert Filter(r, p) == r;
    var kept := Filter(raw, p);
    if |kept| == 2 && ':' !in kept {
      assert r[2] == ':';
    }
  }

  // -------------------------------------------------------------- Outlook

  /** The form's compose link, or "#". */
  datatype FormLink =
    | Hash
    | Deeplink(subject: string, body: string, location: string, start: int, end: int, attendees: Option<string>)

  /** The link's query parameters, in the order the URL lists them. */
  function LinkParams(link: FormLink): (ps: seq<Param>)
    requires link.Deeplink?
    ensures |ps| == 7 + (if link.attendees.Some? then 1 else 0)
    ensures ps[5] == Param("startdt", At(Some(link.start))) && ps[6] == Param("enddt", At(Some(link.end)))
  {
    [ Param("path", Str("/calendar/action/compose")),
      Param("rru", Str("addevent")),
      Param("subject", Str(link.subject)),
      Param("body", Str(link.body)),
      Param("location", Str(link.location)),
      Param("startdt", At(Some(link.start))),
      Param("enddt", At(Some(link.end))) ]
    + (if link.attendees.Some? then [Param("attendees", Str(link.attendees.value))] else [])
  }

  /**
   * `Number` of the hour and minute parts of the time, None for NaN or a
   * missing part. The time input keeps only digits and ':', so the parts are
   * digit strings or empty.
   */
  function ClockParts(time: string): (Option<nat>, Option<nat>) {
    var parts := Split(time, {':'});
    (NumberOf(parts[0]), if |parts| > 1 then NumberOf(parts[1]) else None)
  }

  /** `hours || 9` and `minutes || 0`, as written: an hour of 0 is falsy and becomes 9. */
  function ClockAsWritten(time: string): (int, int) {
    var parts := ClockParts(time);
    (if parts.0.None? || parts.0.value == 0 then 9 else parts.0.value, parts.1.GetOr(0))
  }

  /** The intended reading: only a hour that is not a number defaults to 9. */
  function Clock(time: string): (int, int) {
    var parts := ClockParts(time);
    (parts.0.GetOr(9), parts.1.GetOr(0))
  }

  /** The start of the form's link: None when `new Date` gives an Invalid Date and `toISOString` throws. */
  function FormStart(f: Form): Option<int> {
    var clock := Clock(f.time);
    StartAt(f.date, clock.0, clock.1)
  }

  /** `activity.customer?.name || activity.customer || '-'` in the link's body. */
  function CustomerText(c: Option<Customer>): string {
    match c
    case None => "-"
    case Some(Record(n)) => if n != "" then n else "[object Object]"
    case Some(Named(s)) => if s != "" then s else "-"
  }

  function OrDash(s: string): string {
    if s != "" then s else "-"
  }

  /** The link's body: the template, trimmed. */
  function FormBody(f: Form): string {
    Trim("\nTopik: " + OrDash(f.topic) + "\nCustomer: " + CustomerText(f.customer)
      + "\nLokasi: " + OrDash(f.location) + "\nHasil: " + OrDash(f.outcome) + "\n\n"
      + (if f.description != "" then f.description else "Tidak ada deskripsi") + "\n      ")
  }

  /** `i.email || i.name`. */
  function Address(i: Invitee): string {
    if i.email != "" then i.email else i.name
  }

  function Addresses(invitees: seq<Invitee>): (r: seq<string>)
    ensures |r| == |invitees| && forall k :: 0 <= k < |r| ==> r[k] == Address(invitees[k])
  {
    seq(|invitees|, k requires 0 <= k < |invitees| => Address(invitees[k]))
  }

  /** The form's `buildOutlookDeeplink`, with the hour read as intended. */
  function FormDeeplink(f: Form): (r: FormLink)
    ensures r.Deeplink? <==> f.date != "" && f.time != "" && FormStart(f).Some?
    ensures r.Deeplink? ==> r.start == FormStart(f).value
    ensures r.Deeplink? ==> r.end - r.start == (if f.duration != 0 then f.duration else FormDuration) * MinuteMs
    ensures r.Deeplink? ==> r.subject == (if f.title != "" then f.title else "Aktivitas AM") && r.location == f.location
    ensures r.Deeplink? ==> (r.attendees.Some? <==> |f.invitees| > 0)
    ensures r.Deeplink? && |f.invitees| > 0 ==> r.attendees == Some(Join(Addresses(f.invitees), ";"))
  {
    if f.date == "" || f.time == "" then Hash
    else match FormStart(f)
      case None => Hash
      case Some(start) =>
        var minutes := if f.duration != 0 then f.duration else FormDuration;
        Deeplink(if f.title != "" then f.title else "Aktivitas AM", FormBody(f), f.location,
          start, start + minutes * MinuteMs,
          if |f.invitees| > 0 then Some(Join(Addresses(f.invitees), ";")) else None)
  }

  /** Two digit parts split by the colon are read as their values. */
  lemma ClockPartsOf(t: string)
    requires |t| == 5 && t[2] == ':' && AllDigits(t[0..2]) && AllDigits(t[3..5])
    ensures ClockParts(t) == (Some(DecimalValue(t[0..2])), Some(DecimalValue(t[3..5])))
  {
    SplitTime(t);
    ClockPartsOfDigits(t, t[0..2], t[3..5]);
  }

  lemma ClockPartsOfDigits(t: string, hh: string, mm: string)
    requires Split(t, {':'}) == [hh, mm]
    requires |hh| > 0 && AllDigits(hh) && |mm| > 0 && AllDigits(mm)
    ensures ClockParts(t) == (Some(DecimalValue(hh)), Some(DecimalValue(mm)))
  {
    NumberOfDigits(hh);
    NumberOfDigits(mm);
  }

  /** With a valid `HH:MM` time, the link starts at the instant the page reads from the same date and time. */
  lemma FormStartIsInstant(f: Form)
    requires |f.date| == 10 && ParseTime(f.time).Some?
    ensures FormStart(f) == ParseInstant(f.date + "T" + f.time)
  {
    FormStartDay(f, ParseTime(f.time).value);
    JoinedInstant(f.date, f.time, ParseTime(f.time).value);
  }

  /** With an accepted time, the link starts at that minute of the form's date. */
  lemma FormStartDay(f: Form, minutes: nat)
    requires ParseTime(f.time) == Some(minutes)
    ensures FormStart(f) == DayInstant(f.date, minutes)
  {
    var t := f.time;
    var h, m := DecimalValue(t[0..2]), DecimalValue(t[3..5]);
    ParseTimeParts(t);
    assert FormStart(f) == StartAt(f.date, h, m) by {
      ClockOfNumbers(t, h, m);
    }
    StartAtClock(f.date, h, m);
    DayInstantOf(f.date, minutes, h * 60 + m);
  }

  lemma DayInstantOf(date: string, a: int, b: int)
    requires a == b
    ensures DayInstant(date, a) == DayInstant(date, b)
  {
  }

  /** The instant of a minute of a date's day; None for an invalid date. */
  function DayInstant(date: string, minutes: int): Option<int> {
    if ParseDate(date).Some? then Some(InstantOf(ParseDate(date).value, minutes)) else None
  }

  /** A date and an accepted time joined by 'T' read as that minute of that day. */
  lemma JoinedInstant(date: string, t: string, minutes: nat)
    requires |date| == 10 && ParseTime(t) == Some(minutes)
    ensures ParseInstant(date + "T" + t) == DayInstant(date, minutes)
  {
    ParseJoined(date, t);
  }

  /** A time the page accepts splits into its hour and minute, read as numbers. */
  lemma ParseTimeParts(t: string)
    requires ParseTime(t).Some?
    ensures |t| == 5
    ensures var h, m := DecimalValue(t[0..2]), DecimalValue(t[3..5]);
      ClockParts(t) == (Some(h), Some(m)) && h < 24 && m < 60 && ParseTime(t) == Some(h * 60 + m)
  {
    assert |t| == 5 && t[2] == ':' && AllDigits(t[0..2]) && AllDigits(t[3..5]);
    ClockPartsOf(t);
  }

  /** The `HH:MM` text the link is built from: an `H:MM` time gains the leading zero of `padStart(2, '0')`. */
  function PaddedTime(s: string): string {
    if |s| == 4 then "0" + s else s
  }

  /**
   * A time the form accepts, `H:MM` or `HH:MM`, is read as an in-range
   * clock, the same minute of the day as its padded `HH:MM` text.
   */
  lemma FormTimeClock(s: string)
    requires IsFormTime(s)
    ensures ParseTime(PaddedTime(s)).Some?
    ensures Clock(s).0 < 24 && Clock(s).1 < 60
    ensures Clock(s).0 * 60 + Clock(s).1 == ParseTime(PaddedTime(s)).value
  {
    if |s| == 5 {
      FormTimeIsClock(s);
      ParseTimeParts(s);
    } else {
      ShortTimeParts(s);
    }
  }

  /** An `H:MM` time: its hour digit and its two minute digits. */
  lemma ShortTimeParts(s: string)
    requires |s| == 4 && IsDigit(s[0]) && s[1] == ':' && InRange(s[2], '0', '5') && IsDigit(s[3])
    ensures var t := PaddedTime(s); var m := DecimalValue(s[2..4]);
      && m < 60 && ParseTime(t) == Some(DigitValue(s[0]) * 60 + m) && Clock(s) == (DigitValue(s[0]), m)
  {
    var hh, mm := s[0..1], s[2..4];
    assert AllDigits(hh) && DecimalValue(hh) == DigitValue(s[0]) by {
      assert hh[..0] == [];
    }
    assert AllDigits(mm) && DecimalValue(mm) < 60 by {
      TwoDigits(mm);
    }
    assert Split(s, {':'}) == [hh, mm] by {
      assert FirstIndexIn(s, {':'}) == 1 by {
        assert FirstIndexIn(s[1..], {':'}) == 0;
      }
      var rest := s[2..];
      assert rest == mm;
      assert FirstIndexIn(rest, {':'}) == 2 by {
        assert FirstIndexIn(rest[2..], {':'}) == 0;
        assert FirstIndexIn(rest[1..], {':'}) == 1 + FirstIndexIn(rest[2..], {':'});
      }
      assert s[..1] == hh;
    }
    ClockPartsOfDigits(s, hh, mm);
    var t := PaddedTime(s);
    assert t[0..2] == ['0', s[0]] && t[3..5] == mm && t[2] == ':';
    TwoDigits(t[0..2]);
  }

  /**
   * A form that passes validation, as the preview button demands before it
   * builds the link, starts the link at the minute of its padded time on
   * its date.
   */
  lemma ValidFormStart(f: Form)
    requires Valid(f)
    ensures ParseTime(PaddedTime(f.time)).Some?
    ensures FormStart(f) == DayInstant(f.date, ParseTime(PaddedTime(f.time)).value)
  {
    ValidIff(f);
    FormTimeClock(f.time);
    StartAtClock(f.date, Clock(f.time).0, Clock(f.time).1);
  }

  /** "24:00" fails the time pattern, so a form holding it never reaches the preview's link. */
  lemma HourTwentyFourRefused(f: Form)
    requires f.time == "24:00"
    ensures ErrorFor(f, Time) == Some(TimeMalformed) && !Valid(f)
  {
  }

  /** Both parts read as numbers are the clock. */
  lemma ClockOfNumbers(t: string, h: nat, m: nat)
    requires ClockParts(t) == (Some(h), Some(m))
    ensures Clock(t) == (h, m)
  {
  }

  /** An in-range clock on a valid date is that day's instant. */
  lemma StartAtClock(date: string, h: int, m: int)
    requires 0 <= h < 24 && 0 <= m < 60
    ensures StartAt(date, h, m) == DayInstant(date, h * 60 + m)
  {
  }

  /** As written, a time in the hour after midnight is read as the same minute past nine. */
  lemma MidnightHourAsWritten(t: string)
    requires |t| == 5 && t[0] == '0' && t[1] == '0' && t[2] == ':' && InRange(t[3], '0', '5') && IsDigit(t[4])
    ensures DecimalValue(t[3..5]) < 60 && ParseTime(t) == Some(DecimalValue(t[3..5]))
    ensures ClockAsWritten(t) == (9, DecimalValue(t[3..5]))
  {
    assert AllDigits(t[0..2]) && DecimalValue(t[0..2]) == 0 by {
      TwoDigits(t[0..2]);
    }
    var m := DecimalValue(t[3..5]);
    assert AllDigits(t[3..5]) && m < 60 by {
      TwoDigits(t[3..5]);
    }
    assert ParseTime(t) == Some(m);
    ClockPartsOf(t);
    ZeroHourAsWritten(t, m);
  }

  /** As written, a hour read as 0 is replaced by 9. */
  lemma ZeroHourAsWritten(t: string, m: nat)
    requires ClockParts(t) == (Some(0), Some(m))
    ensures ClockAsWritten(t) == (9, m)
  {
  }

  /**
   * The clock `(9, m)` that the code as written reads from a time `m` minutes
   * after midnight starts the link nine hours after the instant the date and
   * the time name.
   */
  lemma MidnightStartAsWritten(date: string, t: string, m: nat)
    requires |date| == 10 && ParseDate(date).Some? && ParseTime(t) == Some(m) && m < 60
    ensures StartAt(date, 9, m) == Some(InstantOf(ParseDate(date).value, 9 * 60 + m))
    ensures ParseInstant(date + "T" + t) == Some(InstantOf(ParseDate(date).value, m))
  {
    StartAtClock(date, 9, m);
    ParseJoined(date, t);
  }

  // ---------------------------------------------------------------- submit

  /** What the form hands to `onSubmit`. */
  datatype Submission = Submission(form: Form, amId: string, amName: string, customer: string, withCustomer: bool)

  /** The customer name submitted: the locked customer's, else the selected record's when with a customer. */
  function SubmittedCustomer(f: Form, locked: Option<Customer>): string {
    if Truthy(locked) then
      match locked.value
      case Named(s) => s
      case Record(n) => n
    else if f.withCustomer && f.customer.Some? && f.customer.value.Record? then f.customer.value.name
    else ""
  }

  /**
   * The customer name sent: a locked string as it is, a locked record's
   * name, otherwise the selected record's name when the activity is with a
   * customer, and "" without one.
   */
  lemma SubmittedCustomerCases(f: Form, locked: Option<Customer>)
    ensures locked.Some? && locked.value.Named? && locked.value.text != "" ==> SubmittedCustomer(f, locked) == locked.value.text
    ensures locked.Some? && locked.value.Record? ==> SubmittedCustomer(f, locked) == locked.value.name
    ensures !Truthy(locked) && f.withCustomer && f.customer.Some? && f.customer.value.Record?
      ==> SubmittedCustomer(f, locked) == f.customer.value.name
    ensures !Truthy(locked) && !f.withCustomer ==> SubmittedCustomer(f, locked) == ""
  {
  }

  /** `activityData`: the form, the AM id and name or their placeholders, and the customer name sent. */
  function SubmissionOf(f: Form, locked: Option<Customer>, amId: string, amName: string): (s: Submission)
    ensures Truthy(locked) ==> s.withCustomer
    ensures !Truthy(locked) ==> s.withCustomer == f.withCustomer
    ensures !Truthy(locked) && !f.withCustomer ==> s.customer == ""
    ensures s.form == f
    ensures s.amId == (if amId != "" then amId else "CURRENT_AM_ID")
    ensures s.amName == (if amName != "" then amName else "CURRENT_AM_NAME")
    ensures s.customer == SubmittedCustomer(f, locked)
  {
    Submission(f,
      if amId != "" then amId else "CURRENT_AM_ID",
      if amName != "" then amName else "CURRENT_AM_NAME",
      SubmittedCustomer(f, locked),
      Truthy(locked) || f.withCustomer)
  }

  /** The form's state: its fields and the error shown per key. */
  class FormModal {
    var form: Form
    var errors: map<Field, Problem>

    /** The form as first rendered, before it is opened. */
    constructor (today: string)
      ensures form == EmptyForm(today) && errors == map[]
    {
      form := EmptyForm(today);
      errors := map[];
    }

    /** The effect that runs when the dialog opens. */
    method Open(initial: Option<Draft>, locked: Option<Customer>, today: string)
      modifies this
      ensures form == BuildFormState(OpeningData(initial, locked), today) && errors == map[]
    {
      form := BuildFormState(OpeningData(initial, locked), today);
      errors := map[];
    }

    /** `handleReset`: back to the empty form, or the locked customer's. */
    method Reset(locked: Option<Customer>, today: string)
      modifies this
      ensures form == BuildFormState(OpeningData(None, locked), today) && errors == map[]
    {
      form := BuildFormState(OpeningData(None, locked), today);
      errors := map[];
    }

    /** `validateForm`: records the error of each failing key and reports whether there is none. */
    method Validate() returns (ok: bool)
      modifies this
      ensures form == old(form) && errors == ErrorMap(form)
      ensures ok <==> Valid(form)
    {
      var e := ErrorMap(form);
      errors := e;
      ok := |e| == 0;
      ErrorMapEmpty(form);
    }

    /** `handleChange` on a text field: the field takes the value and only its error is cleared. */
    method ChangeText(field: Field, v: string)
      requires IsText(field)
      modifies this
      ensures form == WithText(old(form), field, v)
      ensures errors == old(errors) - {field}
    {
      form := WithText(form, field, v);
      if field in errors {
        errors := errors - {field};
      }
    }

    /** `handleChange('duration', ...)`. */
    method ChangeDuration(minutes: int)
      modifies this
      ensures form == old(form).(duration := minutes)
      ensures errors == old(errors) - {Duration}
    {
      form := form.(duration := minutes);
      if Duration in errors {
        errors := errors - {Duration};
      }
    }

    /** Typing in the time input: the text is filtered, then handed to `handleChange`. */
    method TypeTime(raw: string)
      modifies this
      ensures form == old(form).(time := FormatTime(raw))
      ensures errors == old(errors) - {Time}
    {
      ChangeText(Time, FormatTime(raw));
    }

    /** `handleSubmit`: nothing is submitted unless the form validates. */
    method Submit(locked: Option<Customer>, amId: string, amName: string) returns (r: Option<Submission>)
      modifies this
      ensures form == old(form)
      ensures r.Some? <==> Valid(form)
      ensures r.Some? ==> r.value == SubmissionOf(form, locked, amId, amName)
      ensures errors == ErrorMap(form)
    {
      var ok := Validate();
      if ok {
        r := Some(SubmissionOf(form, locked, amId, amName));
      } else {
        r := None;
      }
    }
  }
}
