/**
 * The contact management page: a contact's avatar (initials and colour),
 * the enrichment of the seed contacts, the search, the checks on the
 * add-contact form, the contact it adds and the three statistics.
 */
module ContactManagement {
  import opened Wrappers
  import opened Text
  import opened Seqs
  import opened Slugs
  import AmRows

  // ------------------------------------------------------------- initials

  /** The first character of a word as a one-character string, "" for an empty word. */
  function Head(w: string): (r: string)
    ensures |r| <= 1
  {
    if w == "" then "" else [w[0]]
  }

  /**
   * `getInitials` as written: the last word's first character is read with
   * `?.[0]`, which is `undefined` for an empty last word, and the template
   * literal turns it into the text "undefined".
   */
  function InitialsAsWritten(name: string): string {
    var parts := Split(name, {' '});
    var first := Head(parts[0]);
    var last :=
      if |parts| > 1 then (if parts[|parts| - 1] == "" then "undefined" else Head(parts[|parts| - 1]))
      else "";
    Upper(first + last)
  }

  /** The initials as intended: an empty last word adds nothing. */
  function Initials(name: string): (r: string)
    ensures |r| <= 2
  {
    var parts := Split(name, {' '});
    var last := if |parts| > 1 then Head(parts[|parts| - 1]) else "";
    Upper(Head(parts[0]) + last)
  }

  /** The two readings agree except when the name has a space and ends with one. */
  lemma InitialsAgree(name: string)
    requires var parts := Split(name, {' '}); |parts| == 1 || parts[|parts| - 1] != ""
    ensures InitialsAsWritten(name) == Initials(name)
  {
  }

  /**
   * For a name made of non-empty words joined by single spaces, the
   * initials are the upper-cased first character of the first word and,
   * when there are several words, of the last word.
   */
  lemma InitialsOfWords(words: seq<string>)
    requires |words| >= 1
    requires forall j :: 0 <= j < |words| ==> words[j] != ""
    requires forall j, i :: 0 <= j < |words| && 0 <= i < |words[j]| ==> words[j][i] != ' '
    ensures Initials(Join(words, " ")) ==
      Upper([words[0][0]] + (if |words| > 1 then [words[|words| - 1][0]] else []))
    ensures InitialsAsWritten(Join(words, " ")) == Initials(Join(words, " "))
  {
    SplitJoin(words, ' ');
  }

  /**
   * A word followed by a space: the code as written shows the first letter
   * and then "UNDEFINED", where the intended initials are the letter alone.
   */
  lemma TrailingSpaceShowsUndefined(w: string)
    requires w != "" && forall i :: 0 <= i < |w| ==> w[i] != ' '
    ensures InitialsAsWritten(w + " ") == Upper([w[0]]) + "UNDEFINED"
    ensures Initials(w + " ") == Upper([w[0]])
  {
    assert Join([w, ""], " ") == w + " ";
    SplitJoin([w, ""], ' ');
    assert Upper([w[0]] + "undefined") == Upper([w[0]]) + Upper("undefined");
    assert Upper("undefined") == "UNDEFINED";
    assert [w[0]] + "" == [w[0]];
  }

  // --------------------------------------------------------------- avatar

  const AvatarColors: seq<string> := [
    "bg-blue-100 text-blue-700", "bg-emerald-100 text-emerald-700",
    "bg-yellow-100 text-yellow-700", "bg-red-100 text-red-700",
    "bg-purple-100 text-purple-700", "bg-indigo-100 text-indigo-700"]

  /** The sum of the character codes of a name. */
  function CharSum(s: string): nat {
    if s == [] then 0 else s[0] as nat + CharSum(s[1..])
  }

  /** `getAvatarColor`'s index: the character-code sum modulo the six colours. */
  function AvatarIndex(name: string): (k: nat)
    ensures k < |AvatarColors|
  {
    CharSum(name) % |AvatarColors|
  }

  function AvatarColor(name: string): (c: string)
    ensures c in AvatarColors
  {
    AvatarColors[AvatarIndex(name)]
  }

  lemma {:induction false} CharSumAppend(a: string, b: string)
    ensures CharSum(a + b) == CharSum(a) + CharSum(b)
    decreases |a|
  {
    if a != [] {
      CharSumAppend(a[1..], b);
      assert (a + b)[1..] == a[1..] + b;
    } else {
      assert a + b == b;
    }
  }

  /** Taking one character out of a string takes it out of the multiset and its code out of the sum. */
  lemma RemoveMiddle(p: string, x: char, q: string, s: string)
    requires s == p + [x] + q
    ensures multiset(p + q) == multiset(s) - multiset{x}
    ensures CharSum(s) == x as nat + CharSum(p + q)
  {
    CharSumAppend(p + [x], q);
    CharSumAppend(p, [x]);
    CharSumAppend(p, q);
  }

  /** The sum only depends on which characters occur how often. */
  lemma {:induction false} CharSumMultiset(a: string, b: string)
    requires multiset(a) == multiset(b)
    ensures CharSum(a) == CharSum(b)
    decreases |a|
  {
    if a != [] {
      assert a[0] in multiset(b);
      var k :| 0 <= k < |b| && b[k] == a[0];
      SplitAt(b, k);
      RemoveMiddle(b[..k], b[k], b[k + 1..], b);
      assert multiset(a[1..]) == multiset(a) - multiset{a[0]} by {
        assert a == [a[0]] + a[1..];
      }
      CharSumMultiset(a[1..], b[..k] + b[k + 1..]);
    } else {
      assert |b| == |multiset(b)|;
    }
  }

  /** A name and any rearrangement of its characters get the same colour. */
  lemma AvatarColorOrderFree(a: string, b: string)
    requires multiset(a) == multiset(b)
    ensures AvatarColor(a) == AvatarColor(b)
  {
    CharSumMultiset(a, b);
  }

  // ---------------------------------------------------------- enrichment

  /** A contact as the seed data lists it; a missing status or role reads as "". */
  datatype RawContact = RawContact(
    id: string, name: string, title: string, company: string, email: string, phone: string,
    relationshipStatus: string, decisionRole: string, tagText: Option<string>)

  /** A contact as the page keeps it. */
  datatype Contact = Contact(
    id: string, name: string, title: string, company: string, email: string, phone: string,
    relationshipStatus: string, decisionRole: string, isPriority: bool, tagText: Option<string>)

  const DecisionRoles: seq<string> := ["decision-maker", "influencer", "user"]

  /**
   * `inferDecisionRole`: no tag is a user; a tag mentioning "decision" in
   * any case is a decision maker, before one mentioning "influencer".
   */
  function InferDecisionRole(tagText: Option<string>): (r: string)
    ensures r in DecisionRoles
    ensures r == "decision-maker" <==> tagText.Some? && Contains(Lower(tagText.value), "decision")
    ensures r == "influencer" <==>
      tagText.Some? && !Contains(Lower(tagText.value), "decision") && Contains(Lower(tagText.value), "influencer")
  {
    if tagText.None? || tagText.value == "" then "user"
    else
      var normalized := Lower(tagText.value);
      if Contains(normalized, "decision") then "decision-maker"
      else if Contains(normalized, "influencer") then "influencer"
      else "user"
  }

  /** `CONTACTS`: the first three are priority, a missing status is neutral, a missing role is inferred. */
  function Enrich(raws: seq<RawContact>): (cs: seq<Contact>)
    ensures |cs| == |raws|
    ensures forall i :: 0 <= i < |cs| ==> (cs[i].isPriority <==> i < 3)
    ensures forall i :: 0 <= i < |cs| ==> cs[i].relationshipStatus != "" && cs[i].decisionRole != ""
  {
    seq(|raws|, i requires 0 <= i < |raws| =>
      var c := raws[i];
      Contact(
        c.id, c.name, c.title, c.company, c.email, c.phone,
        if c.relationshipStatus != "" then c.relationshipStatus else "neutral",
        if c.decisionRole != "" then c.decisionRole else InferDecisionRole(c.tagText),
        i < 3, c.tagText))
  }

  predicate IsPriority(c: Contact) {
    c.isPriority
  }

  /** In a list whose first `n` entries exactly are priority, `min(n, length)` are. */
  lemma {:induction false} PriorityPrefix(cs: seq<Contact>, n: nat)
    requires forall i :: 0 <= i < |cs| ==> (cs[i].isPriority <==> i < n)
    ensures |Filter(cs, IsPriority)| == if n < |cs| then n else |cs|
    decreases |cs|
  {
    if cs != [] {
      PriorityPrefix(cs[1..], if n > 0 then n - 1 else 0);
    }
  }

  /** The seed list has min(3, seed size) priority contacts. */
  lemma EnrichPriorityCount(raws: seq<RawContact>)
    ensures |Filter(Enrich(raws), IsPriority)| == if 3 < |raws| then 3 else |raws|
  {
    PriorityPrefix(Enrich(raws), 3);
  }

  // --------------------------------------------------------------- search

  predicate Matches(c: Contact, q: string) {
    Contains(Lower(c.name), q) || Contains(Lower(c.title), q) || Contains(Lower(c.company), q)
    || Contains(Lower(c.email), q)
  }

  /** `filtered`: an empty query keeps the list; a query (not trimmed) is matched case-insensitively. */
  function Filtered(contacts: seq<Contact>, query: string): (r: seq<Contact>)
    ensures |r| <= |contacts|
  {
    if query == "" then contacts else Filter(contacts, (c: Contact) => Matches(c, Lower(query)))
  }

  /** A contact is listed iff it is in the list and the query is empty or found in its name, title, company or email. */
  lemma FilteredMembers(contacts: seq<Contact>, query: string, c: Contact)
    ensures c in Filtered(contacts, query) <==> c in contacts && (query == "" || Matches(c, Lower(query)))
  {
    if query != "" {
      FilterMembers(contacts, (d: Contact) => Matches(d, Lower(query)), c);
    }
  }

  // ---------------------------------------------------------------- email

  /** A character `[^\s@]` matches. */
  predicate Plain(c: char) {
    !IsSpace(c) && c != '@'
  }

  /**
   * The language of `^[^\s@]+@[^\s@]+\.[^\s@]+$`: one '@' after at least
   * one character, a '.' with at least one character on each side after
   * it, and no whitespace or other '@' anywhere.
   */
  predicate EmailShape(s: string) {
    exists at, dot :: 0 < at && at + 1 < dot < |s| - 1 && s[at] == '@' && s[dot] == '.'
      && forall j :: 0 <= j < |s| && j != at ==> Plain(s[j])
  }

  /** A well-formed address has one '@', no whitespace, at least five characters, and is its own trim. */
  lemma EmailShapeFacts(s: string)
    requires EmailShape(s)
    ensures |s| >= 5
    ensures forall j :: 0 <= j < |s| ==> !IsSpace(s[j])
    ensures exists at :: 0 <= at < |s| && s[at] == '@' && forall j :: 0 <= j < |s| && j != at ==> s[j] != '@'
    ensures Trim(s) == s
  {
    var at, dot :| 0 < at && at + 1 < dot < |s| - 1 && s[at] == '@' && s[dot] == '.'
      && forall j :: 0 <= j < |s| && j != at ==> Plain(s[j]);
    assert forall j :: 0 <= j < |s| ==> !IsSpace(s[j]) by {
      assert !IsSpace(s[at]);
    }
    TrimFixed(s);
  }

  /** An address with a dotted domain passes; one without a dot after the '@' does not. */
  lemma EmailExamples()
    ensures EmailShape("budi@telkom.co.id")
    ensures !EmailShape("budi@telkom")
  {
    var s := "budi@telkom.co.id";
    assert s[4] == '@' && s[11] == '.';
    forall j | 0 <= j < |s| && j != 4
      ensures Plain(s[j])
    {
    }
    var t := "budi@telkom";
    assert forall k :: 0 <= k < |t| ==> t[k] != '.';
  }

  // ----------------------------------------------------------------- form

  datatype ContactForm = ContactForm(
    name: string, title: string, company: string, email: string, phone: string,
    relationshipStatus: string, decisionRole: string, isPriority: bool)

  /** `createEmptyContactForm`. */
  function EmptyForm(): ContactForm {
    ContactForm("", "", "", "", "", "neutral", "user", false)
  }

  /** The text fields of the form. */
  datatype FormField = Name | Title | Company | Email | Phone | RelationshipStatus | DecisionRole

  /** `handleFieldChange` on a text field. */
  function WithField(form: ContactForm, field: FormField, value: string): ContactForm {
    match field
    case Name => form.(name := value)
    case Title => form.(title := value)
    case Company => form.(company := value)
    case Email => form.(email := value)
    case Phone => form.(phone := value)
    case RelationshipStatus => form.(relationshipStatus := value)
    case DecisionRole => form.(decisionRole := value)
  }

  datatype EmailCheck = EmailFine | EmailRequired | EmailInvalid

  datatype ContactErrors = ContactErrors(name: bool, title: bool, company: bool, email: EmailCheck)

  const NoErrors := ContactErrors(false, false, false, EmailFine)

  /**
   * `handleSubmit`'s errors: a blank name, title or company; a blank email,
   * or a trimmed email outside the address pattern.
   */
  function Errors(form: ContactForm): (e: ContactErrors)
    ensures e.name <==> IsBlank(form.name)
    ensures e.title <==> IsBlank(form.title)
    ensures e.company <==> IsBlank(form.company)
    ensures e.email == EmailRequired <==> IsBlank(form.email)
    ensures e.email == EmailInvalid <==> !IsBlank(form.email) && !EmailShape(Trim(form.email))
  {
    TrimEmptyIffBlank(form.name);
    TrimEmptyIffBlank(form.title);
    TrimEmptyIffBlank(form.company);
    TrimEmptyIffBlank(form.email);
    ContactErrors(
      Trim(form.name) == "", Trim(form.title) == "", Trim(form.company) == "",
      if Trim(form.email) == "" then EmailRequired
      else if !EmailShape(Trim(form.email)) then EmailInvalid
      else EmailFine)
  }

  /** `slugify` of this page: the fallback is `contact-` and the clock reading `now`. */
  function ContactSlug(value: string, now: nat): string {
    Slugify(value, "contact-" + ToDecimal(now))
  }

  /** The contact a valid form adds at time `now`: its fields trimmed, its id the name's slug and the time. */
  function NewContact(form: ContactForm, now: nat): Contact {
    Contact(
      ContactSlug(form.name, now) + "-" + ToDecimal(now), Trim(form.name), Trim(form.title),
      Trim(form.company), Trim(form.email), Trim(form.phone), form.relationshipStatus,
      form.decisionRole, form.isPriority, None)
  }

  /**
   * A contact added from a form without errors has a non-empty name, title
   * and company and an address of the accepted shape.
   */
  lemma NewContactFields(form: ContactForm, now: nat)
    requires Errors(form) == NoErrors
    ensures var c := NewContact(form, now);
      && c.name != "" && c.title != "" && c.company != "" && EmailShape(c.email)
      && c.isPriority == form.isPriority
  {
    TrimEmptyIffBlank(form.name);
    TrimEmptyIffBlank(form.title);
    TrimEmptyIffBlank(form.company);
  }

  /** The new contact's id is a non-empty slug followed by '-' and the time stamp. */
  lemma NewContactId(form: ContactForm, now: nat)
    ensures var id := NewContact(form, now).id; var t := ToDecimal(now);
      && |id| > |t| + 1
      && id[|id| - |t| - 1..] == "-" + t
  {
    var slug := ContactSlug(form.name, now);
    assert slug != "" by {
      assert |"contact-" + ToDecimal(now)| > 0;
    }
    StampedId(slug, ToDecimal(now));
  }

  /** A non-empty slug, '-', and the stamp: the stamp closes the id. */
  lemma StampedId(slug: string, t: string)
    requires slug != ""
    ensures var id := slug + "-" + t; |id| > |t| + 1 && id[|id| - |t| - 1..] == "-" + t
  {
    var id := slug + "-" + t;
    assert id == slug + ("-" + t);
  }

  // ------------------------------------------------------------- statistics

  /** The companies of the contacts, each once. */
  function Companies(contacts: seq<Contact>): set<string> {
    set c | c in contacts :: c.company
  }

  /** One more contact adds its company to the set. */
  lemma CompaniesCons(c: Contact, contacts: seq<Contact>)
    ensures Companies([c] + contacts) == {c.company} + Companies(contacts)
  {
    assert forall d :: d in [c] + contacts <==> d == c || d in contacts;
  }

  lemma {:induction false} CompaniesBound(contacts: seq<Contact>)
    ensures |Companies(contacts)| <= |contacts|
    ensures contacts != [] ==> |Companies(contacts)| >= 1
    decreases |contacts|
  {
    if contacts != [] {
      CompaniesBound(contacts[1..]);
      assert contacts == [contacts[0]] + contacts[1..];
      CompaniesCons(contacts[0], contacts[1..]);
    }
  }

  /**
   * `stats`: the number of contacts, of priority contacts, and of distinct
   * companies; neither of the last two exceeds the first, and a non-empty
   * list has at least one company.
   */
  function Stats(contacts: seq<Contact>): (r: (nat, nat, nat))
    ensures r.1 <= r.0 && r.2 <= r.0
    ensures r.0 > 0 ==> r.2 > 0
  {
    CompaniesBound(contacts);
    (|contacts|, |Filter(contacts, IsPriority)|, |Companies(contacts)|)
  }

  /**
   * Adding a contact adds one to the total, one to the priority count
   * exactly when it is a priority contact, and at most one company.
   */
  lemma StatsAfterAdd(c: Contact, contacts: seq<Contact>)
    ensures Stats([c] + contacts).0 == Stats(contacts).0 + 1
    ensures Stats([c] + contacts).1 == Stats(contacts).1 + (if c.isPriority then 1 else 0)
    ensures Stats(contacts).2 <= Stats([c] + contacts).2 <= Stats(contacts).2 + 1
  {
    var all := [c] + contacts;
    assert all[1..] == contacts;
    CompaniesCons(c, contacts);
    if c.company in Companies(contacts) {
      assert Companies(all) == Companies(contacts);
    } else {
      assert |Companies(contacts) + {c.company}| == |Companies(contacts)| + 1;
    }
  }

  /** The checks of `handleSubmit`, made one after the other. */
  method Check(f: ContactForm) returns (errors: ContactErrors)
    ensures errors == Errors(f)
  {
    errors := NoErrors;
    if Trim(f.name) == "" {
      errors := errors.(name := true);
    }
    if Trim(f.title) == "" {
      errors := errors.(title := true);
    }
    if Trim(f.company) == "" {
      errors := errors.(company := true);
    }
    if Trim(f.email) == "" {
      errors := errors.(email := EmailRequired);
    } else if !EmailShape(Trim(f.email)) {
      errors := errors.(email := EmailInvalid);
    }
  }

  // ------------------------------------------------------------------ page

  /** The page's state. */
  class ContactPage {
    var contacts: seq<Contact>
    var query: string
    var page: int
    var rowsPerPage: nat
    var isAddOpen: bool
    var form: ContactForm
    var formErrors: ContactErrors

    constructor (seed: seq<RawContact>)
      ensures contacts == Enrich(seed) && query == "" && page == 1 && rowsPerPage == 10
      ensures !isAddOpen && form == EmptyForm() && formErrors == NoErrors
    {
      contacts := Enrich(seed);
      query := "";
      page := 1;
      rowsPerPage := 10;
      isAddOpen := false;
      form := EmptyForm();
      formErrors := NoErrors;
    }

    /** The contacts of the current page. */
    function Shown(): seq<Contact>
      reads this
    {
      AmRows.PageRows(Filtered(contacts, query), page, rowsPerPage)
    }

    /** The search box sets the query; the page is kept. */
    method SetQuery(q: string)
      modifies this
      ensures query == q
      ensures contacts == old(contacts) && page == old(page) && rowsPerPage == old(rowsPerPage)
      ensures isAddOpen == old(isAddOpen) && form == old(form) && formErrors == old(formErrors)
    {
      query := q;
    }

    method SetRowsPerPage(n: nat)
      modifies this
      ensures rowsPerPage == n && page == 1
      ensures contacts == old(contacts) && query == old(query)
      ensures isAddOpen == old(isAddOpen) && form == old(form) && formErrors == old(formErrors)
    {
      rowsPerPage := n;
      page := 1;
    }

    method Prev()
      modifies this
      ensures page == AmRows.PrevPage(old(page))
      ensures contacts == old(contacts) && query == old(query) && rowsPerPage == old(rowsPerPage)
      ensures isAddOpen == old(isAddOpen) && form == old(form) && formErrors == old(formErrors)
    {
      page := AmRows.PrevPage(page);
    }

    method Next()
      modifies this
      ensures page == AmRows.NextPage(old(page), rowsPerPage, |Filtered(contacts, query)|)
      ensures contacts == old(contacts) && query == old(query) && rowsPerPage == old(rowsPerPage)
      ensures isAddOpen == old(isAddOpen) && form == old(form) && formErrors == old(formErrors)
    {
      var total := |Filtered(contacts, query)|;
      if AmRows.PageEnd(page, rowsPerPage, total) < total {
        page := page + 1;
      }
    }

    /** `openAddModal`: a fresh form, no errors, the dialog open. */
    method OpenAddModal()
      modifies this
      ensures form == EmptyForm() && formErrors == NoErrors && isAddOpen
      ensures contacts == old(contacts) && query == old(query) && page == old(page)
      ensures rowsPerPage == old(rowsPerPage)
    {
      form := EmptyForm();
      formErrors := NoErrors;
      isAddOpen := true;
    }

    method CloseAddModal()
      modifies this
      ensures !isAddOpen
      ensures contacts == old(contacts) && query == old(query) && page == old(page)
      ensures rowsPerPage == old(rowsPerPage) && form == old(form) && formErrors == old(formErrors)
    {
      isAddOpen := false;
    }

    method ChangeField(field: FormField, value: string)
      modifies this
      ensures form == WithField(old(form), field, value)
      ensures contacts == old(contacts) && query == old(query) && page == old(page)
      ensures rowsPerPage == old(rowsPerPage) && isAddOpen == old(isAddOpen)
      ensures formErrors == old(formErrors)
    {
      form := WithField(form, field, value);
    }

    method SetPriority(b: bool)
      modifies this
      ensures form == old(form).(isPriority := b)
      ensures contacts == old(contacts) && query == old(query) && page == old(page)
      ensures rowsPerPage == old(rowsPerPage) && isAddOpen == old(isAddOpen)
      ensures formErrors == old(formErrors)
    {
      form := form.(isPriority := b);
    }

    /**
     * `handleSubmit`: with any error the errors are shown and nothing is
     * added; otherwise the new contact goes first, the page returns to 1,
     * the dialog closes and the form is cleared.
     */
    method Submit(now: nat)
      modifies this
      ensures Errors(old(form)) != NoErrors ==>
        formErrors == Errors(old(form)) && contacts == old(contacts) && page == old(page)
        && form == old(form) && isAddOpen == old(isAddOpen)
      ensures Errors(old(form)) == NoErrors ==>
        contacts == [NewContact(old(form), now)] + old(contacts) && page == 1 && !isAddOpen
        && form == EmptyForm() && formErrors == NoErrors
      ensures query == old(query) && rowsPerPage == old(rowsPerPage)
    {
      var f := form;
      var errors := Check(f);
      if errors != NoErrors {
        formErrors := errors;
        return;
      }
      contacts := [NewContact(f, now)] + contacts;
      page := 1;
      isAddOpen := false;
      form := EmptyForm();
      formErrors := NoErrors;
    }
  }
}
