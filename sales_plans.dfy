/**
 * The account manager's sales plans: the slug a customer name becomes, the
 * checks on the create form, the plan a valid form creates, the search and
 * status filters, the per-customer record kept in storage and the badge
 * styles.
 */
module SalesPlans {
  import opened Wrappers
  import opened Text
  import opened Seqs
  import opened Slugs
  import Roles

  /** `slugify` of this page: the fallback is `customer-` and the clock reading `now`. */
  function CustomerSlug(value: string, now: nat): string {
    Slugify(value, "customer-" + ToDecimal(now))
  }

  // ---------------------------------------------------------------- plans

  datatype Attachment = Attachment(fileName: string, url: string)

  /**
   * A sales plan. A status, approval status or title that is missing reads
   * as "", which every test of the page treats as it treats a missing one.
   */
  datatype Plan = Plan(
    id: string, title: string, customerId: string, customerName: string, ownerName: string,
    status: string, approvalStatus: string, dateStart: string, dateEnd: string,
    description: string, attachment: Option<Attachment>, managerComment: string,
    managerDecisionDate: Option<string>)

  /** The create form; the file data is the attachment's data URL. */
  datatype PlanForm = PlanForm(
    title: string, customerName: string, dateStart: string, dateEnd: string, status: string,
    description: string, fileName: string, fileData: string)

  /** `createInitialForm`. */
  function InitialForm(): PlanForm {
    PlanForm("", "", "", "", "Draft", "", "", "")
  }

  const StatusOptions: seq<string> := ["Draft", "Active", "Closed"]

  /** `ACCOUNT_MANAGER_LABEL`: the label of the sales role. */
  function OwnerLabel(): string {
    Roles.Label(Roles.Sales)
  }

  /** The fields `validate` flags. */
  datatype FormErrors = FormErrors(title: bool, customerName: bool, dateStart: bool, dateEnd: bool)

  const NoErrors := FormErrors(false, false, false, false)

  /**
   * `validate`'s errors: a blank title or customer name, a missing date,
   * and an end date before the start date as strings compare.
   */
  function Errors(form: PlanForm): (e: FormErrors)
    ensures e.title <==> IsBlank(form.title)
    ensures e.customerName <==> IsBlank(form.customerName)
    ensures e.dateStart <==> form.dateStart == ""
    ensures e.dateEnd <==> form.dateEnd == "" || (form.dateStart != "" && LexLess(form.dateEnd, form.dateStart))
  {
    TrimEmptyIffBlank(form.title);
    TrimEmptyIffBlank(form.customerName);
    FormErrors(
      Trim(form.title) == "", Trim(form.customerName) == "", form.dateStart == "",
      form.dateEnd == "" || (form.dateStart != "" && form.dateEnd != "" && LexLess(form.dateEnd, form.dateStart)))
  }

  /** Dates that pass compare as equal or in order. */
  lemma AcceptedDatesOrdered(form: PlanForm)
    requires Errors(form) == NoErrors
    ensures form.dateStart != "" && form.dateEnd != ""
    ensures form.dateStart == form.dateEnd || LexLess(form.dateStart, form.dateEnd)
  {
    assert !Errors(form).dateEnd;
    LexLessTotal(form.dateStart, form.dateEnd);
  }

  /** The plan `handleCreatePlan` builds from a form at time `now`. */
  function NewPlan(form: PlanForm, now: nat): Plan {
    var customerName := Trim(form.customerName);
    Plan(
      "sp-" + ToDecimal(now), Trim(form.title), CustomerSlug(customerName, now), customerName,
      OwnerLabel(), form.status, "Pending", form.dateStart, form.dateEnd, form.description,
      if form.fileName != "" then Some(Attachment(form.fileName, form.fileData)) else None,
      "", None)
  }

  /**
   * A plan created from a form that passed has a non-blank title and
   * customer name, both dates, a non-empty customer id, is pending with no
   * comment and no decision, and has an attachment exactly when a file was
   * chosen.
   */
  lemma NewPlanFields(form: PlanForm, now: nat)
    requires Errors(form) == NoErrors
    ensures var p := NewPlan(form, now);
      && p.title != "" && !IsSpace(p.title[0]) && !IsSpace(p.title[|p.title| - 1])
      && p.customerName != "" && p.customerId != ""
      && p.dateStart != "" && p.dateEnd != ""
      && p.approvalStatus == "Pending" && p.managerComment == "" && p.managerDecisionDate == None
      && (p.attachment.Some? <==> form.fileName != "")
      && p.ownerName == "Account Manager"
  {
    TrimEmptyIffBlank(form.title);
    TrimEmptyIffBlank(form.customerName);
    TrimEdges(form.title);
  }

  // -------------------------------------------------------------- filters

  /** A missing status counts as "Draft". */
  function StatusOf(p: Plan): (s: string)
    ensures s != ""
  {
    if p.status == "" then "Draft" else p.status
  }

  /** The search: blank passes; otherwise a case-insensitive substring of title, customer or owner. */
  predicate SearchMatches(p: Plan, search: string) {
    var q := Lower(Trim(search));
    q == "" || Contains(Lower(p.title), q) || Contains(Lower(p.customerName), q)
    || Contains(Lower(p.ownerName), q)
  }

  predicate Shows(p: Plan, search: string, statusFilter: string) {
    SearchMatches(p, search) && (statusFilter == "all" || StatusOf(p) == statusFilter)
  }

  /** `filtered`. */
  function FilteredPlans(plans: seq<Plan>, search: string, statusFilter: string): (r: seq<Plan>)
    ensures |r| <= |plans|
  {
    Filter(plans, (p: Plan) => Shows(p, search, statusFilter))
  }

  /**
   * A plan is listed iff it is loaded, matches the search (always, for a
   * blank one) and has the chosen status (always, for "all"; "Draft" also
   * takes plans without one).
   */
  lemma FilteredMembers(plans: seq<Plan>, search: string, statusFilter: string, p: Plan)
    ensures p in FilteredPlans(plans, search, statusFilter) <==>
      p in plans
      && (IsBlank(search) || SearchMatches(p, search))
      && (statusFilter == "all" || StatusOf(p) == statusFilter)
    ensures statusFilter == "Draft" && p.status == "" && IsBlank(search) ==>
      (p in FilteredPlans(plans, search, statusFilter) <==> p in plans)
  {
    FilterMembers(plans, (q: Plan) => Shows(q, search, statusFilter), p);
    TrimEmptyIffBlank(search);
  }

  /** A blank search with status "all" lists every plan, in order. */
  lemma NoFilterKeepsAll(plans: seq<Plan>, search: string)
    requires IsBlank(search)
    ensures FilteredPlans(plans, search, "all") == plans
  {
    TrimEmptyIffBlank(search);
    FilterAllPass(plans, (q: Plan) => Shows(q, search, "all"));
  }

  // ------------------------------------------------------------ persistence

  /** The approval stored with a plan: forced for the Modernization plan, else the plan's or "Pending". */
  function ApprovalOf(p: Plan): string {
    if p.id == "sp-002" || Contains(p.title, "Modernization DC & Cloud") then "Approved"
    else if p.approvalStatus == "" then "Pending"
    else p.approvalStatus
  }

  /** The record `persistPlanForCustomer` stores, with its customer id settled. */
  function Payload(p: Plan, now: nat): Plan {
    var customerId := if p.customerId != "" then p.customerId else CustomerSlug(p.customerName, now);
    p.(approvalStatus := ApprovalOf(p), customerId := customerId)
  }

  /**
   * The payload has a customer id and an approval; it is "Approved" exactly
   * for "sp-002", a Modernization title or a plan already approved, and
   * "Pending" for any other plan without one. Nothing else changes.
   */
  lemma PayloadFields(p: Plan, now: nat)
    ensures var q := Payload(p, now);
      && q.customerId != "" && q.approvalStatus != ""
      && (q.approvalStatus == "Approved" <==>
          p.id == "sp-002" || Contains(p.title, "Modernization DC & Cloud") || p.approvalStatus == "Approved")
      && (p.id != "sp-002" && !Contains(p.title, "Modernization DC & Cloud") && p.approvalStatus == "" ==>
          q.approvalStatus == "Pending")
      && q.(approvalStatus := p.approvalStatus, customerId := p.customerId) == p
  {
    SlugifyShape(p.customerName, "customer-" + ToDecimal(now));
  }

  function StorageKey(customerId: string): string {
    "salesPlan_" + customerId
  }

  /** What a storage slot holds, as the merge reads it. */
  datatype Stored = Absent | PlanList(plans: seq<Plan>) | NotAList | Unreadable

  /** The stored list with every plan of the payload's id replaced by the payload at the end. */
  function Merge(existing: seq<Plan>, payload: Plan): (m: seq<Plan>)
    ensures |m| >= 1 && m[|m| - 1] == payload
  {
    Filter(existing, (q: Plan) => q.id != payload.id) + [payload]
  }

  /**
   * After a merge the list holds exactly one plan with the payload's id,
   * the last one, and before it every other stored plan in its order;
   * merging the same payload again changes nothing.
   */
  lemma MergeExact(existing: seq<Plan>, payload: Plan, x: Plan)
    ensures var m := Merge(existing, payload);
      && (forall i :: 0 <= i < |m| - 1 ==> m[i].id != payload.id)
      && (x in m[..|m| - 1] <==> x in existing && x.id != payload.id)
    ensures Merge(Merge(existing, payload), payload) == Merge(existing, payload)
    ensures (forall i :: 0 <= i < |existing| ==> existing[i].id != payload.id) ==>
      Merge(existing, payload) == existing + [payload]
  {
    var keep := (q: Plan) => q.id != payload.id;
    var m := Merge(existing, payload);
    var f := Filter(existing, keep);
    assert m[..|m| - 1] == f;
    FilterMembers(existing, keep, x);
    FilterAppend(f, [payload], keep);
    FilterAllPass(f, keep);
    if forall i :: 0 <= i < |existing| ==> existing[i].id != payload.id {
      FilterAllPass(existing, keep);
    }
  }

  /**
   * The list written back for a slot: a merge into a stored list, the
   * payload alone when nothing or something else is stored, and no write
   * when the slot cannot be parsed.
   */
  function Persisted(stored: Stored, payload: Plan): (r: Option<seq<Plan>>)
    ensures r.None? <==> stored.Unreadable?
    ensures r.Some? ==> payload in r.value
  {
    match stored
    case Absent => Some([payload])
    case PlanList(ps) => Some(Merge(ps, payload))
    case NotAList => Some([payload])
    case Unreadable => None
  }

  /** Local storage as the page uses it: plan lists by key. */
  class PlanStore {
    var slots: map<string, Stored>

    constructor (initial: map<string, Stored>)
      ensures slots == initial
    {
      slots := initial;
    }

    function Slot(key: string): Stored
      reads this
    {
      if key in slots then slots[key] else Absent
    }

    /** `persistPlanForCustomer`: write the merged list under the customer's key; no plan, no write. */
    method Persist(plan: Option<Plan>, now: nat)
      modifies this
      ensures plan.None? ==> slots == old(slots)
      ensures plan.Some? ==>
        var payload := Payload(plan.value, now);
        var key := StorageKey(payload.customerId);
        var r := Persisted(old(Slot(key)), payload);
        slots == if r.Some? then old(slots)[key := PlanList(r.value)] else old(slots)
    {
      if plan.None? {
        return;
      }
      var payload := Payload(plan.value, now);
      var key := StorageKey(payload.customerId);
      var raw := Slot(key);
      var merged := Persisted(raw, payload);
      if merged.Some? {
        slots := slots[key := PlanList(merged.value)];
      }
    }
  }

  // --------------------------------------------------------------- badges

  datatype Style = Emerald | Blue | Rose | Amber | Neutral

  /** `statusBadge`: Active and Closed have their own style; anything else, a missing status included, is styled as Draft. */
  function StatusBadge(status: string): (s: Style)
    ensures s in {Emerald, Blue, Neutral}
  {
    var st := if status == "" then "Draft" else status;
    if st == "Active" then Emerald else if st == "Closed" then Blue else Neutral
  }

  /** `approvalTone`: Approved and Rejected have their own tone; anything else is styled as Pending. */
  function ApprovalTone(status: string): (s: Style)
    ensures s in {Emerald, Rose, Amber}
  {
    var st := if status == "" then "Pending" else status;
    if st == "Approved" then Emerald else if st == "Rejected" then Rose else Amber
  }

  /**
   * A missing status is styled as Draft and a missing approval as Pending;
   * the three status options have three different styles, and a style
   * other than the fallback one names its status.
   */
  lemma BadgeFallbacks(status: string)
    ensures StatusBadge("") == StatusBadge("Draft") == Neutral
    ensures ApprovalTone("") == ApprovalTone("Pending") == Amber
    ensures StatusBadge(StatusOptions[0]) != StatusBadge(StatusOptions[1])
    ensures StatusBadge(StatusOptions[1]) != StatusBadge(StatusOptions[2])
    ensures StatusBadge(StatusOptions[0]) != StatusBadge(StatusOptions[2])
    ensures StatusBadge(status) == Emerald <==> status == "Active"
    ensures StatusBadge(status) == Blue <==> status == "Closed"
    ensures ApprovalTone(status) == Emerald <==> status == "Approved"
    ensures ApprovalTone(status) == Rose <==> status == "Rejected"
  {
  }

  // ------------------------------------------------------------------ page

  /** The page's state. */
  class SalesPlansPage {
    var plans: seq<Plan>
    var search: string
    var statusFilter: string
    var isCreateOpen: bool
    var form: PlanForm
    var errors: FormErrors

    constructor (seed: seq<Plan>)
      ensures plans == seed && search == "" && statusFilter == "all"
      ensures !isCreateOpen && form == InitialForm() && errors == NoErrors
    {
      plans := seed;
      search := "";
      statusFilter := "all";
      isCreateOpen := false;
      form := InitialForm();
      errors := NoErrors;
    }

    /** The plans listed. */
    function Shown(): seq<Plan>
      reads this
    {
      FilteredPlans(plans, search, statusFilter)
    }

    /** `validate`: collect the errors field by field and record them. */
    method Validate() returns (ok: bool)
      modifies this
      ensures errors == Errors(form) && (ok <==> errors == NoErrors)
      ensures plans == old(plans) && form == old(form) && isCreateOpen == old(isCreateOpen)
      ensures search == old(search) && statusFilter == old(statusFilter)
    {
      var f := form;
      var next := NoErrors;
      if Trim(f.title) == "" {
        next := next.(title := true);
      }
      if Trim(f.customerName) == "" {
        next := next.(customerName := true);
      }
      if f.dateStart == "" {
        next := next.(dateStart := true);
      }
      if f.dateEnd == "" {
        next := next.(dateEnd := true);
      }
      if f.dateStart != "" && f.dateEnd != "" && LexLess(f.dateEnd, f.dateStart) {
        next := next.(dateEnd := true);
      }
      errors := next;
      ok := next == NoErrors;
    }

    /**
     * `handleCreatePlan`: a form with errors records them and adds nothing;
     * a valid one puts the new plan first, closes the dialog and resets the
     * form.
     */
    method CreatePlan(now: nat)
      modifies this
      ensures Errors(old(form)) != NoErrors ==>
        plans == old(plans) && errors == Errors(old(form)) && form == old(form)
        && isCreateOpen == old(isCreateOpen)
      ensures Errors(old(form)) == NoErrors ==>
        plans == [NewPlan(old(form), now)] + old(plans) && !isCreateOpen
        && form == InitialForm() && errors == NoErrors
      ensures search == old(search) && statusFilter == old(statusFilter)
    {
      var ok := Validate();
      if !ok {
        return;
      }
      plans := [NewPlan(form, now)] + plans;
      isCreateOpen := false;
      form := InitialForm();
      errors := NoErrors;
    }

    method SetSearch(s: string)
      modifies this
      ensures search == s
      ensures plans == old(plans) && statusFilter == old(statusFilter) && form == old(form)
      ensures isCreateOpen == old(isCreateOpen) && errors == old(errors)
    {
      search := s;
    }

    method SetStatusFilter(s: string)
      modifies this
      ensures statusFilter == s
      ensures plans == old(plans) && search == old(search) && form == old(form)
      ensures isCreateOpen == old(isCreateOpen) && errors == old(errors)
    {
      statusFilter := s;
    }
  }
}
