/**
 * The sign-in form: it rejects an account without a role, stores the shaped
 * identity in the session and sends each role to its home page.
 */
module Login {
  import opened Wrappers
  import opened Roles
  import opened Auth
  import opened Routes
  import opened App

  const MissingRoleMessage: string := "Role tidak ditemukan pada akun ini"
  const FallbackMessage: string := "Terjadi kesalahan saat login"

  /** The account record the sign-in service answers with. */
  datatype Account = Account(id: string, namaLengkap: string, username: string, email: string, role: Option<string>)

  /** The sign-in service's answer: an account (possibly null), or a failure with its message. */
  datatype Answer = Answered(account: Option<Account>) | Failed(message: string)

  /** The home page of a role identifier: the switch after a successful sign-in. */
  function HomeFor(role: string): (path: seq<string>)
    ensures role == "admin" ==> path == ["executive"]
    ensures role == "manager" ==> path == ["manager"]
    ensures role != "admin" && role != "manager" ==> path == []
  {
    if role == "admin" then ["executive"]
    else if role == "manager" then ["manager"]
    else []
  }

  /** The identity stored for an account: name from `nama_lengkap`, else the username. */
  function Shape(a: Account): (u: Identity)
    ensures u.id == a.id && u.email == a.email && u.role == a.role
    ensures a.namaLengkap != "" ==> u.name == a.namaLengkap
    ensures a.namaLengkap == "" ==> u.name == a.username
  {
    Identity(a.id, if a.namaLengkap != "" then a.namaLengkap else a.username, a.email, a.role)
  }

  /** What a submission ends with: the error shown, the identity stored, the page navigated to. */
  datatype Outcome = Outcome(error: string, stored: Option<Identity>, navigate: Option<seq<string>>)

  function SubmitOutcome(answer: Answer): (o: Outcome)
  {
    match answer
    case Failed(msg) => Outcome(if msg != "" then msg else FallbackMessage, None, None)
    case Answered(acct) =>
      if acct.None? || acct.value.role.None? || acct.value.role.value == "" then
        Outcome(MissingRoleMessage, None, None)
      else
        Outcome("", Some(Shape(acct.value)), Some(HomeFor(acct.value.role.value)))
  }

  /** An account without a truthy role is refused with a fixed message and nothing is stored. */
  lemma RoleRequired(acct: Option<Account>)
    requires acct.None? || acct.value.role.None? || acct.value.role.value == ""
    ensures SubmitOutcome(Answered(acct)) == Outcome(MissingRoleMessage, None, None)
  {
  }

  /** A failure shows the service's message, or the fallback when that message is empty. */
  lemma FailureMessage(msg: string)
    ensures SubmitOutcome(Failed(msg)).error == (if msg == "" then FallbackMessage else msg)
    ensures SubmitOutcome(Failed(msg)).stored.None? && SubmitOutcome(Failed(msg)).navigate.None?
  {
  }

  /** A success stores an identity that passes the role test and navigates to that role's home. */
  lemma SuccessStoresRole(a: Account)
    requires a.role.Some? && a.role.value != ""
    ensures var o := SubmitOutcome(Answered(Some(a)));
      o.error == "" && o.stored == Some(Shape(a)) && HasTruthyRole(o.stored)
      && o.navigate == Some(HomeFor(a.role.value))
  {
  }

  /** Every registry role's home page is one the role may open. */
  lemma HomeOpensForRole(r: Role)
    ensures Opens(r, HomeFor(Id(r)))
  {
    match r
    case Admin => AdminOnlyPaths(r);
    case Manager => ManagerMenuPaths(r);
    case Sales => SalesOnlyPaths(r);
  }

  /**
   * "account_manager" is sent to `/`, whose guard lists only sales, so a user
   * with that role identifier is refused there.
   */
  lemma AccountManagerRefusedAtHome(user: Option<Identity>)
    requires user.Some? && user.value.role == Some("account_manager")
    ensures HomeFor("account_manager") == []
    ensures Dispatch([]) == Guarded(3, [Sales]) && !RoleGate(user, Dispatch([]))
  {
    DispatchAt(3, []);
    UnknownRoleRejected(user, [Sales]);
    assert RoleIds([Sales]) == seq(1, i requires 0 <= i < 1 => Id([Sales][i]));
  }

  /** The form's own state: the error shown and the loading flag, plus the page navigated to. */
  class LoginForm {
    var error: string
    var loading: bool
    var navigated: Option<seq<string>>

    constructor ()
      ensures error == "" && !loading && navigated.None?
    {
      error := "";
      loading := false;
      navigated := None;
    }

    /** `handleSubmit`, given the service's answer. */
    method HandleSubmit(answer: Answer, session: Session)
      modifies this, session
      ensures var o := SubmitOutcome(answer);
        error == o.error && navigated == (if o.navigate.Some? then o.navigate else old(navigated))
        && !loading
      ensures var o := SubmitOutcome(answer);
        o.stored.Some? ==>
          session.user == o.stored && session.storage == old(session.storage)[StorageKey := Serialized(o.stored)]
      ensures var o := SubmitOutcome(answer);
        o.stored.None? ==> session.user == old(session.user) && session.storage == old(session.storage)
      ensures session.loading == old(session.loading)
    {
      error := "";
      loading := true;
      match answer {
        case Failed(msg) =>
          error := if msg != "" then msg else FallbackMessage;
        case Answered(acct) =>
          if acct.None? || acct.value.role.None? || acct.value.role.value == "" {
            error := MissingRoleMessage;
          } else {
            session.SetUser(Shape(acct.value));
            navigated := Some(HomeFor(acct.value.role.value));
          }
      }
      loading := false;
    }
  }
}
