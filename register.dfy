/**
 * The registration page: the form, its password check and the button
 * that stays disabled until the required fields are filled. Nothing is
 * sent anywhere; a matching submission goes to the sign-in page.
 */
module Register {
  import opened Wrappers
  import opened Roles
  import Routes
  import App

  /** The form; `role` holds the identifier the role selector shows. */
  datatype RegisterForm = RegisterForm(
    fullName: string, username: string, email: string, phone: string,
    role: string, password: string, confirmPassword: string)

  /** Empty fields and the first role of `ALL_ROLES`. */
  function InitialForm(): (f: RegisterForm)
    ensures f.role == "sales" && f.role == Id(AllRoles[0])
  {
    RegisterForm("", "", "", "", Id(AllRoles[0]), "", "")
  }

  /** The fields `update` is called with. */
  datatype Key = FullName | Username | Email | Phone | RoleKey | Password | ConfirmPassword

  function Get(form: RegisterForm, key: Key): string {
    match key
    case FullName => form.fullName
    case Username => form.username
    case Email => form.email
    case Phone => form.phone
    case RoleKey => form.role
    case Password => form.password
    case ConfirmPassword => form.confirmPassword
  }

  /** `update(key, value)`: the named field takes the value and the others stay. */
  function Update(form: RegisterForm, key: Key, value: string): (r: RegisterForm)
    ensures Get(r, key) == value
    ensures forall k :: k != key ==> Get(r, k) == Get(form, k)
  {
    match key
    case FullName => form.(fullName := value)
    case Username => form.(username := value)
    case Email => form.(email := value)
    case Phone => form.(phone := value)
    case RoleKey => form.(role := value)
    case Password => form.(password := value)
    case ConfirmPassword => form.(confirmPassword := value)
  }

  /** A form is determined by its fields: two forms agreeing on every key are equal. */
  lemma FormByKeys(a: RegisterForm, b: RegisterForm)
    requires forall k :: Get(a, k) == Get(b, k)
    ensures a == b
  {
    assert Get(a, FullName) == Get(b, FullName) && Get(a, Username) == Get(b, Username);
    assert Get(a, Email) == Get(b, Email) && Get(a, Phone) == Get(b, Phone);
    assert Get(a, RoleKey) == Get(b, RoleKey) && Get(a, Password) == Get(b, Password);
    assert Get(a, ConfirmPassword) == Get(b, ConfirmPassword);
  }

  /** Updating a field with its own value changes nothing; the last of two updates of one field wins. */
  lemma UpdateLaws(form: RegisterForm, key: Key, v: string, w: string)
    ensures Update(form, key, Get(form, key)) == form
    ensures Update(Update(form, key, v), key, w) == Update(form, key, w)
  {
    FormByKeys(Update(form, key, Get(form, key)), form);
    FormByKeys(Update(Update(form, key, v), key, w), Update(form, key, w));
  }

  /** The keys the submit button waits for; the phone is optional. */
  const Required: seq<Key> := [FullName, Username, Email, Password, ConfirmPassword]

  /** `isDisabled`: some required field is empty. */
  predicate Disabled(form: RegisterForm) {
    form.fullName == "" || form.username == "" || form.email == ""
    || form.password == "" || form.confirmPassword == ""
  }

  /** The button is disabled exactly when a required field is empty; the phone and the role play no part. */
  lemma DisabledIffRequiredEmpty(form: RegisterForm, phone: string, role: string)
    ensures Disabled(form) <==> exists k :: k in Required && Get(form, k) == ""
    ensures Disabled(form.(phone := phone, role := role)) == Disabled(form)
    ensures Disabled(InitialForm())
  {
    if Disabled(form) {
      if form.fullName == "" { assert Get(form, FullName) == ""; }
      else if form.username == "" { assert Get(form, Username) == ""; }
      else if form.email == "" { assert Get(form, Email) == ""; }
      else if form.password == "" { assert Get(form, Password) == ""; }
      else { assert Get(form, ConfirmPassword) == ""; }
    }
  }

  const MismatchMessage := "Password dan Confirm Password tidak sama"

  /** The sign-in page a matching submission goes to. */
  const LoginPath: seq<string> := ["login"]

  /** What a submission ends with: the error shown and the page navigated to. */
  datatype Outcome = Outcome(error: string, navigate: Option<seq<string>>)

  /** `handleSubmit`: the error is cleared, then set when the passwords differ; otherwise the page goes to /login. */
  function Submit(form: RegisterForm): (o: Outcome)
    ensures o.navigate.Some? <==> form.password == form.confirmPassword
    ensures o.error == "" <==> o.navigate.Some?
    ensures o.navigate.Some? ==> o.navigate.value == LoginPath
  {
    if form.password != form.confirmPassword then Outcome(MismatchMessage, None)
    else Outcome("", Some(LoginPath))
  }

  /** The page a successful registration lands on is the public sign-in entry, which needs no signed-in user. */
  lemma SubmitLandsOnSignIn(form: RegisterForm)
    requires form.password == form.confirmPassword
    ensures App.Dispatch(Submit(form).navigate.value) == App.PublicPage(0)
    ensures App.RoleGate(None, App.Dispatch(Submit(form).navigate.value))
  {
    Routes.PublicEntries();
    assert Routes.Matches(Routes.Table[0].segs, LoginPath);
    App.DispatchAt(0, LoginPath);
  }

  /** The page's state. */
  class RegisterPage {
    var form: RegisterForm
    var error: string
    var navigated: Option<seq<string>>

    constructor ()
      ensures form == InitialForm() && error == "" && navigated.None?
    {
      form := InitialForm();
      error := "";
      navigated := None;
    }

    method SetField(key: Key, value: string)
      modifies this
      ensures form == Update(old(form), key, value)
      ensures error == old(error) && navigated == old(navigated)
    {
      form := Update(form, key, value);
    }

    method HandleSubmit()
      modifies this
      ensures error == Submit(old(form)).error
      ensures navigated == if Submit(old(form)).navigate.Some? then Submit(old(form)).navigate else old(navigated)
      ensures form == old(form)
    {
      error := "";
      if form.password != form.confirmPassword {
        error := MismatchMessage;
        return;
      }
      navigated := Some(LoginPath);
    }
  }
}
