/** The login page: its two-field validator, the field edits, and the submit that signs in
    only a user whose email is verified. */
module Login {
  import opened JsCore
  import opened Records
  import opened Forms
  import AuthStore

  const LoginFields: set<string> := {"email", "password"}

  function EmptyLoginForm(): (f: FormData)
    ensures f.Keys == LoginFields
    ensures forall k :: k in f ==> f[k] == ""
  {
    map["email" := "", "password" := ""]
  }

  /** `validate()`'s verdict: the email rule, and a password flagged only when empty. */
  function LoginErrors(f: FormData): (r: Errors)
    requires LoginFields <= f.Keys
    ensures r.Keys <= LoginFields
    ensures "email" in r <==> EmailError(f["email"]).Some?
    ensures "email" in r ==> r["email"] == EmailError(f["email"]).value
    ensures "password" in r <==> f["password"] == ""
    ensures "password" in r ==> r["password"] == "Password is required"
  {
    var withEmail := Put(map[], "email", EmailError(f["email"]));
    Put(withEmail, "password", if f["password"] == "" then Some("Password is required") else None)
  }

  /** Login has no length rule: any non-empty password is let through to the server, while
      registration would refuse one shorter than six characters. */
  lemma ShortPasswordPassesLogin(email: string, password: string)
    requires !IsBlank(email) && EmailLike(email)
    requires 0 < |password| < 6
    ensures LoginErrors(map["email" := email, "password" := password]) == map[]
  {
    var f := map["email" := email, "password" := password];
    assert f["email"] == email && f["password"] == password;
    assert LoginErrors(f).Keys == {};
  }

  /** `validate()`: fills `newErrors` field by field. */
  method Validate(formData: FormData) returns (newErrors: Errors)
    requires LoginFields <= formData.Keys
    ensures newErrors == LoginErrors(formData)
  {
    newErrors := map[];
    if Trim(formData["email"]) == "" {
      newErrors := newErrors["email" := "Email is required"];
    } else if !EmailLike(formData["email"]) {
      newErrors := newErrors["email" := "Email is invalid"];
    }
    assert newErrors == Put(map[], "email", EmailError(formData["email"]));
    if formData["password"] == "" {
      newErrors := newErrors["password" := "Password is required"];
    }
  }

  /** `!user.isVerified`: an absent flag counts as unverified. */
  predicate IsVerifiedUser(u: User) {
    u.isVerified == Some(true)
  }

  class LoginPage {
    var formData: FormData
    var errors: Errors
    var loading: bool

    ghost predicate Valid()
      reads this
    {
      LoginFields <= formData.Keys
    }

    constructor ()
      ensures Valid()
      ensures formData == EmptyLoginForm() && errors == map[] && !loading
    {
      formData := EmptyLoginForm();
      errors := map[];
      loading := false;
    }

    /** `handleChange(e)` */
    method HandleChange(name: string, value: string)
      requires Valid()
      modifies this
      ensures Valid()
      ensures (formData, errors) == ChangeField(old(formData), old(errors), name, value)
      ensures loading == old(loading)
    {
      var changed := ChangeField(formData, errors, name, value);
      formData, errors := changed.0, changed.1;
    }

    /** `handleSubmit(e)`: the credentials posted, if any, and where the page navigates.
        A reply without a user makes `user.isVerified` throw, which lands in the catch with
        no server message. */
    method HandleSubmit(store: AuthStore.AuthStore, reply: Fetch<AuthStore.Session>)
      returns (request: Option<FormData>, navigateTo: Option<string>)
      requires Valid()
      modifies this, store
      ensures Valid() && formData == old(formData)
      ensures LoginErrors(old(formData)) != map[] <==> request.None?
      ensures request.None? ==> errors == LoginErrors(old(formData)) && loading == old(loading)
      ensures request.Some? ==> request.value == old(formData) && !loading
      ensures navigateTo.Some? <==> request.Some? && reply.Fetched? && reply.data.user.Some? && IsVerifiedUser(reply.data.user.value)
      ensures navigateTo.Some? ==>
                navigateTo.value == "/dashboard" && errors == map[]
                && store.token == reply.data.token && store.user == reply.data.user
      ensures navigateTo.None? ==> store.token == old(store.token) && store.user == old(store.user)
      ensures request.Some? && reply.Fetched? && reply.data.user.Some? && !IsVerifiedUser(reply.data.user.value) ==>
                errors == map[]
      ensures request.Some? && reply.Fetched? && reply.data.user.None? ==>
                errors == map["submit" := "Login failed. Please check your credentials."]
      ensures request.Some? && reply.Failed? ==>
                errors == map["submit" := OrElse(reply.message, "Login failed. Please check your credentials.")]
    {
      var validationErrors := Validate(formData);
      if validationErrors != map[] {
        errors := validationErrors;
        return None, None;
      }
      loading := true;
      errors := map[];
      request := Some(formData);
      navigateTo := None;
      if reply.Failed? {
        errors := map["submit" := OrElse(reply.message, "Login failed. Please check your credentials.")];
      } else if reply.data.user.None? {
        errors := map["submit" := "Login failed. Please check your credentials."];
      } else if IsVerifiedUser(reply.data.user.value) {
        store.Login(reply.data.token, reply.data.user);
        navigateTo := Some("/dashboard");
      }
      loading := false;
    }
  }
}
