/** The registration page: its five-field validator, the field edits, and the submit that
    posts the form and, on success, signs the new user in. */
module Register {
  import opened JsCore
  import opened Records
  import opened Forms
  import AuthStore

  const RegisterFields: set<string> := {"name", "email", "phone", "password", "role"}

  /** The form as the page first renders it. */
  function EmptyRegisterForm(): (f: FormData)
    ensures f.Keys == RegisterFields
    ensures forall k :: k in f ==> f[k] == ""
  {
    map["name" := "", "email" := "", "phone" := "", "password" := "", "role" := ""]
  }

  /** `roleOptions`: the values the role select offers. */
  const RoleOptions: seq<string> := ["user", "admin"]

  /** Of the offered roles exactly `admin` makes the registered user an admin, and neither
      leaves the role field empty. */
  lemma RoleOptionsAreUserAndAdmin(u: User)
    ensures forall r :: r in RoleOptions ==> r != "" && (r == "admin" || r == "user")
    ensures forall r :: r in RoleOptions ==> (AuthStore.IsAdminUser(Some(u.(role := Some(r)))) <==> r == "admin")
  {
  }

  /** The `newErrors` map `validate()` builds, one rule per field in the source's order. */
  function RegisterErrorChain(f: FormData): Errors
    requires RegisterFields <= f.Keys
  {
    var withName := Put(map[], "name", RequiredError(f["name"], "Name is required"));
    var withEmail := Put(withName, "email", EmailError(f["email"]));
    var withPhone := Put(withEmail, "phone", RequiredError(f["phone"], "Phone is required"));
    var withPassword := Put(withPhone, "password", PasswordError(f["password"], "Password is required"));
    Put(withPassword, "role", if f["role"] == "" then Some("Role is required") else None)
  }

  lemma ChainNameAndEmail(f: FormData)
    requires RegisterFields <= f.Keys
    ensures var r := RegisterErrorChain(f);
            ("name" in r <==> IsBlank(f["name"])) && ("name" in r ==> r["name"] == "Name is required")
            && ("email" in r <==> EmailError(f["email"]).Some?)
            && ("email" in r ==> r["email"] == EmailError(f["email"]).value)
  {
  }

  lemma ChainPhoneAndPassword(f: FormData)
    requires RegisterFields <= f.Keys
    ensures var r := RegisterErrorChain(f);
            ("phone" in r <==> IsBlank(f["phone"])) && ("phone" in r ==> r["phone"] == "Phone is required")
            && ("password" in r <==> |f["password"]| < 6)
            && ("password" in r && f["password"] == "" ==> r["password"] == "Password is required")
            && ("password" in r && f["password"] != "" ==> r["password"] == "Password must be at least 6 characters")
  {
  }

  lemma ChainRoleAndKeys(f: FormData)
    requires RegisterFields <= f.Keys
    ensures var r := RegisterErrorChain(f);
            r.Keys <= RegisterFields
            && ("role" in r <==> f["role"] == "") && ("role" in r ==> r["role"] == "Role is required")
  {
  }

  /** Five `newErrors` snapshots, each one field's step on the one before, end at the verdict. */
  lemma ChainFromSteps(f: FormData, withName: Errors, withEmail: Errors, withPhone: Errors,
                       withPassword: Errors, withRole: Errors)
    requires RegisterFields <= f.Keys
    requires withName == Put(map[], "name", RequiredError(f["name"], "Name is required"))
    requires withEmail == Put(withName, "email", EmailError(f["email"]))
    requires withPhone == Put(withEmail, "phone", RequiredError(f["phone"], "Phone is required"))
    requires withPassword == Put(withPhone, "password", PasswordError(f["password"], "Password is required"))
    requires withRole == Put(withPassword, "role", if f["role"] == "" then Some("Role is required") else None)
    ensures withRole == RegisterErrors(f)
  {
  }

  /** `validate()`'s verdict: name and phone blank after trimming, the email rule, the
      password empty or shorter than six characters, and an empty role. */
  function RegisterErrors(f: FormData): (r: Errors)
    requires RegisterFields <= f.Keys
    ensures r.Keys <= RegisterFields
    ensures "name" in r <==> IsBlank(f["name"])
    ensures "name" in r ==> r["name"] == "Name is required"
    ensures "email" in r <==> EmailError(f["email"]).Some?
    ensures "email" in r ==> r["email"] == EmailError(f["email"]).value
    ensures "phone" in r <==> IsBlank(f["phone"])
    ensures "phone" in r ==> r["phone"] == "Phone is required"
    ensures "password" in r <==> |f["password"]| < 6
    ensures "password" in r && f["password"] == "" ==> r["password"] == "Password is required"
    ensures "password" in r && f["password"] != "" ==> r["password"] == "Password must be at least 6 characters"
    ensures "role" in r <==> f["role"] == ""
    ensures "role" in r ==> r["role"] == "Role is required"
  {
    ChainNameAndEmail(f);
    ChainPhoneAndPassword(f);
    ChainRoleAndKeys(f);
    RegisterErrorChain(f)
  }

  /** The email field carries exactly one message when it fails: `Email is required` for a
      blank address, otherwise `Email is invalid`. */
  lemma EmailGetsOneMessage(f: FormData)
    requires RegisterFields <= f.Keys
    ensures "email" in RegisterErrors(f) <==> IsBlank(f["email"]) || !EmailLike(f["email"])
    ensures IsBlank(f["email"]) ==> RegisterErrors(f)["email"] == "Email is required"
    ensures !IsBlank(f["email"]) && !EmailLike(f["email"]) ==> RegisterErrors(f)["email"] == "Email is invalid"
  {
  }

  /** A complete form with a six-character password passes. */
  lemma CompleteFormHasNoErrors(f: FormData)
    requires RegisterFields <= f.Keys
    requires !IsBlank(f["name"]) && !IsBlank(f["phone"]) && !IsBlank(f["email"]) && EmailLike(f["email"])
    requires |f["password"]| >= 6 && f["role"] != ""
    ensures RegisterErrors(f) == map[]
  {
    assert RegisterErrors(f).Keys == {};
  }

  /** `validate()`: fills `newErrors` field by field. */
  method Validate(formData: FormData) returns (newErrors: Errors)
    requires RegisterFields <= formData.Keys
    ensures newErrors == RegisterErrors(formData)
  {
    newErrors := map[];
    if Trim(formData["name"]) == "" {
      newErrors := newErrors["name" := "Name is required"];
    }
    RequiredStep(map[], newErrors, "name", formData["name"], "Name is required");
    ghost var withName := newErrors;
    if Trim(formData["email"]) == "" {
      newErrors := newErrors["email" := "Email is required"];
    } else if !EmailLike(formData["email"]) {
      newErrors := newErrors["email" := "Email is invalid"];
    }
    EmailStep(withName, newErrors, formData["email"]);
    ghost var withEmail := newErrors;
    if Trim(formData["phone"]) == "" {
      newErrors := newErrors["phone" := "Phone is required"];
    }
    RequiredStep(withEmail, newErrors, "phone", formData["phone"], "Phone is required");
    ghost var withPhone := newErrors;
    if formData["password"] == "" {
      newErrors := newErrors["password" := "Password is required"];
    } else if |formData["password"]| < 6 {
      newErrors := newErrors["password" := "Password must be at least 6 characters"];
    }
    PasswordStep(withPhone, newErrors, "password", formData["password"], "Password is required");
    ghost var withPassword := newErrors;
    if formData["role"] == "" {
      newErrors := newErrors["role" := "Role is required"];
    }
    FlagStep(withPassword, newErrors, "role", formData["role"] == "", "Role is required");
    ChainFromSteps(formData, withName, withEmail, withPhone, withPassword, newErrors);
  }

  class RegisterPage {
    var formData: FormData
    var errors: Errors
    var loading: bool

    ghost predicate Valid()
      reads this
    {
      RegisterFields <= formData.Keys
    }

    constructor ()
      ensures Valid()
      ensures formData == EmptyRegisterForm() && errors == map[] && !loading
    {
      formData := EmptyRegisterForm();
      errors := map[];
      loading := false;
    }

    /** `handleChange(e)` */
    method HandleChange(name: string, value: string)
      requires Valid()
      modifies this
      ensures Valid()
      ensures (formData, errors) == ChangeField(old(formData), old(errors), name, value)
      ensures loading == old(loading)
    {
      var changed := ChangeField(formData, errors, name, value);
      formData, errors := changed.0, changed.1;
    }

    /** `handleSubmit(e)`: the form posted, if any, and where the page navigates. `reply`
        is the outcome of the post: the token and user it returned, or the server's
        message. */
    method HandleSubmit(store: AuthStore.AuthStore, reply: Fetch<AuthStore.Session>)
      returns (request: Option<FormData>, navigateTo: Option<string>)
      requires Valid()
      modifies this, store
      ensures Valid() && formData == old(formData)
      ensures RegisterErrors(old(formData)) != map[] <==> request.None?
      ensures request.None? ==>
                errors == RegisterErrors(old(formData)) && loading == old(loading) && navigateTo.None?
                && store.token == old(store.token) && store.user == old(store.user)
      ensures request.Some? ==> request.value == old(formData) && !loading
      ensures request.Some? && reply.Fetched? ==>
                store.token == reply.data.token && store.user == reply.data.user
                && navigateTo == Some("/dashboard") && errors == map[]
      ensures request.Some? && reply.Failed? ==>
                errors == map["submit" := OrElse(reply.message, "Registration failed. Please try again.")]
                && navigateTo.None? && store.token == old(store.token) && store.user == old(store.user)
    {
      var validationErrors := Validate(formData);
      if validationErrors != map[] {
        errors := validationErrors;
        return None, None;
      }
      loading := true;
      errors := map[];
      request := Some(formData);
      navigateTo := None;
      if reply.Failed? {
        errors := map["submit" := OrElse(reply.message, "Registration failed. Please try again.")];
      } else {
        store.Login(reply.data.token, reply.data.user);
        navigateTo := Some("/dashboard");
      }
      loading := false;
    }
  }
}
