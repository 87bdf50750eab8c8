/** The profile page: the form filled from the fetched profile or the signed-in user, the
    profile and password validators, the field edits, and the two submits. */
module Profile {
  import opened JsCore
  import opened Records
  import opened Forms
  import AuthStore

  const DetailFields: set<string> := {"name", "email", "phone"}
  const PasswordFields: set<string> := {"currentPassword", "newPassword", "confirmPassword"}
  const ProfileFields: set<string> := DetailFields + PasswordFields

  /** The form filled from a user record: `name || ''`, `email || ''`, `phone || ''`, and
      the three password fields empty. */
  function FormFor(u: User): (f: FormData)
    ensures f.Keys == ProfileFields
    ensures f["name"] == OrElse(u.name, "") && f["email"] == OrElse(u.email, "") && f["phone"] == OrElse(u.phone, "")
    ensures forall k :: k in PasswordFields ==> f[k] == ""
  {
    map["name" := OrElse(u.name, ""), "email" := OrElse(u.email, ""), "phone" := OrElse(u.phone, ""),
        "currentPassword" := "", "newPassword" := "", "confirmPassword" := ""]
  }

  /** The form before any fetch has settled: all six fields empty. */
  function EmptyProfileForm(): (f: FormData)
    ensures f.Keys == ProfileFields
    ensures forall k :: k in f ==> f[k] == ""
  {
    FormFor(User(None, None, None, None, None))
  }

  /** `fetchProfile`'s fill. `fetched` is the profile request's outcome, `Fetched(None)` for
      a response without data: the fetched record when there is one, otherwise the store's
      user, otherwise the form as it was. */
  function FilledForm(current: FormData, fetched: Fetch<Option<User>>, storeUser: Option<User>): (f: FormData)
    ensures fetched.Fetched? && fetched.data.Some? ==> f == FormFor(fetched.data.value)
    ensures !(fetched.Fetched? && fetched.data.Some?) && storeUser.Some? ==> f == FormFor(storeUser.value)
    ensures !(fetched.Fetched? && fetched.data.Some?) && storeUser.None? ==> f == current
  {
    if fetched.Fetched? && fetched.data.Some? then FormFor(fetched.data.value)
    else if storeUser.Some? then FormFor(storeUser.value)
    else current
  }

  /** Whatever the fetch does, the password fields come out empty when they went in empty. */
  lemma FillNeverCarriesPasswords(current: FormData, fetched: Fetch<Option<User>>, storeUser: Option<User>)
    requires forall k :: k in PasswordFields ==> k in current && current[k] == ""
    ensures forall k :: k in PasswordFields ==> k in FilledForm(current, fetched, storeUser) && FilledForm(current, fetched, storeUser)[k] == ""
  {
  }

  /** `validateProfile()`'s verdict: name and phone blank after trimming, and the email
      rule. */
  function ProfileErrors(f: FormData): (r: Errors)
    requires DetailFields <= f.Keys
    ensures r.Keys <= DetailFields
    ensures "name" in r <==> IsBlank(f["name"])
    ensures "name" in r ==> r["name"] == "Name is required"
    ensures "email" in r <==> EmailError(f["email"]).Some?
    ensures "email" in r ==> r["email"] == EmailError(f["email"]).value
    ensures "phone" in r <==> IsBlank(f["phone"])
    ensures "phone" in r ==> r["phone"] == "Phone is required"
  {
    var withName := Put(map[], "name", RequiredError(f["name"], "Name is required"));
    var withEmail := Put(withName, "email", EmailError(f["email"]));
    Put(withEmail, "phone", RequiredError(f["phone"], "Phone is required"))
  }

  /** `validatePassword()`'s verdict: an empty current password, a new password empty or
      shorter than six characters, and, independently, a confirmation that differs. */
  function PasswordFormErrors(f: FormData): (r: Errors)
    requires PasswordFields <= f.Keys
    ensures r.Keys <= PasswordFields
    ensures "currentPassword" in r <==> f["currentPassword"] == ""
    ensures "currentPassword" in r ==> r["currentPassword"] == "Current password is required"
    ensures "newPassword" in r <==> |f["newPassword"]| < 6
    ensures "newPassword" in r && f["newPassword"] == "" ==> r["newPassword"] == "New password is required"
    ensures "newPassword" in r && f["newPassword"] != "" ==> r["newPassword"] == "Password must be at least 6 characters"
    ensures "confirmPassword" in r <==> f["newPassword"] != f["confirmPassword"]
    ensures "confirmPassword" in r ==> r["confirmPassword"] == "Passwords do not match"
  {
    var withCurrent := Put(map[], "currentPassword",
                           if f["currentPassword"] == "" then Some("Current password is required") else None);
    var withNew := Put(withCurrent, "newPassword", PasswordError(f["newPassword"], "New password is required"));
    Put(withNew, "confirmPassword",
        if f["newPassword"] != f["confirmPassword"] then Some("Passwords do not match") else None)
  }

  /** The two validators look at disjoint fields: editing a password field never changes
      the profile verdict, and editing a detail field never changes the password verdict. */
  lemma ValidatorsAreIndependent(f: FormData, name: string, value: string)
    requires ProfileFields <= f.Keys
    ensures name in PasswordFields ==> ProfileErrors(f[name := value]) == ProfileErrors(f)
    ensures name in DetailFields ==> PasswordFormErrors(f[name := value]) == PasswordFormErrors(f)
  {
    if name in PasswordFields {
      var g := f[name := value];
      assert g["name"] == f["name"] && g["email"] == f["email"] && g["phone"] == f["phone"];
    }
    if name in DetailFields {
      var g := f[name := value];
      assert g["currentPassword"] == f["currentPassword"] && g["newPassword"] == f["newPassword"];
      assert g["confirmPassword"] == f["confirmPassword"];
    }
  }

  /** `validateProfile()`: fills `newErrors` field by field. */
  method ValidateProfile(formData: FormData) returns (newErrors: Errors)
    requires DetailFields <= formData.Keys
    ensures newErrors == ProfileErrors(formData)
  {
    newErrors := map[];
    if Trim(formData["name"]) == "" {
      newErrors := newErrors["name" := "Name is required"];
    }
    assert newErrors == Put(map[], "name", RequiredError(formData["name"], "Name is required"));
    ghost var withName := newErrors;
    if Trim(formData["email"]) == "" {
      newErrors := newErrors["email" := "Email is required"];
    } else if !EmailLike(formData["email"]) {
      newErrors := newErrors["email" := "Email is invalid"];
    }
    assert newErrors == Put(withName, "email", EmailError(formData["email"]));
    if Trim(formData["phone"]) == "" {
      newErrors := newErrors["phone" := "Phone is required"];
    }
  }

  /** `validatePassword()`: fills `newErrors` field by field. */
  method ValidatePassword(formData: FormData) returns (newErrors: Errors)
    requires PasswordFields <= formData.Keys
    ensures newErrors == PasswordFormErrors(formData)
  {
    newErrors := map[];
    if formData["currentPassword"] == "" {
      newErrors := newErrors["currentPassword" := "Current password is required"];
    }
    ghost var withCurrent := newErrors;
    if formData["newPassword"] == "" {
      newErrors := newErrors["newPassword" := "New password is required"];
    } else if |formData["newPassword"]| < 6 {
      newErrors := newErrors["newPassword" := "Password must be at least 6 characters"];
    }
    assert newErrors == Put(withCurrent, "newPassword", PasswordError(formData["newPassword"], "New password is required"));
    if formData["newPassword"] != formData["confirmPassword"] {
      newErrors := newErrors["confirmPassword" := "Passwords do not match"];
    }
  }

  /** The form after a successful password change: the three password fields emptied, the
      details kept. */
  function ClearPasswords(f: FormData): (r: FormData)
    ensures r.Keys == f.Keys + PasswordFields
    ensures forall k :: k in PasswordFields ==> r[k] == ""
    ensures forall k :: k in f && k !in PasswordFields ==> r[k] == f[k]
  {
    f["currentPassword" := ""]["newPassword" := ""]["confirmPassword" := ""]
  }

  /** The profile reply: the user itself, or an object carrying it under `user`. */
  datatype UserResponse = Direct(u: User) | Envelope(inner: Option<User>)

  /** `response.data.user || response.data`: an envelope without a user is stored as a
      user with every property absent. */
  function UserOf(data: UserResponse): (u: User)
    ensures data.Direct? ==> u == data.u
    ensures data.Envelope? && data.inner.Some? ==> u == data.inner.value
    ensures data == Envelope(None) ==> u.name.None? && u.role.None? && !AuthStore.IsAdminUser(Some(u))
  {
    match data
    case Direct(u) => u
    case Envelope(Some(u)) => u
    case Envelope(None) => User(None, None, None, None, None)
  }

  datatype ProfileRequest = ProfileRequest(name: string, email: string, phone: string)
  datatype PasswordRequest = PasswordRequest(currentPassword: string, newPassword: string)

  class ProfilePage {
    var formData: FormData
    var errors: Errors
    var loading: bool
    var saving: bool

    ghost predicate Valid()
      reads this
    {
      ProfileFields <= formData.Keys
    }

    constructor ()
      ensures Valid()
      ensures formData == EmptyProfileForm() && errors == map[] && loading && !saving
    {
      formData := EmptyProfileForm();
      errors := map[];
      loading := true;
      saving := false;
    }

    /** The effect on `[user]`: fill the form, then stop loading. */
    method FetchProfile(fetched: Fetch<Option<User>>, storeUser: Option<User>)
      requires Valid()
      modifies this
      ensures Valid()
      ensures formData == FilledForm(old(formData), fetched, storeUser) && !loading
      ensures errors == old(errors) && saving == old(saving)
    {
      if fetched.Fetched? && fetched.data.Some? {
        var userData := fetched.data.value;
        formData := map["name" := OrElse(userData.name, ""), "email" := OrElse(userData.email, ""),
                        "phone" := OrElse(userData.phone, ""), "currentPassword" := "",
                        "newPassword" := "", "confirmPassword" := ""];
      } else if storeUser.Some? {
        formData := FormFor(storeUser.value);
      }
      loading := false;
    }

    /** `handleChange(e)` */
    method HandleChange(name: string, value: string)
      requires Valid()
      modifies this
      ensures Valid()
      ensures (formData, errors) == ChangeField(old(formData), old(errors), name, value)
      ensures loading == old(loading) && saving == old(saving)
    {
      var changed := ChangeField(formData, errors, name, value);
      formData, errors := changed.0, changed.1;
    }

    /** `handleProfileSubmit(e)`: the details sent, if any. `reply` is the outcome of the
        update, `Fetched(None)` for a response without data. On success the session keeps
        its token and takes the returned user. */
    method HandleProfileSubmit(store: AuthStore.AuthStore, reply: Fetch<Option<UserResponse>>)
      returns (request: Option<ProfileRequest>)
      requires Valid()
      modifies this, store
      ensures Valid() && formData == old(formData) && loading == old(loading)
      ensures ProfileErrors(old(formData)) != map[] <==> request.None?
      ensures request.None? ==> errors == ProfileErrors(old(formData)) && saving == old(saving)
      ensures request.Some? ==>
                request.value == ProfileRequest(old(formData)["name"], old(formData)["email"], old(formData)["phone"])
                && !saving
      ensures store.token == old(store.token)
      ensures request.Some? && reply.Fetched? && reply.data.Some? ==>
                store.user == Some(UserOf(reply.data.value)) && errors == map[]
      ensures !(request.Some? && reply.Fetched? && reply.data.Some?) ==> store.user == old(store.user)
      ensures request.Some? && reply == Fetched(None) ==> errors == map[]
      ensures request.Some? && reply.Failed? ==>
                errors == map["submit" := OrElse(reply.message, "Update failed. Please try again.")]
    {
      var validationErrors := ValidateProfile(formData);
      if validationErrors != map[] {
        errors := validationErrors;
        return None;
      }
      saving := true;
      errors := map[];
      request := Some(ProfileRequest(formData["name"], formData["email"], formData["phone"]));
      if reply.Failed? {
        errors := map["submit" := OrElse(reply.message, "Update failed. Please try again.")];
      } else if reply.data.Some? {
        var token := store.token;
        store.Login(token, Some(UserOf(reply.data.value)));
      }
      saving := false;
    }

    /** `handlePasswordSubmit(e)`: the passwords sent, if any. `reply` is the outcome of
        the change. Success empties the three password fields and nothing else. */
    method HandlePasswordSubmit(reply: Fetch<()>) returns (request: Option<PasswordRequest>)
      requires Valid()
      modifies this
      ensures Valid() && loading == old(loading)
      ensures PasswordFormErrors(old(formData)) != map[] <==> request.None?
      ensures request.None? ==> errors == PasswordFormErrors(old(formData)) && formData == old(formData) && saving == old(saving)
      ensures request.Some? ==>
                request.value == PasswordRequest(old(formData)["currentPassword"], old(formData)["newPassword"]) && !saving
      ensures request.Some? && reply.Fetched? ==> formData == ClearPasswords(old(formData)) && errors == map[]
      ensures request.Some? && reply.Failed? ==>
                formData == old(formData)
                && errors == map["submit" := OrElse(reply.message, "Password update failed. Please check your current password.")]
    {
      var validationErrors := ValidatePassword(formData);
      if validationErrors != map[] {
        errors := validationErrors;
        return None;
      }
      saving := true;
      errors := map[];
      request := Some(PasswordRequest(formData["currentPassword"], formData["newPassword"]));
      if reply.Failed? {
        errors := map["submit" := OrElse(reply.message, "Password update failed. Please check your current password.")];
      } else {
        formData := formData["currentPassword" := ""]["newPassword" := ""]["confirmPassword" := ""];
      }
      saving := false;
    }
  }
}
