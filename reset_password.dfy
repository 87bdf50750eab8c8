/** The reset-password page: the password and confirmation validator, the field edits, and
    the submit that posts the new password under the token from the link. */
module ResetPassword {
  import opened JsCore
  import opened Forms

  const ResetFields: set<string> := {"password", "confirmPassword"}

  function EmptyResetForm(): (f: FormData)
    ensures f.Keys == ResetFields
    ensures forall k :: k in f ==> f[k] == ""
  {
    map["password" := "", "confirmPassword" := ""]
  }

  /** `validate()`'s verdict: the password empty or shorter than six characters, and,
      independently, a confirmation that differs from it. */
  function ResetErrors(f: FormData): (r: Errors)
    requires ResetFields <= f.Keys
    ensures r.Keys <= ResetFields
    ensures "password" in r <==> |f["password"]| < 6
    ensures "password" in r && f["password"] == "" ==> r["password"] == "Password is required"
    ensures "password" in r && f["password"] != "" ==> r["password"] == "Password must be at least 6 characters"
    ensures "confirmPassword" in r <==> f["password"] != f["confirmPassword"]
    ensures "confirmPassword" in r ==> r["confirmPassword"] == "Passwords do not match"
  {
    var withPassword := Put(map[], "password", PasswordError(f["password"], "Password is required"));
    Put(withPassword, "confirmPassword",
        if f["password"] != f["confirmPassword"] then Some("Passwords do not match") else None)
  }

  /** The untouched form reports only the missing password: equal empty fields match. */
  lemma EmptyFormOnlyNeedsPassword()
    ensures ResetErrors(EmptyResetForm()) == map["password" := "Password is required"]
  {
    var r := ResetErrors(EmptyResetForm());
    assert r.Keys == {"password"};
  }

  /** A password of six characters or more, confirmed, passes. */
  lemma ConfirmedPasswordHasNoErrors(f: FormData)
    requires ResetFields <= f.Keys
    requires |f["password"]| >= 6 && f["confirmPassword"] == f["password"]
    ensures ResetErrors(f) == map[]
  {
    assert ResetErrors(f).Keys == {};
  }

  /** `validate()`: fills `newErrors` field by field. */
  method Validate(formData: FormData) returns (newErrors: Errors)
    requires ResetFields <= formData.Keys
    ensures newErrors == ResetErrors(formData)
  {
    newErrors := map[];
    if formData["password"] == "" {
      newErrors := newErrors["password" := "Password is required"];
    } else if |formData["password"]| < 6 {
      newErrors := newErrors["password" := "Password must be at least 6 characters"];
    }
    assert newErrors == Put(map[], "password", PasswordError(formData["password"], "Password is required"));
    if formData["password"] != formData["confirmPassword"] {
      newErrors := newErrors["confirmPassword" := "Passwords do not match"];
    }
  }

  /** The request the submit sends: the path carrying the link's token, and the password. */
  datatype ResetRequest = ResetRequest(path: string, password: string)

  class ResetPasswordPage {
    var formData: FormData
    var errors: Errors
    var loading: bool

    ghost predicate Valid()
      reads this
    {
      ResetFields <= formData.Keys
    }

    constructor ()
      ensures Valid()
      ensures formData == EmptyResetForm() && errors == map[] && !loading
    {
      formData := EmptyResetForm();
      errors := map[];
      loading := false;
    }

    /** `handleChange(e)` */
    method HandleChange(name: string, value: string)
      requires Valid()
      modifies this
      ensures Valid()
      ensures (formData, errors) == ChangeField(old(formData), old(errors), name, value)
      ensures loading == old(loading)
    {
      var changed := ChangeField(formData, errors, name, value);
      formData, errors := changed.0, changed.1;
    }

    /** `handleSubmit(e)`: the request sent, if any, and where the page navigates. `reply`
        is the HTTP status of the post, or the server's message when it failed. Unlike
        the other forms, the old errors are not cleared before the request. */
    method HandleSubmit(token: string, reply: Fetch<int>) returns (request: Option<ResetRequest>, navigateTo: Option<string>)
      requires Valid()
      modifies this
      ensures Valid() && formData == old(formData)
      ensures ResetErrors(old(formData)) != map[] <==> request.None?
      ensures request.None? ==> errors == ResetErrors(old(formData)) && loading == old(loading)
      ensures request.Some? ==>
                request.value == ResetRequest("auth/resetPassword/" + token, old(formData)["password"]) && !loading
      ensures navigateTo.Some? <==> request.Some? && reply == Fetched(200)
      ensures navigateTo.Some? ==> navigateTo.value == "/login"
      ensures request.Some? && reply.Fetched? ==> errors == old(errors)
      ensures request.Some? && reply.Failed? ==>
                errors == map["submit" := OrElse(reply.message, "Failed to reset password")]
    {
      var validationErrors := Validate(formData);
      if validationErrors != map[] {
        errors := validationErrors;
        return None, None;
      }
      loading := true;
      request := Some(ResetRequest("auth/resetPassword/" + token, formData["password"]));
      navigateTo := None;
      if reply.Failed? {
        errors := map["submit" := OrElse(reply.message, "Failed to reset password")];
      } else if reply.data == 200 {
        navigateTo := Some("/login");
      }
      loading := false;
    }
  }
}
