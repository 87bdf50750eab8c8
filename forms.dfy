/** What every form page shares: the `formData`/`errors` state objects, the generic
    `handleChange`, the email pattern `\S+@\S+\.\S+`, and the rules that turn a field into
    at most one message. */
module Forms {
  import opened JsCore

  /** A form's `formData` object: field name to current input text. */
  type FormData = map<string, string>

  /** An `errors` object: field name to message. `Object.keys(errors).length > 0` blocks a
      submit. */
  type Errors = map<string, string>

  /** The error entry for `key`: one message, or none. */
  function Entry(key: string, message: Option<string>): (r: Errors)
    ensures key in r <==> message.Some?
    ensures r.Keys <= {key}
    ensures message.Some? ==> r[key] == message.value
  {
    if message.Some? then map[key := message.value] else map[]
  }

  /** `/\S+@\S+\.\S+/.test(s)`: somewhere in `s`, an `@` preceded by a non-space character,
      then a run of at least one non-space character, a `.`, and a non-space character. */
  predicate EmailLike(s: string) {
    exists at, dot :: 0 < at < |s| && 0 < dot < |s| && EmailAt(s, at, dot)
  }

  /** The pattern matches with its `@` at `at` and its `.` at `dot`. */
  predicate EmailAt(s: string, at: int, dot: int)
    requires 0 < at < |s| && 0 < dot < |s|
  {
    at + 1 < dot && dot + 1 < |s| && s[at] == '@' && s[dot] == '.'
    && !IsSpace(s[at - 1]) && !IsSpace(s[dot + 1])
    && forall k :: at + 1 <= k < dot ==> !IsSpace(s[k])
  }

  /** Any string the pattern accepts has an `@`, a `.`, and at least five characters. */
  lemma EmailLikeShape(s: string)
    requires EmailLike(s)
    ensures '@' in s && '.' in s && |s| >= 5
  {
    var at, dot :| 0 < at < |s| && 0 < dot < |s| && EmailAt(s, at, dot);
    assert s[at] in s && s[dot] in s;
  }

  /** The pattern is unanchored: text around an accepted address does not matter. */
  lemma EmailLikeUnanchored(pre: string, s: string, post: string)
    requires EmailLike(s)
    ensures EmailLike(pre + s + post)
  {
    var at, dot :| 0 < at < |s| && 0 < dot < |s| && EmailAt(s, at, dot);
    var t := pre + s + post;
    var at', dot' := |pre| + at, |pre| + dot;
    assert t[at'] == s[at] && t[dot'] == s[dot];
    assert t[at' - 1] == s[at - 1] && t[dot' + 1] == s[dot + 1];
    forall k | at' + 1 <= k < dot' ensures !IsSpace(t[k]) {
      assert t[k] == s[k - |pre|];
    }
    assert EmailAt(t, at', dot');
  }

  /** `if (!value.trim()) message` */
  function RequiredError(value: string, message: string): (r: Option<string>)
    ensures r.Some? <==> IsBlank(value)
    ensures r.Some? ==> r.value == message
  {
    TrimEmptyIffBlank(value);
    if Trim(value) == "" then Some(message) else None
  }

  /** `if (!email.trim()) 'Email is required' else if (!pattern.test(email)) 'Email is
      invalid'`: at most one of the two messages, the second only for a non-blank email. */
  function EmailError(email: string): (r: Option<string>)
    ensures r == Some("Email is required") <==> IsBlank(email)
    ensures r == Some("Email is invalid") <==> !IsBlank(email) && !EmailLike(email)
    ensures r.None? <==> !IsBlank(email) && EmailLike(email)
  {
    TrimEmptyIffBlank(email);
    if Trim(email) == "" then Some("Email is required")
    else if !EmailLike(email) then Some("Email is invalid")
    else None
  }

  /** `if (!pw) required else if (pw.length < 6) 'Password must be at least 6 characters'` */
  function PasswordError(password: string, requiredMessage: string): (r: Option<string>)
    ensures password == "" ==> r == Some(requiredMessage)
    ensures password != "" ==> (r.Some? <==> |password| < 6)
    ensures password != "" && r.Some? ==> r.value == "Password must be at least 6 characters"
  {
    if password == "" then Some(requiredMessage)
    else if |password| < 6 then Some("Password must be at least 6 characters")
    else None
  }

  /** `handleChange`: the named field takes the new value, and that field's error, if it
      was set to a non-empty message, is replaced by the empty string. */
  function ChangeField(formData: FormData, errors: Errors, name: string, value: string): (r: (FormData, Errors))
    ensures r.0 == formData[name := value]
    ensures forall k :: k != name ==> (k in r.1 <==> k in errors)
    ensures forall k :: k != name && k in errors ==> r.1[k] == errors[k]
    ensures name in r.1 <==> name in errors
    ensures name in errors ==> r.1[name] == ""
  {
    (formData[name := value], if name in errors && errors[name] != "" then errors[name := ""] else errors)
  }

  /** `if (message) newErrors[key] = message`: one conditional assignment of a validator. */
  function Put(errors: Errors, key: string, message: Option<string>): (r: Errors)
    ensures key in r <==> key in errors || message.Some?
    ensures message.Some? ==> r[key] == message.value
    ensures forall k :: k != key ==> (k in r <==> k in errors)
    ensures forall k :: k != key && k in errors ==> r[k] == errors[k]
  {
    if message.Some? then errors[key := message.value] else errors
  }

  /** A step that sets one fixed message under a condition agrees with `Put`. */
  lemma FlagStep(before: Errors, after: Errors, key: string, flagged: bool, message: string)
    requires after == if flagged then before[key := message] else before
    ensures after == Put(before, key, if flagged then Some(message) else None)
  {
  }

  /** A required-field step written as the validators write it agrees with `Put`. */
  lemma RequiredStep(before: Errors, after: Errors, key: string, value: string, message: string)
    requires after == if Trim(value) == "" then before[key := message] else before
    ensures after == Put(before, key, RequiredError(value, message))
  {
  }

  /** The email step written as the validators write it agrees with `Put`. */
  lemma EmailStep(before: Errors, after: Errors, value: string)
    requires after == if Trim(value) == "" then before["email" := "Email is required"]
                      else if !EmailLike(value) then before["email" := "Email is invalid"]
                      else before
    ensures after == Put(before, "email", EmailError(value))
  {
  }

  /** A password step written as the validators write it agrees with `Put`. */
  lemma PasswordStep(before: Errors, after: Errors, key: string, value: string, requiredMessage: string)
    requires after == if value == "" then before[key := requiredMessage]
                      else if |value| < 6 then before[key := "Password must be at least 6 characters"]
                      else before
    ensures after == Put(before, key, PasswordError(value, requiredMessage))
  {
  }

  /** The effect on `[token]` of the login and register pages: a visitor who already holds
      a token is sent on to the dashboard. */
  function LoggedInRedirect(token: Option<string>): (r: Option<string>)
    ensures r.Some? <==> Truthy(token)
    ensures r.Some? ==> r.value == "/dashboard"
  {
    if Truthy(token) then Some("/dashboard") else None
  }
}
