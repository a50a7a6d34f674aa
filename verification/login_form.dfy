/**
 * The validation step of `LoginForm.handleSubmit`: a fresh error record
 * gets an email error when the trimmed email is empty and a password error
 * when the trimmed password is empty; submission goes on only when the
 * record has no keys. `trim` removes ECMAScript white space and line
 * terminators from both ends.
 */
module LoginForm {
  import opened Optional

  const EmailRequired := "Email is required."
  const PasswordRequired := "Password is required."

  /** ECMAScript WhiteSpace and LineTerminator code points. */
  const JsWhitespace: set<char> := {
    '\t', '\n', '\U{000B}', '\U{000C}', '\r', ' ', '\U{00A0}', '\U{1680}',
    '\U{2000}', '\U{2001}', '\U{2002}', '\U{2003}', '\U{2004}', '\U{2005}',
    '\U{2006}', '\U{2007}', '\U{2008}', '\U{2009}', '\U{200A}',
    '\U{2028}', '\U{2029}', '\U{202F}', '\U{205F}', '\U{3000}', '\U{FEFF}'
  }

  predicate IsJsWhitespace(c: char) {
    c in JsWhitespace
  }

  predicate AllWhitespace(s: string) {
    forall i :: 0 <= i < |s| ==> IsJsWhitespace(s[i])
  }

  function TrimStart(s: string): (r: string)
    ensures |r| <= |s| && r == s[|s| - |r|..]
    ensures |r| > 0 ==> !IsJsWhitespace(r[0])
    ensures forall k :: 0 <= k < |s| - |r| ==> IsJsWhitespace(s[k])
  {
    if |s| > 0 && IsJsWhitespace(s[0]) then
      var r := TrimStart(s[1..]);
      assert forall k :: 1 <= k < |s| - |r| ==> s[k] == s[1..][k - 1];
      r
    else s
  }

  function TrimEnd(s: string): (r: string)
    ensures |r| <= |s| && r == s[..|r|]
    ensures |r| > 0 ==> !IsJsWhitespace(r[|r| - 1])
    ensures forall k :: |r| <= k < |s| ==> IsJsWhitespace(s[k])
  {
    if |s| > 0 && IsJsWhitespace(s[|s| - 1]) then
      var r := TrimEnd(s[..|s| - 1]);
      assert forall k :: |r| <= k < |s| - 1 ==> s[k] == s[..|s| - 1][k];
      r
    else s
  }

  /**
   * `r` is `s` with white space cut from both ends: the slice of `s` that
   * starts at `i`, with only white space outside it and none at its ends.
   */
  predicate IsTrimOf(s: string, i: nat, r: string) {
    && i + |r| <= |s|
    && r == s[i..i + |r|]
    && Blank(s, i, i + |r|)
    && (|r| > 0 ==> !IsJsWhitespace(r[0]) && !IsJsWhitespace(r[|r| - 1]))
  }

  /** `String.prototype.trim`. */
  function Trim(s: string): (r: string)
    ensures IsTrimOf(s, LeadingBlanks(s), r)
  {
    TrimSpec(s);
    TrimEnd(TrimStart(s))
  }

  lemma TrimSpec(s: string)
    ensures IsTrimOf(s, LeadingBlanks(s), TrimEnd(TrimStart(s)))
  {
    var t := TrimStart(s);
    var r := TrimEnd(t);
    var i := LeadingBlanks(s);
    SliceOfSuffix(s, t, r, i);
    TrimDropsBlanks(s);
    if |r| > 0 {
      assert r[0] == t[0];
    }
  }

  lemma SliceOfSuffix(s: string, t: string, r: string, i: nat)
    requires i <= |s| && t == s[i..]
    requires |r| <= |t| && r == t[..|r|]
    ensures i + |r| <= |s| && r == s[i..i + |r|]
  {
  }

  lemma TrimDropsBlanks(s: string)
    ensures var r := TrimEnd(TrimStart(s));
            var i := LeadingBlanks(s);
            i + |r| <= |s|
            && (forall k :: 0 <= k < i ==> IsJsWhitespace(s[k]))
            && (forall k :: i + |r| <= k < |s| ==> IsJsWhitespace(s[k]))
  {
    var t := TrimStart(s);
    var r := TrimEnd(t);
    var i := LeadingBlanks(s);
    forall k | i + |r| <= k < |s|
      ensures IsJsWhitespace(s[k])
    {
      assert s[k] == t[k - i];
    }
  }

  /** How many white-space characters `trim` removes from the front. */
  function LeadingBlanks(s: string): (n: nat)
    ensures n <= |s|
  {
    |s| - |TrimStart(s)|
  }

  /** Everything of `s` outside [i, j) is white space. */
  predicate Blank(s: string, i: int, j: int)
    requires 0 <= i <= j <= |s|
  {
    (forall k :: 0 <= k < i ==> IsJsWhitespace(s[k]))
    && (forall k :: j <= k < |s| ==> IsJsWhitespace(s[k]))
  }

  /** A string trims to nothing exactly when it is all white space (or empty). */
  lemma TrimEmptyIffBlank(s: string)
    ensures Trim(s) == "" <==> AllWhitespace(s)
  {
    var r := Trim(s);
    var i := LeadingBlanks(s);
    if r != "" {
      assert r[0] == s[i];
    }
  }

  /** Trimming twice is trimming once. */
  lemma TrimIdempotent(s: string)
    ensures Trim(Trim(s)) == Trim(s)
  {
    var r := Trim(s);
    assert TrimStart(r) == r;
    assert TrimEnd(r) == r;
  }

  /** The error record: a key is present only when its field failed. */
  datatype Errors = Errors(email: Option<string>, password: Option<string>)

  /** `Object.keys(nextErrors).length`. */
  function KeyCount(e: Errors): (n: nat)
    ensures n == 0 <==> e.email.None? && e.password.None?
    ensures n <= 2
  {
    (if e.email.Some? then 1 else 0) + (if e.password.Some? then 1 else 0)
  }

  datatype Submission = Submission(errors: Errors, proceeds: bool)

  /**
   * One submit: each field's error is present exactly when that field
   * trims to nothing, independently of the other field, and the attempt
   * proceeds exactly when both fields have content.
   */
  function Validate(email: string, password: string): (s: Submission)
    ensures s.errors.email.Some? <==> Trim(email) == ""
    ensures s.errors.password.Some? <==> Trim(password) == ""
    ensures s.errors.email.Some? ==> s.errors.email.value == EmailRequired
    ensures s.errors.password.Some? ==> s.errors.password.value == PasswordRequired
    ensures s.proceeds <==> KeyCount(s.errors) == 0
    ensures s.proceeds <==> Trim(email) != "" && Trim(password) != ""
  {
    var nextErrors := Errors(
      if Trim(email) == "" then Some(EmailRequired) else None,
      if Trim(password) == "" then Some(PasswordRequired) else None);
    Submission(nextErrors, KeyCount(nextErrors) == 0)
  }

  /** White space alone counts as missing for both fields. */
  lemma BlankFieldsRejected(email: string, password: string)
    requires AllWhitespace(email) && AllWhitespace(password)
    ensures Validate(email, password).errors == Errors(Some(EmailRequired), Some(PasswordRequired))
    ensures !Validate(email, password).proceeds
  {
    TrimEmptyIffBlank(email);
    TrimEmptyIffBlank(password);
  }

  /** A field with any non-white-space character raises no error of its own. */
  lemma ContentFieldAccepted(email: string, password: string, k: nat)
    requires k < |email| && !IsJsWhitespace(email[k])
    ensures Validate(email, password).errors.email.None?
  {
    TrimEmptyIffBlank(email);
  }

  /** The form state: the two inputs and the errors shown. */
  datatype FormState = FormState(email: string, password: string, errors: Errors)

  /** `handleSubmit`: the errors shown are replaced by a freshly built record. */
  function Submit(st: FormState): (r: (FormState, bool))
    ensures r.0.email == st.email && r.0.password == st.password
    ensures r.0.errors == Validate(st.email, st.password).errors
    ensures r.1 == Validate(st.email, st.password).proceeds
  {
    var s := Validate(st.email, st.password);
    (FormState(st.email, st.password, s.errors), s.proceeds)
  }

  /** The errors shown earlier play no part: a fixed field's old error disappears. */
  lemma SubmitForgetsOldErrors(st: FormState, oldErrors: Errors)
    ensures Submit(st) == Submit(st.(errors := oldErrors))
  {
  }
}
