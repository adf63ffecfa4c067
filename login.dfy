/** The login form: the email and password checks of `validateForm`, the error object they
    build, and the submit guard. */
module Login {
  import opened Wrappers
  import Text

  /** The four messages the form can show under a field. */
  datatype Message = EmailRequired | EmailInvalid | PasswordRequired | PasswordTooShort
  {
    /** The text shown. */
    function Text(): string
    {
      match this
      case EmailRequired => "ईमेल आवश्यक है"
      case EmailInvalid => "ईमेल सही नहीं है"
      case PasswordRequired => "पासवर्ड आवश्यक है"
      case PasswordTooShort => "पासवर्ड कम से कम 6 अक्षर का होना चाहिए"
    }
  }

  // ---------------------------------------------------------------- the email pattern

  /** `s[a..z]` is a match of `\S+@\S+\.\S+` with its `@` at `at` and its `.` at `dot`: every
      character of the stretch is non-whitespace and each of the three runs is non-empty. */
  ghost predicate PatternAt(s: string, a: int, at: int, dot: int, z: int)
  {
    0 <= a < at && at + 1 < dot && dot + 1 < z <= |s|
    && s[at] == '@' && s[dot] == '.'
    && forall k :: a <= k < z ==> !Text.IsSpace(s[k])
  }

  /** `/\S+@\S+\.\S+/.test(s)`: the pattern is not anchored, so some stretch of `s` matches. */
  ghost predicate RegexTest(s: string)
  {
    exists a, at, dot, z :: PatternAt(s, a, at, dot, z)
  }

  /** The end of the run of non-whitespace characters starting at `i`. */
  function RunEnd(s: string, i: nat): (e: nat)
    requires i <= |s|
    ensures i <= e <= |s|
    ensures forall k :: i <= k < e ==> !Text.IsSpace(s[k])
    ensures e < |s| ==> Text.IsSpace(s[e])
    decreases |s| - i
  {
    if i == |s| || Text.IsSpace(s[i]) then i else RunEnd(s, i + 1)
  }

  /** Every non-whitespace stretch starting at `i` lies within the run. */
  lemma {:induction false} RunEndCovers(s: string, i: nat, z: nat)
    requires i <= z <= |s|
    requires forall k :: i <= k < z ==> !Text.IsSpace(s[k])
    ensures z <= RunEnd(s, i)
    decreases |s| - i
  {
    if i < z {
      RunEndCovers(s, i + 1, z);
    }
  }

  /** An `@` at `at` that can anchor a match: a non-whitespace character before it, and a `.`
      inside the non-whitespace run after it, with a character on both sides of the dot. */
  predicate AnchorAt(s: string, at: nat)
    requires 1 <= at < |s|
  {
    var e := RunEnd(s, at + 1);
    s[at] == '@' && !Text.IsSpace(s[at - 1]) && at + 2 <= e - 1 && '.' in s[at + 2..e - 1]
  }

  /** The email check the form runs, one `@` candidate at a time. */
  predicate HasEmailShape(s: string)
  {
    exists at :: 1 <= at < |s| && AnchorAt(s, at)
  }

  /** The computed check agrees with the regular expression on every string. */
  lemma HasEmailShapeIff(s: string)
    ensures HasEmailShape(s) <==> RegexTest(s)
  {
    if HasEmailShape(s) {
      var at :| 1 <= at < |s| && AnchorAt(s, at);
      var e := RunEnd(s, at + 1);
      var j :| 0 <= j < |s[at + 2..e - 1]| && s[at + 2..e - 1][j] == '.';
      var dot := at + 2 + j;
      assert s[dot] == '.';
      assert PatternAt(s, at - 1, at, dot, dot + 2);
    }
    if RegexTest(s) {
      var a, at, dot, z :| PatternAt(s, a, at, dot, z);
      RunEndCovers(s, at + 1, z);
      var e := RunEnd(s, at + 1);
      assert s[at + 2..e - 1][dot - at - 2] == '.';
      assert AnchorAt(s, at);
    }
  }

  // ---------------------------------------------------------------- the checks

  /** The email error of `validateForm`: required when blank after trimming, invalid when the
      pattern does not occur, none otherwise. */
  function EmailError(email: string): (r: Option<Message>)
    ensures Text.AllSpace(email) ==> r == Some(EmailRequired)
    ensures !Text.AllSpace(email) && !RegexTest(email) ==> r == Some(EmailInvalid)
    ensures r.None? <==> !Text.AllSpace(email) && RegexTest(email)
  {
    Text.TrimEmptyIff(email);
    HasEmailShapeIff(email);
    if Text.Trim(email) == "" then Some(EmailRequired)
    else if !HasEmailShape(email) then Some(EmailInvalid)
    else None
  }

  /** The password error of `validateForm`: required when blank after trimming, too short when
      the untrimmed value has fewer than 6 UTF-16 code units, none otherwise. */
  function PasswordError(password: string): (r: Option<Message>)
    ensures Text.AllSpace(password) ==> r == Some(PasswordRequired)
    ensures !Text.AllSpace(password) && Text.Utf16Length(password) < 6 ==> r == Some(PasswordTooShort)
    ensures r.None? <==> !Text.AllSpace(password) && Text.Utf16Length(password) >= 6
  {
    Text.TrimEmptyIff(password);
    if Text.Trim(password) == "" then Some(PasswordRequired)
    else if Text.Utf16Length(password) < 6 then Some(PasswordTooShort)
    else None
  }

  /** A password of six or more whitespace characters is still required, not long enough:
      blankness is checked first, and on the trimmed value. */
  lemma BlankPasswordIsRequired()
    ensures PasswordError("      ") == Some(PasswordRequired)
  {
    assert Text.AllSpace("      ");
  }

  /** Whitespace around an email does not make it invalid: the pattern is searched, not anchored. */
  lemma PaddedEmailIsValid()
    ensures EmailError(" a@b.c ") == None
  {
    var s := " a@b.c ";
    assert !Text.IsSpace(s[1]);
    assert PatternAt(s, 1, 2, 4, 6);
  }

  lemma EmailWithoutDotIsInvalid()
    ensures EmailError("a@b") == Some(EmailInvalid)
  {
    var s := "a@b";
    assert !Text.IsSpace(s[0]);
  }

  /** The form passes validation exactly when the email is non-blank and holds the pattern and
      the password is non-blank with at least six UTF-16 code units. */
  lemma FormValidIff(email: string, password: string)
    ensures EmailError(email).None? && PasswordError(password).None? <==>
      !Text.AllSpace(email) && RegexTest(email) && !Text.AllSpace(password) && Text.Utf16Length(password) >= 6
  {
  }

  /** The `errors` object: one optional message per field. */
  datatype Errors = Errors(email: Option<Message>, password: Option<Message>)

  // ---------------------------------------------------------------- page state

  class LoginPage {
    var email: string
    var password: string
    var showPassword: bool
    var errors: Errors
    var isLoading: bool

    constructor ()
      ensures email == "" && password == "" && !showPassword
      ensures errors == Errors(None, None) && !isLoading
    {
      email := "";
      password := "";
      showPassword := false;
      errors := Errors(None, None);
      isLoading := false;
    }

    /** `validateForm`: builds the error object field by field (an absent key is `None`), stores
        it, and reports whether it came out empty. The result is the pair of checks above. */
    method ValidateForm() returns (valid: bool)
      modifies this
      ensures errors == Errors(EmailError(email), PasswordError(password))
      ensures valid <==> errors.email.None? && errors.password.None?
      ensures email == old(email) && password == old(password)
      ensures showPassword == old(showPassword) && isLoading == old(isLoading)
    {
      var newErrors := Errors(None, None);
      if Text.Trim(email) == "" {
        newErrors := newErrors.(email := Some(EmailRequired));
      } else if !HasEmailShape(email) {
        newErrors := newErrors.(email := Some(EmailInvalid));
      }
      if Text.Trim(password) == "" {
        newErrors := newErrors.(password := Some(PasswordRequired));
      } else if Text.Utf16Length(password) < 6 {
        newErrors := newErrors.(password := Some(PasswordTooShort));
      }
      errors := newErrors;
      valid := newErrors.email.None? && newErrors.password.None?;
    }

    /** `handleSubmit`: validates, stops when the form is invalid, and otherwise starts the
        (simulated) request by raising the loading flag. */
    method HandleSubmit()
      modifies this
      ensures errors == Errors(EmailError(email), PasswordError(password))
      ensures errors.email.None? && errors.password.None? ==> isLoading
      ensures !(errors.email.None? && errors.password.None?) ==> isLoading == old(isLoading)
      ensures email == old(email) && password == old(password) && showPassword == old(showPassword)
    {
      var valid := ValidateForm();
      if !valid {
        return;
      }
      isLoading := true;
    }

    method SetEmail(value: string)
      modifies this
      ensures email == value
      ensures password == old(password) && errors == old(errors) && isLoading == old(isLoading)
      ensures showPassword == old(showPassword)
    {
      email := value;
    }

    method SetPassword(value: string)
      modifies this
      ensures password == value
      ensures email == old(email) && errors == old(errors) && isLoading == old(isLoading)
      ensures showPassword == old(showPassword)
    {
      password := value;
    }

    /** The eye button. */
    method ToggleShowPassword()
      modifies this
      ensures showPassword == !old(showPassword)
      ensures email == old(email) && password == old(password) && errors == old(errors)
      ensures isLoading == old(isLoading)
    {
      showPassword := !showPassword;
    }
  }
}
