/** The sign-in / sign-up form (`src/components/auth/AuthForm.tsx`): clear
    the error, run the checks in order and stop at the first that fails,
    and only then call the auth store's `login` or `register`. The remote
    call is reported as a result; its failure is a separate handler. */
module AuthForm {
  import opened Wrappers
  import Text

  datatype FormType = Login | Register
  datatype RemoteCall = NoCall | CallLogin | CallRegister

  const FillInAllFields: string := "Please fill in all fields"
  const InvalidEmail: string := "Please enter a valid email address"
  const PasswordTooShort: string := "Password must be at least 6 characters long"
  const PasswordsDiffer: string := "Passwords do not match"
  const MinPasswordLength: nat := 6

  /** A run of the class `[^\s@]`. */
  predicate Plain(t: string) {
    forall k :: 0 <= k < |t| ==> !Text.IsSpace(t[k]) && t[k] != '@'
  }

  /** `^[^\s@]+@[^\s@]+\.[^\s@]+$` matched with the `@` at `a` and the
      separating `.` at `j`. */
  predicate EmailSplit(s: string, a: int, j: int) {
    0 < a && a + 1 < j && j + 1 < |s| && s[a] == '@' && s[j] == '.'
    && Plain(s[..a]) && Plain(s[a + 1..j]) && Plain(s[j + 1..])
  }

  predicate MatchesEmailPattern(s: string) {
    exists a, j | 0 <= a < |s| && 0 <= j < |s| :: EmailSplit(s, a, j)
  }

  predicate NoSpace(s: string) {
    forall k :: 0 <= k < |s| ==> !Text.IsSpace(s[k])
  }

  /** `s` has exactly one `@`, at `a`. */
  predicate OnlyAtSignAt(s: string, a: int) {
    0 <= a < |s| && s[a] == '@' && forall k :: 0 <= k < |s| && k != a ==> s[k] != '@'
  }

  /** A `.` after the `@` at `a`, with text on both of its sides. */
  predicate DotInDomain(s: string, a: int, j: int) {
    0 <= a && a + 1 < j < |s| - 1 && s[j] == '.'
  }

  /** What the pattern accepts, in words: no whitespace, exactly one `@`, a
      non-empty local part, and a domain holding a `.` with text on both
      sides. */
  lemma {:induction false} EmailPatternMeaning(s: string)
    ensures MatchesEmailPattern(s) <==>
              NoSpace(s) && exists a :: OnlyAtSignAt(s, a) && a > 0 && exists j :: DotInDomain(s, a, j)
  {
    if MatchesEmailPattern(s) {
      var a, j :| 0 <= a < |s| && 0 <= j < |s| && EmailSplit(s, a, j);
      forall k | 0 <= k < |s| ensures !Text.IsSpace(s[k]) && (k != a ==> s[k] != '@') {
        if k < a {
          assert s[k] == s[..a][k];
        } else if a < k < j {
          assert s[k] == s[a + 1..j][k - a - 1];
        } else if k > j {
          assert s[k] == s[j + 1..][k - j - 1];
        }
      }
      assert OnlyAtSignAt(s, a) && DotInDomain(s, a, j);
    }
    if NoSpace(s) && exists a :: OnlyAtSignAt(s, a) && a > 0 && exists j :: DotInDomain(s, a, j) {
      var a :| OnlyAtSignAt(s, a) && a > 0 && exists j :: DotInDomain(s, a, j);
      var j :| DotInDomain(s, a, j);
      assert Plain(s[..a]) by {
        forall k | 0 <= k < a ensures !Text.IsSpace(s[..a][k]) && s[..a][k] != '@' {
          assert s[..a][k] == s[k];
        }
      }
      var mid, top := s[a + 1..j], s[j + 1..];
      assert Plain(mid) by {
        forall k | 0 <= k < |mid| ensures !Text.IsSpace(mid[k]) && mid[k] != '@' {
          assert mid[k] == s[a + 1 + k];
        }
      }
      assert Plain(top) by {
        forall k | 0 <= k < |top| ensures !Text.IsSpace(top[k]) && top[k] != '@' {
          assert top[k] == s[j + 1 + k];
        }
      }
      assert EmailSplit(s, a, j);
    }
  }

  /** The message of the first failing check, or `None` when all pass. */
  function FirstError(t: FormType, email: string, password: string, confirm: string): (r: Option<string>)
    ensures r == None <==>
              && MatchesEmailPattern(email) && |password| >= MinPasswordLength
              && (t == Register ==> password == confirm)
    ensures r.Some? ==> r.value in {FillInAllFields, InvalidEmail, PasswordTooShort, PasswordsDiffer}
  {
    if email == "" || password == "" then Some(FillInAllFields)
    else if !MatchesEmailPattern(email) then Some(InvalidEmail)
    else if |password| < MinPasswordLength then Some(PasswordTooShort)
    else if t == Register && password != confirm then Some(PasswordsDiffer)
    else None
  }

  /** The checks run in a fixed order: an empty field is reported whatever
      else is wrong, a bad address before a short password, a short password
      before a mismatch. Six characters are enough. */
  lemma ChecksInOrder(t: FormType, email: string, password: string, confirm: string)
    ensures email == "" || password == "" ==> FirstError(t, email, password, confirm) == Some(FillInAllFields)
    ensures email != "" && password != "" && !MatchesEmailPattern(email) ==>
              FirstError(t, email, password, confirm) == Some(InvalidEmail)
    ensures MatchesEmailPattern(email) && 0 < |password| < MinPasswordLength ==>
              FirstError(t, email, password, confirm) == Some(PasswordTooShort)
    ensures MatchesEmailPattern(email) && |password| == MinPasswordLength ==>
              FirstError(t, email, password, confirm) != Some(PasswordTooShort)
    ensures MatchesEmailPattern(email) && |password| >= MinPasswordLength && t == Register && password != confirm ==>
              FirstError(t, email, password, confirm) == Some(PasswordsDiffer)
  {
  }

  /** Sign-in never looks at the confirmation field; sign-up accepts exactly
      what sign-in accepts with matching passwords. */
  lemma ConfirmOnlyForRegister(email: string, password: string, c1: string, c2: string)
    ensures FirstError(Login, email, password, c1) == FirstError(Login, email, password, c2)
    ensures FirstError(Register, email, password, c1) == None <==>
              FirstError(Login, email, password, c1) == None && password == c1
  {
  }

  /** Sample addresses against the pattern. */
  lemma EmailSamples()
    ensures MatchesEmailPattern("ann@shop.in")
    ensures !MatchesEmailPattern("ann@shop")
    ensures !MatchesEmailPattern("ann@@shop.in")
  {
    assert EmailSplit("ann@shop.in", 3, 8);
    var s := "ann@shop.in";
    assert Plain(s[..3]) && Plain(s[4..8]) && Plain(s[9..]);
    var u := "ann@shop";
    assert forall a, j :: 0 <= a < |u| && 0 <= j < |u| ==> !EmailSplit(u, a, j);
    var w := "ann@@shop.in";
    forall a | 0 <= a < |w| ensures !OnlyAtSignAt(w, a) {
      if a != 3 {
        assert w[3] == '@';
      } else {
        assert w[4] == '@';
      }
    }
    EmailPatternMeaning(w);
  }

  class Form {
    var email: string
    var password: string
    var confirmPassword: string
    var formError: string
    const formType: FormType

    constructor (formType: FormType)
      ensures email == "" && password == "" && confirmPassword == "" && formError == ""
      ensures this.formType == formType
    {
      email := "";
      password := "";
      confirmPassword := "";
      formError := "";
      this.formType := formType;
    }

    /** `handleSubmit`: the error is cleared, then the first failing check
        writes its message; the store is called only when none fails. */
    method HandleSubmit() returns (call: RemoteCall)
      modifies this
      ensures email == old(email) && password == old(password) && confirmPassword == old(confirmPassword)
      ensures var e := FirstError(formType, email, password, confirmPassword);
              && (e.Some? ==> formError == e.value && call == NoCall)
              && (e.None? ==> formError == "" && call == (if formType == Register then CallRegister else CallLogin))
    {
      formError := "";
      if email == "" || password == "" {
        formError := FillInAllFields;
        return NoCall;
      }
      if !MatchesEmailPattern(email) {
        formError := InvalidEmail;
        return NoCall;
      }
      if |password| < MinPasswordLength {
        formError := PasswordTooShort;
        return NoCall;
      }
      if formType == Register {
        if password != confirmPassword {
          formError := PasswordsDiffer;
          return NoCall;
        }
        call := CallRegister;
      } else {
        call := CallLogin;
      }
    }

    /** The `catch` of the store call: the error's message, or a fallback
        when the message is empty. */
    method HandleRemoteFailure(message: string)
      modifies this
      ensures message != "" ==> formError == message
      ensures message == "" ==> formError == (if formType == Register then "Registration failed" else "Login failed")
      ensures email == old(email) && password == old(password) && confirmPassword == old(confirmPassword)
    {
      if message != "" {
        formError := message;
      } else if formType == Register {
        formError := "Registration failed";
      } else {
        formError := "Login failed";
      }
    }
  }
}
