/** The contact form (`src/pages/ContactPage.tsx`): per-field required
    checks on the trimmed values, an unanchored address check, an error map
    that each submit replaces, and the reset once the (simulated) send
    completes. The 1.5 s timer is reduced to a separate completion step. */
module Contact {
  import Text
  import AuthForm

  datatype ContactForm = ContactForm(name: string, email: string, subject: string, message: string)
  datatype Field = Name | Email | Subject | Message

  const EmptyForm: ContactForm := ContactForm("", "", "", "")
  const NameRequired: string := "Name is required"
  const EmailRequired: string := "Email is required"
  const EmailInvalid: string := "Email is invalid"
  const SubjectRequired: string := "Subject is required"
  const MessageRequired: string := "Message is required"
  const ThankYou: string := "Thank you for contacting us! We will get back to you shortly."

  /** A run of `\S`. */
  predicate NonSpace(t: string) {
    forall k :: 0 <= k < |t| ==> !Text.IsSpace(t[k])
  }

  /** `\S+@\S+\.\S+` matches `s[i..l]`, with the `@` at `a` and the `.` at `j`. */
  predicate MatchAt(s: string, i: int, a: int, j: int, l: int) {
    0 <= i < a && a + 1 < j && j + 1 < l <= |s| && s[a] == '@' && s[j] == '.'
    && NonSpace(s[i..a]) && NonSpace(s[a + 1..j]) && NonSpace(s[j + 1..l])
  }

  /** `/\S+@\S+\.\S+/.test(s)`: a match anywhere in `s`. */
  predicate MatchesContactPattern(s: string) {
    exists i, a, j, l | 0 <= i <= |s| && 0 <= a <= |s| && 0 <= j <= |s| && 0 <= l <= |s| :: MatchAt(s, i, a, j, l)
  }

  /** What `validate` promises about an error map `e` for form `f`. */
  predicate DescribesErrors(f: ContactForm, e: map<string, string>) {
    && e.Keys <= {"name", "email", "subject", "message"}
    && ("name" in e <==> Text.IsBlank(f.name))
    && ("name" in e ==> e["name"] == NameRequired)
    && ("email" in e <==> Text.IsBlank(f.email) || !MatchesContactPattern(f.email))
    && ("email" in e ==> e["email"] == if Text.IsBlank(f.email) then EmailRequired else EmailInvalid)
    && ("subject" in e <==> Text.IsBlank(f.subject))
    && ("subject" in e ==> e["subject"] == SubjectRequired)
    && ("message" in e <==> Text.IsBlank(f.message))
    && ("message" in e ==> e["message"] == MessageRequired)
  }

  /** The description leaves no freedom: it pins down one map. */
  lemma DescriptionIsComplete(f: ContactForm, e1: map<string, string>, e2: map<string, string>)
    requires DescribesErrors(f, e1) && DescribesErrors(f, e2)
    ensures e1 == e2
  {
    assert e1.Keys == e2.Keys;
  }

  /** A form passes exactly when every field has non-blank text and the
      address matches somewhere. */
  lemma NoErrorsIff(f: ContactForm, e: map<string, string>)
    requires DescribesErrors(f, e)
    ensures |e| == 0 <==>
              !Text.IsBlank(f.name) && !Text.IsBlank(f.email) && MatchesContactPattern(f.email)
              && !Text.IsBlank(f.subject) && !Text.IsBlank(f.message)
  {
    if |e| == 0 {
      assert e.Keys == {};
    } else {
      var k :| k in e;
    }
  }

  /** The two address checks differ: this one is unanchored, so an address
      with a space before it passes here and fails the sign-in form. */
  lemma PatternsDisagree()
    ensures MatchesContactPattern("x y@a.b") && !AuthForm.MatchesEmailPattern("x y@a.b")
  {
    var s := "x y@a.b";
    assert s[2..3] == "y" && s[4..5] == "a" && s[6..7] == "b";
    assert MatchAt(s, 2, 3, 5, 7);
    AuthForm.EmailPatternMeaning(s);
    assert Text.IsSpace(s[1]);
  }

  class ContactPage {
    var form: ContactForm
    var errors: map<string, string>
    var isSubmitting: bool
    var successMessage: string

    constructor ()
      ensures form == EmptyForm && errors == map[] && !isSubmitting && successMessage == ""
    {
      form := EmptyForm;
      errors := map[];
      isSubmitting := false;
      successMessage := "";
    }

    /** `validate`: one assignment per failing check on a fresh map. The
        source's `!value.trim()` is written `Text.IsBlank(value)`, which
        `Text.TrimEmptyIff` shows to be the same test. */
    method Validate() returns (newErrors: map<string, string>)
      ensures DescribesErrors(form, newErrors)
    {
      var f := form;
      newErrors := map[];
      if Text.IsBlank(f.name) {
        newErrors := newErrors["name" := NameRequired];
      }
      if Text.IsBlank(f.email) {
        newErrors := newErrors["email" := EmailRequired];
      } else if !MatchesContactPattern(f.email) {
        newErrors := newErrors["email" := EmailInvalid];
      }
      if Text.IsBlank(f.subject) {
        newErrors := newErrors["subject" := SubjectRequired];
      }
      if Text.IsBlank(f.message) {
        newErrors := newErrors["message" := MessageRequired];
      }
    }

    /** `handleChange` for the input named `field`. */
    method HandleChange(field: Field, value: string)
      modifies this
      ensures field == Name ==> form == old(form).(name := value)
      ensures field == Email ==> form == old(form).(email := value)
      ensures field == Subject ==> form == old(form).(subject := value)
      ensures field == Message ==> form == old(form).(message := value)
      ensures errors == old(errors) && isSubmitting == old(isSubmitting) && successMessage == old(successMessage)
    {
      match field
      case Name => form := form.(name := value);
      case Email => form := form.(email := value);
      case Subject => form := form.(subject := value);
      case Message => form := form.(message := value);
    }

    /** `handleSubmit`: the errors are replaced; sending starts only when
        there are none. */
    method HandleSubmit()
      modifies this
      ensures form == old(form) && successMessage == old(successMessage)
      ensures DescribesErrors(form, errors)
      ensures isSubmitting == (old(isSubmitting) || |errors| == 0)
    {
      var validationErrors := Validate();
      errors := validationErrors;
      if |validationErrors| == 0 {
        isSubmitting := true;
      }
    }

    /** The timer's callback after a successful send. */
    method CompleteSubmission()
      modifies this
      ensures form == EmptyForm && successMessage == ThankYou && !isSubmitting && errors == old(errors)
    {
      successMessage := ThankYou;
      form := EmptyForm;
      isSubmitting := false;
    }
  }
}
