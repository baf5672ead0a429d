/** The sign-up form: the two regular expressions read as predicates, the
    ordered validator that reports the first failing check, the password
    strength counter and its label, and the form state that `handleChange`
    and `validateForm` update. Whether the email is still available comes
    from a request outside the model and is an input: unknown, true or
    false. */
module Signup {
  import opened Common
  import opened Users

  // ---------------------------------------------------------------------
  // The email pattern `^[^\s@]+@[^\s@]+\.[^\s@]+$`

  /** Matched by `[^\s@]+`'s class: neither whitespace nor `@`. */
  predicate Plain(c: char)
  {
    c != '@' && !IsSpace(c)
  }

  predicate AllPlain(s: string)
  {
    forall k :: 0 <= k < |s| ==> Plain(s[k])
  }

  /** The pattern read literally: the text splits as `a@b.c` with `a`, `b`
      and `c` non-empty runs of plain characters; the `@` is at `at` and the
      dot at `dot`. */
  predicate EmailSplit(s: string, at: int, dot: int)
  {
    && 0 < at && at + 1 < dot < |s| - 1
    && s[at] == '@' && s[dot] == '.'
    && AllPlain(s[..at]) && AllPlain(s[at + 1..dot]) && AllPlain(s[dot + 1..])
  }

  predicate ValidEmail(s: string)
  {
    exists at, dot | 0 <= at < |s| && 0 <= dot < |s| :: EmailSplit(s, at, dot)
  }

  /** An address the pattern accepts has no whitespace at all, so trimming
      it changes nothing and it is not blank; it also has exactly one `@`,
      and nothing before it is an `@`. */
  lemma ValidEmailShape(s: string)
    requires ValidEmail(s)
    ensures forall k :: 0 <= k < |s| ==> !IsSpace(s[k])
    ensures exists at | 0 < at < |s| :: s[at] == '@' && forall k :: 0 <= k < |s| && k != at ==> s[k] != '@'
    ensures Trim(s) == s != ""
  {
    var at, dot :| 0 <= at < |s| && 0 <= dot < |s| && EmailSplit(s, at, dot);
    forall k | 0 <= k < |s| && k != at && k != dot
      ensures Plain(s[k])
    {
      if k < at {
        assert s[..at][k] == s[k];
      } else if k < dot {
        assert s[at + 1..dot][k - at - 1] == s[k];
      } else {
        assert s[dot + 1..][k - dot - 1] == s[k];
      }
    }
    assert forall k :: 0 <= k < |s| ==> !IsSpace(s[k]);
    TrimStartKeepsNonSpace(s);
    TrimEndKeepsNonSpace(s);
  }

  lemma TrimStartKeepsNonSpace(s: string)
    requires s != [] && !IsSpace(s[0])
    ensures TrimStart(s) == s
  {
  }

  lemma TrimEndKeepsNonSpace(s: string)
    requires s != [] && !IsSpace(s[|s| - 1])
    ensures TrimEnd(s) == s
  {
  }

  // ---------------------------------------------------------------------
  // The password pattern `^(?=.*[A-Z])(?=.*\d)(?=.*[!@#$%^&*]).{8,}$`

  predicate IsUpperLetter(c: char)
  {
    'A' <= c <= 'Z'
  }

  predicate IsDigit(c: char)
  {
    '0' <= c <= '9'
  }

  predicate IsSpecial(c: char)
  {
    c in "!@#$%^&*"
  }

  predicate Contains(s: string, kind: char -> bool)
  {
    exists i | 0 <= i < |s| :: kind(s[i])
  }

  predicate NoLineTerminator(s: string)
  {
    forall i :: 0 <= i < |s| ==> !IsLineTerminator(s[i])
  }

  /** `(?=.*X)` at the start: some character of class `X` is preceded only by
      characters `.` matches, that is, by no line terminator. */
  predicate LookaheadFinds(s: string, kind: char -> bool)
  {
    exists i | 0 <= i < |s| :: kind(s[i]) && NoLineTerminator(s[..i])
  }

  /** The three lookaheads, then `.{8,}` up to the end of the text. */
  predicate StrongPassword(pw: string)
  {
    && LookaheadFinds(pw, IsUpperLetter)
    && LookaheadFinds(pw, IsDigit)
    && LookaheadFinds(pw, IsSpecial)
    && |pw| >= 8 && NoLineTerminator(pw)
  }

  /** Since `.{8,}$` already spans the whole text, the lookaheads amount to
      plain containment. */
  lemma StrongPasswordIff(pw: string)
    ensures StrongPassword(pw) <==>
      |pw| >= 8 && NoLineTerminator(pw)
      && Contains(pw, IsUpperLetter) && Contains(pw, IsDigit) && Contains(pw, IsSpecial)
  {
    if NoLineTerminator(pw) {
      forall kind: char -> bool | Contains(pw, kind)
        ensures LookaheadFinds(pw, kind)
      {
        var i :| 0 <= i < |pw| && kind(pw[i]);
        assert NoLineTerminator(pw[..i]) by {
          forall k | 0 <= k < i ensures !IsLineTerminator(pw[..i][k]) {
            assert pw[..i][k] == pw[k];
          }
        }
      }
    }
  }

  // ---------------------------------------------------------------------
  // Password strength

  /** The four tests of the strength meter. */
  datatype Criterion = LongEnough | HasUpper | HasDigit | HasSpecial

  predicate Holds(c: Criterion, pw: string)
  {
    match c
    case LongEnough => |pw| >= 8
    case HasUpper => Contains(pw, IsUpperLetter)
    case HasDigit => Contains(pw, IsDigit)
    case HasSpecial => Contains(pw, IsSpecial)
  }

  const AllCriteria: set<Criterion> := {LongEnough, HasUpper, HasDigit, HasSpecial}

  /** A criterion, when `h` says it is met. */
  function Chosen(c: Criterion, h: bool): set<Criterion>
  {
    if h then {c} else {}
  }

  /** The criteria a password meets; the strength is how many. */
  function Met(pw: string): (m: set<Criterion>)
    ensures m <= AllCriteria
    ensures forall c :: c in m <==> Holds(c, pw)
  {
    Chosen(LongEnough, Holds(LongEnough, pw)) + Chosen(HasUpper, Holds(HasUpper, pw))
    + Chosen(HasDigit, Holds(HasDigit, pw)) + Chosen(HasSpecial, Holds(HasSpecial, pw))
  }

  function Point(c: Criterion, pw: string): nat
  {
    if Holds(c, pw) then 1 else 0
  }

  /** Four distinct criteria, each chosen or not, count one each. */
  lemma CountChosen(h1: bool, h2: bool, h3: bool, h4: bool)
    ensures |Chosen(LongEnough, h1) + Chosen(HasUpper, h2) + Chosen(HasDigit, h3) + Chosen(HasSpecial, h4)|
         == (if h1 then 1 else 0) + (if h2 then 1 else 0) + (if h3 then 1 else 0) + (if h4 then 1 else 0)
  {
    var a, b, c, d := Chosen(LongEnough, h1), Chosen(HasUpper, h2), Chosen(HasDigit, h3), Chosen(HasSpecial, h4);
    assert a * b == {} && |a + b| == |a| + |b|;
    assert (a + b) * c == {} && |a + b + c| == |a + b| + |c|;
    assert (a + b + c) * d == {} && |a + b + c + d| == |a + b + c| + |d|;
  }

  /** The strength as a sum of one point per criterion met. */
  lemma MetCount(pw: string)
    ensures |Met(pw)| == Point(LongEnough, pw) + Point(HasUpper, pw) + Point(HasDigit, pw) + Point(HasSpecial, pw)
  {
    CountChosen(Holds(LongEnough, pw), Holds(HasUpper, pw), Holds(HasDigit, pw), Holds(HasSpecial, pw));
  }

  /** The empty password meets no criterion, so the early `return 0` agrees
      with counting; no password meets more than four. */
  lemma StrengthBounds(pw: string)
    ensures pw == "" ==> |Met(pw)| == 0
    ensures |Met(pw)| <= 4
  {
    MetCount(pw);
  }

  /** A password the form accepts meets all four criteria. */
  lemma AcceptedPasswordIsStrongest(pw: string)
    requires StrongPassword(pw)
    ensures Met(pw) == AllCriteria && |Met(pw)| == 4
  {
    StrongPasswordIff(pw);
    assert forall c :: c in AllCriteria ==> Holds(c, pw);
  }

  datatype Label = Weak | Medium | Strong

  /** The text under the password field. */
  datatype Hint = StrengthShown(level: Label) | LengthHint

  /** The meter's label from the length and a strength. */
  function StrengthHint(pw: string, strength: nat): (h: Hint)
    ensures h == LengthHint <==> |pw| < 8
    ensures h == StrengthShown(Strong) <==> |pw| >= 8 && strength >= 3
    ensures h == StrengthShown(Medium) <==> |pw| >= 8 && strength == 2
    ensures h == StrengthShown(Weak) <==> |pw| >= 8 && strength < 2
  {
    if |pw| >= 8 then
      StrengthShown(if strength >= 3 then Strong else if strength >= 2 then Medium else Weak)
    else LengthHint
  }

  /** Once shown, "Weak" means length is the only criterion met, and an
      accepted password is labelled "Strong". */
  lemma HintOfMet(pw: string)
    ensures StrengthHint(pw, |Met(pw)|) == StrengthShown(Weak) ==> Met(pw) == {LongEnough}
    ensures StrongPassword(pw) ==> StrengthHint(pw, |Met(pw)|) == StrengthShown(Strong)
  {
    if |pw| >= 8 && |Met(pw)| < 2 {
      MetCount(pw);
      assert Met(pw) == {LongEnough} by {
        forall c ensures c in Met(pw) <==> c == LongEnough {
          assert c in Met(pw) <==> Holds(c, pw);
        }
      }
    }
    if StrongPassword(pw) {
      AcceptedPasswordIsStrongest(pw);
    }
  }

  // ---------------------------------------------------------------------
  // Validation

  datatype FormData = FormData(
    name: string, email: string, password: string, confirmPassword: string,
    agreeTerms: bool, role: Option<Role>)

  const NameRequired := "Full name is required"
  const EmailRequired := "Email address is required"
  const EmailInvalid := "Please enter a valid email address"
  const EmailTaken := "Email is already registered"
  const PasswordWeak := "Password must be at least 8 characters with one uppercase, number, and special character"
  const PasswordsDiffer := "Passwords do not match"
  const TermsRequired := "You must agree to the terms and conditions"

  /** The error `validateForm` reports: the message of the first check that
      fails, in the page's order, or none when every check passes. The
      availability is `true`, `false`, or unknown (`None`). */
  function FirstError(form: FormData, emailAvailable: Option<bool>): (r: Option<string>)
    ensures r.None? <==>
      && Trim(form.name) != ""
      && Trim(form.email) != "" && ValidEmail(form.email)
      && emailAvailable != Some(false)
      && StrongPassword(form.password)
      && form.password == form.confirmPassword
      && form.agreeTerms
    ensures r == Some(NameRequired) <==> Trim(form.name) == ""
    ensures r == Some(EmailRequired) <==> Trim(form.name) != "" && Trim(form.email) == ""
    ensures r == Some(EmailInvalid) <==>
      Trim(form.name) != "" && Trim(form.email) != "" && !ValidEmail(form.email)
    ensures r == Some(EmailTaken) <==>
      Trim(form.name) != "" && Trim(form.email) != "" && ValidEmail(form.email)
      && emailAvailable == Some(false)
    ensures r == Some(PasswordWeak) <==>
      Trim(form.name) != "" && Trim(form.email) != "" && ValidEmail(form.email)
      && emailAvailable != Some(false) && !StrongPassword(form.password)
    ensures r == Some(PasswordsDiffer) <==>
      Trim(form.name) != "" && Trim(form.email) != "" && ValidEmail(form.email)
      && emailAvailable != Some(false) && StrongPassword(form.password)
      && form.password != form.confirmPassword
    ensures r == Some(TermsRequired) <==>
      Trim(form.name) != "" && Trim(form.email) != "" && ValidEmail(form.email)
      && emailAvailable != Some(false) && StrongPassword(form.password)
      && form.password == form.confirmPassword && !form.agreeTerms
  {
    if Trim(form.name) == "" then Some(NameRequired)
    else if Trim(form.email) == "" then Some(EmailRequired)
    else if !ValidEmail(form.email) then Some(EmailInvalid)
    else if emailAvailable == Some(false) then Some(EmailTaken)
    else if !StrongPassword(form.password) then Some(PasswordWeak)
    else if form.password != form.confirmPassword then Some(PasswordsDiffer)
    else if !form.agreeTerms then Some(TermsRequired)
    else None
  }

  /** An availability that is not known yet never blocks: the form is
      judged as if the address were free. */
  lemma UnknownAvailabilityDoesNotBlock(form: FormData)
    ensures FirstError(form, None) == FirstError(form, Some(true))
  {
  }

  /** The blank-email check only decides which message a bad address gets:
      whenever it passes the pattern, an address is not blank. */
  lemma BlankEmailCaughtByPatternToo(form: FormData)
    requires Trim(form.name) != "" && ValidEmail(form.email)
    ensures FirstError(form, None) != Some(EmailRequired)
  {
    ValidEmailShape(form.email);
  }

  /** A form that validates carries a password of strength 4. */
  lemma ValidFormHasFullStrength(form: FormData, emailAvailable: Option<bool>)
    requires FirstError(form, emailAvailable).None?
    ensures |Met(form.password)| == 4
  {
    AcceptedPasswordIsStrongest(form.password);
  }

  // ---------------------------------------------------------------------
  // Form state

  /** The inputs `handleChange` serves: the four text fields by name, and
      the terms checkbox. */
  datatype TextField = NameInput | EmailInput | PasswordInput | ConfirmInput

  datatype ChangeEvent = TextChange(field: TextField, value: string) | CheckboxChange(checked: bool)

  /** `{ ...prev, [name]: type === "checkbox" ? checked : value }`. */
  function Updated(form: FormData, event: ChangeEvent): (f: FormData)
    ensures f.role == form.role
    ensures event.CheckboxChange? ==>
      f == form.(agreeTerms := event.checked)
    ensures event.TextChange? ==> f.agreeTerms == form.agreeTerms
    ensures event.TextChange? ==>
      && f.name == (if event.field == NameInput then event.value else form.name)
      && f.email == (if event.field == EmailInput then event.value else form.email)
      && f.password == (if event.field == PasswordInput then event.value else form.password)
      && f.confirmPassword == (if event.field == ConfirmInput then event.value else form.confirmPassword)
  {
    match event
    case CheckboxChange(checked) => form.(agreeTerms := checked)
    case TextChange(NameInput, v) => form.(name := v)
    case TextChange(EmailInput, v) => form.(email := v)
    case TextChange(PasswordInput, v) => form.(password := v)
    case TextChange(ConfirmInput, v) => form.(confirmPassword := v)
  }

  /** Two changes to the same field keep only the second. */
  lemma UpdatedLastWins(form: FormData, field: TextField, v1: string, v2: string)
    ensures Updated(Updated(form, TextChange(field, v1)), TextChange(field, v2))
         == Updated(form, TextChange(field, v2))
  {
  }

  /** The component's state. */
  class SignupForm {
    var formData: FormData
    var error: string
    var success: string
    var emailAvailable: Option<bool>

    /** The role picker offers only STUDENT and INSTRUCTOR. */
    ghost predicate Valid()
      reads this
    {
      formData.role in {Some(Student), Some(Instructor)}
    }

    /** The initial state: empty fields, terms unticked, STUDENT, no
        messages, availability unknown. */
    constructor ()
      ensures Valid()
      ensures formData == FormData("", "", "", "", false, Some(Student))
      ensures error == "" && success == "" && emailAvailable == None
    {
      formData := FormData("", "", "", "", false, Some(Student));
      error := "";
      success := "";
      emailAvailable := None;
    }

    /** `calculatePasswordStrength`: one point per criterion met. */
    method PasswordStrength() returns (strength: nat)
      ensures strength == |Met(formData.password)|
      ensures strength <= 4
    {
      var pw := formData.password;
      StrengthBounds(pw);
      if pw == "" {
        return 0;
      }
      strength := 0;
      if |pw| >= 8 {
        strength := strength + 1;
      }
      if Contains(pw, IsUpperLetter) {
        strength := strength + 1;
      }
      if Contains(pw, IsDigit) {
        strength := strength + 1;
      }
      if Contains(pw, IsSpecial) {
        strength := strength + 1;
      }
      MetCount(pw);
    }

    /** `handleChange`: the named field takes the event's value, and both
        messages are cleared. */
    method HandleChange(event: ChangeEvent)
      requires Valid()
      modifies this
      ensures Valid()
      ensures formData == Updated(old(formData), event)
      ensures error == "" && success == "" && emailAvailable == old(emailAvailable)
    {
      formData := Updated(formData, event);
      if error != "" {
        error := "";
      }
      if success != "" {
        success := "";
      }
    }

    /** `handleRoleChange`. */
    method HandleRoleChange(role: Role)
      requires Valid() && role != Admin
      modifies this
      ensures Valid()
      ensures formData == old(formData).(role := Some(role))
      ensures error == old(error) && success == old(success) && emailAvailable == old(emailAvailable)
    {
      formData := formData.(role := Some(role));
    }

    /** `validateForm`: on the first failing check, show its message and
        answer false; when all pass, answer true and leave the state as it
        was. */
    method ValidateForm() returns (ok: bool)
      requires Valid()
      modifies this
      ensures Valid()
      ensures ok <==> FirstError(old(formData), old(emailAvailable)).None?
      ensures !ok ==> error == FirstError(old(formData), old(emailAvailable)).value
      ensures ok ==> error == old(error)
      ensures formData == old(formData) && success == old(success) && emailAvailable == old(emailAvailable)
    {
      var form := formData;
      if Trim(form.name) == "" {
        error := NameRequired;
        return false;
      }
      if Trim(form.email) == "" {
        error := EmailRequired;
        return false;
      }
      if !ValidEmail(form.email) {
        error := EmailInvalid;
        return false;
      }
      if emailAvailable == Some(false) {
        error := EmailTaken;
        return false;
      }
      if !StrongPassword(form.password) {
        error := PasswordWeak;
        return false;
      }
      if form.password != form.confirmPassword {
        error := PasswordsDiffer;
        return false;
      }
      if !form.agreeTerms {
        error := TermsRequired;
        return false;
      }
      return true;
    }
  }
}
