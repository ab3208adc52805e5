/**
 * The sign-up page: the checks `validateForm` makes, in order, before the
 * page asks the identity provider for an account, with the address check
 * `/^[^\s@]+@[^\s@]+\.[^\s@]+$/` stated both as the regular expression means
 * it and as the page could compute it.
 */
module Signup {
  import opened Wrappers
  import opened Text

  const AllRequired := "All fields are required"
  const Mismatch := "Passwords do not match"
  const TooShort := "Password must be at least 6 characters long"
  const InvalidEmail := "Please enter a valid email address"
  const SignupFailed := "An error occurred during signup"
  const MinPassword := 6

  // ---------------------------------------------------------------------------
  // The address test

  /** Text matched by `[^\s@]+` once it is not empty: no whitespace and no '@'. */
  predicate Plain(s: string) {
    forall i :: 0 <= i < |s| ==> !IsWhitespace(s[i]) && s[i] != '@'
  }

  /** What the regular expression accepts: a name, '@', a domain, '.', and a last part, none of them empty. */
  ghost predicate RegexMatch(s: string) {
    exists a: string, b: string, c: string ::
      a != "" && b != "" && c != "" && Plain(a) && Plain(b) && Plain(c) && s == a + "@" + b + "." + c
  }

  /** A domain with a '.' somewhere after its first and before its last character. */
  predicate DotInside(d: string) {
    |d| >= 3 && '.' in d[1..|d| - 1]
  }

  /** The address test as a computation: one '@', a non-empty name before it and a dotted domain after it. */
  predicate EmailShaped(s: string) {
    var parts := Split(s, '@');
    |parts| == 2 && parts[0] != "" && Plain(parts[0]) && Plain(parts[1]) && DotInside(parts[1])
  }

  lemma PlainJoin(b: string, c: string)
    requires Plain(b) && Plain(c)
    ensures Plain(b + "." + c) && Free(b + "." + c, '@')
  {
    var d := b + "." + c;
    forall i | 0 <= i < |d|
      ensures !IsWhitespace(d[i]) && d[i] != '@'
    {
      if i < |b| {
        assert d[i] == b[i];
      } else if i > |b| {
        assert d[i] == c[i - |b| - 1];
      }
    }
  }

  /** Every address the regular expression accepts passes the computed check. */
  lemma MatchIsShaped(s: string)
    requires RegexMatch(s)
    ensures EmailShaped(s)
  {
    var a: string, b: string, c: string :|
      a != "" && b != "" && c != "" && Plain(a) && Plain(b) && Plain(c) && s == a + "@" + b + "." + c;
    var d := b + "." + c;
    assert s == a + ['@'] + d;
    PlainJoin(b, c);
    SplitAfter(a, '@', d);
    SplitWithout(d, '@');
    assert Split(s, '@') == [a, d];
    assert d[1..|d| - 1][|b| - 1] == d[|b|] == '.';
  }

  /** Every address that passes the computed check is accepted by the regular expression. */
  lemma ShapedIsMatch(s: string)
    requires EmailShaped(s)
    ensures RegexMatch(s)
  {
    var parts := Split(s, '@');
    var a, d := parts[0], parts[1];
    JoinSplit(s, '@');
    assert parts[1..] == [d];
    assert s == a + "@" + d;
    var k :| 0 <= k < |d| - 2 && d[1..|d| - 1][k] == '.';
    var j := k + 1;
    assert d[j] == '.';
    var b, c := d[..j], d[j + 1..];
    assert d == b + "." + c;
    assert s == a + "@" + b + "." + c;
    assert Plain(b) && Plain(c) by {
      assert forall i :: 0 <= i < |b| ==> b[i] == d[i];
      assert forall i :: 0 <= i < |c| ==> c[i] == d[j + 1 + i];
    }
  }

  /** The computed check is the regular expression. */
  lemma EmailShapedIsRegex(s: string)
    ensures EmailShaped(s) <==> RegexMatch(s)
  {
    if EmailShaped(s) {
      ShapedIsMatch(s);
    }
    if RegexMatch(s) {
      MatchIsShaped(s);
    }
  }

  predicate NoWhitespace(s: string) {
    forall i :: 0 <= i < |s| ==> !IsWhitespace(s[i])
  }

  /** An accepted address holds exactly one '@' and no whitespace. */
  lemma AcceptedAddress(s: string)
    requires RegexMatch(s)
    ensures Count(s, '@') == 1 && NoWhitespace(s)
  {
    var a: string, b: string, c: string :|
      a != "" && b != "" && c != "" && Plain(a) && Plain(b) && Plain(c) && s == a + "@" + b + "." + c;
    var d := b + "." + c;
    assert s == a + ['@'] + d;
    PlainJoin(b, c);
    OneAt(a, d);
    NoWhitespaceAround(a, d);
  }

  lemma OneAt(a: string, d: string)
    requires Plain(a) && Free(d, '@')
    ensures Count(a + ['@'] + d, '@') == 1
  {
    SplitAfter(a, '@', d);
    SplitWithout(d, '@');
    SplitLength(a + ['@'] + d, '@');
  }

  lemma NoWhitespaceAround(a: string, d: string)
    requires Plain(a) && Plain(d)
    ensures NoWhitespace(a + ['@'] + d)
  {
    var s := a + ['@'] + d;
    forall i | 0 <= i < |s|
      ensures !IsWhitespace(s[i])
    {
      if i < |a| {
        assert s[i] == a[i];
      } else if i > |a| {
        assert s[i] == d[i - |a| - 1];
      }
    }
  }

  // ---------------------------------------------------------------------------
  // The form

  datatype SignupForm = SignupForm(email: string, password: string, confirmPassword: string, displayName: string)

  const EmptySignupForm := SignupForm("", "", "", "")

  /** The inputs `handleInputChange` writes by their `name`. */
  datatype SignupField = Email | Password | ConfirmPassword | DisplayName

  /** `{ ...prev, [name]: value }` */
  function SetField(form: SignupForm, field: SignupField, value: string): (r: SignupForm)
    ensures field == Email ==> r == form.(email := value)
    ensures field == Password ==> r == form.(password := value)
    ensures field == ConfirmPassword ==> r == form.(confirmPassword := value)
    ensures field == DisplayName ==> r == form.(displayName := value)
  {
    match field
    case Email => form.(email := value)
    case Password => form.(password := value)
    case ConfirmPassword => form.(confirmPassword := value)
    case DisplayName => form.(displayName := value)
  }

  /**
   * `validateForm`: the message of the first check that fails, or none. The
   * display name is optional; the length is counted in characters.
   */
  function Validate(form: SignupForm): (r: Option<string>)
    ensures r == Some(AllRequired) <==> form.email == "" || form.password == "" || form.confirmPassword == ""
    ensures r == Some(Mismatch) <==>
              form.email != "" && form.password != "" && form.confirmPassword != "" && form.password != form.confirmPassword
    ensures r == Some(TooShort) <==>
              form.email != "" && form.confirmPassword != "" && form.password == form.confirmPassword &&
              0 < |form.password| < MinPassword
    ensures r == Some(InvalidEmail) <==>
              form.email != "" && form.password == form.confirmPassword && |form.password| >= MinPassword &&
              !RegexMatch(form.email)
    ensures r.None? <==>
              form.password == form.confirmPassword && |form.password| >= MinPassword && RegexMatch(form.email)
  {
    EmailShapedIsRegex(form.email);
    if form.email == "" || form.password == "" || form.confirmPassword == "" then Some(AllRequired)
    else if form.password != form.confirmPassword then Some(Mismatch)
    else if |form.password| < MinPassword then Some(TooShort)
    else if !EmailShaped(form.email) then Some(InvalidEmail)
    else None
  }

  /** The page's state. */
  class SignupPage {
    var form: SignupForm
    var error: string
    var isLoading: bool

    constructor ()
      ensures form == EmptySignupForm && error == "" && !isLoading
    {
      form, error, isLoading := EmptySignupForm, "", false;
    }

    method InputChange(field: SignupField, value: string)
      modifies this
      ensures form == SetField(old(form), field, value) && error == old(error) && isLoading == old(isLoading)
    {
      form := SetField(form, field, value);
    }

    /**
     * `handleSubmit` given what `signup` does with the address, password and
     * display name: it is called only when every check passes; the message of
     * a failed check or of the thrown error is shown.
     */
    method HandleSubmit(signup: (string, string, string) -> Result<(), Thrown>) returns (called: bool)
      modifies this
      ensures called <==> Validate(old(form)).None?
      ensures !called ==> error == Validate(old(form)).value
      ensures called ==> var r := signup(old(form).email, old(form).password, old(form).displayName);
                         error == if r.Failure? then r.error.MessageOr(SignupFailed) else ""
      ensures form == old(form) && isLoading == (old(isLoading) && !called)
    {
      error := "";
      var problem := Validate(form);
      if problem.Some? {
        error := problem.value;
        called := false;
        return;
      }
      called := true;
      isLoading := true;
      var r := signup(form.email, form.password, form.displayName);
      if r.Failure? {
        error := r.error.MessageOr(SignupFailed);
      }
      isLoading := false;
    }
  }

  /** The page asks for an account only with an address of the accepted shape and a confirmed password of six or more characters. */
  lemma SignupOnlyWhenValid(form: SignupForm)
    requires Validate(form).None?
    ensures RegexMatch(form.email) && Count(form.email, '@') == 1 && NoWhitespace(form.email)
    ensures form.password == form.confirmPassword && |form.password| >= MinPassword
  {
    AcceptedAddress(form.email);
  }
}
