/** The login/sign-up form of scripts/login-form.js: the per-field rules of `validateField`,
    the mode switch and the all-fields check on submit. */
module Login {
  import opened Wrappers
  import opened Text

  datatype Mode = LoginMode | SignupMode

  /** One `.form-input`: its `name`, its current value, and whether it sits in the sign-up-only
      part of the form (hidden, so `offsetParent === null`, in login mode). */
  datatype FormInput = FormInput(name: string, value: string, signupOnly: bool)

  datatype Verdict = Valid | Invalid(message: string)

  predicate Visible(input: FormInput, mode: Mode) {
    !input.signupOnly || mode == SignupMode
  }

  // ---------------------------------------------------------------------------
  // The three regular expressions
  // ---------------------------------------------------------------------------

  /** `[^\s@]+` */
  predicate Word(s: string) {
    s != [] && forall i :: 0 <= i < |s| ==> !IsSpace(s[i]) && s[i] != '@'
  }

  /** `/^[^\s@]+@[^\s@]+\.[^\s@]+$/.test(s)`: the input splits as `x@y.z` with three words. */
  predicate EmailMatches(s: string)
    ensures EmailMatches(s) ==> |s| >= 5 && '@' in s && '.' in s
  {
    exists i, j :: 0 < i < j < |s| - 1 && s[i] == '@' && s[j] == '.' && Word(s[..i]) && Word(s[i + 1..j]) && Word(s[j + 1..])
  }

  /** The same language stated without the split: exactly one `@`, not first, no white space,
      and a `.` in what follows the `@`, neither right after it nor last. */
  predicate EmailShape(s: string) {
    && (forall k :: 0 <= k < |s| ==> !IsSpace(s[k]))
    && exists i :: 0 < i < |s| && s[i] == '@'
         && (forall k :: 0 <= k < |s| && k != i ==> s[k] != '@')
         && exists j :: i + 1 < j < |s| - 1 && s[j] == '.'
  }

  lemma EmailMatchesIffShape(s: string)
    ensures EmailMatches(s) <==> EmailShape(s)
  {
    if EmailMatches(s) {
      MatchHasShape(s);
    }
    if EmailShape(s) {
      ShapeMatches(s);
    }
  }

  lemma MatchHasShape(s: string)
    requires EmailMatches(s)
    ensures EmailShape(s)
  {
    var i, j :| 0 < i < j < |s| - 1 && s[i] == '@' && s[j] == '.' && Word(s[..i]) && Word(s[i + 1..j]) && Word(s[j + 1..]);
    forall k | 0 <= k < |s| && k != i ensures !IsSpace(s[k]) && s[k] != '@' {
      if k < i {
        assert s[k] == s[..i][k];
      } else if k < j {
        assert s[k] == s[i + 1..j][k - i - 1];
      } else if k > j {
        assert s[k] == s[j + 1..][k - j - 1];
      }
    }
    assert i + 1 < j by {
      assert s[i + 1..j] != [];
    }
  }

  lemma ShapeMatches(s: string)
    requires EmailShape(s)
    ensures EmailMatches(s)
  {
    var i :| 0 < i < |s| && s[i] == '@' && (forall k :: 0 <= k < |s| && k != i ==> s[k] != '@')
      && exists j :: i + 1 < j < |s| - 1 && s[j] == '.';
    var j :| i + 1 < j < |s| - 1 && s[j] == '.';
    assert Word(s[..i]);
    assert Word(s[i + 1..j]);
    assert Word(s[j + 1..]);
  }

  /** An address of the form `x@y.z` passes. */
  lemma EmailAccepted()
    ensures EmailMatches("ada@example.com")
  {
    var s := "ada@example.com";
    assert s[..3] == "ada" && s[4..11] == "example" && s[12..] == "com";
    assert 0 < 3 < 11 < |s| - 1 && s[3] == '@' && s[11] == '.' && Word(s[..3]) && Word(s[4..11]) && Word(s[12..]);
  }

  /** Without a dot after the `@` the address is refused. */
  lemma EmailWithoutDotRefused()
    ensures !EmailMatches("ada@example")
  {
    EmailMatchesIffShape("ada@example");
  }

  /** White space anywhere refuses the address. */
  lemma EmailWithSpaceRefused()
    ensures !EmailMatches("ada lovelace@example.com")
  {
    EmailMatchesIffShape("ada lovelace@example.com");
    assert IsSpace("ada lovelace@example.com"[3]);
  }

  /** An empty local part refuses the address. */
  lemma EmailWithoutLocalPartRefused()
    ensures !EmailMatches("@example.com")
  {
    EmailMatchesIffShape("@example.com");
    assert "@example.com"[0] == '@';
  }

  datatype CharClass = Lowercase | Uppercase | Digit

  predicate InClass(c: char, cls: CharClass) {
    match cls
    case Lowercase => IsAsciiLower(c)
    case Uppercase => IsAsciiUpper(c)
    case Digit => IsDigit(c)
  }

  /** The lookahead `(?=.*[class])` succeeds at `p`: a character of the class occurs at or after
      `p` with no line terminator in between (`.` does not match one). */
  predicate AheadOnLine(s: string, p: int, cls: CharClass) {
    exists q :: 0 <= p <= q < |s| && InClass(s[q], cls) && forall r :: p <= r < q ==> !IsLineTerminator(s[r])
  }

  /** `/(?=.*[a-z])(?=.*[A-Z])(?=.*\d)/.test(s)`: some start position passes all three lookaheads. */
  predicate PasswordMatches(s: string)
    ensures PasswordMatches(s) ==> |s| >= 3
  {
    exists p :: 0 <= p <= |s| && AheadOnLine(s, p, Lowercase) && AheadOnLine(s, p, Uppercase) && AheadOnLine(s, p, Digit)
  }

  predicate Contains(s: string, cls: CharClass) {
    exists q :: 0 <= q < |s| && InClass(s[q], cls)
  }

  /** On a single line the pattern means: a lowercase letter, an uppercase letter and a digit. */
  lemma PasswordOnOneLine(s: string)
    requires forall k :: 0 <= k < |s| ==> !IsLineTerminator(s[k])
    ensures PasswordMatches(s) <==> Contains(s, Lowercase) && Contains(s, Uppercase) && Contains(s, Digit)
  {
    if Contains(s, Lowercase) && Contains(s, Uppercase) && Contains(s, Digit) {
      var a :| 0 <= a < |s| && InClass(s[a], Lowercase);
      var b :| 0 <= b < |s| && InClass(s[b], Uppercase);
      var c :| 0 <= c < |s| && InClass(s[c], Digit);
      assert AheadOnLine(s, 0, Lowercase) && AheadOnLine(s, 0, Uppercase) && AheadOnLine(s, 0, Digit);
    }
  }

  /** Across a line break the three classes do not count together. */
  lemma PasswordSplitByNewline()
    ensures Contains("aB\n1", Lowercase) && Contains("aB\n1", Uppercase) && Contains("aB\n1", Digit)
    ensures !PasswordMatches("aB\n1")
  {
    var s := "aB\n1";
    assert InClass(s[0], Lowercase) && InClass(s[1], Uppercase) && InClass(s[3], Digit);
    assert IsLineTerminator(s[2]);
    forall p | 0 <= p <= 2 ensures !AheadOnLine(s, p, Digit) {
      forall q | p <= q < |s| && InClass(s[q], Digit) ensures IsLineTerminator(s[2]) && p <= 2 < q {
      }
    }
    forall p | 3 <= p <= |s| ensures !AheadOnLine(s, p, Lowercase) {
    }
  }

  /** `/^[a-zA-Z\s]+$/.test(s)` */
  predicate NameMatches(s: string)
    ensures NameMatches(s) ==> forall i :: 0 <= i < |s| ==> !IsDigit(s[i]) && s[i] != '@'
  {
    s != [] && forall i :: 0 <= i < |s| ==> IsAsciiLetter(s[i]) || IsSpace(s[i])
  }

  // ---------------------------------------------------------------------------
  // validateField
  // ---------------------------------------------------------------------------

  /** `validateField` for one input, given the mode and the raw value of the password field. */
  function ValidateField(input: FormInput, mode: Mode, password: string): (v: Verdict)
    ensures !Visible(input, mode) ==> v == Valid
    ensures input.name !in {"fullName", "email", "password", "confirmPassword"} ==> v == Valid
  {
    if !Visible(input, mode) then Valid
    else
      var value := Trim(input.value);
      if input.name == "fullName" then
        if mode != SignupMode then Valid
        else if |value| < 2 then Invalid("Please enter your full name (at least 2 characters)")
        else if !NameMatches(value) then Invalid("Name should only contain letters and spaces")
        else Valid
      else if input.name == "email" then
        if value == [] then Invalid("Email address is required")
        else if !EmailMatches(value) then Invalid("Please enter a valid email address")
        else Valid
      else if input.name == "password" then
        if value == [] then Invalid("Password is required")
        else if |value| < 8 then Invalid("Password must be at least 8 characters long")
        else if !PasswordMatches(value) then Invalid("Password should contain uppercase, lowercase, and number")
        else Valid
      else if input.name == "confirmPassword" then
        if mode != SignupMode then Valid
        else if value == [] then Invalid("Please confirm your password")
        else if value != password then Invalid("Passwords do not match")
        else Valid
      else Valid
  }

  /** In login mode the full name is not checked; in sign-up mode it must have at least two
      characters once trimmed, all ASCII letters or white space, and the length is checked first. */
  lemma FullNameRule(input: FormInput, mode: Mode, password: string)
    requires input.name == "fullName" && Visible(input, mode)
    ensures var v := ValidateField(input, mode, password); var value := Trim(input.value);
      && (mode == LoginMode ==> v == Valid)
      && (mode == SignupMode ==> (v == Valid <==> |value| >= 2 && NameMatches(value)))
      && (mode == SignupMode && |value| < 2 ==> v == Invalid("Please enter your full name (at least 2 characters)"))
  {
  }

  /** The email must have the shape `x@y.z` once trimmed; an empty value is reported as missing
      rather than malformed. */
  lemma EmailRule(input: FormInput, mode: Mode, password: string)
    requires input.name == "email" && Visible(input, mode)
    ensures var v := ValidateField(input, mode, password); var value := Trim(input.value);
      && (v == Valid <==> EmailShape(value))
      && (value == [] ==> v == Invalid("Email address is required"))
      && (value != [] && !EmailShape(value) ==> v == Invalid("Please enter a valid email address"))
  {
    var value := Trim(input.value);
    EmailMatchesIffShape(value);
  }

  /** The password must be at least 8 characters once trimmed and pass the three lookaheads;
      emptiness, then length, then content is the order of the messages. */
  lemma PasswordRule(input: FormInput, mode: Mode, password: string)
    requires input.name == "password" && Visible(input, mode)
    ensures var v := ValidateField(input, mode, password); var value := Trim(input.value);
      && (v == Valid <==> |value| >= 8 && PasswordMatches(value))
      && (value == [] ==> v == Invalid("Password is required"))
      && (value != [] && |value| < 8 ==> v == Invalid("Password must be at least 8 characters long"))
      && (|value| >= 8 && !PasswordMatches(value) ==> v == Invalid("Password should contain uppercase, lowercase, and number"))
  {
  }

  /** In sign-up mode the trimmed confirmation must be non-empty and equal the password field's
      raw value; in login mode it is not checked. */
  lemma ConfirmPasswordRule(input: FormInput, mode: Mode, password: string)
    requires input.name == "confirmPassword" && Visible(input, mode)
    ensures var v := ValidateField(input, mode, password); var value := Trim(input.value);
      && (mode == LoginMode ==> v == Valid)
      && (mode == SignupMode ==> (v == Valid <==> value != [] && value == password))
      && (mode == SignupMode && value == [] ==> v == Invalid("Please confirm your password"))
      && (mode == SignupMode && value != [] && value != password ==> v == Invalid("Passwords do not match"))
  {
  }

  /** `document.getElementById('password').value`: the first input named `password`. */
  function PasswordValue(inputs: seq<FormInput>): (p: string)
    ensures (forall i :: 0 <= i < |inputs| ==> inputs[i].name != "password") ==> p == ""
    ensures (exists i :: 0 <= i < |inputs| && inputs[i].name == "password") ==>
      exists i :: && 0 <= i < |inputs| && inputs[i].name == "password" && inputs[i].value == p
                  && forall k :: 0 <= k < i ==> inputs[k].name != "password"
  {
    if inputs == [] then ""
    else if inputs[0].name == "password" then inputs[0].value
    else
      var p := PasswordValue(inputs[1..]);
      assert forall i :: 1 <= i < |inputs| ==> inputs[i] == inputs[1..][i - 1];
      p
  }

  /** What `clearAllValidationStates` leaves: every value empty. */
  function Cleared(inputs: seq<FormInput>): (r: seq<FormInput>)
    ensures |r| == |inputs|
    ensures forall i :: 0 <= i < |r| ==> r[i] == inputs[i].(value := "")
  {
    seq(|inputs|, i requires 0 <= i < |inputs| => inputs[i].(value := ""))
  }

  /** After a mode switch has emptied the form, a visible email input fails, so the emptied form
      cannot be submitted. */
  lemma ClearedEmailFails(input: FormInput, mode: Mode, password: string)
    requires input.name == "email"
    ensures ValidateField(input.(value := ""), mode, password) == Valid <==> !Visible(input, mode)
  {
    assert Trim("") == "";
    if Visible(input, mode) {
      EmailRule(input.(value := ""), mode, password);
    }
  }

  class LoginPage {
    var currentMode: Mode
    /** The `.form-input` elements in document order. */
    var inputs: seq<FormInput>

    constructor (formInputs: seq<FormInput>)
      ensures currentMode == LoginMode && inputs == formInputs
    {
      currentMode := LoginMode;
      inputs := formInputs;
    }

    /** `handleModeToggle`: choosing the current mode does nothing; another mode is taken and every
        value is cleared. */
    method HandleModeToggle(mode: Mode)
      modifies this
      ensures mode == old(currentMode) ==> currentMode == old(currentMode) && inputs == old(inputs)
      ensures mode != old(currentMode) ==> currentMode == mode && inputs == Cleared(old(inputs))
    {
      if mode == currentMode {
        return;
      }
      currentMode := mode;
      inputs := Cleared(inputs);
    }

    /** `handleFormSubmit`: every visible input is validated; the form is valid iff all pass, and
        the focus goes to the first input that failed. */
    method HandleFormSubmit() returns (isFormValid: bool, firstError: Option<nat>)
      ensures isFormValid <==> forall i :: 0 <= i < |inputs| ==>
        ValidateField(inputs[i], currentMode, PasswordValue(inputs)) == Valid
      ensures isFormValid <==> firstError == None
      ensures firstError.Some? ==>
        && firstError.value < |inputs|
        && Visible(inputs[firstError.value], currentMode)
        && ValidateField(inputs[firstError.value], currentMode, PasswordValue(inputs)).Invalid?
        && forall i :: 0 <= i < firstError.value ==> ValidateField(inputs[i], currentMode, PasswordValue(inputs)) == Valid
    {
      var fields, mode := inputs, currentMode;
      var password := PasswordValue(fields);
      var verdicts := seq(|fields|, k requires 0 <= k < |fields| => ValidateField(fields[k], mode, password));
      isFormValid, firstError := FirstInvalid(verdicts);
      assert forall i :: 0 <= i < |inputs| ==> ValidateField(inputs[i], currentMode, PasswordValue(inputs)) == verdicts[i];
    }
  }

  /** The scan of `handleFormSubmit` over the verdicts in document order: whether all are valid,
      and the index of the first invalid one. */
  method FirstInvalid(verdicts: seq<Verdict>) returns (allValid: bool, first: Option<nat>)
    ensures allValid <==> forall i :: 0 <= i < |verdicts| ==> verdicts[i] == Valid
    ensures allValid <==> first == None
    ensures first.Some? ==>
      && first.value < |verdicts|
      && verdicts[first.value].Invalid?
      && forall i :: 0 <= i < first.value ==> verdicts[i] == Valid
  {
    allValid := true;
    first := None;
    var i := 0;
    while i < |verdicts|
      invariant 0 <= i <= |verdicts|
      invariant allValid <==> forall k :: 0 <= k < i ==> verdicts[k] == Valid
      invariant allValid <==> first == None
      invariant first.Some? ==>
        && first.value < i
        && verdicts[first.value].Invalid?
        && forall k :: 0 <= k < first.value ==> verdicts[k] == Valid
    {
      if verdicts[i] != Valid {
        if allValid {
          first := Some(i);
        }
        allValid := false;
      }
      i := i + 1;
    }
  }
}
