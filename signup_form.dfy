/** The registration form: the rules each input is registered with (checked
    in the form library's order: required, then minimum length, then
    pattern, then the custom check, first failure wins), the seller-only
    business name, and the payload submitted without `confirmPassword`. */
module SignupForm {
  import opened Types
  import Text

  /** The form's values by registered name; nested names are dotted. */
  type Values = map<string, string>

  const DefaultValues: Values := map["role" := "customer"]

  /** A registered value; an input never filled in reads as empty. */
  function Value(v: Values, k: string): string {
    if k in v then v[k] else ""
  }

  // ---------------------------------------------------------------------
  // The two patterns

  predicate LocalChar(c: char) {
    Text.IsLetter(c) || Text.IsDigit(c) || c == '.' || c == '_' || c == '%' || c == '+' || c == '-'
  }

  predicate DomainChar(c: char) {
    Text.IsLetter(c) || Text.IsDigit(c) || c == '.' || c == '-'
  }

  predicate AllLocal(s: string) {
    forall k :: 0 <= k < |s| ==> LocalChar(s[k])
  }

  predicate AllDomain(s: string) {
    forall k :: 0 <= k < |s| ==> DomainChar(s[k])
  }

  predicate AllLetters(s: string) {
    forall k :: 0 <= k < |s| ==> Text.IsLetter(s[k])
  }

  /** `/^[A-Z0-9._%+-]+@[A-Z0-9.-]+\.[A-Z]{2,}$/i` matched with the `@` at
      `at` and the dot before the top-level domain at `dot`. */
  predicate EmailWitness(s: string, at: int, dot: int) {
    0 < at && at + 1 < dot && dot + 2 < |s| && s[at] == '@' && s[dot] == '.'
    && AllLocal(s[..at]) && AllDomain(s[at + 1..dot]) && AllLetters(s[dot + 1..])
  }

  /** The email pattern matches: a non-empty local part, `@`, a non-empty
      domain, a dot and at least two letters to the end. */
  predicate EmailPattern(s: string) {
    exists at, dot :: 0 <= at < |s| && 0 <= dot < |s| && EmailWitness(s, at, dot)
  }

  /** A direct reading of the email pattern: the local part ends at the
      first `@`, and the top-level domain starts after the last dot. */
  function EmailMatches(s: string): bool {
    match Text.IndexOf(s, '@')
    case None => false
    case Some(at) => at > 0 && AllLocal(s[..at]) && DomainMatches(s[at + 1..])
  }

  /** The part after the `@`: domain characters, then a dot and two or
      more letters. */
  function DomainMatches(rest: string): bool {
    match Text.LastIndexOf(rest, '.')
    case None => false
    case Some(dot) => dot > 0 && dot + 2 < |rest| && AllDomain(rest[..dot]) && AllLetters(rest[dot + 1..])
  }

  /** What the direct reading accepts, the pattern matches. */
  lemma EmailMatchesSound(s: string)
    requires EmailMatches(s)
    ensures EmailPattern(s)
  {
    var at := Text.IndexOf(s, '@').value;
    var rest := s[at + 1..];
    var dot := Text.LastIndexOf(rest, '.').value;
    var d := at + 1 + dot;
    assert rest[..dot] == s[at + 1..d] && rest[dot + 1..] == s[d + 1..];
    assert s[d] == rest[dot];
    assert EmailWitness(s, at, d);
  }

  /** What the pattern matches, the direct reading accepts. */
  lemma EmailMatchesComplete(s: string, at: int, dot: int)
    requires EmailWitness(s, at, dot)
    ensures EmailMatches(s)
  {
    assert '@' !in s[..at] by {
      assert !LocalChar('@');
    }
    Text.IndexOfIs(s, '@', at);
    var rest := s[at + 1..];
    var j := dot - at - 1;
    assert rest[..j] == s[at + 1..dot] && rest[j + 1..] == s[dot + 1..];
    assert '.' !in rest[j + 1..] by {
      assert !Text.IsLetter('.');
    }
    assert rest[j] == '.';
    Text.LastIndexOfIs(rest, '.', j);
  }

  /** The direct reading accepts exactly the strings the pattern matches. */
  lemma EmailMatchesIff(s: string)
    ensures EmailMatches(s) <==> EmailPattern(s)
  {
    if EmailMatches(s) {
      EmailMatchesSound(s);
    }
    if EmailPattern(s) {
      var at, dot :| 0 <= at < |s| && 0 <= dot < |s| && EmailWitness(s, at, dot);
      EmailMatchesComplete(s, at, dot);
    }
  }

  /** Characters `.` does not match in a regular expression. */
  predicate LineTerminator(c: char) {
    c == '\n' || c == '\r' || c == 0x2028 as char || c == 0x2029 as char
  }

  /** The text before the first line terminator: how far `.*` reaches from
      the start. */
  function FirstLine(s: string): (r: string)
    ensures |r| <= |s| && r == s[..|r|]
    ensures forall k :: 0 <= k < |r| ==> !LineTerminator(r[k])
  {
    if s == [] || LineTerminator(s[0]) then [] else [s[0]] + FirstLine(s[1..])
  }

  /** `/^(?=.*[a-z])(?=.*[A-Z])(?=.*\d)/`: a lowercase letter, an uppercase
      letter and a digit, each before any line break. */
  predicate PasswordMix(s: string) {
    var line := FirstLine(s);
    (exists k :: 0 <= k < |line| && Text.IsLower(line[k]))
    && (exists k :: 0 <= k < |line| && Text.IsUpper(line[k]))
    && (exists k :: 0 <= k < |line| && Text.IsDigit(line[k]))
  }

  // ---------------------------------------------------------------------
  // Registered rules

  datatype PatternKind = EmailShape | PasswordShape

  /** One registered rule with its message. */
  datatype Rule =
    | Required(message: string)
    | MinLength(min: nat, message: string)
    | Pattern(kind: PatternKind, message: string)
    | SameAs(other: string, message: string)

  predicate Matches(kind: PatternKind, s: string) {
    match kind
    case EmailShape => EmailMatches(s)
    case PasswordShape => PasswordMix(s)
  }

  /** Whether `rule` rejects `value`; length and pattern rules are not
      applied to an empty value. */
  predicate Rejects(rule: Rule, values: Values, value: string) {
    match rule
    case Required(_) => value == ""
    case MinLength(n, _) => value != "" && |value| < n
    case Pattern(kind, _) => value != "" && !Matches(kind, value)
    case SameAs(other, _) => value != Value(values, other)
  }

  /** The position of the first rule that rejects the value. */
  function FirstFailing(rules: seq<Rule>, values: Values, value: string): (r: Option<nat>)
    ensures r.None? <==> forall k :: 0 <= k < |rules| ==> !Rejects(rules[k], values, value)
    ensures r.Some? ==> r.value < |rules| && Rejects(rules[r.value], values, value)
                        && forall k :: 0 <= k < r.value ==> !Rejects(rules[k], values, value)
  {
    if rules == [] then None
    else if Rejects(rules[0], values, value) then Some(0)
    else
      var r := FirstFailing(rules[1..], values, value);
      assert forall k :: 1 <= k < |rules| ==> rules[k] == rules[1..][k - 1];
      if r.Some? then Some(r.value + 1) else None
  }

  /** The registered inputs. */
  datatype Input = FirstName | LastName | Email | Password | ConfirmPassword | BusinessName

  /** The name each input is registered under. */
  function Name(i: Input): string {
    match i
    case FirstName => "firstName"
    case LastName => "lastName"
    case Email => "email"
    case Password => "password"
    case ConfirmPassword => "confirmPassword"
    case BusinessName => "sellerInfo.businessName"
  }

  /** The inputs shown for the selected account type. */
  function Registered(selectedRole: string): set<Input> {
    if selectedRole == "seller" then {FirstName, LastName, Email, Password, ConfirmPassword, BusinessName}
    else {FirstName, LastName, Email, Password, ConfirmPassword}
  }

  const FirstNameRequired := "First name is required"
  const FirstNameShort := "First name must be at least 2 characters"
  const LastNameRequired := "Last name is required"
  const LastNameShort := "Last name must be at least 2 characters"
  const EmailRequired := "Email is required"
  const EmailInvalid := "Invalid email address"
  const PasswordRequired := "Password is required"
  const PasswordShort := "Password must be at least 6 characters"
  const PasswordWeak := "Password must contain at least one uppercase letter, one lowercase letter, and one number"
  const ConfirmRequired := "Please confirm your password"
  const ConfirmMismatch := "Passwords do not match"
  const BusinessNameRequired := "Business name is required for sellers"

  /** The rules each input is registered with; the business name is
      required only while the seller account type is selected. */
  function Rules(i: Input, selectedRole: string): (rules: seq<Rule>)
    ensures i != BusinessName || selectedRole == "seller" ==> |rules| >= 1 && rules[0].Required?
  {
    match i
    case FirstName => [Required(FirstNameRequired), MinLength(2, FirstNameShort)]
    case LastName => [Required(LastNameRequired), MinLength(2, LastNameShort)]
    case Email => [Required(EmailRequired), Pattern(EmailShape, EmailInvalid)]
    case Password => [Required(PasswordRequired), MinLength(6, PasswordShort), Pattern(PasswordShape, PasswordWeak)]
    case ConfirmPassword => [Required(ConfirmRequired), SameAs("password", ConfirmMismatch)]
    case BusinessName => if selectedRole == "seller" then [Required(BusinessNameRequired)] else []
  }

  /** The error an input shows, if any. */
  function ErrorOf(values: Values, selectedRole: string, i: Input): Option<string> {
    var rules := Rules(i, selectedRole);
    match FirstFailing(rules, values, Value(values, Name(i)))
    case None => None
    case Some(k) => Some(rules[k].message)
  }

  /** The errors the form shows on submit, one per failing input. */
  function Validate(values: Values, selectedRole: string): (errors: map<Input, string>)
    ensures errors.Keys <= Registered(selectedRole)
    ensures forall i :: i in Registered(selectedRole) ==> (i in errors <==> ErrorOf(values, selectedRole, i).Some?)
    ensures forall i :: i in errors ==> ErrorOf(values, selectedRole, i) == Some(errors[i])
  {
    map i | i in Registered(selectedRole) && ErrorOf(values, selectedRole, i).Some? :: ErrorOf(values, selectedRole, i).value
  }

  /** Names need at least two characters. */
  lemma NameRule(values: Values, selectedRole: string, i: Input)
    requires i == FirstName || i == LastName
    ensures i in Validate(values, selectedRole) <==> |Value(values, Name(i))| < 2
  {
    var v := Value(values, Name(i));
    var rules := Rules(i, selectedRole);
    assert |rules| == 2 && rules[0].Required? && rules[1] == MinLength(2, rules[1].message);
    assert i in Registered(selectedRole);
    assert i in Validate(values, selectedRole) <==> FirstFailing(rules, values, v).Some?;
  }

  /** The email must match the pattern. */
  lemma EmailRule(values: Values, selectedRole: string)
    ensures Email in Validate(values, selectedRole) <==> !EmailPattern(Value(values, "email"))
  {
    var v := Value(values, "email");
    var rules := Rules(Email, selectedRole);
    assert |rules| == 2 && rules[0].Required? && rules[1] == Pattern(EmailShape, rules[1].message);
    assert Email in Registered(selectedRole);
    assert Email in Validate(values, selectedRole) <==> FirstFailing(rules, values, v).Some?;
    EmailMatchesIff(v);
    assert !EmailPattern("");
  }

  /** The password needs six characters and the letter-digit mix. */
  lemma PasswordRule(values: Values, selectedRole: string)
    ensures Password in Validate(values, selectedRole) <==>
              |Value(values, "password")| < 6 || !PasswordMix(Value(values, "password"))
  {
    var v := Value(values, "password");
    var rules := Rules(Password, selectedRole);
    assert |rules| == 3 && rules[0].Required? && rules[1] == MinLength(6, rules[1].message)
           && rules[2] == Pattern(PasswordShape, rules[2].message);
    assert Password in Registered(selectedRole);
    assert Password in Validate(values, selectedRole) <==> FirstFailing(rules, values, v).Some?;
  }

  /** The confirmation must be a non-empty copy of the password. */
  lemma ConfirmRule(values: Values, selectedRole: string)
    ensures ConfirmPassword in Validate(values, selectedRole) <==>
              Value(values, "confirmPassword") == "" || Value(values, "confirmPassword") != Value(values, "password")
  {
    var v := Value(values, "confirmPassword");
    var rules := Rules(ConfirmPassword, selectedRole);
    assert |rules| == 2 && rules[0].Required? && rules[1] == SameAs("password", rules[1].message);
    assert ConfirmPassword in Registered(selectedRole);
    assert ConfirmPassword in Validate(values, selectedRole) <==> FirstFailing(rules, values, v).Some?;
  }

  /** Only a seller needs a business name. */
  lemma BusinessRule(values: Values, selectedRole: string)
    ensures BusinessName in Validate(values, selectedRole) <==>
              selectedRole == "seller" && Value(values, "sellerInfo.businessName") == ""
  {
    if selectedRole == "seller" {
      var v := Value(values, "sellerInfo.businessName");
      var rules := Rules(BusinessName, selectedRole);
      assert |rules| == 1 && rules[0].Required?;
      assert BusinessName in Registered(selectedRole);
      if v == "" {
        assert Rejects(rules[0], values, v);
        assert FirstFailing(rules, values, v) == Some(0);
      } else {
        assert !Rejects(rules[0], values, v);
        assert FirstFailing(rules, values, v) == None;
      }
      assert BusinessName in Validate(values, selectedRole) <==> FirstFailing(rules, values, v).Some?;
    } else {
      assert BusinessName !in Registered(selectedRole);
      assert Validate(values, selectedRole).Keys <= Registered(selectedRole);
    }
  }

  /** An empty input shows its "required" message, whatever its other
      rules. */
  lemma EmptyShowsRequired(values: Values, selectedRole: string, i: Input)
    requires i in Registered(selectedRole) && Value(values, Name(i)) == ""
    ensures i in Validate(values, selectedRole)
    ensures Validate(values, selectedRole)[i] == Rules(i, selectedRole)[0].message
  {
    var rules := Rules(i, selectedRole);
    assert Rejects(rules[0], values, "");
    assert FirstFailing(rules, values, "") == Some(0);
    assert ErrorOf(values, selectedRole, i) == Some(rules[0].message);
  }

  // ---------------------------------------------------------------------
  // Submission

  /** `const { confirmPassword, ...userData } = data` */
  function Payload(data: Values): (userData: Values)
    ensures "confirmPassword" !in userData
    ensures userData.Keys == data.Keys - {"confirmPassword"}
    ensures forall k :: k in userData ==> userData[k] == data[k]
  {
    data - {"confirmPassword"}
  }

  /** The submitted role is `customer` unless another was chosen. */
  lemma DefaultRoleSubmitted(entered: Values)
    requires "role" !in entered
    ensures Payload(DefaultValues + entered)["role"] == "customer"
  {
  }

  /** The values submitted as written: both radios replace the `onChange`
      that `register('role')` installs with one that only sets the selected
      role, so the form's `role` keeps its default whatever was picked.
      `typed` are the text inputs. */
  function SubmittedAsWritten(typed: Values, selectedRole: string): (userData: Values)
    ensures "role" in userData && userData["role"] == "customer"
    ensures userData.Keys == (typed.Keys + {"role"}) - {"confirmPassword"}
    ensures forall k :: k in userData && k != "role" ==> userData[k] == typed[k]
  {
    Payload(DefaultValues + (typed - {"role"}))
  }

  /** The values submitted as intended: the role is the one selected. */
  function Submitted(typed: Values, selectedRole: string): (userData: Values)
    ensures "role" in userData && userData["role"] == selectedRole
    ensures userData.Keys == (typed.Keys + {"role"}) - {"confirmPassword"}
    ensures forall k :: k in userData && k != "role" ==> userData[k] == typed[k]
  {
    Payload(DefaultValues + (typed - {"role"}) + map["role" := selectedRole])
  }

  /** The two agree exactly when the customer radio is selected: a seller's
      signup, however it is filled in, is sent as a customer's. */
  lemma SubmittedRoleIff(typed: Values, selectedRole: string)
    ensures Submitted(typed, selectedRole) == SubmittedAsWritten(typed, selectedRole)
            <==> selectedRole == "customer"
  {
    if selectedRole == "customer" {
      assert Submitted(typed, selectedRole).Keys == SubmittedAsWritten(typed, selectedRole).Keys;
    }
  }
}
