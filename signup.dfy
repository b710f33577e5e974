/** The field constraints of the signup request (`SignupRequest`) as a validator:
    `@NotBlank` on all three fields, `@Email` on the email, and `@Size(min = 8)`
    and `@Pattern("^(?=.*[A-Z])(?=.*\\d).+$")` on the password. Each constraint is
    checked on its own field, independently, and a null value satisfies every
    constraint except `@NotBlank`, as Jakarta Bean Validation prescribes. The
    email syntax check is a given predicate. */
module Signup {
  import opened Wrappers

  /** The request body; each field is a Java `String`, hence possibly null. */
  datatype SignupRequest = SignupRequest(email: Option<string>, password: Option<string>, userRole: Option<string>)

  datatype Field = EmailField | PasswordField | UserRoleField

  datatype Constraint = NotBlank | Email | Size | Pattern

  const MinPasswordLength: nat := 8
  const SizeMessage: string := "비밀번호는 8자 이상이어야 합니다"
  const PatternMessage: string := "최소 한 개의 숫자와 대문자를 포함해야 합니다."

  /** A reported constraint violation. */
  datatype Violation = Violation(field: Field, constraint: Constraint) {
    /** The message the annotation declares, or `None` where the validation
        provider's default message is used. */
    function Message(): (m: Option<string>)
      ensures m.Some? <==> constraint == Size || constraint == Pattern
      ensures constraint == Size ==> m == Some(SizeMessage)
      ensures constraint == Pattern ==> m == Some(PatternMessage)
    {
      match constraint
      case Size => Some(SizeMessage)
      case Pattern => Some(PatternMessage)
      case _ => None
    }
  }

  /** The characters `String.trim()` strips: every code point up to U+0020. */
  predicate IsTrimmed(c: char) {
    c <= ' '
  }

  /** `@NotBlank`: not null, and something is left after trimming. */
  predicate NotBlankHolds(v: Option<string>) {
    v.Some? && exists i :: 0 <= i < |v.value| && !IsTrimmed(v.value[i])
  }

  /** `@Email`: null and the empty string are valid; otherwise the given address
      syntax check decides. */
  predicate EmailHolds(v: Option<string>, isEmail: string -> bool) {
    v.None? || |v.value| == 0 || isEmail(v.value)
  }

  /** `@Size(min = 8)`: null is valid; otherwise at least eight characters. */
  predicate SizeHolds(v: Option<string>) {
    v.None? || |v.value| >= MinPasswordLength
  }

  /** The characters a regex `.` does not match: Java's line terminators. */
  predicate IsLineTerminator(c: char) {
    c == '\n' || c == '\r' || c == '\U{0085}' || c == '\U{2028}' || c == '\U{2029}'
  }

  /** The two character classes the pattern's look-aheads search for. */
  datatype CharClass = UpperCase | Digit

  /** `[A-Z]` and `\d` (ASCII only: the pattern sets no Unicode flag). */
  predicate InClass(c: char, cls: CharClass) {
    match cls
    case UpperCase => 'A' <= c <= 'Z'
    case Digit => '0' <= c <= '9'
  }

  /** `(?=.*X)` at the start of the input: a run of `.`-matching characters
      followed by a character of class X. */
  predicate LookaheadMatches(s: string, cls: CharClass) {
    exists j :: 0 <= j < |s| && InClass(s[j], cls) && forall k :: 0 <= k < j ==> !IsLineTerminator(s[k])
  }

  /** `.+$` under `Matcher.matches()`: the whole input is one or more characters,
      each matched by `.`. */
  predicate DotsToEnd(s: string) {
    |s| >= 1 && forall k :: 0 <= k < |s| ==> !IsLineTerminator(s[k])
  }

  /** Java's `Matcher.matches()` of `^(?=.*[A-Z])(?=.*\d).+$` against `s`. */
  predicate MatchesPasswordPattern(s: string) {
    LookaheadMatches(s, UpperCase) && LookaheadMatches(s, Digit) && DotsToEnd(s)
  }

  /** `@Pattern`: null is valid; otherwise the whole value must match. */
  predicate PatternHolds(v: Option<string>) {
    v.None? || MatchesPasswordPattern(v.value)
  }

  predicate Contains(s: string, cls: CharClass) {
    exists i :: 0 <= i < |s| && InClass(s[i], cls)
  }

  predicate HasLineTerminator(s: string) {
    exists i :: 0 <= i < |s| && IsLineTerminator(s[i])
  }

  /** What the pattern means: an ASCII upper-case letter, an ASCII digit, and no
      line terminator anywhere. */
  lemma PatternMeaning(s: string)
    ensures MatchesPasswordPattern(s) <==> Contains(s, UpperCase) && Contains(s, Digit) && !HasLineTerminator(s)
  {
  }

  function EmailViolations(email: Option<string>, isEmail: string -> bool): (cs: set<Constraint>)
    ensures cs <= {NotBlank, Email}
    ensures NotBlank in cs <==> !NotBlankHolds(email)
    ensures Email in cs <==> !EmailHolds(email, isEmail)
  {
    (if NotBlankHolds(email) then {} else {NotBlank}) + (if EmailHolds(email, isEmail) then {} else {Email})
  }

  function PasswordViolations(password: Option<string>): (cs: set<Constraint>)
    ensures cs <= {NotBlank, Size, Pattern}
    ensures NotBlank in cs <==> !NotBlankHolds(password)
    ensures Size in cs <==> !SizeHolds(password)
    ensures Pattern in cs <==> !PatternHolds(password)
  {
    (if NotBlankHolds(password) then {} else {NotBlank})
    + (if SizeHolds(password) then {} else {Size})
    + (if PatternHolds(password) then {} else {Pattern})
  }

  function UserRoleViolations(userRole: Option<string>): (cs: set<Constraint>)
    ensures cs == {} <==> NotBlankHolds(userRole)
    ensures cs <= {NotBlank}
  {
    if NotBlankHolds(userRole) then {} else {NotBlank}
  }

  function FieldViolations(r: SignupRequest, isEmail: string -> bool, f: Field): set<Constraint> {
    match f
    case EmailField => EmailViolations(r.email, isEmail)
    case PasswordField => PasswordViolations(r.password)
    case UserRoleField => UserRoleViolations(r.userRole)
  }

  /** Validating the request: the union of every field's violations. */
  function Violations(r: SignupRequest, isEmail: string -> bool): (vs: set<Violation>)
    ensures forall v :: v in vs <==> v.constraint in FieldViolations(r, isEmail, v.field)
  {
    (set c | c in EmailViolations(r.email, isEmail) :: Violation(EmailField, c))
    + (set c | c in PasswordViolations(r.password) :: Violation(PasswordField, c))
    + (set c | c in UserRoleViolations(r.userRole) :: Violation(UserRoleField, c))
  }

  predicate IsBlank(v: Option<string>) {
    v.None? || forall i :: 0 <= i < |v.value| ==> IsTrimmed(v.value[i])
  }

  /** Every constraint, stated directly on the three fields. */
  predicate IsValid(r: SignupRequest, isEmail: string -> bool) {
    && !IsBlank(r.email) && isEmail(r.email.value)
    && !IsBlank(r.password) && |r.password.value| >= MinPasswordLength
    && Contains(r.password.value, UpperCase) && Contains(r.password.value, Digit)
    && !HasLineTerminator(r.password.value)
    && !IsBlank(r.userRole)
  }

  /** A request is accepted exactly when every field constraint holds. */
  lemma ValidIffNoViolations(r: SignupRequest, isEmail: string -> bool)
    ensures Violations(r, isEmail) == {} <==> IsValid(r, isEmail)
  {
  }

  /** The violations reported for one field depend on that field's value alone. */
  lemma FieldsIndependent(r: SignupRequest, r': SignupRequest, isEmail: string -> bool, f: Field)
    requires f == EmailField ==> r.email == r'.email
    requires f == PasswordField ==> r.password == r'.password
    requires f == UserRoleField ==> r.userRole == r'.userRole
    ensures forall c :: Violation(f, c) in Violations(r, isEmail) <==> Violation(f, c) in Violations(r', isEmail)
  {
  }

  /** A password shorter than eight characters is reported with the size message. */
  lemma ShortPasswordRejected(r: SignupRequest, isEmail: string -> bool)
    requires r.password.Some? && |r.password.value| < MinPasswordLength
    ensures Violation(PasswordField, Size) in Violations(r, isEmail)
    ensures Violation(PasswordField, Size).Message() == Some(SizeMessage)
  {
  }

  /** A password without an upper-case letter, without a digit, or with a line
      terminator is reported with the pattern message. */
  lemma WeakPasswordRejected(r: SignupRequest, isEmail: string -> bool)
    requires r.password.Some?
    requires !Contains(r.password.value, UpperCase) || !Contains(r.password.value, Digit)
             || HasLineTerminator(r.password.value)
    ensures Violation(PasswordField, Pattern) in Violations(r, isEmail)
    ensures Violation(PasswordField, Pattern).Message() == Some(PatternMessage)
  {
  }

  /** A null, empty or whitespace-only field is reported as blank. */
  lemma BlankRejected(r: SignupRequest, isEmail: string -> bool, f: Field)
    requires f == EmailField ==> IsBlank(r.email)
    requires f == PasswordField ==> IsBlank(r.password)
    requires f == UserRoleField ==> IsBlank(r.userRole)
    ensures Violation(f, NotBlank) in Violations(r, isEmail)
  {
  }

  /** An empty email is reported as blank only: `@Email` accepts the empty string. */
  lemma EmptyEmailOnlyBlank(r: SignupRequest, isEmail: string -> bool)
    requires r.email == Some("")
    ensures forall c :: Violation(EmailField, c) in Violations(r, isEmail) <==> c == NotBlank
  {
  }

  /** A null password violates `@NotBlank` only: size and pattern accept null. */
  lemma NullPasswordOnlyBlank(r: SignupRequest, isEmail: string -> bool)
    requires r.password.None?
    ensures forall c :: Violation(PasswordField, c) in Violations(r, isEmail) <==> c == NotBlank
  {
  }

  /** Any non-blank role passes; the role is not checked against the enumeration here. */
  lemma AnyNonBlankRoleAccepted(r: SignupRequest, isEmail: string -> bool)
    requires !IsBlank(r.userRole)
    ensures forall c :: Violation(UserRoleField, c) !in Violations(r, isEmail)
  {
  }

  /** "Abcdefg1" satisfies every password constraint. */
  lemma ExamplePasswordAccepted()
    ensures PasswordViolations(Some("Abcdefg1")) == {}
  {
    var s := "Abcdefg1";
    assert !IsTrimmed(s[0]) && InClass(s[0], UpperCase) && InClass(s[7], Digit);
    forall i | 0 <= i < |s| ensures !IsLineTerminator(s[i]) {
      assert s[i] in {'A', 'b', 'c', 'd', 'e', 'f', 'g', '1'};
    }
    assert LookaheadMatches(s, UpperCase) && LookaheadMatches(s, Digit) && DotsToEnd(s);
  }

  /** Without an upper-case letter the pattern fails, whatever else holds. */
  lemma ExampleNoUpperCaseRejected()
    ensures PasswordViolations(Some("abcdefg1")) == {Pattern}
  {
    var s := "abcdefg1";
    assert !IsTrimmed(s[0]);
    forall i | 0 <= i < |s| ensures !InClass(s[i], UpperCase) {
      assert s[i] in {'a', 'b', 'c', 'd', 'e', 'f', 'g', '1'};
    }
    PatternMeaning(s);
  }

  /** Without a digit the pattern fails. */
  lemma ExampleNoDigitRejected()
    ensures PasswordViolations(Some("ABCDEFGH")) == {Pattern}
  {
    var s := "ABCDEFGH";
    assert !IsTrimmed(s[0]);
    forall i | 0 <= i < |s| ensures !InClass(s[i], Digit) {
      assert s[i] in {'A', 'B', 'C', 'D', 'E', 'F', 'G', 'H'};
    }
    PatternMeaning(s);
  }

  /** A trailing line feed fails the pattern although `$` may match before it. */
  lemma ExampleLineBreakRejected()
    ensures PasswordViolations(Some("Abcdefg1\n")) == {Pattern}
  {
    var s := "Abcdefg1\n";
    assert !IsTrimmed(s[0]) && IsLineTerminator(s[8]);
    PatternMeaning(s);
  }

  /** Four characters are too few even when the pattern matches. */
  lemma ExampleShortRejected()
    ensures PasswordViolations(Some("Abc1")) == {Size}
  {
    var s := "Abc1";
    assert !IsTrimmed(s[0]) && InClass(s[0], UpperCase) && InClass(s[3], Digit);
    PatternMeaning(s);
  }
}
