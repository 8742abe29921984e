/** The constants of src/utils/constants.ts: the service codes, the genders,
    the oldest accepted car model year and the password rule. */
module Constants {
  import opened Common

  datatype ServiceCode = Car | Bus | Local

  function CodeOf(c: ServiceCode): string {
    match c
    case Car => "car"
    case Bus => "bus"
    case Local => "local"
  }

  /** `Object.values(ServiceCode)`, in declaration order. */
  const SERVICE_CODES: seq<string> := ["car", "bus", "local"]

  const GENDER_OPTIONS: seq<string> := ["Male", "Female"]

  const MIN_CAR_YEAR: int := 1990

  /** Reads a stored service code; only the three codes are recognised. */
  function ParseServiceCode(s: string): (r: Option<ServiceCode>)
    ensures r.Some? <==> s in SERVICE_CODES
    ensures r.Some? ==> CodeOf(r.value) == s
  {
    if s == "car" then Some(Car)
    else if s == "bus" then Some(Bus)
    else if s == "local" then Some(Local)
    else None
  }

  /** Every code is one of SERVICE_CODES and reads back as itself, and the
      three codes are distinct. */
  lemma ServiceCodesRoundTrip(c: ServiceCode)
    ensures CodeOf(c) in SERVICE_CODES
    ensures ParseServiceCode(CodeOf(c)) == Some(c)
    ensures forall d: ServiceCode :: CodeOf(d) == CodeOf(c) ==> d == c
  {
  }

  // ---------------------------------------------------------------------
  // PASSWORD_CHECK_REGEX:
  //   four lookaheads (an upper-case letter, a lower-case letter, a digit,
  //   a special character somewhere) and a body of at least eight characters,
  //   each a letter, a digit or a special character.

  const SPECIAL_CHARACTERS: string := "!@#$%^&*(),.?\":{}|<>"

  predicate IsAsciiUpper(c: char) { 'A' <= c <= 'Z' }
  predicate IsAsciiLower(c: char) { 'a' <= c <= 'z' }
  predicate IsAsciiDigit(c: char) { '0' <= c <= '9' }
  predicate IsSpecial(c: char) { c in SPECIAL_CHARACTERS }

  predicate IsPasswordChar(c: char) {
    IsAsciiUpper(c) || IsAsciiLower(c) || IsAsciiDigit(c) || IsSpecial(c)
  }

  /** The regular expression read clause by clause. */
  ghost predicate MatchesPasswordPattern(s: string) {
    && (exists i :: 0 <= i < |s| && IsAsciiUpper(s[i]))
    && (exists i :: 0 <= i < |s| && IsAsciiLower(s[i]))
    && (exists i :: 0 <= i < |s| && IsAsciiDigit(s[i]))
    && (exists i :: 0 <= i < |s| && IsSpecial(s[i]))
    && (forall i :: 0 <= i < |s| ==> IsPasswordChar(s[i]))
    && |s| >= 8
  }

  /** What one pass over the characters observes. */
  datatype CharClasses = CharClasses(
    upper: bool, lower: bool, digit: bool, special: bool, allAllowed: bool, length: nat)

  function Classify(s: string): CharClasses {
    if s == [] then CharClasses(false, false, false, false, true, 0)
    else
      var c := Classify(s[1..]);
      CharClasses(
        c.upper || IsAsciiUpper(s[0]),
        c.lower || IsAsciiLower(s[0]),
        c.digit || IsAsciiDigit(s[0]),
        c.special || IsSpecial(s[0]),
        c.allAllowed && IsPasswordChar(s[0]),
        c.length + 1)
  }

  /** `PASSWORD_CHECK_REGEX.test(s)`, evaluated in one pass. */
  function AcceptsPassword(s: string): bool {
    var c := Classify(s);
    c.upper && c.lower && c.digit && c.special && c.allAllowed && c.length >= 8
  }

  lemma {:induction false} ClassifyIsExact(s: string)
    ensures Classify(s).upper <==> exists i :: 0 <= i < |s| && IsAsciiUpper(s[i])
    ensures Classify(s).lower <==> exists i :: 0 <= i < |s| && IsAsciiLower(s[i])
    ensures Classify(s).digit <==> exists i :: 0 <= i < |s| && IsAsciiDigit(s[i])
    ensures Classify(s).special <==> exists i :: 0 <= i < |s| && IsSpecial(s[i])
    ensures Classify(s).allAllowed <==> forall i :: 0 <= i < |s| ==> IsPasswordChar(s[i])
    ensures Classify(s).length == |s|
  {
    if s != [] {
      ClassifyIsExact(s[1..]);
      assert forall i :: 1 <= i < |s| ==> s[i] == s[1..][i - 1];
      assert forall i :: 0 <= i < |s| - 1 ==> s[1..][i] == s[i + 1];
    }
  }

  /** The one-pass check accepts exactly the strings the pattern describes:
      at least eight characters, one of each of the four classes, and nothing
      outside letters, digits and the special characters. */
  lemma PasswordCheckMatchesPattern(s: string)
    ensures AcceptsPassword(s) <==> MatchesPasswordPattern(s)
  {
    ClassifyIsExact(s);
  }

  lemma PasswordAcceptedExample()
    ensures AcceptsPassword("Passw0rd!")
  {
    ClassifyIsExact("Passw0rd!");
    assert IsAsciiUpper("Passw0rd!"[0]) && IsAsciiLower("Passw0rd!"[1]);
    assert IsAsciiDigit("Passw0rd!"[5]) && IsSpecial("Passw0rd!"[8]);
  }

  lemma PasswordTooShortExample()
    ensures !AcceptsPassword("Pa0!aaa")
  {
    ClassifyIsExact("Pa0!aaa");
  }
}
