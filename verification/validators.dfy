/** InputValidator: the e-mail, phone and experience checks and the simple
    keyword extractor. Each check returns its verdict paired with a fixed message. */
module Validators {
  import opened Types
  import opened Strings
  import opened Sequences

  // ---------------------------------------------------------------------------
  // E-mail: re.match(r'^[a-zA-Z0-9._%+-]+@[a-zA-Z0-9.-]+\.[a-zA-Z]{2,}$', email)

  const EMAIL_OK := "Valid email"
  const EMAIL_BAD := "Please enter a valid email address"

  /** `[a-zA-Z0-9._%+-]` */
  predicate LocalChar(c: char) {
    IsAsciiLetter(c) || IsDigit(c) || c == '.' || c == '_' || c == '%' || c == '+' || c == '-'
  }

  /** `[a-zA-Z0-9.-]` */
  predicate DomainChar(c: char) {
    IsAsciiLetter(c) || IsDigit(c) || c == '.' || c == '-'
  }

  predicate AllLocal(s: string) {
    forall i :: 0 <= i < |s| ==> LocalChar(s[i])
  }

  predicate AllDomain(s: string) {
    forall i :: 0 <= i < |s| ==> DomainChar(s[i])
  }

  predicate AllLetters(s: string) {
    forall i :: 0 <= i < |s| ==> IsAsciiLetter(s[i])
  }

  /** `s` splits at positions a and d as local part, '@', domain, '.', top-level domain. */
  predicate ShapeAt(s: string, a: int, d: int) {
    0 < a && a + 1 < d && d + 3 <= |s| && s[a] == '@' && s[d] == '.'
    && AllLocal(s[..a]) && AllDomain(s[a + 1..d]) && AllLetters(s[d + 1..])
  }

  /** The whole of `s` is `local@domain.tld`: a non-empty local part, a non-empty
      domain, a dot, and a top-level domain of at least two ASCII letters. */
  ghost predicate EmailShape(s: string) {
    exists a, d :: ShapeAt(s, a, d)
  }

  /** What Python's `re.match` with that pattern accepts: `$` also matches just
      before one final newline. */
  ghost predicate EmailPattern(s: string) {
    EmailShape(s) || (s != [] && s[|s| - 1] == '\n' && EmailShape(s[..|s| - 1]))
  }

  /** Index of the first occurrence of `c`, if any. */
  function IndexOf(s: string, c: char): (r: Option<nat>)
    ensures r.None? <==> c !in s
    ensures r.Some? ==> r.value < |s| && s[r.value] == c && c !in s[..r.value]
  {
    if s == [] then None
    else if s[0] == c then Some(0)
    else match IndexOf(s[1..], c)
      case None => None
      case Some(k) => assert s[..k + 1] == [s[0]] + s[1..][..k]; Some(k + 1)
  }

  lemma IndexOfIs(s: string, c: char, a: nat)
    requires a < |s| && s[a] == c && c !in s[..a]
    ensures IndexOf(s, c) == Some(a)
  {
    var r := IndexOf(s, c);
    assert forall j :: 0 <= j < a ==> s[..a][j] == s[j];
    assert forall j :: 0 <= j < r.value ==> s[..r.value][j] == s[j];
  }

  /** Index of the last occurrence of `c`, if any. */
  function LastIndexOf(s: string, c: char): (r: Option<nat>)
    ensures r.None? <==> c !in s
    ensures r.Some? ==> r.value < |s| && s[r.value] == c && c !in s[r.value + 1..]
  {
    if s == [] then None
    else if s[|s| - 1] == c then Some(|s| - 1)
    else match LastIndexOf(s[..|s| - 1], c)
      case None => None
      case Some(k) =>
        assert s[k + 1..] == s[..|s| - 1][k + 1..] + [s[|s| - 1]];
        Some(k)
  }

  lemma LastIndexOfIs(s: string, c: char, d: nat)
    requires d < |s| && s[d] == c && c !in s[d + 1..]
    ensures LastIndexOf(s, c) == Some(d)
  {
    var r := LastIndexOf(s, c);
    assert forall j :: d < j < |s| ==> s[d + 1..][j - d - 1] == s[j];
    assert forall j :: r.value < j < |s| ==> s[r.value + 1..][j - r.value - 1] == s[j];
  }

  lemma LocalHasNoAt(t: string)
    requires AllLocal(t)
    ensures '@' !in t
  {
  }

  lemma DomainHasNoAt(t: string)
    requires AllDomain(t)
    ensures '@' !in t
  {
  }

  lemma LettersHaveNoAtNorDot(t: string)
    requires AllLetters(t)
    ensures '@' !in t && '.' !in t
  {
  }

  /** Decides EmailShape: the '@' must be the first one, the dot the last one. */
  predicate ShapeOk(s: string) {
    match IndexOf(s, '@')
    case None => false
    case Some(a) =>
      match LastIndexOf(s, '.')
      case None => false
      case Some(d) => ShapeAt(s, a, d)
  }

  lemma ShapeOkIff(s: string)
    ensures ShapeOk(s) <==> EmailShape(s)
  {
    if EmailShape(s) {
      var a, d :| ShapeAt(s, a, d);
      LocalHasNoAt(s[..a]);
      IndexOfIs(s, '@', a);
      LettersHaveNoAtNorDot(s[d + 1..]);
      LastIndexOfIs(s, '.', d);
    }
  }

  /** `re.match(pattern, email)` is truthy. */
  predicate EmailMatches(s: string) {
    ShapeOk(s) || (s != [] && s[|s| - 1] == '\n' && ShapeOk(s[..|s| - 1]))
  }

  /** `validate_email` */
  function ValidateEmail(email: string): (bool, string) {
    if EmailMatches(email) then (true, EMAIL_OK) else (false, EMAIL_BAD)
  }

  /** The check accepts exactly the strings the pattern describes, with the fixed
      message for each verdict. */
  lemma ValidateEmailIff(email: string)
    ensures ValidateEmail(email).0 <==> EmailPattern(email)
    ensures ValidateEmail(email).1 == if EmailPattern(email) then EMAIL_OK else EMAIL_BAD
  {
    ShapeOkIff(email);
    if email != [] {
      ShapeOkIff(email[..|email| - 1]);
    }
  }

  lemma ShapeHasOneAt(s: string)
    requires EmailShape(s)
    ensures multiset(s)['@'] == 1
  {
    var a, d :| ShapeAt(s, a, d);
    assert s == s[..a] + [s[a]] + s[a + 1..d] + [s[d]] + s[d + 1..];
    LocalHasNoAt(s[..a]);
    DomainHasNoAt(s[a + 1..d]);
    LettersHaveNoAtNorDot(s[d + 1..]);
  }

  /** Every accepted e-mail contains exactly one '@'. */
  lemma AcceptedEmailHasOneAt(email: string)
    requires ValidateEmail(email).0
    ensures multiset(email)['@'] == 1
  {
    ValidateEmailIff(email);
    hide ValidateEmail, EmailShape;
    if EmailShape(email) {
      ShapeHasOneAt(email);
    } else {
      var core := email[..|email| - 1];
      ShapeHasOneAt(core);
      assert email == core + ['\n'];
      assert multiset(email) == multiset(core) + multiset(['\n']);
    }
  }

  // ---------------------------------------------------------------------------
  // Phone: re.sub(r'[\s\-$$$$\.]+', '', phone), then re.match(r'^\+?[1-9]\d{9,14}$', cleaned)

  const PHONE_OK := "Valid phone number"
  const PHONE_BAD := "Please enter a valid phone number "
      + "(10-15 digits)"

  /** The separator class `[\s\-$$$$\.]`: whitespace, '-', '$' and '.'. Parentheses
      are not in it. */
  predicate PhoneSeparator(c: char) {
    IsSpace(c) || c == '-' || c == '$' || c == '.'
  }

  /** The input with every separator deleted: the other characters, each as
      often as in the input and in the input's order. */
  function CleanPhone(s: string): (r: string)
    ensures forall i :: 0 <= i < |r| ==> !PhoneSeparator(r[i])
    ensures forall c :: c in r ==> c in s
    ensures forall c :: c in s && !PhoneSeparator(c) ==> c in r
    ensures IsSubsequence(r, s)
    ensures forall c :: multiset(r)[c] == if PhoneSeparator(c) then 0 else multiset(s)[c]
  {
    if s == [] then []
    else
      assert s == [s[0]] + s[1..];
      if PhoneSeparator(s[0]) then CleanPhone(s[1..])
      else [s[0]] + CleanPhone(s[1..])
  }

  /** Text without separators is left as it is. */
  lemma {:induction false} CleanPhoneOfPlain(s: string)
    requires forall i :: 0 <= i < |s| ==> !PhoneSeparator(s[i])
    ensures CleanPhone(s) == s
  {
    if s != [] {
      CleanPhoneOfPlain(s[1..]);
    }
  }

  lemma {:induction false} CleanPhoneConcat(a: string, b: string)
    ensures CleanPhone(a + b) == CleanPhone(a) + CleanPhone(b)
  {
    if a == [] {
      assert a + b == b;
    } else {
      assert (a + b)[1..] == a[1..] + b;
      CleanPhoneConcat(a[1..], b);
    }
  }

  /** `[1-9]\d{9,14}` over the whole string. */
  predicate PhoneDigits(d: string) {
    10 <= |d| <= 15 && '1' <= d[0] <= '9' && forall i :: 0 <= i < |d| ==> IsDigit(d[i])
  }

  /** `\+?[1-9]\d{9,14}` over the whole string. */
  predicate PhonePattern(c: string) {
    PhoneDigits(c) || (c != [] && c[0] == '+' && PhoneDigits(c[1..]))
  }

  /** `validate_phone` */
  function ValidatePhone(phone: string): (r: (bool, string))
    ensures r.0 <==> PhonePattern(CleanPhone(phone))
    ensures r.1 == if r.0 then PHONE_OK else PHONE_BAD
  {
    if PhonePattern(CleanPhone(phone)) then (true, PHONE_OK) else (false, PHONE_BAD)
  }

  /** Separators around a text are dropped. */
  lemma CleanPhoneAround(pre: string, body: string, post: string)
    requires forall i :: 0 <= i < |pre| ==> PhoneSeparator(pre[i])
    requires forall i :: 0 <= i < |post| ==> PhoneSeparator(post[i])
    ensures CleanPhone(pre + body + post) == CleanPhone(body)
  {
    hide *;
    assert pre + body + post == pre + (body + post);
    CleanPhoneConcat(pre, body + post);
    CleanPhoneConcat(body, post);
    CleanPhoneOfSeparators(pre);
    CleanPhoneOfSeparators(post);
  }

  /** Separators around an optional '+' and 10 to 15 ASCII digits, the first
      of them not 0, make an accepted phone. */
  lemma PhoneAccepted(pre: string, plus: string, digits: string, post: string)
    requires forall i :: 0 <= i < |pre| ==> PhoneSeparator(pre[i])
    requires forall i :: 0 <= i < |post| ==> PhoneSeparator(post[i])
    requires plus == "" || plus == "+"
    requires PhoneDigits(digits)
    ensures ValidatePhone(pre + plus + digits + post) == (true, PHONE_OK)
  {
    hide *;
    var body := plus + digits;
    assert pre + plus + digits + post == pre + body + post;
    CleanPhoneAround(pre, body, post);
    PlusDigits(plus, digits);
    CleanPhoneOfPlain(body);
  }

  lemma PlusDigits(plus: string, digits: string)
    requires plus == "" || plus == "+"
    requires PhoneDigits(digits)
    ensures forall i :: 0 <= i < |plus + digits| ==> !PhoneSeparator((plus + digits)[i])
    ensures PhonePattern(plus + digits)
  {
    var body := plus + digits;
    assert forall i :: 0 <= i < |body| ==> body[i] == '+' || IsDigit(body[i]);
    assert plus == "+" ==> body[1..] == digits;
  }

  /** An accepted phone is made of separators, digits and '+' only, with 10 to 15
      digits after the separators are removed. */
  lemma AcceptedPhoneCharacters(phone: string)
    requires ValidatePhone(phone).0
    ensures forall i :: 0 <= i < |phone| ==> PhoneSeparator(phone[i]) || IsDigit(phone[i]) || phone[i] == '+'
    ensures 10 <= |CleanPhone(phone)| <= 16
  {
    var c := CleanPhone(phone);
    forall i | 0 <= i < |phone| && !PhoneSeparator(phone[i])
      ensures IsDigit(phone[i]) || phone[i] == '+'
    {
      assert phone[i] in c;
      var k :| 0 <= k < |c| && c[k] == phone[i];
      if !PhoneDigits(c) {
        assert k == 0 || c[1..][k - 1] == c[k];
      }
    }
  }

  /** Parentheses are not stripped, so any phone containing one is rejected. */
  lemma PhoneWithParenthesisRejected(phone: string)
    requires '(' in phone || ')' in phone
    ensures ValidatePhone(phone) == (false, PHONE_BAD)
  {
    var c := CleanPhone(phone);
    assert '(' in c || ')' in c;
    var k :| 0 <= k < |c| && (c[k] == '(' || c[k] == ')');
    assert !IsDigit(c[k]) && c[k] != '+';
    assert k == 0 || c[1..][k - 1] == c[k];
  }

  lemma {:induction false} CleanPhoneOfSeparators(pre: string)
    requires forall i :: 0 <= i < |pre| ==> PhoneSeparator(pre[i])
    ensures CleanPhone(pre) == []
  {
    if pre != [] {
      CleanPhoneOfSeparators(pre[1..]);
    }
  }

  lemma CleanPhoneOfLead(plus: string)
    requires plus == "" || plus == "+"
    ensures CleanPhone(plus + "0") == plus + "0"
  {
    var lead := plus + "0";
    assert forall i :: 0 <= i < |lead| ==> lead[i] == '+' || lead[i] == '0';
    hide *;
    CleanPhoneOfPlain(lead);
  }

  lemma LeadingZeroNoPattern(plus: string, digits: string)
    requires plus == "" || plus == "+"
    ensures !PhonePattern(plus + "0" + digits)
  {
    var c := plus + "0" + digits;
    if plus == "" {
      assert c[0] == '0';
    } else {
      assert c[0] == '+' && c[1..][0] == '0';
    }
  }

  /** A phone whose first character after the leading separators is '0' (or
      '+' then '0') is rejected. */
  lemma PhoneLeadingZeroRejected(pre: string, plus: string, rest: string)
    requires forall i :: 0 <= i < |pre| ==> PhoneSeparator(pre[i])
    requires plus == "" || plus == "+"
    ensures ValidatePhone(pre + plus + "0" + rest) == (false, PHONE_BAD)
  {
    hide *;
    var head := plus + "0";
    assert pre + plus + "0" + rest == pre + (head + rest);
    CleanPhoneConcat(pre, head + rest);
    CleanPhoneOfSeparators(pre);
    CleanPhoneConcat(head, rest);
    CleanPhoneOfLead(plus);
    assert CleanPhone(pre + plus + "0" + rest) == plus + "0" + CleanPhone(rest);
    LeadingZeroNoPattern(plus, CleanPhone(rest));
  }

  // ---------------------------------------------------------------------------
  // Experience: float(experience), then 0 <= years <= 50

  const EXPERIENCE_OK := "Valid experience"
  const EXPERIENCE_RANGE := "Please enter experience between "
      + "0 and 50 years"
  const EXPERIENCE_NOT_A_NUMBER := "Please enter a valid number for "
      + "years of experience"

  /** The value `float()` reads, before rounding: ±mantissa · 10^exponent, an
      infinity or NaN. */
  datatype Number = Finite(negative: bool, mantissa: nat, exponent: int) | Infinity(negative: bool) | NaN

  function Pow10(n: nat): (p: nat)
    ensures p >= 1
  {
    if n == 0 then 1 else 10 * Pow10(n - 1)
  }

  /** Length of the longest prefix of ASCII digits. */
  function DigitRun(s: string): (n: nat)
    ensures n <= |s|
    ensures forall i :: 0 <= i < n ==> IsDigit(s[i])
    ensures n < |s| ==> !IsDigit(s[n])
  {
    if s != [] && IsDigit(s[0]) then 1 + DigitRun(s[1..]) else 0
  }

  function DigitValue(c: char): nat
    requires IsDigit(c)
  {
    c as int - '0' as int
  }

  /** The number a string of ASCII digits denotes. */
  function DigitsValue(d: string): nat
    requires forall i :: 0 <= i < |d| ==> IsDigit(d[i])
  {
    if d == [] then 0 else DigitsValue(d[..|d| - 1]) * 10 + DigitValue(d[|d| - 1])
  }

  /** `[eE][+-]?digits`, if present: None when the text after the mantissa is not
      empty and not a well-formed exponent. */
  function ParseExponent(s: string): Option<int> {
    if s == [] then Some(0)
    else if s[0] != 'e' && s[0] != 'E' then None
    else
      var t := s[1..];
      var neg := t != [] && t[0] == '-';
      var u := if t != [] && (t[0] == '-' || t[0] == '+') then t[1..] else t;
      if u != [] && DigitRun(u) == |u| then
        var v: int := DigitsValue(u);
        Some(if neg then -v else v)
      else None
  }

  /** `digits [. digits] [exponent]` with at least one digit, or `. digits [exponent]`. */
  function ParseUnsignedDecimal(s: string): Option<(nat, int)> {
    var i := DigitRun(s);
    var whole := s[..i];
    var afterWhole := s[i..];
    var hasPoint := afterWhole != [] && afterWhole[0] == '.';
    var afterPoint := if hasPoint then afterWhole[1..] else afterWhole;
    var j := if hasPoint then DigitRun(afterPoint) else 0;
    var frac := afterPoint[..j];
    if |whole| + |frac| == 0 then None
    else match ParseExponent(afterPoint[j..])
      case None => None
      case Some(e) => Some((DigitsValue(whole + frac), e - |frac|))
  }

  /** Python's `float(s)` for the forms that do not involve digit-grouping
      underscores: surrounding whitespace, a sign, decimals with an optional
      exponent, and the case-insensitive words inf, infinity and nan. */
  function ParseFloat(s: string): Option<Number> {
    var t := Strip(s);
    var neg := t != [] && t[0] == '-';
    var body := if t != [] && (t[0] == '-' || t[0] == '+') then t[1..] else t;
    var word := Lower(body);
    if word == "inf" || word == "infinity" then Some(Infinity(neg))
    else if word == "nan" then Some(NaN)
    else match ParseUnsignedDecimal(body)
      case None => None
      case Some((m, e)) => Some(Finite(neg, m, e))
  }

  /** `0 <= years <= 50` on the parsed value (NaN compares false). */
  predicate InRange(n: Number) {
    match n
    case Finite(neg, m, e) =>
      (neg ==> m == 0) &&
      (if e >= 0 then m * Pow10(e) <= 50 else m <= 50 * Pow10(-e))
    case Infinity(_) => false
    case NaN => false
  }

  /** `validate_experience` */
  function ValidateExperience(experience: string): (r: (bool, string))
    ensures r.0 <==> ParseFloat(experience).Some? && InRange(ParseFloat(experience).value)
    ensures ParseFloat(experience).None? ==> r.1 == EXPERIENCE_NOT_A_NUMBER
    ensures ParseFloat(experience).Some? ==> r.1 == if r.0 then EXPERIENCE_OK else EXPERIENCE_RANGE
  {
    match ParseFloat(experience)
    case None => (false, EXPERIENCE_NOT_A_NUMBER)
    case Some(n) => if InRange(n) then (true, EXPERIENCE_OK) else (false, EXPERIENCE_RANGE)
  }

  // ---------------------------------------------------------------------------
  // extract_tech_stack(text, available_techs)

  /** Every available technology whose lower-cased name occurs in the lower-cased
      text, in `available` order, duplicates kept. */
  function ExtractTechStack(text: string, available: seq<string>): (found: seq<string>)
    ensures IsSubsequence(found, available)
    ensures forall t :: multiset(found)[t] == if IsSubstring(Lower(t), Lower(text)) then multiset(available)[t] else 0
  {
    if available == [] then []
    else
      var rest := ExtractTechStack(text, available[1..]);
      assert available == [available[0]] + available[1..];
      if IsSubstring(Lower(available[0]), Lower(text)) then [available[0]] + rest else rest
  }
}
