/** The form validators (src/utils/validation.ts): the CPF check digits, the password rules,
    the required / length / range checks and the phone and e-mail shapes. */
module Validation {
  import opened Wrappers
  import opened Strings
  import opened Lists

  // ---------------------------------------------------------------- CPF

  /** `cpf.replace(/\D/g, '')`: the digits of the text, in order. */
  function CleanDigits(s: string): (r: string)
    ensures AllDigits(r) && |r| <= |s|
  {
    if s == [] then []
    else if IsDigit(s[0]) then [s[0]] + CleanDigits(s[1..])
    else CleanDigits(s[1..])
  }

  /** The value of a digit character. */
  function DigitValue(c: char): (v: int)
    requires IsDigit(c)
    ensures 0 <= v <= 9
  {
    c as int - '0' as int
  }

  /** `Σ_{i<n} d_i · (top − i)` over the first `n` digits. */
  function WeightedSum(ds: string, n: nat, top: int): int
    requires n <= |ds| && AllDigits(ds)
  {
    if n == 0 then 0 else WeightedSum(ds, n - 1, top) + DigitValue(ds[n - 1]) * (top - (n - 1))
  }

  /** The check digit as the CPF rule defines it: 0 when the sum leaves a remainder below 2
      modulo 11, otherwise 11 minus that remainder. */
  function StandardCheckDigit(sum: int): (d: int)
    ensures 0 <= d <= 9
  {
    if sum % 11 < 2 then 0 else 11 - sum % 11
  }

  /** The CPF rule: eleven digits, not all the same, the tenth is the check digit of the first
      nine under weights 10..2 and the eleventh the check digit of the first ten under
      weights 11..2. */
  predicate CpfValid(cpf: string) {
    var d := CleanDigits(cpf);
    && |d| == 11
    && !AllSame(d)
    && DigitValue(d[9]) == StandardCheckDigit(WeightedSum(d, 9, 10))
    && DigitValue(d[10]) == StandardCheckDigit(WeightedSum(d, 10, 11))
  }

  /** `/^(\d)\1{10}$/` on an 11-digit string: every digit equals the first. */
  predicate AllSame(d: string)
    requires |d| > 0
  {
    forall i :: 0 <= i < |d| ==> d[i] == d[0]
  }

  /** The program's computation of a check digit: `(sum · 10) % 11`, with 10 (or 11, which
      cannot occur) read as 0. */
  function ProgramCheckDigit(sum: int): int {
    var remainder := (sum * 10) % 11;
    if remainder == 10 || remainder == 11 then 0 else remainder
  }

  /** Multiplying by 10 before taking the remainder is the same as subtracting from 11:
      10 ≡ −1 (mod 11). */
  lemma ProgramCheckDigitIsStandard(sum: int)
    ensures ProgramCheckDigit(sum) == StandardCheckDigit(sum)
  {
    var q := sum / 11;
    var r := sum % 11;
    assert sum == 11 * q + r;
    if r == 0 {
      RemainderOf(sum * 10, 10 * q, 0);
    } else {
      RemainderOf(sum * 10, 10 * q + r - 1, 11 - r);
    }
  }

  /** The remainder modulo 11 is the `m` of any decomposition `11·k + m` with `0 ≤ m < 11`. */
  lemma RemainderOf(x: int, k: int, m: int)
    requires x == 11 * k + m && 0 <= m < 11
    ensures x % 11 == m
  {
    var q, r := x / 11, x % 11;
    assert x == 11 * q + r;
    assert 11 * (q - k) == m - r;
    assert -11 < 11 * (q - k) < 11;
  }

  /** `isValidCPF`, with its two accumulating loops. */
  method IsValidCpf(cpf: string) returns (valid: bool)
    ensures valid == CpfValid(cpf)
  {
    var clean := CleanDigits(cpf);
    if |clean| != 11 {
      return false;
    }
    if AllSame(clean) {
      return false;
    }
    var sum := 0;
    for i := 0 to 9
      invariant sum == WeightedSum(clean, i, 10)
    {
      sum := sum + DigitValue(clean[i]) * (10 - i);
    }
    var remainder := (sum * 10) % 11;
    if remainder == 10 || remainder == 11 {
      remainder := 0;
    }
    ProgramCheckDigitIsStandard(sum);
    if remainder != DigitValue(clean[9]) {
      return false;
    }
    sum := 0;
    for i := 0 to 10
      invariant sum == WeightedSum(clean, i, 11)
    {
      sum := sum + DigitValue(clean[i]) * (11 - i);
    }
    remainder := (sum * 10) % 11;
    if remainder == 10 || remainder == 11 {
      remainder := 0;
    }
    ProgramCheckDigitIsStandard(sum);
    valid := remainder == DigitValue(clean[10]);
  }

  /** The verdict depends only on the digits: punctuation and spacing are ignored. */
  lemma CpfDependsOnlyOnDigits(a: string, b: string)
    requires CleanDigits(a) == CleanDigits(b)
    ensures CpfValid(a) == CpfValid(b)
  {
  }

  /** `0 + 1 + ... + (n − 1)`. */
  function Triangle(n: nat): nat {
    if n == 0 then 0 else Triangle(n - 1) + (n - 1)
  }

  lemma {:induction false} WeightedSumOfRepeated(d: string, n: nat, top: int)
    requires n <= |d| && AllDigits(d) && |d| > 0 && AllSame(d)
    ensures WeightedSum(d, n, top) == DigitValue(d[0]) * (n * top - Triangle(n))
  {
    if n > 0 {
      WeightedSumOfRepeated(d, n - 1, top);
      assert d[n - 1] == d[0];
      var v := DigitValue(d[0]);
      var a, b := (n - 1) * top - Triangle(n - 1), top - (n - 1);
      assert v * a + v * b == v * (a + b);
      assert n * top == (n - 1) * top + top;
      assert a + b == n * top - Triangle(n);
    }
  }

  /** Eleven equal digits pass both check-digit tests, so without the explicit rejection
      "111.111.111-11" and the like would be accepted. */
  lemma RepeatedDigitsPassCheckDigits(d: string)
    requires |d| == 11 && AllDigits(d) && AllSame(d)
    ensures DigitValue(d[9]) == StandardCheckDigit(WeightedSum(d, 9, 10))
    ensures DigitValue(d[10]) == StandardCheckDigit(WeightedSum(d, 10, 11))
  {
    var v := DigitValue(d[0]);
    WeightedSumOfRepeated(d, 9, 10);
    WeightedSumOfRepeated(d, 10, 11);
    assert Triangle(9) == 36 && Triangle(10) == 45;
    assert WeightedSum(d, 9, 10) == 54 * v;
    assert WeightedSum(d, 10, 11) == 65 * v;
    assert d[9] == d[0] && d[10] == d[0];
  }

  lemma {:induction false} CleanDigitsAppend(a: string, b: string)
    ensures CleanDigits(a + b) == CleanDigits(a) + CleanDigits(b)
  {
    if a != [] {
      CleanDigitsAppend(a[1..], b);
      assert (a + b)[0] == a[0] && (a + b)[1..] == a[1..] + b;
      if IsDigit(a[0]) {
        assert CleanDigits(a + b) == [a[0]] + CleanDigits(a[1..] + b);
      } else {
        assert CleanDigits(a + b) == CleanDigits(a[1..] + b);
      }
    } else {
      assert a + b == b;
    }
  }

  lemma {:induction false} CleanDigitsOfDigits(s: string)
    requires AllDigits(s)
    ensures CleanDigits(s) == s
  {
    if s != [] {
      CleanDigitsOfDigits(s[1..]);
      assert [s[0]] + s[1..] == s;
    }
  }

  /** The text spells 52998224725, character by character. */
  predicate SpellsSample(d: string) {
    && |d| == 11
    && d[0] == '5' && d[1] == '2' && d[2] == '9' && d[3] == '9' && d[4] == '8' && d[5] == '2'
    && d[6] == '2' && d[7] == '4' && d[8] == '7' && d[9] == '2' && d[10] == '5'
  }

  /** The weighted sums of 529.982.247-25, one digit at a time. */
  lemma SampleSums(d: string)
    requires SpellsSample(d)
    ensures AllDigits(d)
    ensures WeightedSum(d, 9, 10) == 295
    ensures WeightedSum(d, 10, 11) == 347
  {
    assert AllDigits(d);
    assert WeightedSum(d, 1, 10) == 50;
    assert WeightedSum(d, 2, 10) == 68;
    assert WeightedSum(d, 3, 10) == 140;
    assert WeightedSum(d, 4, 10) == 203;
    assert WeightedSum(d, 5, 10) == 251;
    assert WeightedSum(d, 6, 10) == 261;
    assert WeightedSum(d, 7, 10) == 269;
    assert WeightedSum(d, 8, 10) == 281;
    assert WeightedSum(d, 9, 10) == 295;
    assert WeightedSum(d, 1, 11) == 55;
    assert WeightedSum(d, 2, 11) == 75;
    assert WeightedSum(d, 3, 11) == 156;
    assert WeightedSum(d, 4, 11) == 228;
    assert WeightedSum(d, 5, 11) == 284;
    assert WeightedSum(d, 6, 11) == 296;
    assert WeightedSum(d, 7, 11) == 306;
    assert WeightedSum(d, 8, 11) == 322;
    assert WeightedSum(d, 9, 11) == 343;
    assert WeightedSum(d, 10, 11) == 347;
  }

  /** A string of eleven digits, not all equal, whose last two are its check digits. */
  lemma CpfValidOfDigits(d: string, first: int, second: int)
    requires AllDigits(d) && |d| == 11 && DigitValue(d[9]) != DigitValue(d[10])
    requires WeightedSum(d, 9, 10) == first && WeightedSum(d, 10, 11) == second
    requires DigitValue(d[9]) == StandardCheckDigit(first)
    requires DigitValue(d[10]) == StandardCheckDigit(second)
    ensures CpfValid(d)
  {
    CleanDigitsOfDigits(d);
    assert d[9] != d[0] || d[10] != d[0];
  }

  /** A well-known valid number: 529.982.247-25, written without punctuation. */
  lemma SampleCpfIsValid(d: string)
    requires SpellsSample(d)
    ensures CpfValid(d)
  {
    SampleSums(d);
    RemainderOf(295, 26, 9);
    RemainderOf(347, 31, 6);
    CpfValidOfDigits(d, 295, 347);
  }

  // ---------------------------------------------------------------- Passwords

  datatype PasswordRule = MinimumLength | HasUppercase | HasLowercase | HasDigit | HasSpecial

  /** The rules, in the order they are checked and reported. */
  const PasswordRules := [MinimumLength, HasUppercase, HasLowercase, HasDigit, HasSpecial]

  /** The characters `[!@#$%^&*(),.?":{}|<>]` matches. */
  predicate IsSpecial(c: char) {
    || c == '!' || c == '@' || c == '#' || c == '$' || c == '%' || c == '^' || c == '&'
    || c == '*' || c == '(' || c == ')' || c == ',' || c == '.' || c == '?' || c == '"'
    || c == ':' || c == '{' || c == '}' || c == '|' || c == '<' || c == '>'
  }

  predicate Satisfies(password: string, rule: PasswordRule) {
    match rule
    case MinimumLength => |password| >= 8
    case HasUppercase => exists i :: 0 <= i < |password| && 'A' <= password[i] <= 'Z'
    case HasLowercase => exists i :: 0 <= i < |password| && 'a' <= password[i] <= 'z'
    case HasDigit => exists i :: 0 <= i < |password| && IsDigit(password[i])
    case HasSpecial => exists i :: 0 <= i < |password| && IsSpecial(password[i])
  }

  function RuleMessage(rule: PasswordRule): string {
    match rule
    case MinimumLength => "Senha deve ter pelo menos 8 caracteres"
    case HasUppercase => "Senha deve conter pelo menos uma letra maiúscula"
    case HasLowercase => "Senha deve conter pelo menos uma letra minúscula"
    case HasDigit => "Senha deve conter pelo menos um número"
    case HasSpecial => "Senha deve conter pelo menos um caractere especial"
  }

  /** Position of a rule in the checking order. */
  function RuleRank(rule: PasswordRule): nat {
    match rule
    case MinimumLength => 0
    case HasUppercase => 1
    case HasLowercase => 2
    case HasDigit => 3
    case HasSpecial => 4
  }

  function IfBroken(password: string, rule: PasswordRule): seq<PasswordRule> {
    if Satisfies(password, rule) then [] else [rule]
  }

  /** The rules the password breaks, in checking order. */
  function FailedRules(password: string): (r: seq<PasswordRule>)
    ensures |r| <= 5
  {
    IfBroken(password, MinimumLength) + IfBroken(password, HasUppercase)
    + IfBroken(password, HasLowercase) + IfBroken(password, HasDigit)
    + IfBroken(password, HasSpecial)
  }

  /** Rules listed in strictly increasing checking order. */
  predicate Ascending(r: seq<PasswordRule>) {
    forall i, j :: 0 <= i < j < |r| ==> RuleRank(r[i]) < RuleRank(r[j])
  }

  /** Checking one more rule, later than every rule listed so far, keeps the list ascending,
      and no listed rule comes after it. */
  lemma StepAscending(s: seq<PasswordRule>, password: string, rule: PasswordRule)
    requires Ascending(s)
    requires forall i :: 0 <= i < |s| ==> RuleRank(s[i]) < RuleRank(rule)
    ensures Ascending(s + IfBroken(password, rule))
    ensures forall i :: 0 <= i < |s + IfBroken(password, rule)| ==>
      RuleRank((s + IfBroken(password, rule))[i]) <= RuleRank(rule)
  {
  }

  /** A rule is in its own step's list iff the password breaks it. */
  lemma IfBrokenMember(password: string, rule: PasswordRule, checked: PasswordRule)
    ensures rule in IfBroken(password, checked) <==> rule == checked && !Satisfies(password, checked)
  {
  }

  /** Each broken rule is listed, nothing else is, and the list follows the checking order
      without repeats. */
  lemma FailedRulesExact(password: string)
    ensures forall rule :: rule in FailedRules(password) <==> !Satisfies(password, rule)
    ensures var r := FailedRules(password);
      forall i, j :: 0 <= i < j < |r| ==> RuleRank(r[i]) < RuleRank(r[j])
  {
    var a, b, c, d, e := IfBroken(password, MinimumLength), IfBroken(password, HasUppercase),
      IfBroken(password, HasLowercase), IfBroken(password, HasDigit), IfBroken(password, HasSpecial);
    assert FailedRules(password) == a + b + c + d + e;
    forall rule
      ensures rule in a + b + c + d + e <==> !Satisfies(password, rule)
    {
      IfBrokenMember(password, rule, MinimumLength);
      IfBrokenMember(password, rule, HasUppercase);
      IfBrokenMember(password, rule, HasLowercase);
      IfBrokenMember(password, rule, HasDigit);
      IfBrokenMember(password, rule, HasSpecial);
    }
    StepAscending([], password, MinimumLength);
    assert [] + a == a;
    StepAscending(a, password, HasUppercase);
    StepAscending(a + b, password, HasLowercase);
    StepAscending(a + b + c, password, HasDigit);
    StepAscending(a + b + c + d, password, HasSpecial);
  }

  /** The messages of a list of rules, in order. */
  function Messages(rules: seq<PasswordRule>): (r: seq<string>)
    ensures |r| == |rules|
    ensures forall i :: 0 <= i < |rules| ==> r[i] == RuleMessage(rules[i])
  {
    if rules == [] then [] else [RuleMessage(rules[0])] + Messages(rules[1..])
  }

  /** The lengths of the messages. */
  lemma MessageLengths()
    ensures |RuleMessage(MinimumLength)| == 38 && |RuleMessage(HasDigit)| == 38
    ensures |RuleMessage(HasUppercase)| == 48 && |RuleMessage(HasLowercase)| == 48
    ensures |RuleMessage(HasSpecial)| == 50
  {
  }

  /** Where the messages of equal length part ways. */
  lemma MessageDifferences()
    ensures RuleMessage(MinimumLength)[37] == 's' && RuleMessage(HasDigit)[37] == 'o'
    ensures RuleMessage(HasUppercase)[40] == 'a' && RuleMessage(HasLowercase)[40] == 'i'
  {
  }

  /** Distinct rules have distinct messages. */
  lemma RuleMessagesDistinct(a: PasswordRule, b: PasswordRule)
    requires a != b
    ensures RuleMessage(a) != RuleMessage(b)
  {
    MessageLengths();
    MessageDifferences();
  }

  lemma MessagesAppend(a: seq<PasswordRule>, b: seq<PasswordRule>)
    ensures Messages(a + b) == Messages(a) + Messages(b)
  {
  }

  /** One `if (!test) errors.push(message)` step: the messages so far are those of the
      rules `checked` broke, and afterwards those of `checked` and `rule`. */
  method CheckRule(password: string, rule: PasswordRule, ghost checked: seq<PasswordRule>,
                   errors: seq<string>) returns (r: seq<string>)
    requires errors == Messages(checked)
    ensures r == Messages(checked + IfBroken(password, rule))
  {
    MessagesAppend(checked, IfBroken(password, rule));
    r := errors;
    if !Satisfies(password, rule) {
      r := r + [RuleMessage(rule)];
    }
  }

  /** `validatePassword`: one message per broken rule, in checking order; valid iff none. */
  method ValidatePassword(password: string) returns (isValid: bool, errors: seq<string>)
    ensures errors == Messages(FailedRules(password))
    ensures isValid <==> errors == []
    ensures |errors| <= 5
  {
    var a, b, c, d, e := IfBroken(password, MinimumLength), IfBroken(password, HasUppercase),
      IfBroken(password, HasLowercase), IfBroken(password, HasDigit), IfBroken(password, HasSpecial);
    errors := [];
    errors := CheckRule(password, MinimumLength, [], errors);
    assert [] + a == a;
    errors := CheckRule(password, HasUppercase, a, errors);
    errors := CheckRule(password, HasLowercase, a + b, errors);
    errors := CheckRule(password, HasDigit, a + b + c, errors);
    errors := CheckRule(password, HasSpecial, a + b + c + d, errors);
    isValid := |errors| == 0;
  }

  /** The report is valid exactly when every rule holds, and a message appears exactly when
      its rule is broken. */
  lemma PasswordReportMeaning(password: string, rule: PasswordRule)
    ensures Messages(FailedRules(password)) == [] <==> forall r :: Satisfies(password, r)
    ensures RuleMessage(rule) in Messages(FailedRules(password)) <==> !Satisfies(password, rule)
  {
    FailedRulesExact(password);
    EmptyReportMeaning(password);
    MessagePresentMeaning(password, rule);
  }

  lemma EmptyReportMeaning(password: string)
    requires forall r :: r in FailedRules(password) <==> !Satisfies(password, r)
    ensures Messages(FailedRules(password)) == [] <==> forall r :: Satisfies(password, r)
  {
    var failed := FailedRules(password);
    if failed != [] {
      assert failed[0] in failed;
    }
  }

  lemma MessagePresentMeaning(password: string, rule: PasswordRule)
    requires forall r :: r in FailedRules(password) <==> !Satisfies(password, r)
    ensures RuleMessage(rule) in Messages(FailedRules(password)) <==> !Satisfies(password, rule)
  {
    MessageOfRuleIn(FailedRules(password), rule);
  }

  lemma MessageNamesRule(a: PasswordRule, b: PasswordRule)
    ensures RuleMessage(a) == RuleMessage(b) ==> a == b
  {
    if a != b {
      RuleMessagesDistinct(a, b);
    }
  }

  /** A rule's message is among the messages of a list exactly when the rule is in it. */
  lemma MessageOfRuleIn(rules: seq<PasswordRule>, rule: PasswordRule)
    ensures RuleMessage(rule) in Messages(rules) <==> rule in rules
  {
    if RuleMessage(rule) in Messages(rules) {
      MessageShowsRule(rules, rule);
    }
    if rule in rules {
      RuleShowsMessage(rules, rule);
    }
  }

  lemma MessageShowsRule(rules: seq<PasswordRule>, rule: PasswordRule)
    requires RuleMessage(rule) in Messages(rules)
    ensures rule in rules
  {
    var errors := Messages(rules);
    var i :| 0 <= i < |errors| && errors[i] == RuleMessage(rule);
    MessageNamesRule(rules[i], rule);
  }

  lemma RuleShowsMessage(rules: seq<PasswordRule>, rule: PasswordRule)
    requires rule in rules
    ensures RuleMessage(rule) in Messages(rules)
  {
    var i :| 0 <= i < |rules| && rules[i] == rule;
    assert Messages(rules)[i] == RuleMessage(rule);
  }

  // ---------------------------------------------------------------- Field checks

  /** A form value as `validateRequired` sees it. */
  datatype Value = Null | Undefined | Str(s: string) | Number(n: real) | Bool(b: bool)

  /** `validateRequired`: a message exactly for null, undefined and the empty string. */
  function ValidateRequired(value: Value, fieldName: string): (r: Option<string>)
    ensures r.Some? <==> value.Null? || value.Undefined? || value == Str("")
    ensures r.Some? ==> r.value == fieldName + " é obrigatório"
  {
    if value.Null? || value.Undefined? || value == Str("") then Some(fieldName + " é obrigatório")
    else None
  }

  /** Falsy values other than null, undefined and `''` (zero, false) pass. */
  lemma ZeroAndFalseAreNotMissing(fieldName: string)
    ensures ValidateRequired(Number(0.0), fieldName).None?
    ensures ValidateRequired(Bool(false), fieldName).None?
    ensures ValidateRequired(Str(" "), fieldName).None?
  {
  }

  /** The complaint a length or range check returns; its text interpolates the bound. */
  datatype FieldError =
    | TooShort(fieldName: string, minLength: int)
    | TooLong(fieldName: string, maxLength: int)
    | OutOfRange(fieldName: string, min: real, max: real)

  function ValidateMinLength(value: string, minLength: int, fieldName: string): (r: Option<FieldError>)
    ensures r.None? <==> minLength <= |value|
    ensures r.Some? ==> r.value == TooShort(fieldName, minLength)
  {
    if |value| < minLength then Some(TooShort(fieldName, minLength)) else None
  }

  function ValidateMaxLength(value: string, maxLength: int, fieldName: string): (r: Option<FieldError>)
    ensures r.None? <==> |value| <= maxLength
    ensures r.Some? ==> r.value == TooLong(fieldName, maxLength)
  {
    if |value| > maxLength then Some(TooLong(fieldName, maxLength)) else None
  }

  function ValidateRange(value: real, min: real, max: real, fieldName: string): (r: Option<FieldError>)
    ensures r.None? <==> min <= value <= max
    ensures r.Some? ==> r.value == OutOfRange(fieldName, min, max)
  {
    if value < min || value > max then Some(OutOfRange(fieldName, min, max)) else None
  }

  /** With an empty range nothing passes. */
  lemma EmptyRangeRejectsAll(value: real, min: real, max: real, fieldName: string)
    requires max < min
    ensures ValidateRange(value, min, max, fieldName).Some?
  {
  }

  // ---------------------------------------------------------------- Phone

  /** `/^\(\d{2}\)\s\d{4,5}-\d{4}$/`, character by character: an opening parenthesis, two
      digits, a closing parenthesis, one whitespace character, four or five digits, a hyphen
      and four digits. */
  predicate IsValidPhone(phone: string) {
    var n := |phone| - 10;
    && (n == 4 || n == 5)
    && phone[0] == '(' && IsDigit(phone[1]) && IsDigit(phone[2]) && phone[3] == ')'
    && IsWhitespace(phone[4])
    && AllDigits(phone[5..5 + n])
    && phone[5 + n] == '-'
    && AllDigits(phone[6 + n..])
  }

  /** The text of a phone number from its parts. */
  function PhoneText(area: string, space: char, prefix: string, line: string): string {
    "(" + area + ")" + [space] + prefix + "-" + line
  }

  predicate PhoneParts(area: string, space: char, prefix: string, line: string) {
    && |area| == 2 && AllDigits(area)
    && IsWhitespace(space)
    && (|prefix| == 4 || |prefix| == 5) && AllDigits(prefix)
    && |line| == 4 && AllDigits(line)
  }

  /** The pieces of a text made of three pieces. */
  lemma SliceOfJoin(head: string, middle: string, tail: string)
    ensures var t := head + middle + tail;
      && t[..|head|] == head
      && t[|head|..|head| + |middle|] == middle
      && t[|head| + |middle|..] == tail
  {
  }

  /** Every accepted phone splits into its parts. */
  lemma PhoneSplits(phone: string)
    requires IsValidPhone(phone)
    ensures exists area, space, prefix, line ::
      PhoneParts(area, space, prefix, line) && phone == PhoneText(area, space, prefix, line)
  {
    var n := |phone| - 10;
    var area, space, prefix, line := phone[1..3], phone[4], phone[5..5 + n], phone[6 + n..];
    PhoneRegroups(phone, n);
    PhoneWitness(phone, area, space, prefix, line);
  }

  /** Every text put together from valid parts is accepted. */
  lemma PhoneTextAccepted(area: string, space: char, prefix: string, line: string)
    requires PhoneParts(area, space, prefix, line)
    ensures IsValidPhone(PhoneText(area, space, prefix, line))
  {
    var phone := PhoneText(area, space, prefix, line);
    var n := |prefix|;
    var head, tail := "(" + area + ")" + [space], "-" + line;
    assert phone == head + prefix + tail;
    SliceOfJoin(head, prefix, tail);
    assert phone[1..3] == head[1..3] == area;
    assert phone[6 + n..] == tail[1..] == line;
  }

  /** The accepted phones are exactly the texts `(DD) DDDD-DDDD` and `(DD) DDDDD-DDDD`, with
      any whitespace character in the gap. */
  lemma PhoneShape(phone: string)
    ensures IsValidPhone(phone) <==>
      exists area, space, prefix, line ::
        PhoneParts(area, space, prefix, line) && phone == PhoneText(area, space, prefix, line)
  {
    if IsValidPhone(phone) {
      PhoneSplits(phone);
    }
    if exists area, space, prefix, line ::
         PhoneParts(area, space, prefix, line) && phone == PhoneText(area, space, prefix, line) {
      var area, space, prefix, line :|
        PhoneParts(area, space, prefix, line) && phone == PhoneText(area, space, prefix, line);
      PhoneTextAccepted(area, space, prefix, line);
    }
  }

  /** A phone-length text is its pieces put back together. */
  lemma PhoneRegroups(phone: string, n: int)
    requires (n == 4 || n == 5) && |phone| == 10 + n
    requires phone[0] == '(' && phone[3] == ')' && phone[5 + n] == '-'
    ensures phone == PhoneText(phone[1..3], phone[4], phone[5..5 + n], phone[6 + n..])
  {
    var t := PhoneText(phone[1..3], phone[4], phone[5..5 + n], phone[6 + n..]);
    assert |t| == |phone|;
    forall i | 0 <= i < |phone|
      ensures t[i] == phone[i]
    {
    }
  }

  lemma PhoneWitness(phone: string, area: string, space: char, prefix: string, line: string)
    requires PhoneParts(area, space, prefix, line) && phone == PhoneText(area, space, prefix, line)
    ensures exists area, space, prefix, line ::
      PhoneParts(area, space, prefix, line) && phone == PhoneText(area, space, prefix, line)
  {
  }

  // ---------------------------------------------------------------- E-mail

  function CountOf(s: string, c: char): (n: nat)
    ensures n == 0 <==> c !in s
  {
    if s == [] then 0 else (if s[0] == c then 1 else 0) + CountOf(s[1..], c)
  }

  lemma {:induction false} CountOfAppend(a: string, b: string, c: char)
    ensures CountOf(a + b, c) == CountOf(a, c) + CountOf(b, c)
  {
    if a == [] {
      assert a + b == b;
    } else {
      CountOfAppend(a[1..], b, c);
      assert (a + b)[0] == a[0] && (a + b)[1..] == a[1..] + b;
    }
  }

  /** The index of the first occurrence of `c`. */
  function IndexOf(s: string, c: char): (k: nat)
    requires c in s
    ensures k < |s| && s[k] == c && c !in s[..k]
  {
    if s[0] == c then 0 else 1 + IndexOf(s[1..], c)
  }

  /** A dot with at least one character on each side. */
  predicate HasInnerDot(d: string) {
    exists j :: 0 < j < |d| - 1 && d[j] == '.'
  }

  /** `/^[^\s@]+@[^\s@]+\.[^\s@]+$/`: no whitespace, exactly one `@` with something before it,
      and after it a dot with something on each side. */
  predicate IsValidEmail(email: string) {
    && NoWhitespace(email)
    && CountOf(email, '@') == 1
    && IndexOf(email, '@') > 0
    && HasInnerDot(email[IndexOf(email, '@') + 1..])
  }

  /** One of the three runs the pattern asks for: non-empty, without whitespace or `@`. */
  predicate EmailPart(s: string) {
    s != [] && NoWhitespace(s) && '@' !in s
  }

  function EmailText(user: string, domain: string, suffix: string): string {
    user + "@" + domain + "." + suffix
  }

  /** Every accepted address splits as `user@domain.suffix` with three such runs. */
  lemma EmailSplits(email: string)
    requires IsValidEmail(email)
    ensures exists user, domain, suffix ::
      EmailPart(user) && EmailPart(domain) && EmailPart(suffix)
      && email == EmailText(user, domain, suffix)
  {
    var k := IndexOf(email, '@');
    var user, rest := email[..k], email[k + 1..];
    var j :| 0 < j < |rest| - 1 && rest[j] == '.';
    var domain, suffix := rest[..j], rest[j + 1..];
    NoAtAfterOnlyAt(email, k);
    NoWhitespaceSlice(email, 0, k);
    NoWhitespaceSlice(email, k + 1, |email|);
    assert user == email[0..k] && rest == email[k + 1..|email|];
    PartOfSlice(user, 0, k);
    PartOfSlice(rest, 0, j);
    PartOfSlice(rest, j + 1, |rest|);
    assert user == user[0..k] && domain == rest[0..j] && suffix == rest[j + 1..|rest|];
    AroundIndex(email, k);
    AroundIndex(rest, j);
    EmailTextRegroups(user, domain, suffix);
    EmailWitness(email, user, domain, suffix);
  }

  lemma EmailWitness(email: string, user: string, domain: string, suffix: string)
    requires EmailPart(user) && EmailPart(domain) && EmailPart(suffix)
    requires email == EmailText(user, domain, suffix)
    ensures exists user, domain, suffix ::
      EmailPart(user) && EmailPart(domain) && EmailPart(suffix)
      && email == EmailText(user, domain, suffix)
  {
  }

  /** A text is what comes before an index, the character there, and what comes after. */
  lemma AroundIndex(s: string, k: nat)
    requires k < |s|
    ensures s == s[..k] + [s[k]] + s[k + 1..]
  {
  }

  lemma EmailTextRegroups(user: string, domain: string, suffix: string)
    ensures EmailText(user, domain, suffix) == user + "@" + (domain + "." + suffix)
  {
  }

  /** A non-empty slice of a text without whitespace or `@` is one of the runs. */
  lemma PartOfSlice(s: string, lo: nat, hi: nat)
    requires NoWhitespace(s) && '@' !in s && lo < hi <= |s|
    ensures EmailPart(s[lo..hi])
  {
    NoWhitespaceSlice(s, lo, hi);
    forall i | 0 <= i < hi - lo
      ensures s[lo..hi][i] != '@'
    {
      assert s[lo..hi][i] == s[lo + i];
    }
  }

  lemma NoWhitespaceSlice(s: string, lo: nat, hi: nat)
    requires NoWhitespace(s) && lo <= hi <= |s|
    ensures NoWhitespace(s[lo..hi])
  {
    forall i | 0 <= i < hi - lo
      ensures !IsWhitespace(s[lo..hi][i])
    {
      assert s[lo..hi][i] == s[lo + i];
    }
  }

  /** With a single `@`, nothing before or after it is an `@`. */
  lemma NoAtAfterOnlyAt(email: string, k: nat)
    requires CountOf(email, '@') == 1 && '@' in email && k == IndexOf(email, '@')
    ensures '@' !in email[..k] && '@' !in email[k + 1..]
  {
    assert email == email[..k] + ([email[k]] + email[k + 1..]);
    CountOfAppend(email[..k], [email[k]] + email[k + 1..], '@');
    CountOfAppend([email[k]], email[k + 1..], '@');
  }

  lemma EmailTextHasNoWhitespace(user: string, domain: string, suffix: string)
    requires EmailPart(user) && EmailPart(domain) && EmailPart(suffix)
    ensures NoWhitespace(EmailText(user, domain, suffix))
  {
    var email := EmailText(user, domain, suffix);
    forall i | 0 <= i < |email|
      ensures !IsWhitespace(email[i])
    {
      if i < |user| {
        assert email[i] == user[i];
      } else if |user| < i < |user| + 1 + |domain| {
        assert email[i] == domain[i - |user| - 1];
      } else if |user| + 1 + |domain| < i {
        assert email[i] == suffix[i - |user| - 2 - |domain|];
      }
    }
  }

  lemma EmailTextHasOneAt(user: string, domain: string, suffix: string)
    requires EmailPart(user) && EmailPart(domain) && EmailPart(suffix)
    ensures CountOf(EmailText(user, domain, suffix), '@') == 1
    ensures IndexOf(EmailText(user, domain, suffix), '@') == |user|
  {
    var email := EmailText(user, domain, suffix);
    var rest := domain + "." + suffix;
    EmailTextRegroups(user, domain, suffix);
    assert '@' !in rest by {
      CountOfAppend(domain, "." + suffix, '@');
      CountOfAppend(".", suffix, '@');
    }
    calc {
      CountOf(email, '@');
      { assert email == user + ("@" + rest); }
      CountOf(user + ("@" + rest), '@');
      { CountOfAppend(user, "@" + rest, '@'); }
      CountOf(user, '@') + CountOf("@" + rest, '@');
      { CountOfAppend("@", rest, '@'); }
      CountOf("@", '@') + CountOf(rest, '@');
      1;
    }
    assert email[..|user|] == user && email[|user|] == '@';
    IndexOfFirst(email, '@', |user|);
  }

  /** The first occurrence is where the character stands with none before it. */
  lemma {:induction false} IndexOfFirst(s: string, c: char, k: nat)
    requires k < |s| && s[k] == c && c !in s[..k]
    ensures IndexOf(s, c) == k
  {
    if k > 0 {
      assert s[1..][..k - 1] == s[1..k];
      IndexOfFirst(s[1..], c, k - 1);
    }
  }

  /** Every text `user@domain.suffix` with three such runs is accepted. */
  lemma EmailAccepts(user: string, domain: string, suffix: string)
    requires EmailPart(user) && EmailPart(domain) && EmailPart(suffix)
    ensures IsValidEmail(EmailText(user, domain, suffix))
  {
    var email := EmailText(user, domain, suffix);
    var rest := domain + "." + suffix;
    EmailTextHasNoWhitespace(user, domain, suffix);
    EmailTextHasOneAt(user, domain, suffix);
    assert email[|user| + 1..] == rest;
    assert rest[|domain|] == '.';
  }

  /** The accepted addresses are exactly `user@domain.suffix` with three such runs. */
  lemma EmailShape(email: string)
    ensures IsValidEmail(email) <==>
      exists user, domain, suffix ::
        EmailPart(user) && EmailPart(domain) && EmailPart(suffix)
        && email == EmailText(user, domain, suffix)
  {
    if IsValidEmail(email) {
      EmailSplits(email);
    }
    if exists user, domain, suffix ::
         EmailPart(user) && EmailPart(domain) && EmailPart(suffix)
         && email == EmailText(user, domain, suffix) {
      var user, domain, suffix :|
        EmailPart(user) && EmailPart(domain) && EmailPart(suffix)
        && email == EmailText(user, domain, suffix);
      EmailAccepts(user, domain, suffix);
    }
  }
}
