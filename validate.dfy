/**
 * backend/middleware/validate.js: five anchored regular expressions, the
 * per-endpoint express-validator rule lists and the gate that turns the
 * collected failures into a 400 reply.
 *
 * A regular expression is kept as data (a `Pattern`: a sequence of
 * quantified character classes, read left to right between `^` and `$`),
 * so the constants below can be compared with the source text one token at
 * a time.  `FullMatch` is the meaning of such a pattern; the `...Meaning`
 * lemmas restate each pattern as a plain rule on the string.
 *
 * Characters are Unicode scalar values.  The source regexes carry no `u`
 * flag and so read UTF-16 code units, but every class below only contains
 * characters of the Basic Multilingual Plane, so a code point outside it
 * fails either reading alike.
 */
module Validate {
  import opened Wrappers

  // ---------------------------------------------------------------------
  // Character classes as the JavaScript regex engine reads them
  // ---------------------------------------------------------------------

  predicate IsAsciiUpper(c: char) { 'A' <= c <= 'Z' }
  predicate IsAsciiLower(c: char) { 'a' <= c <= 'z' }
  predicate IsAsciiLetter(c: char) { IsAsciiUpper(c) || IsAsciiLower(c) }
  predicate IsAsciiDigit(c: char) { '0' <= c <= '9' }

  /** `\w`: ASCII letters, digits and underscore. */
  predicate IsWordChar(c: char) { IsAsciiLetter(c) || IsAsciiDigit(c) || c == '_' }

  /** `\s`: the ECMAScript WhiteSpace and LineTerminator code points. */
  predicate IsJsWhitespace(c: char) {
    var n := c as int;
    n == 0x09 || n == 0x0A || n == 0x0B || n == 0x0C || n == 0x0D || n == 0x20
    || n == 0xA0 || n == 0x1680 || (0x2000 <= n <= 0x200A) || n == 0x2028 || n == 0x2029
    || n == 0x202F || n == 0x205F || n == 0x3000 || n == 0xFEFF
  }

  /** One item between the brackets of a character class. */
  datatype ClassItem =
    | Span(lo: char, hi: char)   // a-z
    | One(c: char)               // a literal character
    | SpaceEscape                // \s
    | WordEscape                 // \w
    | DigitEscape                // \d

  type CharClass = seq<ClassItem>

  /** A quantifier: `{min,max}`, or `(...{n})?` (none or exactly n). */
  datatype Repeat = Between(min: nat, max: nat) | NoneOr(n: nat)

  datatype Piece = Piece(cls: CharClass, rep: Repeat)

  /** An anchored pattern `^piece piece ...$`. */
  type Pattern = seq<Piece>

  predicate InItem(c: char, item: ClassItem) {
    match item
    case Span(lo, hi) => lo <= c <= hi
    case One(d) => c == d
    case SpaceEscape => IsJsWhitespace(c)
    case WordEscape => IsWordChar(c)
    case DigitEscape => IsAsciiDigit(c)
  }

  predicate InClass(c: char, cls: CharClass) {
    |cls| > 0 && (InItem(c, cls[0]) || InClass(c, cls[1..]))
  }

  /** A character is in a class iff one of the class's items admits it. */
  lemma {:induction false} InClassSomeItem(c: char, cls: CharClass)
    ensures InClass(c, cls) <==> exists i :: 0 <= i < |cls| && InItem(c, cls[i])
  {
    if |cls| > 0 {
      InClassSomeItem(c, cls[1..]);
      assert forall i :: 1 <= i < |cls| ==> cls[i] == cls[1..][i - 1];
    }
  }

  predicate AllIn(s: string, cls: CharClass) {
    forall i :: 0 <= i < |s| ==> InClass(s[i], cls)
  }

  predicate Allows(rep: Repeat, k: nat) {
    match rep
    case Between(lo, hi) => lo <= k <= hi
    case NoneOr(n) => k == 0 || k == n
  }

  /** `s` as a whole is matched by the anchored pattern `p`. */
  predicate FullMatch(p: Pattern, s: string)
    decreases |p|
  {
    if |p| == 0 then |s| == 0
    else exists k :: 0 <= k <= |s| && Allows(p[0].rep, k) && AllIn(s[..k], p[0].cls) && FullMatch(p[1..], s[k..])
  }

  // ---------------------------------------------------------------------
  // The five patterns of validate.js:5-9
  // ---------------------------------------------------------------------

  /** /^[A-Za-z\s.'-]{2,100}$/ */
  const FullNameRegex: Pattern :=
    [Piece([Span('A', 'Z'), Span('a', 'z'), SpaceEscape, One('.'), One('\''), One('-')], Between(2, 100))]

  /** /^\d{13}$/ */
  const IdNumberRegex: Pattern := [Piece([DigitEscape], Between(13, 13))]

  /** /^\w[\w\-]{5,30}$/ */
  const AccountNumberRegex: Pattern :=
    [Piece([WordEscape], Between(1, 1)), Piece([WordEscape, One('-')], Between(5, 30))]

  /** /^[A-Z]{6}[A-Z0-9]{2}([A-Z0-9]{3})?$/ */
  const SwiftRegex: Pattern :=
    [ Piece([Span('A', 'Z')], Between(6, 6)),
      Piece([Span('A', 'Z'), Span('0', '9')], Between(2, 2)),
      Piece([Span('A', 'Z'), Span('0', '9')], NoneOr(3)) ]

  /** /^[A-Z]{3}$/ */
  const CurrencyRegex: Pattern := [Piece([Span('A', 'Z')], Between(3, 3))]

  // ---------------------------------------------------------------------
  // The same rules in plain words
  // ---------------------------------------------------------------------

  predicate NameChar(c: char) {
    IsAsciiLetter(c) || IsJsWhitespace(c) || c == '.' || c == '\'' || c == '-'
  }

  /** 2 to 100 characters, each an ASCII letter, whitespace, `.`, `'` or `-`. */
  predicate ValidFullName(s: string) {
    2 <= |s| <= 100 && forall i :: 0 <= i < |s| ==> NameChar(s[i])
  }

  /** Exactly 13 ASCII digits. */
  predicate ValidIdNumber(s: string) {
    |s| == 13 && forall i :: 0 <= i < |s| ==> IsAsciiDigit(s[i])
  }

  /** 6 to 31 characters from [A-Za-z0-9_-], the first of which is not `-`. */
  predicate ValidAccountNumber(s: string) {
    6 <= |s| <= 31 && s[0] != '-' && forall i :: 0 <= i < |s| ==> IsWordChar(s[i]) || s[i] == '-'
  }

  /** 8 or 11 characters: six upper-case letters, then upper-case letters or digits. */
  predicate ValidSwiftCode(s: string) {
    && (|s| == 8 || |s| == 11)
    && (forall i :: 0 <= i < 6 ==> IsAsciiUpper(s[i]))
    && (forall i :: 6 <= i < |s| ==> IsAsciiUpper(s[i]) || IsAsciiDigit(s[i]))
  }

  /** Exactly three upper-case ASCII letters. */
  predicate ValidCurrency(s: string) {
    |s| == 3 && forall i :: 0 <= i < |s| ==> IsAsciiUpper(s[i])
  }

  // ---------------------------------------------------------------------
  // Each pattern means its plain rule
  // ---------------------------------------------------------------------

  /** An anchored single-piece pattern matches exactly the strings of an allowed length over its class. */
  lemma {:induction false} SinglePiece(pc: Piece, s: string)
    ensures FullMatch([pc], s) <==> Allows(pc.rep, |s|) && AllIn(s, pc.cls)
  {
    var p := [pc];
    assert p[1..] == [];
    if Allows(pc.rep, |s|) && AllIn(s, pc.cls) {
      assert s[..|s|] == s && s[|s|..] == [];
      assert FullMatch(p[1..], s[|s|..]);
    }
    if FullMatch(p, s) {
      var k :| 0 <= k <= |s| && Allows(pc.rep, k) && AllIn(s[..k], pc.cls) && FullMatch(p[1..], s[k..]);
      assert |s[k..]| == 0;
      assert k == |s| && s[..k] == s;
    }
  }

  lemma {:induction false} FullNameRegexMeaning(s: string)
    ensures FullMatch(FullNameRegex, s) <==> ValidFullName(s)
  {
    SinglePiece(FullNameRegex[0], s);
    var cls := FullNameRegex[0].cls;
    forall c: char ensures InClass(c, cls) <==> NameChar(c) {
      InClassSomeItem(c, cls);
      if NameChar(c) {
        var i := if IsAsciiUpper(c) then 0 else if IsAsciiLower(c) then 1 else if IsJsWhitespace(c) then 2
          else if c == '.' then 3 else if c == '\'' then 4 else 5;
        assert InItem(c, cls[i]);
      }
      if InClass(c, cls) {
        var i :| 0 <= i < |cls| && InItem(c, cls[i]);
        assert i == 0 || i == 1 || i == 2 || i == 3 || i == 4 || i == 5;
      }
    }
  }

  lemma {:induction false} IdNumberRegexMeaning(s: string)
    ensures FullMatch(IdNumberRegex, s) <==> ValidIdNumber(s)
  {
    SinglePiece(IdNumberRegex[0], s);
    var cls := IdNumberRegex[0].cls;
    forall c: char ensures InClass(c, cls) <==> IsAsciiDigit(c) {
      assert cls[1..] == [];
    }
  }

  lemma {:induction false} CurrencyRegexMeaning(s: string)
    ensures FullMatch(CurrencyRegex, s) <==> ValidCurrency(s)
  {
    SinglePiece(CurrencyRegex[0], s);
    var cls := CurrencyRegex[0].cls;
    forall c: char ensures InClass(c, cls) <==> IsAsciiUpper(c) {
      assert cls[1..] == [];
    }
  }

  /** The characters of `s[a..b]` are those of `s` from `a` to `b`. */
  lemma AllInSlice(s: string, cls: CharClass, a: nat, b: nat)
    requires a <= b <= |s|
    ensures AllIn(s[a..b], cls) <==> forall i :: a <= i < b ==> InClass(s[i], cls)
  {
    assert forall i :: a <= i < b ==> s[a..b][i - a] == s[i];
  }

  /** How a non-empty anchored pattern splits its input: a run of the first piece, then the rest. */
  lemma {:induction false} FirstPiece(p: Pattern, s: string) returns (k: nat)
    requires |p| > 0 && FullMatch(p, s)
    ensures k <= |s| && Allows(p[0].rep, k) && FullMatch(p[1..], s[k..])
    ensures forall i :: 0 <= i < k ==> InClass(s[i], p[0].cls)
  {
    k :| 0 <= k <= |s| && Allows(p[0].rep, k) && AllIn(s[..k], p[0].cls) && FullMatch(p[1..], s[k..]);
    AllInSlice(s, p[0].cls, 0, k);
    assert s[..k] == s[0..k];
  }

  /** A run of the first piece followed by a match of the rest matches the pattern. */
  lemma {:induction false} ConsPiece(p: Pattern, s: string, k: nat)
    requires |p| > 0 && k <= |s| && Allows(p[0].rep, k) && FullMatch(p[1..], s[k..])
    requires forall i :: 0 <= i < k ==> InClass(s[i], p[0].cls)
    ensures FullMatch(p, s)
  {
    AllInSlice(s, p[0].cls, 0, k);
    assert s[..k] == s[0..k];
  }

  lemma AccountClasses(c: char)
    ensures InClass(c, AccountNumberRegex[0].cls) <==> IsWordChar(c)
    ensures InClass(c, AccountNumberRegex[1].cls) <==> IsWordChar(c) || c == '-'
  {
    assert AccountNumberRegex[0].cls[1..] == [];
    assert AccountNumberRegex[1].cls[1..][1..] == [];
  }

  /** The tail of an account number: one run of the second piece. */
  lemma AccountTail(s: string)
    requires 1 <= |s|
    ensures FullMatch(AccountNumberRegex[1..], s[1..]) <==>
      5 <= |s| - 1 <= 30 && forall i :: 1 <= i < |s| ==> IsWordChar(s[i]) || s[i] == '-'
  {
    var p := AccountNumberRegex;
    assert p[1..] == [p[1]];
    SinglePiece(p[1], s[1..]);
    AllInSlice(s, p[1].cls, 1, |s|);
    assert s[1..|s|] == s[1..];
    forall i | 1 <= i < |s| ensures InClass(s[i], p[1].cls) <==> IsWordChar(s[i]) || s[i] == '-' {
      AccountClasses(s[i]);
    }
  }

  lemma {:induction false} AccountNumberRegexComplete(s: string)
    requires ValidAccountNumber(s)
    ensures FullMatch(AccountNumberRegex, s)
  {
    AccountTail(s);
    AccountClasses(s[0]);
    ConsPiece(AccountNumberRegex, s, 1);
  }

  lemma {:induction false} AccountNumberRegexSound(s: string)
    requires FullMatch(AccountNumberRegex, s)
    ensures ValidAccountNumber(s)
  {
    var k := FirstPiece(AccountNumberRegex, s);
    assert k == 1;
    AccountClasses(s[0]);
    AccountTail(s);
  }

  lemma AccountNumberRegexMeaning(s: string)
    ensures FullMatch(AccountNumberRegex, s) <==> ValidAccountNumber(s)
  {
    if ValidAccountNumber(s) { AccountNumberRegexComplete(s); }
    if FullMatch(AccountNumberRegex, s) { AccountNumberRegexSound(s); }
  }

  lemma SwiftClasses(c: char)
    ensures InClass(c, SwiftRegex[0].cls) <==> IsAsciiUpper(c)
    ensures InClass(c, SwiftRegex[1].cls) <==> IsAsciiUpper(c) || IsAsciiDigit(c)
    ensures SwiftRegex[2].cls == SwiftRegex[1].cls
  {
    InClassSomeItem(c, SwiftRegex[0].cls);
    InClassSomeItem(c, SwiftRegex[1].cls);
  }

  /** The optional group of the SWIFT pattern: nothing, or three letters or digits. */
  lemma SwiftBranch(s: string)
    requires 8 <= |s|
    ensures FullMatch(SwiftRegex[1..][1..], s[8..]) <==>
      (|s| == 8 || |s| == 11) && forall i :: 8 <= i < |s| ==> IsAsciiUpper(s[i]) || IsAsciiDigit(s[i])
  {
    var p := SwiftRegex;
    assert p[1..][1..] == [p[2]];
    SinglePiece(p[2], s[8..]);
    AllInSlice(s, p[2].cls, 8, |s|);
    assert s[8..|s|] == s[8..];
    forall i | 8 <= i < |s| ensures InClass(s[i], p[2].cls) <==> IsAsciiUpper(s[i]) || IsAsciiDigit(s[i]) {
      SwiftClasses(s[i]);
    }
  }

  /** After the six letters: two letters or digits, then the optional group. */
  lemma {:induction false} SwiftMiddle(s: string)
    requires 6 <= |s|
    ensures FullMatch(SwiftRegex[1..], s[6..]) <==>
      && (|s| == 8 || |s| == 11)
      && forall i :: 6 <= i < |s| ==> IsAsciiUpper(s[i]) || IsAsciiDigit(s[i])
  {
    var p := SwiftRegex[1..];
    var mid := s[6..];
    assert p[0] == SwiftRegex[1];
    forall i | 6 <= i < |s| ensures InClass(s[i], p[0].cls) <==> IsAsciiUpper(s[i]) || IsAsciiDigit(s[i]) {
      SwiftClasses(s[i]);
    }
    if FullMatch(p, mid) {
      var k := FirstPiece(p, mid);
      assert k == 2;
      assert mid[2..] == s[8..];
      SwiftBranch(s);
      forall i | 6 <= i < 8 ensures IsAsciiUpper(s[i]) || IsAsciiDigit(s[i]) {
        assert mid[i - 6] == s[i];
      }
    }
    if (|s| == 8 || |s| == 11) && forall i :: 6 <= i < |s| ==> IsAsciiUpper(s[i]) || IsAsciiDigit(s[i]) {
      assert mid[2..] == s[8..];
      SwiftBranch(s);
      forall i | 0 <= i < 2 ensures InClass(mid[i], p[0].cls) {
        assert mid[i] == s[i + 6];
      }
      ConsPiece(p, mid, 2);
    }
  }

  lemma {:induction false} SwiftRegexComplete(s: string)
    requires ValidSwiftCode(s)
    ensures FullMatch(SwiftRegex, s)
  {
    forall i | 0 <= i < 6 ensures InClass(s[i], SwiftRegex[0].cls) {
      SwiftClasses(s[i]);
    }
    SwiftMiddle(s);
    ConsPiece(SwiftRegex, s, 6);
  }

  lemma {:induction false} SwiftRegexSound(s: string)
    requires FullMatch(SwiftRegex, s)
    ensures ValidSwiftCode(s)
  {
    var k := FirstPiece(SwiftRegex, s);
    assert k == 6;
    forall i | 0 <= i < 6 ensures IsAsciiUpper(s[i]) {
      SwiftClasses(s[i]);
    }
    SwiftMiddle(s);
  }

  lemma SwiftRegexMeaning(s: string)
    ensures FullMatch(SwiftRegex, s) <==> ValidSwiftCode(s)
  {
    if ValidSwiftCode(s) { SwiftRegexComplete(s); }
    if FullMatch(SwiftRegex, s) { SwiftRegexSound(s); }
  }

  // ---------------------------------------------------------------------
  // express-validator rule chains
  // ---------------------------------------------------------------------

  /**
   * A body field as express-validator sees it: the string its validators
   * read (`toString` of the JSON value), for `isFloat` the number that text
   * parses to (None when it is not a float literal), and whether the JSON
   * value itself is a string.  A number such as 12345678 is validated as
   * the text "12345678" but reaches the handler as a number.
   * Floating-point parsing itself is not modelled: `number` is given.
   */
  datatype Field = Field(text: string, number: Option<real>, isString: bool)

  /** A request body: field name to value; an absent name is `undefined`. */
  type Body = map<string, Field>

  /** The value an absent field is validated as: `toString(undefined)` is "" and is no float. */
  const AbsentField := Field("", None, false)

  datatype Check =
    | Matches(pattern: Pattern)   // .matches(regex)
    | MinLength(min: nat)         // .isLength({ min })
    | FloatAbove(bound: real)     // .isFloat({ gt })

  /**
   * `body(path)` followed by `.exists()` (required) or `.optional()`, one
   * check and its `.withMessage(message)`.
   */
  datatype Chain = Chain(path: string, required: bool, check: Check, message: string)

  /** One entry of `errors.array()`: the field, the message, and the value (None for `undefined`). */
  datatype FieldError = FieldError(path: string, msg: string, value: Option<Field>)

  /** express-validator's message for a validator that has none of its own. */
  const DefaultMessage := "Invalid value"

  /** Count of U+FE0E / U+FE0F, which validator.js's isLength does not count as characters. */
  function VariationSelectors(s: string): (n: nat)
    ensures n <= |s|
  {
    if |s| == 0 then 0
    else (if s[0] as int == 0xFE0E || s[0] as int == 0xFE0F then 1 else 0) + VariationSelectors(s[1..])
  }

  /** The length isLength compares against its bound. */
  function ValidatorLength(s: string): nat {
    |s| - VariationSelectors(s)
  }

  predicate Passes(check: Check, f: Field) {
    match check
    case Matches(p) => FullMatch(p, f.text)
    case MinLength(n) => ValidatorLength(f.text) >= n
    case FloatAbove(b) => f.number.Some? && f.number.value > b
  }

  /**
   * The failures one chain contributes.  Chains do not bail: a missing
   * required field fails `.exists()` (default message) and then its check,
   * which reads the empty string.  An optional chain skips an absent field.
   */
  function ChainErrors(c: Chain, body: Body): seq<FieldError> {
    if c.path in body then
      (if Passes(c.check, body[c.path]) then [] else [FieldError(c.path, c.message, Some(body[c.path]))])
    else if c.required then
      [FieldError(c.path, DefaultMessage, None)]
      + (if Passes(c.check, AbsentField) then [] else [FieldError(c.path, c.message, None)])
    else []
  }

  /** `validationResult(req).array()` after running the chains in their declared order. */
  function RunChains(cs: seq<Chain>, body: Body): seq<FieldError> {
    if |cs| == 0 then [] else ChainErrors(cs[0], body) + RunChains(cs[1..], body)
  }

  /** What the final middleware of every rule list decides. */
  datatype GateDecision = Proceed | Reject(errors: seq<FieldError>)

  /** validate.js:29-34 (and 46-51, 71-76, 82-87): any failure answers 400, otherwise `next()`. */
  function ValidationGate(errors: seq<FieldError>): (d: GateDecision)
    ensures d == Proceed <==> errors == []
    ensures d.Reject? ==> d.errors == errors
  {
    if errors != [] then Reject(errors) else Proceed
  }

  // ---------------------------------------------------------------------
  // The four rule lists
  // ---------------------------------------------------------------------

  const RegisterRules: seq<Chain> := [
    Chain("fullName", true, Matches(FullNameRegex), "Full name is required and must be valid."),
    Chain("idNumber", true, Matches(IdNumberRegex), "ID number must be a valid 13-digit number."),
    Chain("accountNumber", true, Matches(AccountNumberRegex), "Invalid account number format."),
    Chain("password", true, MinLength(8), "Password must be at least 8 characters.")
  ]

  const LoginRules: seq<Chain> := [
    Chain("accountNumber", true, Matches(AccountNumberRegex), "Invalid account number"),
    Chain("password", true, MinLength(8), "Invalid password")
  ]

  const PaymentRules: seq<Chain> := [
    Chain("receiverAccountNumber", true, Matches(AccountNumberRegex), "Invalid receiver account number"),
    Chain("amount", true, FloatAbove(0.0), "Amount must be a positive number"),
    Chain("currency", true, Matches(CurrencyRegex), "Currency must be a 3-letter code"),
    Chain("swiftCode", false, Matches(SwiftRegex), "Invalid SWIFT code")
  ]

  const ProfileUpdateRules: seq<Chain> := [
    Chain("fullName", false, Matches(FullNameRegex), "Invalid full name"),
    Chain("idNumber", false, Matches(IdNumberRegex), "Invalid ID number")
  ]

  // ---------------------------------------------------------------------
  // What the rule lists accept
  // ---------------------------------------------------------------------

  /** A chain contributes no failure iff a present field passes, and an absent one is optional. */
  lemma {:induction false} ChainErrorsEmpty(c: Chain, body: Body)
    ensures ChainErrors(c, body) == [] <==>
      if c.path in body then Passes(c.check, body[c.path]) else !c.required
  {
  }

  /** Failures are collected across all chains: every failure of every chain is reported, and nothing else. */
  lemma {:induction false} RunChainsCollectsAll(cs: seq<Chain>, body: Body, e: FieldError)
    ensures e in RunChains(cs, body) <==> exists i :: 0 <= i < |cs| && e in ChainErrors(cs[i], body)
  {
    if |cs| > 0 {
      RunChainsCollectsAll(cs[1..], body, e);
      if e in RunChains(cs[1..], body) {
        var i :| 0 <= i < |cs[1..]| && e in ChainErrors(cs[1..][i], body);
        assert cs[1..][i] == cs[i + 1];
      }
      if exists i :: 0 <= i < |cs| && e in ChainErrors(cs[i], body) {
        var i :| 0 <= i < |cs| && e in ChainErrors(cs[i], body);
        if i > 0 {
          assert cs[1..][i - 1] == cs[i];
        }
      }
    }
  }

  /** The gate passes iff every chain of the list is satisfied. */
  lemma {:induction false} RunChainsEmpty(cs: seq<Chain>, body: Body)
    ensures RunChains(cs, body) == [] <==> forall i :: 0 <= i < |cs| ==> ChainErrors(cs[i], body) == []
  {
    if |cs| > 0 {
      RunChainsEmpty(cs[1..], body);
      assert forall i :: 1 <= i < |cs| ==> cs[i] == cs[1..][i - 1];
    }
  }

  /** The field is present and its JSON value is a string. */
  predicate IsStringField(body: Body, path: string) {
    path in body && body[path].isString
  }

  /** The text of a field, or the empty string when it is absent. */
  function TextOf(body: Body, path: string): string {
    if path in body then body[path].text else ""
  }

  lemma {:induction false} RegisterAcceptance(body: Body)
    ensures RunChains(RegisterRules, body) == [] <==>
      && "fullName" in body && ValidFullName(body["fullName"].text)
      && "idNumber" in body && ValidIdNumber(body["idNumber"].text)
      && "accountNumber" in body && ValidAccountNumber(body["accountNumber"].text)
      && "password" in body && ValidatorLength(body["password"].text) >= 8
  {
    var cs := RegisterRules;
    RunChainsEmpty(cs, body);
    assert ChainErrors(cs[0], body) == [] <==> "fullName" in body && ValidFullName(body["fullName"].text) by {
      ChainErrorsEmpty(cs[0], body);
      FullNameRegexMeaning(TextOf(body, "fullName"));
    }
    assert ChainErrors(cs[1], body) == [] <==> "idNumber" in body && ValidIdNumber(body["idNumber"].text) by {
      ChainErrorsEmpty(cs[1], body);
      IdNumberRegexMeaning(TextOf(body, "idNumber"));
    }
    assert ChainErrors(cs[2], body) == [] <==> "accountNumber" in body && ValidAccountNumber(body["accountNumber"].text) by {
      ChainErrorsEmpty(cs[2], body);
      AccountNumberRegexMeaning(TextOf(body, "accountNumber"));
    }
    assert ChainErrors(cs[3], body) == [] <==> "password" in body && ValidatorLength(body["password"].text) >= 8 by {
      ChainErrorsEmpty(cs[3], body);
    }
  }

  lemma {:induction false} LoginAcceptance(body: Body)
    ensures RunChains(LoginRules, body) == [] <==>
      && "accountNumber" in body && ValidAccountNumber(body["accountNumber"].text)
      && "password" in body && ValidatorLength(body["password"].text) >= 8
  {
    RunChainsEmpty(LoginRules, body);
    AccountNumberRegexMeaning(TextOf(body, "accountNumber"));
    forall i | 0 <= i < 2 ensures ChainErrors(LoginRules[i], body) == [] <==>
      LoginRules[i].path in body && Passes(LoginRules[i].check, body[LoginRules[i].path])
    {
      ChainErrorsEmpty(LoginRules[i], body);
    }
  }

  /** Amount only has to be a number above zero: no rule limits its decimal places. */
  lemma {:induction false} PaymentAcceptance(body: Body)
    ensures RunChains(PaymentRules, body) == [] <==>
      && "receiverAccountNumber" in body && ValidAccountNumber(body["receiverAccountNumber"].text)
      && "amount" in body && body["amount"].number.Some? && body["amount"].number.value > 0.0
      && "currency" in body && ValidCurrency(body["currency"].text)
      && ("swiftCode" in body ==> ValidSwiftCode(body["swiftCode"].text))
  {
    var cs := PaymentRules;
    RunChainsEmpty(cs, body);
    assert ChainErrors(cs[0], body) == [] <==> "receiverAccountNumber" in body && ValidAccountNumber(body["receiverAccountNumber"].text) by {
      ChainErrorsEmpty(cs[0], body);
      AccountNumberRegexMeaning(TextOf(body, "receiverAccountNumber"));
    }
    assert ChainErrors(cs[1], body) == [] <==> "amount" in body && body["amount"].number.Some? && body["amount"].number.value > 0.0 by {
      ChainErrorsEmpty(cs[1], body);
    }
    assert ChainErrors(cs[2], body) == [] <==> "currency" in body && ValidCurrency(body["currency"].text) by {
      ChainErrorsEmpty(cs[2], body);
      CurrencyRegexMeaning(TextOf(body, "currency"));
    }
    assert ChainErrors(cs[3], body) == [] <==> ("swiftCode" in body ==> ValidSwiftCode(body["swiftCode"].text)) by {
      ChainErrorsEmpty(cs[3], body);
      SwiftRegexMeaning(TextOf(body, "swiftCode"));
    }
  }

  /** Both fields are optional; a present one must satisfy the same rule as at registration. */
  lemma {:induction false} ProfileUpdateAcceptance(body: Body)
    ensures RunChains(ProfileUpdateRules, body) == [] <==>
      && ("fullName" in body ==> ValidFullName(body["fullName"].text))
      && ("idNumber" in body ==> ValidIdNumber(body["idNumber"].text))
  {
    RunChainsEmpty(ProfileUpdateRules, body);
    FullNameRegexMeaning(TextOf(body, "fullName"));
    IdNumberRegexMeaning(TextOf(body, "idNumber"));
    forall i | 0 <= i < 2 ensures ChainErrors(ProfileUpdateRules[i], body) == [] <==>
      (ProfileUpdateRules[i].path in body ==> Passes(ProfileUpdateRules[i].check, body[ProfileUpdateRules[i].path]))
    {
      ChainErrorsEmpty(ProfileUpdateRules[i], body);
    }
  }

  /** A missing required field is reported twice: once by `.exists()`, once by its own check. */
  lemma {:induction false} MissingRequiredFieldReportedTwice(c: Chain, body: Body)
    requires c.path !in body && c.required
    requires !Passes(c.check, AbsentField)
    ensures ChainErrors(c, body) == [FieldError(c.path, DefaultMessage, None), FieldError(c.path, c.message, None)]
  {
  }
}
