/**
 * backend/middleware/cleanXSS.js: `cleanString`, four global regex
 * deletions in a row, and `deepClean`, which overwrites every string slot of
 * an object or array with its cleaned form and recurses into nested
 * objects.  The middleware cleans `req.body` and `req.params`, never
 * `req.query`.
 *
 * Each regex is modelled by the match it finds at one position (`MatchAt`,
 * the end of the match) and `String.prototype.replace` with a global regex
 * and "" by `ReplaceFrom`: scan left to right, drop a match and continue
 * after it, otherwise keep the character and try the next position.
 */
module CleanXss {
  import opened Wrappers
  import opened JsonValue
  import Validate

  /** The characters `.` does not match: \n, \r, U+2028, U+2029. */
  predicate IsLineTerminator(c: char) {
    c == '\n' || c == '\r' || c as int == 0x2028 || c as int == 0x2029
  }

  /** Case folding of the `i` flag (without `u` it only relates ASCII letters to ASCII letters here). */
  function LowerAscii(c: char): char {
    if 'A' <= c <= 'Z' then (c as int + 32) as char else c
  }

  /** `s` spells the lower-case literal `lit` from position `i`, ignoring case. */
  predicate CiAt(s: string, i: nat, lit: string)
    ensures CiAt(s, i, lit) ==> i + |lit| <= |s|
    decreases |lit|
  {
    if |lit| == 0 then i <= |s|
    else i < |s| && LowerAscii(s[i]) == lit[0] && CiAt(s, i + 1, lit[1..])
  }

  /**
   * The first `c` at or after `j` that `.*?` can reach, i.e. before any line
   * terminator: `>` for the script pattern, `"` for the handler pattern.
   */
  function CharOnLine(s: string, j: nat, c: char): (r: Option<nat>)
    ensures r.Some? ==> j <= r.value < |s| && s[r.value] == c
    decreases |s| - j
  {
    if j >= |s| then None
    else if s[j] == c then Some(j)
    else if IsLineTerminator(s[j]) then None
    else CharOnLine(s, j + 1, c)
  }

  /** The end of the first `</script>` at or after `j` that `.*?` can reach. */
  function CloseScriptOnLine(s: string, j: nat): (r: Option<nat>)
    ensures r.Some? ==> j < r.value <= |s|
    decreases |s| - j
  {
    if j >= |s| then None
    else if CiAt(s, j, "</script>") then Some(j + 9)
    else if IsLineTerminator(s[j]) then None
    else CloseScriptOnLine(s, j + 1)
  }

  /** The first `>` at or after `j`; `[^>]*` crosses line terminators. */
  function NextGt(s: string, j: nat): (r: Option<nat>)
    ensures r.Some? ==> j <= r.value < |s| && s[r.value] == '>'
    decreases |s| - j
  {
    if j >= |s| then None
    else if s[j] == '>' then Some(j)
    else NextGt(s, j + 1)
  }

  /** The end of the longest run of `\w` characters starting at `j`. */
  function WordRunEnd(s: string, j: nat): (w: nat)
    requires j <= |s|
    ensures j <= w <= |s|
    ensures forall k :: j <= k < w ==> Validate.IsWordChar(s[k])
    ensures w < |s| ==> !Validate.IsWordChar(s[w])
    decreases |s| - j
  {
    if j < |s| && Validate.IsWordChar(s[j]) then WordRunEnd(s, j + 1) else j
  }

  /** The four regexes of cleanXSS.js:6-9, in the order they are applied. */
  datatype Deletion =
    | ScriptBlock   // /<script.*?>.*?<\/script>/gi
    | AnyTag        // /<\/?[a-z][^>]*>/gi
    | JsScheme      // /javascript:/gi
    | EventHandler  // /on\w+=".*?"/gi

  /**
   * `/<script.*?>.*?<\/script>/i` tried at `i`: `.*?>` stops at the first
   * `>` on the line; if no `</script>` follows that `>` on the same line,
   * none follows a later `>` either, so backtracking cannot help and there
   * is no match at `i`.
   */
  function ScriptMatchAt(s: string, i: nat): (r: Option<nat>)
    requires i < |s|
    ensures r.Some? ==> i < r.value <= |s|
  {
    if !CiAt(s, i, "<script") then None
    else match CharOnLine(s, i + 7, '>')
      case None => None
      case Some(a) => CloseScriptOnLine(s, a + 1)
  }

  /**
   * `/<\/?[a-z][^>]*>/i` tried at `i`: the optional `/` is taken when
   * present (without it the letter would have to be `/`), and `[^>]*>` ends
   * at the first `>`.
   */
  function TagMatchAt(s: string, i: nat): (r: Option<nat>)
    requires i < |s|
    ensures r.Some? ==> i < r.value <= |s|
  {
    if s[i] != '<' then None
    else
      var l := if i + 1 < |s| && s[i + 1] == '/' then i + 2 else i + 1;
      if l < |s| && Validate.IsAsciiLetter(s[l]) then
        (match NextGt(s, l + 1)
         case None => None
         case Some(g) => Some(g + 1))
      else None
  }

  /** `/javascript:/i` tried at `i`. */
  function SchemeMatchAt(s: string, i: nat): (r: Option<nat>)
    requires i < |s|
    ensures r.Some? ==> i < r.value <= |s|
  {
    if CiAt(s, i, "javascript:") then Some(i + 11) else None
  }

  /**
   * `/on\w+=".*?"/i` tried at `i`: `\w+` is greedy and `=` is not a word
   * character, so the run must be followed directly by `="`; the lazy `.*?"`
   * ends at the next `"` on the line.
   */
  function HandlerMatchAt(s: string, i: nat): (r: Option<nat>)
    requires i < |s|
    ensures r.Some? ==> i < r.value <= |s|
  {
    if !CiAt(s, i, "on") then None
    else
      var w := WordRunEnd(s, i + 2);
      if w > i + 2 && w + 1 < |s| && s[w] == '=' && s[w + 1] == '"' then
        (match CharOnLine(s, w + 2, '"')
         case None => None
         case Some(q) => Some(q + 1))
      else None
  }

  /** The end of the match the regex finds when tried at position `i`. */
  function MatchAt(d: Deletion, s: string, i: nat): (r: Option<nat>)
    requires i < |s|
    ensures r.Some? ==> i < r.value <= |s|
  {
    match d
    case ScriptBlock => ScriptMatchAt(s, i)
    case AnyTag => TagMatchAt(s, i)
    case JsScheme => SchemeMatchAt(s, i)
    case EventHandler => HandlerMatchAt(s, i)
  }

  /** The regex finds nothing anywhere in `s`. */
  predicate NoMatch(d: Deletion, s: string) {
    forall i :: 0 <= i < |s| ==> MatchAt(d, s, i).None?
  }

  /**
   * `s.slice(i).replace(regex, "")` for a regex whose matches are never
   * empty: every match is deleted, every other character is kept.
   * The result is either the input itself or strictly shorter.
   */
  function ReplaceFrom(d: Deletion, s: string, i: nat): (r: string)
    requires i <= |s|
    ensures r == s[i..] || |r| < |s| - i
    ensures |r| <= |s| - i
    decreases |s| - i
  {
    if i == |s| then []
    else match MatchAt(d, s, i)
      case Some(e) => ReplaceFrom(d, s, e)
      case None =>
        var rest := ReplaceFrom(d, s, i + 1);
        assert rest == s[i + 1..] ==> [s[i]] + rest == s[i..];
        [s[i]] + rest
  }

  function DeleteAll(d: Deletion, s: string): string {
    ReplaceFrom(d, s, 0)
  }

  /** cleanXSS.js:4-10. */
  function CleanString(s: string): (r: string)
    ensures |r| <= |s|
  {
    DeleteAll(EventHandler, DeleteAll(JsScheme, DeleteAll(AnyTag, DeleteAll(ScriptBlock, s))))
  }

  // ---------------------------------------------------------------------
  // Properties of the deletions
  // ---------------------------------------------------------------------

  /** A deletion pass leaves its input alone exactly when the regex matches nowhere. */
  lemma {:induction false} ReplaceFromUnchanged(d: Deletion, s: string, i: nat)
    requires i <= |s|
    ensures ReplaceFrom(d, s, i) == s[i..] <==> forall j :: i <= j < |s| ==> MatchAt(d, s, j).None?
    decreases |s| - i
  {
    if i < |s| {
      ReplaceFromUnchanged(d, s, i + 1);
      match MatchAt(d, s, i)
      case None =>
        KeepStep(d, s, i);
        ConsSlice(s, i, ReplaceFrom(d, s, i + 1));
      case Some(e) =>
        DropStep(d, s, i);
        assert |ReplaceFrom(d, s, e)| < |s[i..]|;
    }
  }

  /** Putting `s[i]` in front of `t` gives `s[i..]` exactly when `t` is `s[i + 1..]`. */
  lemma ConsSlice(s: string, i: nat, t: string)
    requires i < |s|
    ensures [s[i]] + t == s[i..] <==> t == s[i + 1..]
  {
    assert s[i..] == [s[i]] + s[i + 1..];
    if [s[i]] + t == s[i..] {
      assert t == ([s[i]] + t)[1..];
    }
  }

  lemma DeleteAllUnchanged(d: Deletion, s: string)
    ensures DeleteAll(d, s) == s <==> NoMatch(d, s)
  {
    ReplaceFromUnchanged(d, s, 0);
    assert s[0..] == s;
  }

  /**
   * cleanString returns its input unchanged exactly when none of the four
   * regexes matches it.
   */
  lemma {:induction false} CleanStringUnchangedIff(s: string)
    ensures CleanString(s) == s <==>
      NoMatch(ScriptBlock, s) && NoMatch(AnyTag, s) && NoMatch(JsScheme, s) && NoMatch(EventHandler, s)
  {
    var a := DeleteAll(ScriptBlock, s);
    var b := DeleteAll(AnyTag, a);
    var c := DeleteAll(JsScheme, b);
    var e := DeleteAll(EventHandler, c);
    DeleteAllUnchanged(ScriptBlock, s);
    DeleteAllUnchanged(AnyTag, a);
    DeleteAllUnchanged(JsScheme, b);
    DeleteAllUnchanged(EventHandler, c);
    assert s[0..] == s && a[0..] == a && b[0..] == b && c[0..] == c;
    if e == s {
      assert |e| <= |c| <= |b| <= |a| <= |s|;
      assert a == s;
      assert b == a;
      assert c == b;
    }
  }

  /** Both markup regexes start with a literal `<`. */
  lemma NoAngleNoMarkup(s: string)
    requires forall i :: 0 <= i < |s| ==> s[i] != '<'
    ensures NoMatch(ScriptBlock, s) && NoMatch(AnyTag, s)
  {
    forall i | 0 <= i < |s| ensures MatchAt(ScriptBlock, s, i).None? {
    }
  }

  /**
   * A string with no `<`, no case-insensitive `javascript:` and no
   * `on...="..."` attribute is returned unchanged.
   */
  lemma PlainTextUnchanged(s: string)
    requires forall i :: 0 <= i < |s| ==> s[i] != '<'
    requires NoMatch(JsScheme, s) && NoMatch(EventHandler, s)
    ensures CleanString(s) == s
  {
    NoAngleNoMarkup(s);
    CleanStringUnchangedIff(s);
  }

  /** A literal occurrence of a lower-case word is a case-insensitive occurrence. */
  lemma {:induction false} CiAtLiteral(s: string, i: nat, lit: string)
    requires i + |lit| <= |s| && forall k :: i <= k < i + |lit| ==> s[k] == lit[k - i]
    requires forall k :: 0 <= k < |lit| ==> !('A' <= lit[k] <= 'Z')
    ensures CiAt(s, i, lit)
    decreases |lit|
  {
    if |lit| > 0 {
      assert s[i] == lit[0];
      assert forall k :: i + 1 <= k < i + |lit| ==> s[k] == lit[k - i] == lit[1..][k - (i + 1)];
      CiAtLiteral(s, i + 1, lit[1..]);
    }
  }

  /** One character that differs from the literal, ignoring case, rules out an occurrence. */
  lemma {:induction false} CiAtMismatch(s: string, i: nat, lit: string, k: nat)
    requires k < |lit| && i + k < |s| && LowerAscii(s[i + k]) != lit[k]
    ensures !CiAt(s, i, lit)
    decreases k
  {
    if k > 0 {
      assert lit[1..][k - 1] == lit[k];
      CiAtMismatch(s, i + 1, lit[1..], k - 1);
    }
  }

  /** Where the regex does not match, the pass keeps the character and moves on. */
  lemma KeepStep(d: Deletion, s: string, i: nat)
    requires i < |s| && MatchAt(d, s, i).None?
    ensures ReplaceFrom(d, s, i) == [s[i]] + ReplaceFrom(d, s, i + 1)
  {
  }

  /** Where the regex matches, the pass drops the match and goes on after it. */
  lemma DropStep(d: Deletion, s: string, i: nat)
    requires i < |s| && MatchAt(d, s, i).Some?
    ensures ReplaceFrom(d, s, i) == ReplaceFrom(d, s, MatchAt(d, s, i).value)
  {
  }

  /**
   * From `j`, with nothing but ordinary characters up to a `</script>` at
   * `b`, the lazy `.*?<\/script>` ends right after that closing tag.
   */
  lemma {:induction false} CloseScriptFrom(s: string, j: nat, b: nat)
    requires j <= b && CiAt(s, b, "</script>")
    requires forall k :: j <= k < b ==> s[k] != '<' && !IsLineTerminator(s[k])
    ensures CloseScriptOnLine(s, j) == Some(b + 9)
    decreases b - j
  {
    if j < b {
      CiAtMismatch(s, j, "</script>", 0);
      CloseScriptFrom(s, j + 1, b);
    }
  }

  /** Text `.` can run over without reaching a tag: no `<` and no line terminator. */
  predicate InlineText(t: string) {
    forall k :: 0 <= k < |t| ==> t[k] != '<' && !IsLineTerminator(t[k])
  }

  /** The script regex matches `<script>`, inline text and `</script>` as one block. */
  lemma ScriptBlockMatch(t: string)
    requires InlineText(t)
    ensures var s := "<script>" + t + "</script>";
      MatchAt(ScriptBlock, s, 0) == Some(|s|)
  {
    var s := "<script>" + t + "</script>";
    var b := 8 + |t|;
    OpenScriptAt(t);
    CloseScriptAt(t);
    assert CharOnLine(s, 7, '>') == Some(7);
    forall k | 8 <= k < b ensures s[k] != '<' && !IsLineTerminator(s[k]) {
      assert s[k] == t[k - 8];
    }
    CloseScriptFrom(s, 8, b);
  }

  lemma OpenScriptAt(t: string)
    ensures var s := "<script>" + t + "</script>";
      |s| == |t| + 17 && CiAt(s, 0, "<script") && s[7] == '>'
  {
    OpenWordSpelled();
    CiAtExtend("<script>", t + "</script>", 0, "<script");
    assert "<script>" + t + "</script>" == "<script>" + (t + "</script>");
  }

  lemma CloseScriptAt(t: string)
    ensures var s := "<script>" + t + "</script>";
      CiAt(s, 8 + |t|, "</script>")
  {
    CloseWordSpelled();
    CiAtShift("<script>" + t, "</script>", 0, "</script>");
  }

  /** The literal words the samples are built from spell themselves. */
  lemma OpenWordSpelled()
    ensures CiAt("<script>", 0, "<script")
  {
    CiAtLiteral("<script>", 0, "<script");
  }

  lemma CloseWordSpelled()
    ensures CiAt("</script>", 0, "</script>")
  {
    CiAtLiteral("</script>", 0, "</script>");
  }

  lemma SchemeWordSpelled()
    ensures CiAt("javascript:", 0, "javascript:")
  {
    CiAtLiteral("javascript:", 0, "javascript:");
  }

  /** An occurrence in `q` is still one when something is appended. */
  lemma {:induction false} CiAtExtend(q: string, r: string, i: nat, lit: string)
    requires CiAt(q, i, lit)
    ensures CiAt(q + r, i, lit)
    decreases |lit|
  {
    if |lit| > 0 {
      assert (q + r)[i] == q[i];
      CiAtExtend(q, r, i + 1, lit[1..]);
    }
  }

  /** Occurrences in `q` are occurrences in `p + q`, shifted by `|p|`. */
  lemma {:induction false} CiAtShift(p: string, q: string, i: nat, lit: string)
    ensures CiAt(p + q, |p| + i, lit) == CiAt(q, i, lit)
    decreases |lit|
  {
    if |lit| > 0 {
      if i < |q| {
        assert (p + q)[|p| + i] == q[i];
      }
      CiAtShift(p, q, i + 1, lit[1..]);
    }
  }

  /** A script block is deleted together with its content, whatever inline text it holds. */
  lemma ScriptBlockRemoved(t: string)
    requires InlineText(t)
    ensures CleanString("<script>" + t + "</script>") == ""
  {
    var s := "<script>" + t + "</script>";
    ScriptBlockMatch(t);
    DropStep(ScriptBlock, s, 0);
    assert DeleteAll(ScriptBlock, s) == "";
  }

  /**
   * The deletions are single-pass: removing one `javascript:` can join its
   * neighbours into a new one, so the output of cleanString is not free of
   * the scheme.
   */
  lemma SchemeCanReassemble()
    ensures CleanString("java" + "javascript:" + "script:") == "javascript:"
  {
    var s := "java" + "javascript:" + "script:";
    NoMarkupInSchemeSample();
    DeleteAllUnchanged(ScriptBlock, s);
    DeleteAllUnchanged(AnyTag, s);
    SchemeWordSpelled();
    SchemeDeletedOnce("java", "javascript:", "script:");
    SchemeJoined();
    NoHandlerInScheme("javascript:");
    DeleteAllUnchanged(EventHandler, "javascript:");
  }

  lemma SchemeJoined()
    ensures "java" + "script:" == "javascript:"
  {
  }

  lemma NoMarkupInSchemeSample()
    ensures var s := "java" + "javascript:" + "script:";
      NoMatch(ScriptBlock, s) && NoMatch(AnyTag, s)
  {
    var s := "java" + "javascript:" + "script:";
    forall i | 0 <= i < |s| ensures s[i] != '<' {
    }
    NoAngleNoMarkup(s);
  }

  lemma NoHandlerInScheme(t: string)
    requires t == "javascript:"
    ensures NoMatch(EventHandler, t)
  {
    forall i | 0 <= i < |t| ensures MatchAt(EventHandler, t, i).None? {
      assert LowerAscii(t[i]) != 'o';
    }
  }

  /**
   * The scheme pass over `a + b + c`, where `b` is a `javascript:` and `a`
   * is a `java` that cannot start one, drops `b` and keeps both sides.
   */
  lemma SchemeDeletedOnce(a: string, b: string, c: string)
    requires |a| == 4 && a[1] == 'a' && a[2] == 'v' && a[3] == 'a'
    requires |b| == 11 && b[0] == 'j' && CiAt(b, 0, "javascript:") && |c| == 7
    ensures DeleteAll(JsScheme, a + b + c) == a + c
  {
    SchemeHeadClear(a, b, c);
    SchemeAtJoin(a, b, c);
    SchemeTailKept(a, b, c);
  }

  lemma SchemeTailKept(a: string, b: string, c: string)
    requires |a| == 4 && |b| == 11 && |c| == 7
    requires forall i :: 0 <= i < 4 ==> MatchAt(JsScheme, a + b + c, i).None?
    requires MatchAt(JsScheme, a + b + c, 4) == Some(15)
    ensures DeleteAll(JsScheme, a + b + c) == a + c
  {
    SchemeTailClear(a + b + c);
    MiddleMatchDeleted(JsScheme, a, b, c);
  }

  /**
   * A pass over `a + b + c` that matches nothing inside `a`, matches exactly
   * `b` right after it and nothing in `c` keeps `a` and `c`.
   */
  lemma MiddleMatchDeleted(d: Deletion, a: string, b: string, c: string)
    requires |b| > 0
    requires forall i :: 0 <= i < |a| ==> MatchAt(d, a + b + c, i).None?
    requires MatchAt(d, a + b + c, |a|) == Some(|a| + |b|)
    requires ReplaceFrom(d, a + b + c, |a| + |b|) == (a + b + c)[|a| + |b|..]
    ensures DeleteAll(d, a + b + c) == a + c
  {
    OneMatchDeleted(d, a + b + c, 0, |a|, |a| + |b|);
    SplitThree(a, b, c);
  }

  /** The first and last parts of a three-part string. */
  lemma SplitThree(a: string, b: string, c: string)
    ensures (a + b + c)[0..|a|] == a && (a + b + c)[|a| + |b|..] == c
  {
  }

  lemma SchemeAtJoin(a: string, b: string, c: string)
    requires |a| == 4 && |b| == 11 && CiAt(b, 0, "javascript:")
    ensures MatchAt(JsScheme, a + b + c, 4) == Some(15)
  {
    CiAtJoin(a, b, c, "javascript:");
    SchemeHit(a + b + c, 4);
  }

  /** An occurrence that is the middle part of a three-part string sits right after the first part. */
  lemma CiAtJoin(a: string, b: string, c: string, lit: string)
    requires CiAt(b, 0, lit)
    ensures CiAt(a + b + c, |a|, lit)
  {
    CiAtShift(a, b, 0, lit);
    CiAtExtend(a + b, c, |a|, lit);
  }

  /** An occurrence of `javascript:` is a match of exactly its length. */
  lemma SchemeHit(s: string, i: nat)
    requires CiAt(s, i, "javascript:")
    ensures i < |s| && MatchAt(JsScheme, s, i) == Some(i + 11)
  {
  }

  /** One character that differs from `javascript:` rules out a scheme match. */
  lemma NoSchemeAt(s: string, i: nat, k: nat)
    requires k < 11 && i + k < |s| && LowerAscii(s[i + k]) != "javascript:"[k]
    ensures MatchAt(JsScheme, s, i).None?
  {
    CiAtMismatch(s, i, "javascript:", k);
  }

  lemma SchemeHeadClear(a: string, b: string, c: string)
    requires |a| == 4 && a[1] == 'a' && a[2] == 'v' && a[3] == 'a' && |b| == 11 && b[0] == 'j'
    ensures forall i :: 0 <= i < 4 ==> MatchAt(JsScheme, a + b + c, i).None?
  {
    var s := a + b + c;
    assert s[1] == 'a' && s[2] == 'v' && s[3] == 'a' && s[4] == 'j';
    NoSchemeAt(s, 0, 4);
    NoSchemeAt(s, 1, 0);
    NoSchemeAt(s, 2, 0);
    NoSchemeAt(s, 3, 0);
  }

  lemma SchemeTailClear(s: string)
    requires |s| == 22
    ensures ReplaceFrom(JsScheme, s, 15) == s[15..]
  {
    forall i | 15 <= i < |s| ensures MatchAt(JsScheme, s, i).None? {
      assert i + 11 > |s|;
    }
    ReplaceFromUnchanged(JsScheme, s, 15);
  }

  /**
   * A pass over a stretch with no match before position `m` and a single
   * match from `m` to `e` keeps the stretch and drops the match.
   */
  lemma {:induction false} OneMatchDeleted(d: Deletion, s: string, k: nat, m: nat, e: nat)
    requires k <= m < e <= |s|
    requires forall i :: k <= i < m ==> MatchAt(d, s, i).None?
    requires MatchAt(d, s, m) == Some(e) && ReplaceFrom(d, s, e) == s[e..]
    ensures ReplaceFrom(d, s, k) == s[k..m] + s[e..]
    decreases m - k
  {
    if k < m {
      OneMatchDeleted(d, s, k + 1, m, e);
      KeepStep(d, s, k);
      StretchCons(s, k, m, e);
    } else {
      DropStep(d, s, m);
      assert s[k..m] == [];
    }
  }

  lemma StretchCons(s: string, k: nat, m: nat, e: nat)
    requires k < m <= e <= |s|
    ensures s[k..m] + s[e..] == [s[k]] + (s[k + 1..m] + s[e..])
  {
    assert s[k..m] == [s[k]] + s[k + 1..m];
  }

  /** Likewise a tag can be reassembled, so cleanString is not idempotent. */
  lemma TagCanReassemble()
    ensures CleanString("<<a>a>") == "<a>"
    ensures CleanString("<a>") == ""
  {
    TagFirstPass("<<a>a>");
    TagSecondPass("<a>");
  }

  lemma TagFirstPass(s: string)
    requires s == "<<a>a>"
    ensures DeleteAll(ScriptBlock, s) == s && DeleteAll(AnyTag, s) == "<a>"
  {
    forall i | 0 <= i < |s| ensures MatchAt(ScriptBlock, s, i).None? {
      assert i + 7 > |s|;
    }
    DeleteAllUnchanged(ScriptBlock, s);
    assert MatchAt(AnyTag, s, 0) == None;
    assert NextGt(s, 3) == Some(3);
    assert MatchAt(AnyTag, s, 1) == Some(4);
    KeepStep(AnyTag, s, 0);
    DropStep(AnyTag, s, 1);
    assert MatchAt(AnyTag, s, 4) == None;
    assert MatchAt(AnyTag, s, 5) == None;
    KeepStep(AnyTag, s, 4);
    KeepStep(AnyTag, s, 5);
  }

  lemma TagSecondPass(t: string)
    requires t == "<a>"
    ensures NoMatch(ScriptBlock, t) && NoMatch(JsScheme, t) && NoMatch(EventHandler, t)
    ensures DeleteAll(AnyTag, t) == ""
    ensures CleanString("<<a>a>") == "<a>" && CleanString(t) == ""
  {
    assert forall i :: 0 <= i < |t| ==> !CiAt(t, i, "javascript:") && !CiAt(t, i, "on") && !CiAt(t, i, "<script");
    DeleteAllUnchanged(JsScheme, t);
    DeleteAllUnchanged(EventHandler, t);
    DeleteAllUnchanged(ScriptBlock, t);
    assert NextGt(t, 2) == Some(2);
    DropStep(AnyTag, t, 0);
    TagFirstPass("<<a>a>");
  }

  // ---------------------------------------------------------------------
  // deepClean
  // ---------------------------------------------------------------------

  /** What the loop body of deepClean leaves in `obj[key]` (cleanXSS.js:15-16). */
  function CleanedSlot(v: Json): Json
    decreases v, 1
  {
    match v
    case JStr(s) => JStr(CleanString(s))
    case _ => DeepCleaned(v)
  }

  /**
   * The value deepClean leaves behind.  Anything that is not an object or an
   * array, a top-level string included, is returned at once (cleanXSS.js:13).
   */
  function DeepCleaned(v: Json): Json
    decreases v, 0
  {
    match v
    case JArr(items) => JArr(seq(|items|, i requires 0 <= i < |items| => CleanedSlot(items[i])))
    case JObj(ms) => JObj(seq(|ms|, i requires 0 <= i < |ms| => Member(ms[i].key, CleanedSlot(ms[i].value))))
    case _ => v
  }

  /**
   * deepClean (cleanXSS.js:12-18): a loop over the keys that overwrites each
   * string slot and recurses into each object slot.  Request bodies come
   * from JSON.parse and share no sub-objects, so overwriting a slot in place
   * is modelled as rebuilding the container.
   */
  method DeepClean(v: Json) returns (r: Json)
    ensures r == DeepCleaned(v)
    decreases v
  {
    match v
    case JArr(items) =>
      var out := items;
      for i := 0 to |items|
        invariant |out| == |items|
        invariant forall j :: 0 <= j < i ==> out[j] == CleanedSlot(items[j])
        invariant forall j :: i <= j < |items| ==> out[j] == items[j]
      {
        var slot := out[i];
        if slot.JStr? {
          out := out[i := JStr(CleanString(slot.s))];
        } else if IsObjectLike(slot) {
          var cleaned := DeepClean(slot);
          out := out[i := cleaned];
        }
      }
      r := JArr(out);
    case JObj(ms) =>
      var out := ms;
      for i := 0 to |ms|
        invariant |out| == |ms|
        invariant forall j :: 0 <= j < i ==> out[j] == Member(ms[j].key, CleanedSlot(ms[j].value))
        invariant forall j :: i <= j < |ms| ==> out[j] == ms[j]
      {
        var slot := out[i].value;
        assert slot == ms[i].value;
        if slot.JStr? {
          out := out[i := Member(out[i].key, JStr(CleanString(slot.s)))];
        } else if IsObjectLike(slot) {
          var cleaned := DeepClean(slot);
          out := out[i := Member(out[i].key, cleaned)];
        }
      }
      r := JObj(out);
    case _ =>
      r := v;
  }

  /** The middleware's outcome: the cleaned request, and how often it called `next()`. */
  datatype Passed = Passed(req: RequestData, nextCalls: nat)

  /**
   * cleanXSS (cleanXSS.js:20-29): body and params are cleaned, the query is
   * left as it is, and `next()` is called once.  The try/catch only guards
   * against exceptions, and none of the steps modelled here can raise one.
   */
  method CleanXssMiddleware(req: RequestData) returns (out: Passed)
    ensures out.req.body == DeepCleaned(req.body)
    ensures out.req.params == DeepCleaned(req.params)
    ensures out.req.query == req.query
    ensures out.nextCalls == 1
  {
    var body := DeepClean(req.body);
    var params := DeepClean(req.params);
    out := Passed(RequestData(body, params, req.query), 1);
  }

  // ---------------------------------------------------------------------
  // Properties of deepClean
  // ---------------------------------------------------------------------

  /** The tree with every string blanked: keys, numbers, booleans, nulls and shapes only. */
  function Skeleton(v: Json): Json
    decreases v
  {
    match v
    case JStr(_) => JStr("")
    case JArr(items) => JArr(seq(|items|, i requires 0 <= i < |items| => Skeleton(items[i])))
    case JObj(ms) => JObj(seq(|ms|, i requires 0 <= i < |ms| => Member(ms[i].key, Skeleton(ms[i].value))))
    case _ => v
  }

  /** deepClean only ever rewrites strings: keys, numbers, booleans, nulls and shapes are kept. */
  lemma {:induction false} DeepCleanedKeepsSkeleton(v: Json)
    ensures Skeleton(DeepCleaned(v)) == Skeleton(v)
    ensures Skeleton(CleanedSlot(v)) == Skeleton(v)
    decreases v
  {
    match v
    case JArr(items) =>
      forall i | 0 <= i < |items| ensures Skeleton(CleanedSlot(items[i])) == Skeleton(items[i]) {
        DeepCleanedKeepsSkeleton(items[i]);
      }
    case JObj(ms) =>
      forall i | 0 <= i < |ms| ensures Skeleton(CleanedSlot(ms[i].value)) == Skeleton(ms[i].value) {
        assert ms[i].value < v;
        DeepCleanedKeepsSkeleton(ms[i].value);
      }
    case _ =>
  }

  /** Every string anywhere in the tree is already a fixed point of cleanString. */
  predicate StringsClean(v: Json)
    decreases v
  {
    match v
    case JStr(s) => CleanString(s) == s
    case JArr(items) => forall i :: 0 <= i < |items| ==> StringsClean(items[i])
    case JObj(ms) => forall i :: 0 <= i < |ms| ==> StringsClean(ms[i].value)
    case _ => true
  }

  /** deepClean leaves a tree alone when every string in it is already clean. */
  lemma {:induction false} DeepCleanedFixesCleanTrees(v: Json)
    requires StringsClean(v)
    ensures DeepCleaned(v) == v
    ensures CleanedSlot(v) == v
    decreases v
  {
    match v
    case JArr(items) =>
      forall i | 0 <= i < |items| ensures CleanedSlot(items[i]) == items[i] {
        DeepCleanedFixesCleanTrees(items[i]);
      }
    case JObj(ms) =>
      forall i | 0 <= i < |ms| ensures Member(ms[i].key, CleanedSlot(ms[i].value)) == ms[i] {
        assert ms[i].value < v;
        DeepCleanedFixesCleanTrees(ms[i].value);
      }
    case _ =>
  }

  /** A script payload in a body field is deleted before any handler sees it. */
  lemma ScriptPayloadInBodyRemoved(key: string, t: string)
    requires InlineText(t)
    ensures DeepCleaned(JObj([Member(key, JStr("<script>" + t + "</script>"))])) == JObj([Member(key, JStr(""))])
  {
    var ms := [Member(key, JStr("<script>" + t + "</script>"))];
    ScriptBlockRemoved(t);
    assert CleanedSlot(ms[0].value) == JStr("");
    assert DeepCleaned(JObj(ms)).members == [Member(key, JStr(""))];
  }
}
