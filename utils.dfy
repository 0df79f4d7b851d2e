/** The shared helpers every tool uses: the input sanitizer, the output formatter, the
    result shape of the process executor, and the executor itself as an object that
    records every command it is asked to run. */
module Utils {
  import opened JsText

  // ---------------------------------------------------------------------------
  // sanitizeInput
  // ---------------------------------------------------------------------------

  /** The characters the first `replace` of sanitizeInput deletes. */
  predicate IsDenied(c: char) {
    || c == ';' || c == '&' || c == '|' || c == '`' || c == '$' || c == '(' || c == ')'
    || c == '{' || c == '}' || c == '[' || c == ']' || c == '\\' || c == '*' || c == '?'
    || c == '<' || c == '>'
  }

  predicate IsQuote(c: char) {
    c == '\'' || c == '"'
  }

  /** A character that passes through the sanitizer as itself. */
  predicate IsPlain(c: char) {
    !IsDenied(c) && !IsQuote(c)
  }

  /** `.replace(/[;&|`$(){}[\]\\*?<>]/g, '')` */
  function RemoveDenied(s: string): string {
    if s == [] then [] else (if IsDenied(s[0]) then [] else [s[0]]) + RemoveDenied(s[1..])
  }

  /** `.replace(/q/g, '\\' + q)` for one quote character `q`. */
  function EscapeQuote(s: string, q: char): string {
    if s == [] then [] else (if s[0] == q then ['\\', q] else [s[0]]) + EscapeQuote(s[1..], q)
  }

  /** sanitizeInput: delete the denied characters, then put a backslash before every
      single quote, then before every double quote. */
  function SanitizeInput(s: string): string {
    EscapeQuote(EscapeQuote(RemoveDenied(s), '\''), '"')
  }

  /** What one input character becomes. */
  function SanitizeChar(c: char): (r: string)
    ensures IsDenied(c) ==> r == ""
    ensures IsQuote(c) ==> r == ['\\', c]
    ensures IsPlain(c) ==> r == [c]
  {
    if IsDenied(c) then "" else if IsQuote(c) then ['\\', c] else [c]
  }

  /** Reference definition: the sanitizer as one character-by-character map. */
  function SanitizeCharwise(s: string): string {
    if s == [] then [] else SanitizeChar(s[0]) + SanitizeCharwise(s[1..])
  }

  lemma {:induction false} EscapeQuoteConcat(a: string, b: string, q: char)
    ensures EscapeQuote(a + b, q) == EscapeQuote(a, q) + EscapeQuote(b, q)
    decreases |a|
  {
    if a == [] {
      assert a + b == b;
    } else {
      assert (a + b)[1..] == a[1..] + b;
      EscapeQuoteConcat(a[1..], b, q);
    }
  }

  /** The three passes of sanitizeInput do exactly what the character map does: the
      backslashes and quotes the second pass inserts are never touched by the third. */
  lemma {:induction false} SanitizeIsCharwise(s: string)
    ensures SanitizeInput(s) == SanitizeCharwise(s)
    decreases |s|
  {
    if s != [] {
      var c := s[0];
      var head := if IsDenied(c) then [] else [c];
      var tail := RemoveDenied(s[1..]);
      assert RemoveDenied(s) == head + tail;
      EscapeQuoteConcat(head, tail, '\'');
      EscapeQuoteConcat(EscapeQuote(head, '\''), EscapeQuote(tail, '\''), '"');
      SanitizeIsCharwise(s[1..]);
      if IsDenied(c) {
      } else if c == '\'' {
        assert EscapeQuote(head, '\'') == ['\\', '\''];
        assert EscapeQuote(['\\', '\''], '"') == ['\\', '\''];
      } else if c == '"' {
        assert EscapeQuote(head, '\'') == ['"'];
        assert EscapeQuote(['"'], '"') == ['\\', '"'];
      } else {
        assert EscapeQuote(head, '\'') == [c];
        assert EscapeQuote([c], '"') == [c];
      }
    }
  }

  lemma {:induction false} CharwiseConcat(a: string, b: string)
    ensures SanitizeCharwise(a + b) == SanitizeCharwise(a) + SanitizeCharwise(b)
    decreases |a|
  {
    if a == [] {
      assert a + b == b;
    } else {
      assert (a + b)[1..] == a[1..] + b;
      CharwiseConcat(a[1..], b);
    }
  }

  /** Sanitizing a concatenation sanitizes each part on its own. */
  lemma SanitizeConcat(a: string, b: string)
    ensures SanitizeInput(a + b) == SanitizeInput(a) + SanitizeInput(b)
  {
    SanitizeIsCharwise(a + b);
    SanitizeIsCharwise(a);
    SanitizeIsCharwise(b);
    CharwiseConcat(a, b);
  }

  /** The sanitizer's output shape: none of `; & | ` + "`" + ` $ ( ) { } [ ] * ? < >`, every
      backslash directly followed by a quote, and every quote directly preceded by a
      backslash. Whitespace, newlines included, is not constrained. */
  ghost predicate IsSanitized(r: string) {
    && (forall i :: 0 <= i < |r| ==> r[i] == '\\' || !IsDenied(r[i]))
    && (forall i :: 0 <= i < |r| && r[i] == '\\' ==> i + 1 < |r| && IsQuote(r[i + 1]))
    && (forall i :: 0 <= i < |r| && IsQuote(r[i]) ==> i > 0 && r[i - 1] == '\\')
  }

  lemma {:induction false} CharwiseSanitized(s: string)
    ensures IsSanitized(SanitizeCharwise(s))
    decreases |s|
  {
    if s != [] {
      CharwiseSanitized(s[1..]);
      var h := SanitizeChar(s[0]);
      var t := SanitizeCharwise(s[1..]);
      var r := h + t;
      forall i | 0 <= i < |r| && IsQuote(r[i]) ensures i > 0 && r[i - 1] == '\\' {
        if i >= |h| {
          assert r[i] == t[i - |h|];
          if i - |h| == 0 { assert false; }
          assert r[i - 1] == t[i - |h| - 1];
        }
      }
      forall i | 0 <= i < |r| && r[i] == '\\' ensures i + 1 < |r| && IsQuote(r[i + 1]) {
        if i >= |h| {
          assert r[i] == t[i - |h|];
          assert r[i + 1] == t[i - |h| + 1];
        }
      }
      forall i | 0 <= i < |r| ensures r[i] == '\\' || !IsDenied(r[i]) {
        if i >= |h| {
          assert r[i] == t[i - |h|];
        }
      }
    }
  }

  /** Every result of sanitizeInput is free of `; & | ` + "`" + ` $ ( ) { } [ ] * ? < >`,
      and its backslashes are exactly the escapes in front of its quotes. */
  lemma SanitizeOutputIsSanitized(s: string)
    ensures IsSanitized(SanitizeInput(s))
  {
    SanitizeIsCharwise(s);
    CharwiseSanitized(s);
  }

  /** A text made only of plain characters. */
  predicate AllPlain(s: string) {
    forall i :: 0 <= i < |s| ==> IsPlain(s[i])
  }

  /** The characters the fixed parts of the command lines are written in: letters,
      digits, `-`, `.`, `/`, `_`, space, `=`, `,` and `:`. */
  predicate IsWordChar(c: char) {
    ('a' <= c <= 'z') || ('A' <= c <= 'Z') || ('-' <= c <= '9')
    || c == '_' || c == ' ' || c == '=' || c == ',' || c == ':'
  }

  predicate AllWordChars(s: string) {
    forall i :: 0 <= i < |s| ==> IsWordChar(s[i])
  }

  lemma WordCharsArePlain(s: string)
    requires AllWordChars(s)
    ensures AllPlain(s)
  {
  }

  /** Plain text has the sanitizer's output shape. */
  lemma PlainIsSanitized(s: string)
    requires AllPlain(s)
    ensures IsSanitized(s)
  {
  }

  /** The output shape survives concatenation: a backslash can never be last and a
      quote never first in a sanitized text, so no escape pair is split at the seam. */
  lemma SanitizedConcat(a: string, b: string)
    requires IsSanitized(a) && IsSanitized(b)
    ensures IsSanitized(a + b)
  {
    var r := a + b;
    forall i | 0 <= i < |r| && r[i] == '\\' ensures i + 1 < |r| && IsQuote(r[i + 1]) {
      if i < |a| {
        assert r[i] == a[i];
        assert r[i + 1] == a[i + 1];
      } else {
        assert r[i] == b[i - |a|];
        assert r[i + 1] == b[i - |a| + 1];
      }
    }
    forall i | 0 <= i < |r| && IsQuote(r[i]) ensures i > 0 && r[i - 1] == '\\' {
      if i < |a| {
        assert r[i] == a[i];
        assert r[i - 1] == a[i - 1];
      } else {
        assert r[i] == b[i - |a|];
        if i == |a| {
          assert false;
        }
        assert r[i - 1] == b[i - |a| - 1];
      }
    }
    forall i | 0 <= i < |r| ensures r[i] == '\\' || !IsDenied(r[i]) {
      if i < |a| { assert r[i] == a[i]; } else { assert r[i] == b[i - |a|]; }
    }
  }

  /** A sanitized field between plain fixed texts keeps the output shape. */
  lemma SanitizedBetween(a: string, x: string, b: string)
    requires AllPlain(a) && IsSanitized(x) && AllPlain(b)
    ensures IsSanitized(a + x + b)
  {
    PlainIsSanitized(a);
    PlainIsSanitized(b);
    SanitizedConcat(a, x);
    SanitizedConcat(a + x, b);
  }

  /** Seven sanitized pieces in a row make a sanitized text. */
  lemma SanitizedFields(a: string, b: string, c: string, d: string, e: string, f: string, g: string)
    requires IsSanitized(a) && IsSanitized(b) && IsSanitized(c) && IsSanitized(d)
    requires IsSanitized(e) && IsSanitized(f) && IsSanitized(g)
    ensures IsSanitized(a + b + c + d + e + f + g)
  {
    SanitizedConcat(a, b);
    SanitizedConcat(a + b, c);
    SanitizedConcat(a + b + c, d);
    SanitizedConcat(a + b + c + d, e);
    SanitizedConcat(a + b + c + d + e, f);
    SanitizedConcat(a + b + c + d + e + f, g);
  }

  lemma AllPlainConcat(a: string, b: string)
    ensures AllPlain(a + b) <==> AllPlain(a) && AllPlain(b)
  {
    if AllPlain(a + b) {
      forall i | 0 <= i < |a| ensures IsPlain(a[i]) { assert a[i] == (a + b)[i]; }
      forall i | 0 <= i < |b| ensures IsPlain(b[i]) { assert b[i] == (a + b)[|a| + i]; }
    }
  }

  /** The decimal text of a number is plain. */
  lemma NumberIsPlain(n: int)
    ensures AllPlain(IntToString(n))
  {
    if n < 0 {
      AllPlainConcat("-", NatToString(-n));
    }
  }

  /** A text of plain characters passes through unchanged. */
  lemma {:induction false} SanitizePlainUnchanged(s: string)
    requires AllPlain(s)
    ensures SanitizeInput(s) == s
    decreases |s|
  {
    SanitizeIsCharwise(s);
    if s != [] {
      SanitizePlainUnchanged(s[1..]);
      SanitizeIsCharwise(s[1..]);
    }
  }

  /** Sanitizing an already sanitized text changes nothing: each kept character maps to
      itself and each escape pair `\'`, `\"` maps to itself (its backslash is deleted
      and re-inserted). */
  lemma {:induction false} SanitizeIdempotent(s: string)
    ensures SanitizeInput(SanitizeInput(s)) == SanitizeInput(s)
    decreases |s|
  {
    if s != [] {
      var c := s[0];
      var rest := s[1..];
      assert s == [c] + rest;
      SanitizeConcat([c], rest);
      SanitizeSingle(c);
      var h := SanitizeChar(c);
      SanitizeConcat(h, SanitizeInput(rest));
      SanitizeIdempotent(rest);
      SanitizeCharFixed(c);
      IdempotentCombine(SanitizeInput(s), SanitizeInput(SanitizeInput(s)), h, SanitizeInput(h),
        SanitizeInput(rest), SanitizeInput(SanitizeInput(rest)));
    }
  }

  // Associativity step for `SanitizeIdempotent`: it only regroups concatenations.
  lemma IdempotentCombine(once: string, twice: string, h: string, hh: string, r: string, rr: string)
    requires once == h + r && twice == hh + rr && hh == h && rr == r
    ensures twice == once
  {
  }

  /** A one-character text is sanitized as that character. */
  lemma SanitizeSingle(c: char)
    ensures SanitizeInput([c]) == SanitizeChar(c)
  {
    SanitizeIsCharwise([c]);
    assert [c][1..] == [];
  }

  /** What one character becomes is left as it is by a second pass: each kept character
      maps to itself and each escape pair `\'`, `\"` maps to itself (its backslash is
      deleted and re-inserted). */
  lemma SanitizeCharFixed(c: char)
    ensures SanitizeInput(SanitizeChar(c)) == SanitizeChar(c)
  {
    var h := SanitizeChar(c);
    SanitizeIsCharwise(h);
    if IsQuote(c) {
      assert h == [h[0]] + [h[1]];
      CharwiseConcat([h[0]], [h[1]]);
      assert SanitizeCharwise([h[0]]) == "";
      assert SanitizeCharwise([h[1]]) == h;
    } else if IsPlain(c) {
      assert SanitizeCharwise(h) == h;
    }
  }

  /** The sanitizer gives the empty text exactly when every input character is denied. */
  lemma {:induction false} SanitizeEmptyIff(s: string)
    ensures SanitizeInput(s) == "" <==> forall i :: 0 <= i < |s| ==> IsDenied(s[i])
    decreases |s|
  {
    SanitizeIsCharwise(s);
    if s != [] {
      SanitizeEmptyIff(s[1..]);
      SanitizeIsCharwise(s[1..]);
      if forall i :: 0 <= i < |s| ==> IsDenied(s[i]) {
        assert forall i :: 0 <= i < |s[1..]| ==> IsDenied(s[1..][i]) by {
          forall i | 0 <= i < |s[1..]| ensures IsDenied(s[1..][i]) { assert s[1..][i] == s[i + 1]; }
        }
      } else {
        if IsDenied(s[0]) {
          var k :| 0 <= k < |s| && !IsDenied(s[k]);
          assert s[1..][k - 1] == s[k];
        }
      }
    }
  }

  /** Deleting a separator between two plain texts joins them. */
  lemma {:induction false} SanitizeDropsBetween(a: string, c: char, b: string)
    requires AllPlain(a)
    requires AllPlain(b)
    requires IsDenied(c)
    ensures SanitizeInput(a + [c] + b) == a + b
  {
    SanitizePlainUnchanged(a);
    SanitizePlainUnchanged(b);
    SanitizeSingle(c);
    SanitizeConcat(a, [c]);
    SanitizeConcat(a + [c], b);
    DropCombine(SanitizeInput(a + [c] + b), SanitizeInput(a + [c]), SanitizeInput(a), SanitizeInput([c]),
      SanitizeInput(b), a, b);
  }

  // Associativity step for `SanitizeDropsBetween`: it only regroups concatenations.
  lemma DropCombine(whole: string, left: string, sa: string, sc: string, sb: string, a: string, b: string)
    requires whole == left + sb && left == sa + sc && sa == a && sc == [] && sb == b
    ensures whole == a + b
  {
  }

  /** Sanitizing plain text, a quote and a rest keeps the text, escapes the quote and
      sanitizes the rest. */
  lemma {:induction false} SanitizePlainQuoteThen(a: string, q: char, rest: string)
    requires AllPlain(a)
    requires IsQuote(q)
    ensures SanitizeInput(a + [q] + rest) == a + ['\\', q] + SanitizeInput(rest)
  {
    SanitizePlainUnchanged(a);
    SanitizeIsCharwise([q]);
    SanitizeConcat(a, [q]);
    SanitizeConcat(a + [q], rest);
  }

  /** The first sanitizer check of the repository's own test file, as the sanitizer
      actually behaves: the `;` is deleted and everything else, `/` included, is kept. */
  lemma SanitizeDropsShellSeparators()
    ensures SanitizeInput("example.com; rm -rf /") == "example.com rm -rf /"
  {
    SeparatorVectorFor("example.com; rm -rf /", "example.com rm -rf /");
  }

  /** The output that test expects, with the final `/` removed, is not what the
      sanitizer gives: `/` is not in the deleted set. */
  lemma SanitizeTestVectorMismatch()
    ensures SanitizeInput("example.com; rm -rf /") != "example.com rm -rf "
  {
    SanitizeDropsShellSeparators();
    assert |"example.com rm -rf /"| != |"example.com rm -rf "|;
  }

  lemma SeparatorVectorFor(s: string, expected: string)
    requires s == "example.com; rm -rf /"
    requires expected == "example.com rm -rf /"
    ensures SanitizeInput(s) == expected
  {
    var a, b := "example.com", " rm -rf /";
    SeparatorVectorParts(s, expected, a, b);
    SanitizeDropsBetween(a, ';', b);
  }

  lemma SeparatorVectorParts(s: string, expected: string, a: string, b: string)
    requires s == "example.com; rm -rf /"
    requires expected == "example.com rm -rf /"
    requires a == "example.com" && b == " rm -rf /"
    ensures s == a + [';'] + b && expected == a + b
    ensures AllPlain(a) && AllPlain(b)
  {
  }

  lemma {:induction false} SanitizeEscapesQuotesAt(s: string, a: string, b: string, c: string, d: string)
    requires s == a + "\"" + b + "\"" + c + "'" + d + "\""
    requires AllPlain(a)
    requires AllPlain(b)
    requires AllPlain(c)
    requires AllPlain(d)
    ensures SanitizeInput(s) == a + "\\\"" + b + "\\\"" + c + "\\'" + d + "\\\""
  {
    var x4 := d + ['"'] + [];
    var x3 := c + ['\''] + x4;
    var x2 := b + ['"'] + x3;
    var x1 := a + ['"'] + x2;
    SanitizePlainQuoteThen(d, '"', []);
    SanitizePlainQuoteThen(c, '\'', x4);
    SanitizePlainQuoteThen(b, '"', x3);
    SanitizePlainQuoteThen(a, '"', x2);
    assert s == x1;
  }

  /** The second sanitizer check of the repository's own test file: every quote gets a
      backslash in front of it and nothing else changes. */
  lemma SanitizeEscapesQuotes()
    ensures SanitizeInput("example.com\" --option=\"value's\"")
         == "example.com\\\" --option=\\\"value\\'s\\\""
  {
    SanitizeEscapesQuotesFor("example.com\" --option=\"value's\"", "example.com\\\" --option=\\\"value\\'s\\\"");
  }

  lemma SanitizeEscapesQuotesFor(s: string, expected: string)
    requires s == "example.com\" --option=\"value's\""
    requires expected == "example.com\\\" --option=\\\"value\\'s\\\""
    ensures SanitizeInput(s) == expected
  {
    var a, b, c, d := "example.com", " --option=", "value", "s";
    QuoteVectorParts(s, expected, a, b, c, d);
    SanitizeEscapesQuotesAt(s, a, b, c, d);
  }

  lemma QuoteVectorParts(s: string, expected: string, a: string, b: string, c: string, d: string)
    requires s == "example.com\" --option=\"value's\""
    requires expected == "example.com\\\" --option=\\\"value\\'s\\\""
    requires a == "example.com" && b == " --option=" && c == "value" && d == "s"
    ensures s == a + "\"" + b + "\"" + c + "'" + d + "\""
    ensures expected == a + "\\\"" + b + "\\\"" + c + "\\'" + d + "\\\""
    ensures AllPlain(a)
    ensures AllPlain(b)
    ensures AllPlain(c)
    ensures AllPlain(d)
  {
    QuoteVectorInput(s, a, b, c, d);
    QuoteVectorOutput(expected, a, b, c, d);
    PlainLiterals(a, b, c, d);
  }

  lemma QuoteVectorInput(s: string, a: string, b: string, c: string, d: string)
    requires s == "example.com\" --option=\"value's\""
    requires a == "example.com" && b == " --option=" && c == "value" && d == "s"
    ensures s == a + "\"" + b + "\"" + c + "'" + d + "\""
  {
  }

  lemma QuoteVectorOutput(expected: string, a: string, b: string, c: string, d: string)
    requires expected == "example.com\\\" --option=\\\"value\\'s\\\""
    requires a == "example.com" && b == " --option=" && c == "value" && d == "s"
    ensures expected == a + "\\\"" + b + "\\\"" + c + "\\'" + d + "\\\""
  {
  }

  lemma PlainLiterals(a: string, b: string, c: string, d: string)
    requires a == "example.com" && b == " --option=" && c == "value" && d == "s"
    ensures AllPlain(a)
    ensures AllPlain(b)
    ensures AllPlain(c)
    ensures AllPlain(d)
  {
  }

  /** `options.x ? sanitizeInput(options.x) : ''` for an optional text field. */
  function OptionalField(x: Option<string>): (r: string)
    ensures r == SanitizeInput(OrText(x, ""))
  {
    match x
    case Some(v) => if v != "" then SanitizeInput(v) else ""
    case None => ""
  }

  lemma {:induction false} CharwiseKeepsPlain(s: string, c: char)
    requires IsPlain(c)
    ensures c in SanitizeCharwise(s) <==> c in s
    decreases |s|
  {
    if s != [] {
      assert s == [s[0]] + s[1..];
      CharwiseKeepsPlain(s[1..], c);
    }
  }

  /** A plain character occurs in the sanitizer's output exactly when it occurs in its
      input. */
  lemma SanitizeKeepsPlain(s: string, c: char)
    requires IsPlain(c)
    ensures c in SanitizeInput(s) <==> c in s
  {
    SanitizeIsCharwise(s);
    CharwiseKeepsPlain(s, c);
  }

  // ---------------------------------------------------------------------------
  // formatOutput
  // ---------------------------------------------------------------------------

  const Esc: char := '\U{1B}'

  /** Length of the run of ASCII digits (`\d`) at the front of `s`. */
  function DigitRun(s: string): (n: nat)
    ensures n <= |s| && AllDigits(s[..n])
    ensures n < |s| ==> !IsDigit(s[n])
  {
    if s != [] && IsDigit(s[0]) then
      var n := 1 + DigitRun(s[1..]);
      assert s[..n] == [s[0]] + s[1..][..n - 1];
      n
    else 0
  }

  /** Length of the match of `/\x1B\[\d+m/` at the front of `s`, or 0 when there is none.
      Because a digit is never `m`, the greedy `\d+` can only succeed with the whole
      digit run. */
  function SgrLength(s: string): (n: nat)
    ensures n == 0 || (4 <= n <= |s| && s[0] == Esc && s[1] == '['
                       && AllDigits(s[2..n - 1]) && s[n - 1] == 'm')
  {
    if |s| >= 2 && s[0] == Esc && s[1] == '[' then
      var k := DigitRun(s[2..]);
      if k >= 1 && 2 + k < |s| && s[2 + k] == 'm' then
        assert s[2..2 + k] == s[2..][..k];
        3 + k
      else 0
    else 0
  }

  /** `ESC [ digits m`, the colour sequence formatOutput removes. */
  function Sgr(digits: string): string {
    [Esc, '['] + digits + ['m']
  }

  /** `.replace(/\x1B\[\d+m/g, '')`: one left-to-right pass; after a removal the scan
      resumes after the removed sequence, so removals never uncover new matches. */
  function StripAnsi(s: string): (r: string)
    ensures |r| <= |s|
    decreases |s|
  {
    if s == [] then []
    else
      var n := SgrLength(s);
      if n > 0 then StripAnsi(s[n..]) else [s[0]] + StripAnsi(s[1..])
  }

  /** A whole colour sequence at the front is matched in full. */
  lemma SgrLengthOfSgr(digits: string, rest: string)
    requires |digits| >= 1 && AllDigits(digits)
    ensures SgrLength(Sgr(digits) + rest) == |digits| + 3
  {
    var s := Sgr(digits) + rest;
    assert s[2..] == digits + ['m'] + rest;
    DigitRunOfDigits(digits, ['m'] + rest);
    assert s[2..] == digits + (['m'] + rest);
  }

  lemma {:induction false} DigitRunOfDigits(d: string, rest: string)
    requires AllDigits(d) && (rest == [] || !IsDigit(rest[0]))
    ensures DigitRun(d + rest) == |d|
    decreases |d|
  {
    if d != [] {
      assert (d + rest)[1..] == d[1..] + rest;
      DigitRunOfDigits(d[1..], rest);
    }
  }

  lemma {:induction false} DigitRunBeforeEsc(a: string, c: string)
    requires c == [] || c[0] == Esc
    ensures DigitRun(a + c) == DigitRun(a)
    decreases |a|
  {
    if a != [] {
      assert (a + c)[1..] == a[1..] + c;
      DigitRunBeforeEsc(a[1..], c);
    }
  }

  /** A colour sequence cannot run into a following ESC: the match at the front of `a`
      is the same whether or not ESC-led text follows it. */
  lemma SgrLengthBeforeEsc(a: string, c: string)
    requires a != [] && (c == [] || c[0] == Esc)
    ensures SgrLength(a + c) == SgrLength(a)
  {
    var s := a + c;
    if |a| >= 2 && a[0] == Esc && a[1] == '[' {
      assert s[2..] == a[2..] + c;
      DigitRunBeforeEsc(a[2..], c);
      var k := DigitRun(a[2..]);
      if 2 + k < |a| {
        assert s[2 + k] == a[2 + k];
      }
    } else if |a| == 1 && c != [] {
      assert s[1] == Esc;
    }
  }

  /** Removal splits at every ESC: text ending just before an ESC is cleaned on its own. */
  lemma {:induction false} StripAnsiSplitAtEsc(a: string, c: string)
    requires c == [] || c[0] == Esc
    ensures StripAnsi(a + c) == StripAnsi(a) + StripAnsi(c)
    decreases |a|
  {
    if a == [] {
      assert a + c == c;
    } else {
      var keep, k := StripAnsiFront(a, c);
      StripAnsiSplitAtEsc(a[k..], c);
      SplitCombine(StripAnsi(a), StripAnsi(a + c), keep, StripAnsi(a[k..]), StripAnsi(a[k..] + c), StripAnsi(c));
    }
  }

  // Associativity step for `StripAnsiSplitAtEsc`: it only regroups concatenations.
  lemma SplitCombine(whole: string, joined: string, keep: string, rest: string, restJoined: string, tail: string)
    requires whole == keep + rest && joined == keep + restJoined && restJoined == rest + tail
    ensures joined == whole + tail
  {
  }

  /** The first step of the pass over `a` is the same whether or not ESC-led text
      follows: it keeps `keep` and resumes at `k`. */
  lemma StripAnsiFront(a: string, c: string) returns (keep: string, k: nat)
    requires a != [] && (c == [] || c[0] == Esc)
    ensures 1 <= k <= |a|
    ensures StripAnsi(a) == keep + StripAnsi(a[k..])
    ensures StripAnsi(a + c) == keep + StripAnsi(a[k..] + c)
  {
    var s := a + c;
    SgrLengthBeforeEsc(a, c);
    var n := SgrLength(a);
    if n > 0 {
      keep, k := [], n;
      assert s[n..] == a[n..] + c;
    } else {
      keep, k := [a[0]], 1;
      assert s[1..] == a[1..] + c;
    }
  }

  /** A text without ESC is left as it is. */
  lemma {:induction false} StripAnsiNoEsc(s: string)
    requires Esc !in s
    ensures StripAnsi(s) == s
    decreases |s|
  {
    if s != [] {
      StripAnsiNoEsc(s[1..]);
    }
  }

  /** Every complete colour sequence is removed, wherever it stands, and the text around
      it is cleaned as if the sequence were not there. */
  lemma StripAnsiRemovesSgr(a: string, digits: string, b: string)
    requires |digits| >= 1 && AllDigits(digits)
    ensures StripAnsi(a + Sgr(digits) + b) == StripAnsi(a) + StripAnsi(b)
  {
    var t := Sgr(digits) + b;
    assert a + Sgr(digits) + b == a + t;
    StripAnsiSplitAtEsc(a, t);
    SgrLengthOfSgr(digits, b);
    assert t[|digits| + 3..] == b;
  }

  /** One pass is not a closure: removing an inner sequence can form a new one that the
      pass does not revisit, so formatOutput is not idempotent: formatting its own result
      again removes that new sequence. */
  lemma StripAnsiSinglePassFor(d: string)
    requires |d| >= 1 && AllDigits(d)
    ensures StripAnsi([Esc, '['] + Sgr(d) + (d + "m")) == Sgr(d)
    ensures StripAnsi(Sgr(d)) == ""
    ensures FormatOutput([Esc, '['] + Sgr(d) + (d + "m")) == Sgr(d)
    ensures FormatOutput(Sgr(d)) == ""
  {
    ColourPassLeavesSgr(d);
    SgrAlone(d);
    var t := Sgr(d);
    assert t[0] == Esc && t[|t| - 1] == 'm';
    TrimUnchanged(t);
    assert Trim([]) == [];
  }

  /** The colour pass over `ESC[` + `ESC[dm` + `dm` leaves `ESC[dm`. */
  lemma ColourPassLeavesSgr(d: string)
    requires |d| >= 1 && AllDigits(d)
    ensures StripAnsi([Esc, '['] + Sgr(d) + (d + "m")) == Sgr(d)
  {
    StripAnsiRemovesSgr([Esc, '['], d, d + "m");
    UnfinishedSgrKept();
    DigitsThenMKept(d);
    assert [Esc, '['] + (d + "m") == Sgr(d);
  }

  lemma UnfinishedSgrKept()
    ensures StripAnsi([Esc, '[']) == [Esc, '[']
  {
    assert SgrLength([Esc, '[']) == 0;
    assert [Esc, '['][1..] == ['['];
    StripAnsiNoEsc(['[']);
  }

  lemma DigitsThenMKept(d: string)
    requires AllDigits(d)
    ensures StripAnsi(d + "m") == d + "m"
  {
    assert Esc !in d + "m" by {
      forall k | 0 <= k < |d + "m"| ensures (d + "m")[k] != Esc {
        if k < |d| { assert IsDigit(d[k]); }
      }
    }
    StripAnsiNoEsc(d + "m");
  }

  lemma SgrAlone(d: string)
    requires |d| >= 1 && AllDigits(d)
    ensures StripAnsi(Sgr(d)) == ""
  {
    StripAnsiRemovesSgr([], d, []);
    assert [] + Sgr(d) + [] == Sgr(d);
  }

  /** The instance `ESC[ESC[1m1m`, which one pass turns into `ESC[1m`. */
  lemma StripAnsiSinglePass()
    ensures StripAnsi([Esc, '['] + Sgr("1") + "1m") == Sgr("1")
    ensures StripAnsi(Sgr("1")) == ""
  {
    OneDigit("1");
    StripAnsiSinglePassFor("1");
  }

  lemma OneDigit(d: string)
    requires d == "1"
    ensures |d| >= 1 && AllDigits(d) && d + "m" == "1m"
  {
  }

  /** The characters `String.prototype.trim` removes: ECMAScript WhiteSpace (tab,
      vertical tab, form feed, space, no-break space, byte order mark and the other
      Unicode space separators) and LineTerminator (LF, CR, LS, PS). */
  predicate IsJsWhitespace(c: char) {
    || c == '\t' || c == '\n' || c == '\U{0B}' || c == '\U{0C}' || c == '\r' || c == ' '
    || c == '\U{A0}' || c == '\U{1680}' || ('\U{2000}' <= c <= '\U{200A}')
    || c == '\U{2028}' || c == '\U{2029}' || c == '\U{202F}' || c == '\U{205F}'
    || c == '\U{3000}' || c == '\U{FEFF}'
  }

  /** Drops the leading whitespace: the result is the suffix of `s` that starts at the
      first non-whitespace character. */
  function TrimStart(s: string): (r: string)
    ensures |r| <= |s| && r == s[|s| - |r|..]
    ensures forall i :: 0 <= i < |s| - |r| ==> IsJsWhitespace(s[i])
    ensures r != [] ==> !IsJsWhitespace(r[0])
    decreases |s|
  {
    if s != [] && IsJsWhitespace(s[0]) then TrimStart(s[1..]) else s
  }

  /** Drops the trailing whitespace: the result is the prefix of `s` that ends at the
      last non-whitespace character. */
  function TrimEnd(s: string): (r: string)
    ensures |r| <= |s| && r == s[..|r|]
    ensures forall i :: |r| <= i < |s| ==> IsJsWhitespace(s[i])
    ensures r != [] ==> !IsJsWhitespace(r[|r| - 1])
    decreases |s|
  {
    if s != [] && IsJsWhitespace(s[|s| - 1]) then
      var r := TrimEnd(s[..|s| - 1]);
      assert s[..|s| - 1][..|r|] == s[..|r|];
      assert forall i :: |r| <= i < |s| - 1 ==> s[..|s| - 1][i] == s[i];
      r
    else s
  }

  /** `String.prototype.trim`. */
  function Trim(s: string): (r: string) {
    TrimEnd(TrimStart(s))
  }

  /** Trim cuts `s` into leading whitespace, the result and trailing whitespace, and the
      result neither starts nor ends with whitespace. */
  lemma TrimSplits(s: string) returns (i: nat)
    ensures i + |Trim(s)| <= |s| && s[i..i + |Trim(s)|] == Trim(s)
    ensures forall k :: 0 <= k < i ==> IsJsWhitespace(s[k])
    ensures forall k :: i + |Trim(s)| <= k < |s| ==> IsJsWhitespace(s[k])
  {
    i := |s| - |TrimStart(s)|;
    TrimEndOfSuffix(s, i);
  }

  lemma TrimEndOfSuffix(s: string, i: nat)
    requires i <= |s|
    ensures i + |TrimEnd(s[i..])| <= |s| && s[i..i + |TrimEnd(s[i..])|] == TrimEnd(s[i..])
    ensures forall k :: i + |TrimEnd(s[i..])| <= k < |s| ==> IsJsWhitespace(s[k])
  {
    var t := s[i..];
    var r := TrimEnd(t);
    assert s[i..i + |r|] == t[..|r|];
    forall k | i + |r| <= k < |s| ensures IsJsWhitespace(s[k]) {
      assert s[k] == t[k - i];
    }
  }

  /** formatOutput: remove the colour sequences, then trim. */
  function FormatOutput(output: string): (r: string)
    ensures r != [] ==> !IsJsWhitespace(r[0]) && !IsJsWhitespace(r[|r| - 1])
    ensures |r| <= |output|
  {
    Trim(StripAnsi(output))
  }

  /** TrimStart drops exactly a leading run of whitespace. */
  lemma {:induction false} TrimStartAfter(w: string, u: string)
    requires forall i :: 0 <= i < |w| ==> IsJsWhitespace(w[i])
    requires u == [] || !IsJsWhitespace(u[0])
    ensures TrimStart(w + u) == u
    decreases |w|
  {
    if w == [] {
      assert w + u == u;
    } else {
      assert (w + u)[1..] == w[1..] + u;
      TrimStartAfter(w[1..], u);
    }
  }

  /** TrimEnd drops exactly a trailing run of whitespace. */
  lemma {:induction false} TrimEndBefore(u: string, w: string)
    requires forall i :: 0 <= i < |w| ==> IsJsWhitespace(w[i])
    requires u == [] || !IsJsWhitespace(u[|u| - 1])
    ensures TrimEnd(u + w) == u
    decreases |w|
  {
    if w == [] {
      assert u + w == u;
    } else {
      var n := |w| - 1;
      assert (u + w)[..|u + w| - 1] == u + w[..n];
      TrimEndBefore(u, w[..n]);
    }
  }

  /** Trim removes exactly a whitespace border: text with non-whitespace ends between
      two runs of whitespace comes out as itself. */
  lemma TrimExact(w1: string, t: string, w2: string)
    requires forall i :: 0 <= i < |w1| ==> IsJsWhitespace(w1[i])
    requires forall i :: 0 <= i < |w2| ==> IsJsWhitespace(w2[i])
    requires t != [] && !IsJsWhitespace(t[0]) && !IsJsWhitespace(t[|t| - 1])
    ensures Trim(w1 + t + w2) == t
  {
    assert w1 + t + w2 == w1 + (t + w2);
    assert (t + w2)[0] == t[0];
    TrimStartAfter(w1, t + w2);
    TrimEndBefore(t, w2);
  }

  /** Stripping two colour sequences around ESC-free text leaves that text. */
  lemma StripTwoSgr(d1: string, a: string, d2: string, b: string)
    requires |d1| >= 1 && AllDigits(d1) && |d2| >= 1 && AllDigits(d2)
    requires Esc !in a && Esc !in b
    ensures StripAnsi(Sgr(d1) + a + Sgr(d2) + b) == a + b
  {
    var rest := a + Sgr(d2) + b;
    assert Sgr(d1) + a + Sgr(d2) + b == [] + Sgr(d1) + rest;
    StripAnsiRemovesSgr([], d1, rest);
    StripAnsiRemovesSgr(a, d2, b);
    StripAnsiNoEsc(a);
    StripAnsiNoEsc(b);
  }

  lemma FormatRemovesColoursAt(s: string, d1: string, a: string, d2: string, b: string)
    requires |d1| >= 1 && AllDigits(d1) && |d2| >= 1 && AllDigits(d2)
    requires s == Sgr(d1) + a + Sgr(d2) + b
    requires Esc !in a && Esc !in b
    requires a + b != [] && !IsJsWhitespace((a + b)[0]) && !IsJsWhitespace((a + b)[|a + b| - 1])
    ensures FormatOutput(s) == a + b
  {
    StripTwoSgr(d1, a, d2, b);
    TrimUnchanged(a + b);
  }

  /** Text with non-whitespace ends is left as it is by trim. */
  lemma TrimUnchanged(t: string)
    requires t != [] && !IsJsWhitespace(t[0]) && !IsJsWhitespace(t[|t| - 1])
    ensures Trim(t) == t
  {
    TrimExact([], t, []);
    assert [] + t + [] == t;
  }

  /** The first formatter check of the repository's own test file: colour sequences are
      removed. */
  lemma FormatRemovesColours()
    ensures FormatOutput("\U{1B}[32mSuccess\U{1B}[0m: Operation completed") == "Success: Operation completed"
  {
    FormatRemovesColoursFor("\U{1B}[32mSuccess\U{1B}[0m: Operation completed", "Success: Operation completed");
  }

  lemma FormatRemovesColoursFor(s: string, expected: string)
    requires s == "\U{1B}[32mSuccess\U{1B}[0m: Operation completed"
    requires expected == "Success: Operation completed"
    ensures FormatOutput(s) == expected
  {
    var a, b := "Success", ": Operation completed";
    ColourVectorParts(s, expected, a, b);
    assert AllDigits("32") && AllDigits("0");
    FormatRemovesColoursAt(s, "32", a, "0", b);
  }

  lemma ColourVectorParts(s: string, expected: string, a: string, b: string)
    requires s == "\U{1B}[32mSuccess\U{1B}[0m: Operation completed"
    requires expected == "Success: Operation completed"
    requires a == "Success" && b == ": Operation completed"
    ensures s == Sgr("32") + a + Sgr("0") + b && expected == a + b
    ensures Esc !in a && Esc !in b
    ensures a + b != [] && !IsJsWhitespace((a + b)[0]) && !IsJsWhitespace((a + b)[|a + b| - 1])
  {
    ColourVectorInput(s, a, b);
    ColourVectorText(expected, a, b);
  }

  lemma ColourVectorInput(s: string, a: string, b: string)
    requires s == "\U{1B}[32mSuccess\U{1B}[0m: Operation completed"
    requires a == "Success" && b == ": Operation completed"
    ensures s == Sgr("32") + a + Sgr("0") + b
  {
  }

  lemma ColourVectorText(expected: string, a: string, b: string)
    requires expected == "Success: Operation completed"
    requires a == "Success" && b == ": Operation completed"
    ensures expected == a + b
    ensures Esc !in a && Esc !in b
    ensures a + b != [] && !IsJsWhitespace((a + b)[0]) && !IsJsWhitespace((a + b)[|a + b| - 1])
  {
  }

  lemma {:induction false} FormatTrimsAt(s: string, w1: string, t: string, w2: string)
    requires s == w1 + t + w2 && Esc !in s
    requires forall i :: 0 <= i < |w1| ==> IsJsWhitespace(w1[i])
    requires forall i :: 0 <= i < |w2| ==> IsJsWhitespace(w2[i])
    requires t != [] && !IsJsWhitespace(t[0]) && !IsJsWhitespace(t[|t| - 1])
    ensures FormatOutput(s) == t
  {
    StripAnsiNoEsc(s);
    TrimExact(w1, t, w2);
  }

  /** The second formatter check of the repository's own test file: surrounding blanks
      and newlines are trimmed. */
  lemma FormatTrimsWhitespace()
    ensures FormatOutput("  \n  Result: 42\n\n") == "Result: 42"
  {
    FormatTrimsAt("  \n  Result: 42\n\n", "  \n  ", "Result: 42", "\n\n");
  }

  // ---------------------------------------------------------------------------
  // executeCommand
  // ---------------------------------------------------------------------------

  /** The `{ stdout, stderr }` value executeCommand resolves to. */
  datatype ExecResult = ExecResult(stdout: string, stderr: string)

  /** What the child process did: completed with its captured output, or failed (spawn
      error, non-zero exit, timeout) with an error message. */
  datatype ProcessOutcome = Completed(out: string, err: string) | Failed(message: string)

  const DefaultTimeout: nat := 60000
  const UnknownError: string := "Unknown error occurred during command execution"

  /** executeCommand never throws: a failure becomes an empty stdout with the error
      message, or a fixed text when the message is empty, as stderr. */
  function ExecuteResult(o: ProcessOutcome): (r: ExecResult)
    ensures o.Completed? ==> r == ExecResult(o.out, o.err)
    ensures o.Failed? ==> r.stdout == "" && r.stderr != ""
    ensures o.Failed? && o.message != "" ==> r.stderr == o.message
    ensures o.Failed? && o.message == "" ==> r.stderr == UnknownError
  {
    match o
    case Completed(out, err) => ExecResult(out, err)
    case Failed(message) => ExecResult("", OrText(Some(message), UnknownError))
  }

  /** What every tool method returns for an executor result: `Error: <stderr>` when
      there is error text and no output, otherwise the formatted output. */
  function ShapeResult(r: ExecResult): (text: string)
    ensures r.stderr != "" && r.stdout == "" ==> text == "Error: " + r.stderr
    ensures r.stderr == "" || r.stdout != "" ==> text == FormatOutput(r.stdout)
  {
    if r.stderr != "" && r.stdout == "" then "Error: " + r.stderr else FormatOutput(r.stdout)
  }

  /** A failed process always reaches the caller as an `Error: ` text carrying its
      message, or the fixed text when the message is empty. */
  lemma FailureIsReported(message: string)
    ensures ShapeResult(ExecuteResult(Failed(message))) ==
            "Error: " + (if message == "" then UnknownError else message)
  {
  }

  /** Output on stdout wins over warnings on stderr. */
  lemma OutputWinsOverWarnings(out: string, err: string)
    requires out != ""
    ensures ShapeResult(ExecuteResult(Completed(out, err))) == FormatOutput(out)
  {
  }

  /** One executor call: the command line, its timeout in milliseconds, and the result. */
  datatype Call = Call(command: string, timeout: nat, result: ExecResult)

  /** The process executor. What the operating system does with each command is given
      by `world`, an arbitrary function of the call's position, command line and
      timeout; every call is recorded in the ghost `trace`. */
  class Executor {
    const world: (nat, string, nat) -> ProcessOutcome
    var spawned: nat
    ghost var trace: seq<Call>

    ghost predicate Valid()
      reads this
    {
      spawned == |trace|
    }

    constructor (world: (nat, string, nat) -> ProcessOutcome)
      ensures Valid() && this.world == world && trace == []
    {
      this.world := world;
      spawned := 0;
      trace := [];
    }

    /** executeCommand(command, timeout) */
    method Execute(command: string, timeout: nat) returns (r: ExecResult)
      requires Valid()
      modifies this
      ensures Valid()
      ensures r == ExecuteResult(world(|old(trace)|, command, timeout))
      ensures trace == old(trace) + [Call(command, timeout, r)]
    {
      r := ExecuteResult(world(spawned, command, timeout));
      trace := trace + [Call(command, timeout, r)];
      spawned := spawned + 1;
    }
  }

  /** `after` extends `before` by exactly one call, of `command` with `timeout`, whose
      result is the catch shape of what `world` does with that call. */
  ghost predicate OneCall(before: seq<Call>, after: seq<Call>, world: (nat, string, nat) -> ProcessOutcome,
                          command: string, timeout: nat) {
    |after| == |before| + 1 && after[..|before|] == before
    && after[|before|] == Call(command, timeout, ExecuteResult(world(|before|, command, timeout)))
  }
}
