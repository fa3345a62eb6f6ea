/**
 * The JavaScript string operations the two API clients apply to their
 * credentials and error messages: `String.prototype.trim`, the global
 * regular-expression replacement `replace(/^"|"$/g, "")`, and the decimal
 * rendering of a non-negative integer inside a template literal.
 */
module JsText {

  /** The code points `String.prototype.trim` removes: WhiteSpace and
      LineTerminator of ECMA-262 (sections 12.2 and 12.3), with the Unicode
      space separators (category Zs) written out. */
  predicate IsWhiteSpace(c: char)
  {
    c == '\t' || c == '\n' || c == '\U{000B}' || c == '\U{000C}' || c == '\r'
    || c == ' ' || c == '\U{00A0}' || c == '\U{1680}'
    || ('\U{2000}' <= c <= '\U{200A}')
    || c == '\U{2028}' || c == '\U{2029}' || c == '\U{202F}' || c == '\U{205F}'
    || c == '\U{3000}' || c == '\U{FEFF}'
  }

  /** Every character of s in [lo, hi) is white space. */
  ghost predicate WhiteSpaceBetween(s: string, lo: int, hi: int)
    requires 0 <= lo && hi <= |s|
  {
    forall k :: lo <= k < hi ==> IsWhiteSpace(s[k])
  }

  /** s[i..j] is what trimming s must keep: only white space lies outside
      it, and it neither starts nor ends with white space. */
  ghost predicate TrimSplit(s: string, i: int, j: int)
  {
    && 0 <= i <= j <= |s|
    && WhiteSpaceBetween(s, 0, i)
    && WhiteSpaceBetween(s, j, |s|)
    && (i < j ==> !IsWhiteSpace(s[i]) && !IsWhiteSpace(s[j - 1]))
  }

  /** r is the result of trimming s, stated without saying how to compute it. */
  ghost predicate IsTrimOf(s: string, r: string)
  {
    exists i, j :: TrimSplit(s, i, j) && r == s[i..j]
  }

  /** Removes leading white space. */
  function TrimStart(s: string): (r: string)
    ensures |r| <= |s| && r == s[|s| - |r|..]
    ensures WhiteSpaceBetween(s, 0, |s| - |r|)
    ensures |r| > 0 ==> !IsWhiteSpace(r[0])
  {
    if |s| > 0 && IsWhiteSpace(s[0]) then TrimStart(s[1..]) else s
  }

  /** Removes trailing white space. */
  function TrimEnd(s: string): (r: string)
    ensures |r| <= |s| && r == s[..|r|]
    ensures WhiteSpaceBetween(s, |r|, |s|)
    ensures |r| > 0 ==> !IsWhiteSpace(r[|r| - 1])
  {
    if |s| > 0 && IsWhiteSpace(s[|s| - 1]) then TrimEnd(s[..|s| - 1]) else s
  }

  /** `String.prototype.trim`. */
  function Trim(s: string): (r: string)
    ensures IsTrimOf(s, r)
  {
    var r := TrimEnd(TrimStart(s));
    TrimKeepsSplit(s);
    r
  }

  /** The split that TrimStart followed by TrimEnd leaves satisfies TrimSplit. */
  lemma TrimKeepsSplit(s: string)
    ensures IsTrimOf(s, TrimEnd(TrimStart(s)))
  {
    var t := TrimStart(s);
    var r := TrimEnd(t);
    var i := |s| - |t|;
    assert r == s[i..i + |r|];
    TrailingWhiteSpace(s, t, r);
    assert |r| > 0 ==> r[0] == t[0];
    assert TrimSplit(s, i, i + |r|);
  }

  /** What TrimEnd cuts from a suffix t of s is white space of s. */
  lemma TrailingWhiteSpace(s: string, t: string, r: string)
    requires |t| <= |s| && t == s[|s| - |t|..]
    requires |r| <= |t| && WhiteSpaceBetween(t, |r|, |t|)
    ensures WhiteSpaceBetween(s, |s| - |t| + |r|, |s|)
  {
    var i := |s| - |t|;
    forall k | i + |r| <= k < |s| ensures IsWhiteSpace(s[k]) {
      assert s[k] == t[k - i];
    }
  }

  /** Two splits that both satisfy TrimSplit keep the same characters. */
  lemma TrimSplitUnique(s: string, i: int, j: int, i': int, j': int)
    requires TrimSplit(s, i, j) && TrimSplit(s, i', j')
    ensures s[i..j] == s[i'..j']
  {
    assert i < j ==> i' <= i && j <= j';
    assert i' < j' ==> i <= i' && j' <= j;
  }

  /** Trim is the one and only string that IsTrimOf describes. */
  lemma TrimCharacterized(s: string, r: string)
    ensures IsTrimOf(s, r) <==> r == Trim(s)
  {
    if IsTrimOf(s, r) {
      var i, j :| TrimSplit(s, i, j) && r == s[i..j];
      var i', j' :| TrimSplit(s, i', j') && Trim(s) == s[i'..j'];
      TrimSplitUnique(s, i, j, i', j');
    }
  }

  /** Trimming twice is trimming once. */
  lemma TrimIdempotent(s: string)
    ensures Trim(Trim(s)) == Trim(s)
  {
    var r := Trim(s);
    var i, j :| TrimSplit(s, i, j) && r == s[i..j];
    assert TrimSplit(r, 0, |r|);
    assert r == r[0..|r|];
    TrimCharacterized(r, r);
  }

  /** Where the pattern `^"|"$` matches: a double quote that is the first
      or the last character of s. */
  predicate QuoteMatchAt(s: string, k: int)
    requires 0 <= k < |s|
  {
    s[k] == '"' && (k == 0 || k == |s| - 1)
  }

  /** The characters of s from position k on that no match of `^"|"$`
      covers, in order: a global replacement by "" seen position by
      position. Both alternatives match exactly one character, so the
      matches never overlap. */
  function Unmatched(s: string, k: nat): (r: string)
    requires k <= |s|
    decreases |s| - k
  {
    if k == |s| then []
    else (if QuoteMatchAt(s, k) then [] else [s[k]]) + Unmatched(s, k + 1)
  }

  /** `replace(/^"|"$/g, "")`: at most one leading and one trailing double
      quote is removed; a lone `"` becomes the empty string. */
  function StripQuotes(s: string): (r: string)
    ensures |s| - 2 <= |r| <= |s|
    ensures s == "\"" ==> r == ""
  {
    var t := if |s| > 0 && s[0] == '"' then s[1..] else s;
    if |t| > 0 && t[|t| - 1] == '"' then t[..|t| - 1] else t
  }

  /** Between the first and the last position nothing is removed. */
  lemma {:induction false} UnmatchedMiddle(s: string, k: nat)
    requires 1 <= k <= |s| - 1
    ensures Unmatched(s, k) == s[k..|s| - 1] + (if s[|s| - 1] == '"' then [] else [s[|s| - 1]])
    decreases |s| - k
  {
    if k < |s| - 1 {
      UnmatchedMiddle(s, k + 1);
      assert s[k..|s| - 1] == [s[k]] + s[k + 1..|s| - 1];
    } else {
      assert Unmatched(s, k + 1) == [];
    }
  }

  /** StripQuotes deletes exactly the characters the global regular
      expression matches. */
  lemma StripQuotesIsGlobalReplace(s: string)
    ensures StripQuotes(s) == Unmatched(s, 0)
  {
    if |s| == 1 {
      assert Unmatched(s, 1) == [];
    } else if |s| >= 2 {
      UnmatchedMiddle(s, 1);
      assert Unmatched(s, 0) == (if s[0] == '"' then [] else [s[0]]) + Unmatched(s, 1);
      if s[0] == '"' {
        LeadingQuote(s);
      } else {
        NoLeadingQuote(s);
      }
    }
  }

  /** A leading quote is dropped, and the rest is stripped at its end only. */
  lemma LeadingQuote(s: string)
    requires |s| >= 2 && s[0] == '"'
    ensures StripQuotes(s) == s[1..|s| - 1] + (if s[|s| - 1] == '"' then [] else [s[|s| - 1]])
  {
    assert s[1..] == s[1..|s| - 1] + [s[|s| - 1]];
  }

  /** Without a leading quote only the end is stripped. */
  lemma NoLeadingQuote(s: string)
    requires |s| >= 2 && s[0] != '"'
    ensures StripQuotes(s) == [s[0]] + s[1..|s| - 1] + (if s[|s| - 1] == '"' then [] else [s[|s| - 1]])
  {
    assert s == [s[0]] + s[1..|s| - 1] + [s[|s| - 1]];
  }

  /** The quote stripping empties exactly "", `"` and `""`. */
  lemma StripQuotesEmpty(s: string)
    ensures StripQuotes(s) == "" <==> s == "" || s == "\"" || s == "\"\""
  {
    if StripQuotes(s) == "" && |s| == 2 {
      assert s[0] == '"' && s[1] == '"';
      assert s == "\"\"";
    }
  }

  predicate IsDigit(c: char)
  {
    '0' <= c <= '9'
  }

  ghost predicate AllDigits(s: string)
  {
    forall k :: 0 <= k < |s| ==> IsDigit(s[k])
  }

  function DecimalDigit(d: nat): (c: char)
    requires d < 10
    ensures IsDigit(c)
  {
    ('0' as int + d) as char
  }

  /** The decimal digits of n, as `${n}` renders a non-negative integer
      number: no sign and no leading zero. */
  function DecimalString(n: nat): (r: string)
    ensures |r| > 0 && AllDigits(r)
    ensures r[0] == '0' ==> n == 0 && r == "0"
    decreases n
  {
    if n < 10 then [DecimalDigit(n)] else DecimalString(n / 10) + [DecimalDigit(n % 10)]
  }

  /** The number a string of decimal digits denotes. */
  function DecimalValue(s: string): nat
    requires AllDigits(s)
  {
    if s == [] then 0
    else DecimalValue(s[..|s| - 1]) * 10 + (s[|s| - 1] as int - '0' as int)
  }

  /** Reading the rendered digits back gives the number. */
  lemma {:induction false} DecimalRoundTrip(n: nat)
    ensures DecimalValue(DecimalString(n)) == n
    decreases n
  {
    var r := DecimalString(n);
    if n >= 10 {
      DecimalRoundTrip(n / 10);
      assert r[..|r| - 1] == DecimalString(n / 10);
    }
  }
}
