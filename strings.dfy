/** The handful of Python string operations the scanner relies on, written
    out so that their edge cases are explicit: `str.lower`, `str.strip`,
    `str.startswith`, `sep.join`, `file.readlines`, slicing a line list,
    `str(int)`, `s[-n:]` and `shlex.quote`. */
module Strings {

  // ---------------------------------------------------------------------
  // Case folding (`str.lower`), restricted to ASCII letters.
  // ---------------------------------------------------------------------

  predicate IsAsciiUpper(c: char) { 'A' <= c <= 'Z' }

  function LowerChar(c: char): char
  {
    if IsAsciiUpper(c) then (c as int + 32) as char else c
  }

  /** `s.lower()`: every upper-case ASCII letter replaced by its lower-case
      form, everything else kept in place. */
  function Lower(s: string): (r: string)
    ensures |r| == |s|
    ensures forall i :: 0 <= i < |r| ==> !IsAsciiUpper(r[i])
    ensures forall i :: 0 <= i < |r| && !IsAsciiUpper(s[i]) ==> r[i] == s[i]
  {
    seq(|s|, i requires 0 <= i < |s| => LowerChar(s[i]))
  }

  /** Lower-casing twice is lower-casing once: a registry key, which is
      stored lower-cased, is found again by the lower-cased lookup. */
  lemma LowerIdempotent(s: string)
    ensures Lower(Lower(s)) == Lower(s)
  {
    var once := Lower(s);
    assert forall i :: 0 <= i < |once| ==> LowerChar(once[i]) == once[i];
  }

  // ---------------------------------------------------------------------
  // Whitespace trimming (`str.strip()` with no argument).
  // ---------------------------------------------------------------------

  /** The characters Python's `str.isspace` accepts. */
  predicate IsSpace(c: char)
  {
    c == ' ' || c == '\t' || c == '\n' || c == '\r' || c == '\U{0B}' || c == '\U{0C}'
    || ('\U{1C}' <= c <= '\U{1F}')
    || c == '\U{85}' || c == '\U{A0}' || c == '\U{1680}'
    || ('\U{2000}' <= c <= '\U{200A}')
    || c == '\U{2028}' || c == '\U{2029}' || c == '\U{202F}' || c == '\U{205F}' || c == '\U{3000}'
  }

  /** Leading whitespace removed: the longest suffix of `s` that does not
      start with whitespace. */
  function TrimStart(s: string): (r: string)
    ensures |r| <= |s| && r == s[|s| - |r|..]
    ensures r == [] || !IsSpace(r[0])
    ensures forall k :: 0 <= k < |s| - |r| ==> IsSpace(s[k])
  {
    if s == [] || !IsSpace(s[0]) then s else TrimStart(s[1..])
  }

  /** Trailing whitespace removed: the longest prefix of `s` that does not
      end with whitespace. */
  function TrimEnd(s: string): (r: string)
    ensures |r| <= |s| && r == s[..|r|]
    ensures r == [] || !IsSpace(r[|r| - 1])
    ensures forall k :: |r| <= k < |s| ==> IsSpace(s[k])
  {
    if s == [] || !IsSpace(s[|s| - 1]) then s else TrimEnd(s[..|s| - 1])
  }

  function Strip(s: string): string
  {
    TrimEnd(TrimStart(s))
  }

  /** Where the stripped text starts inside `s`. */
  function StripOffset(s: string): nat
  {
    |s| - |TrimStart(s)|
  }

  /** `s.strip()` is empty exactly when `s` holds nothing but whitespace;
      otherwise it is the slice of `s` at `StripOffset(s)` and neither
      starts nor ends with whitespace. */
  lemma StripCharacterised(s: string)
    ensures Strip(s) == [] <==> forall k :: 0 <= k < |s| ==> IsSpace(s[k])
    ensures Strip(s) != [] ==> !IsSpace(Strip(s)[0]) && !IsSpace(Strip(s)[|Strip(s)| - 1])
    ensures StripOffset(s) + |Strip(s)| <= |s|
    ensures Strip(s) == s[StripOffset(s)..StripOffset(s) + |Strip(s)|]
  {
    StripEmptyIff(s);
    StripSlice(s);
  }

  lemma StripEmptyIff(s: string)
    ensures Strip(s) == [] <==> forall k :: 0 <= k < |s| ==> IsSpace(s[k])
    ensures Strip(s) != [] ==> !IsSpace(Strip(s)[0])
  {
    var t := TrimStart(s);
    var r := TrimEnd(t);
    if r == [] {
      assert t == [];
    } else {
      assert r[0] == t[0] == s[|s| - |t|];
    }
  }

  lemma StripSlice(s: string)
    ensures StripOffset(s) + |Strip(s)| <= |s|
    ensures Strip(s) == s[StripOffset(s)..StripOffset(s) + |Strip(s)|]
  {
    var t := TrimStart(s);
    var r := TrimEnd(t);
    var off := |s| - |t|;
    assert t == s[off..];
    assert r == t[..|r|];
    assert s[off..][..|r|] == s[off..off + |r|];
  }

  /** Stripping an already stripped string changes nothing. */
  lemma StripIdempotent(s: string)
    ensures Strip(Strip(s)) == Strip(s)
  {
    var r := Strip(s);
    StripCharacterised(s);
    if r != [] {
      assert TrimStart(r) == r;
      assert TrimEnd(r) == r;
    }
  }

  // ---------------------------------------------------------------------
  // Prefixes, joining, concatenation.
  // ---------------------------------------------------------------------

  predicate StartsWith(s: string, prefix: string)
  {
    |prefix| <= |s| && s[..|prefix|] == prefix
  }

  lemma StartsWithConcat(a: string, b: string)
    ensures StartsWith(a + b, a)
  {
    assert (a + b)[..|a|] == a;
  }

  predicate EndsWith(s: string, suffix: string)
  {
    |suffix| <= |s| && s[|s| - |suffix|..] == suffix
  }

  /** `sep.join(parts)`. */
  function Join(sep: string, parts: seq<string>): string
  {
    if |parts| == 0 then ""
    else if |parts| == 1 then parts[0]
    else parts[0] + sep + Join(sep, parts[1..])
  }

  /** `"".join(parts)`, also what `writelines` puts in a file. */
  function Concat(parts: seq<string>): string
  {
    if parts == [] then "" else parts[0] + Concat(parts[1..])
  }

  lemma {:induction false} ConcatAppend(a: seq<string>, b: seq<string>)
    ensures Concat(a + b) == Concat(a) + Concat(b)
  {
    if a == [] {
      assert a + b == b;
    } else {
      assert (a + b)[1..] == a[1..] + b;
      ConcatAppend(a[1..], b);
    }
  }

  // ---------------------------------------------------------------------
  // Lines, as `file.readlines()` returns them: each line keeps its '\n',
  // the last one may lack it, and an empty text has no lines.
  // ---------------------------------------------------------------------

  /** Length of the first line of a non-empty text, its '\n' included. */
  function FirstLineLength(s: string): (n: nat)
    requires s != []
    ensures 0 < n <= |s|
    ensures n < |s| ==> s[n - 1] == '\n'
    ensures forall k :: 0 <= k < n - 1 ==> s[k] != '\n'
  {
    if s[0] == '\n' || |s| == 1 then 1 else 1 + FirstLineLength(s[1..])
  }

  function Lines(s: string): seq<string>
    decreases |s|
  {
    if s == [] then [] else
      var n := FirstLineLength(s);
      [s[..n]] + Lines(s[n..])
  }

  /** Every line holds at least one character, and every line but the last
      ends with '\n'. */
  lemma {:induction false} LinesShape(s: string)
    ensures forall i :: 0 <= i < |Lines(s)| ==> Lines(s)[i] != []
    ensures forall i :: 0 <= i < |Lines(s)| - 1 ==> Lines(s)[i][|Lines(s)[i]| - 1] == '\n'
    decreases |s|
  {
    if s != [] {
      var n := FirstLineLength(s);
      LinesShape(s[n..]);
      assert forall i :: 1 <= i < |Lines(s)| ==> Lines(s)[i] == Lines(s[n..])[i - 1];
    }
  }

  /** Splitting into lines loses nothing: joining the lines gives the text
      back. */
  lemma {:induction false} LinesConcat(s: string)
    ensures Concat(Lines(s)) == s
    decreases |s|
  {
    if s != [] {
      var n := FirstLineLength(s);
      LinesConcat(s[n..]);
      ConcatCons(s[..n], Lines(s[n..]));
      SplitJoin(s, n);
    }
  }

  lemma ConcatCons(x: string, rest: seq<string>)
    ensures Concat([x] + rest) == x + Concat(rest)
  {
    assert ([x] + rest)[1..] == rest;
  }

  lemma SplitJoin<T>(s: seq<T>, n: nat)
    requires n <= |s|
    ensures s[..n] + s[n..] == s
  {
  }

  /** No line holds a '\n' except as its last character. */
  lemma {:induction false} LinesHaveNoInnerNewline(s: string, i: nat, k: nat)
    requires i < |Lines(s)| && k + 1 < |Lines(s)[i]|
    ensures Lines(s)[i][k] != '\n'
    decreases |s|
  {
    var n := FirstLineLength(s);
    if i > 0 {
      LinesHaveNoInnerNewline(s[n..], i - 1, k);
    }
  }

  /** `"".join(lines[:n])`: the first `n` lines, or the whole text when it
      has fewer. */
  function TakeLines(s: string, n: nat): string
  {
    var lines := Lines(s);
    if n < |lines| then Concat(lines[..n]) else Concat(lines)
  }

  /** `"".join(lines[n:])`: the text after its first `n` lines, empty when
      it has no more than `n` lines. */
  function DropLines(s: string, n: nat): string
  {
    var lines := Lines(s);
    if n < |lines| then Concat(lines[n..]) else ""
  }

  /** Dropping the first `n` lines keeps exactly the rest of the text: what
      is dropped and what is kept add up to the whole, the kept part is a
      suffix, and nothing is kept when there are at most `n` lines. */
  lemma TakeDropLines(s: string, n: nat)
    ensures TakeLines(s, n) + DropLines(s, n) == s
    ensures EndsWith(s, DropLines(s, n))
    ensures n >= |Lines(s)| ==> DropLines(s, n) == "" && TakeLines(s, n) == s
  {
    var lines := Lines(s);
    LinesConcat(s);
    if n < |lines| {
      assert lines == lines[..n] + lines[n..];
      ConcatAppend(lines[..n], lines[n..]);
    }
  }

  // ---------------------------------------------------------------------
  // `s[-n:]` for a positive n.
  // ---------------------------------------------------------------------

  /** The last `n` characters of `s`, or all of `s` when it is shorter. */
  function Tail(s: string, n: nat): (r: string)
    ensures |r| == if |s| < n then |s| else n
    ensures EndsWith(s, r)
  {
    if |s| <= n then s else s[|s| - n..]
  }

  // ---------------------------------------------------------------------
  // `str(i)` for an integer: decimal digits, '-' for negatives.
  // ---------------------------------------------------------------------

  function DigitChar(d: nat): char
    requires d < 10
  {
    "0123456789"[d]
  }

  function NatToString(n: nat): (r: string)
    ensures r != [] && forall k :: 0 <= k < |r| ==> '0' <= r[k] <= '9'
  {
    if n < 10 then [DigitChar(n)] else NatToString(n / 10) + [DigitChar(n % 10)]
  }

  function IntToString(i: int): string
  {
    if i < 0 then "-" + NatToString(-i) else NatToString(i)
  }

  // ---------------------------------------------------------------------
  // `shlex.quote`.
  // ---------------------------------------------------------------------

  /** The characters `shlex.quote` leaves unquoted: ASCII letters, digits
      and `_@%+=:,./-`. */
  predicate IsShellSafe(c: char)
  {
    ('a' <= c <= 'z') || ('A' <= c <= 'Z') || ('0' <= c <= '9')
    || c == '_' || c == '@' || c == '%' || c == '+' || c == '=' || c == ':'
    || c == ',' || c == '.' || c == '/' || c == '-'
  }

  /** Every single quote replaced by `'"'"'` (close, quoted quote, reopen). */
  function EscapeSingleQuotes(s: string): (r: string)
    ensures |r| >= |s|
  {
    if s == [] then ""
    else (if s[0] == '\'' then "'\"'\"'" else [s[0]]) + EscapeSingleQuotes(s[1..])
  }

  predicate AllShellSafe(s: string)
  {
    forall k :: 0 <= k < |s| ==> IsShellSafe(s[k])
  }

  function ShellQuote(s: string): string
  {
    if s == [] then "''"
    else if AllShellSafe(s) then s
    else "'" + EscapeSingleQuotes(s) + "'"
  }

  /** A word made of safe characters only passes through unchanged; any
      other word, the empty one included, comes back wrapped in single
      quotes. */
  lemma ShellQuoteShape(s: string)
    ensures s != [] && AllShellSafe(s) ==> ShellQuote(s) == s
    ensures s == [] || !AllShellSafe(s) ==>
      |ShellQuote(s)| >= 2 && ShellQuote(s)[0] == '\'' && ShellQuote(s)[|ShellQuote(s)| - 1] == '\''
  {
  }
}
