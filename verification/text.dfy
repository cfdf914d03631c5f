/**
 * The pieces of Python's string handling the parser relies on:
 * `str.strip()`, `str.split()` with no separator, and `int()` on a string.
 */
module Text {
  import opened Wrappers

  /** Python's `str.isspace()` for one character: the ASCII separators
      are whitespace, and nothing that can appear in a number is. */
  predicate IsSpace(c: char)
    ensures c == ' ' || c == '\t' || c == '\n' || c == '\r' ==> IsSpace(c)
    ensures IsDigit(c) || c == '+' || c == '-' || c == '.' || c == '_' ==> !IsSpace(c)
  {
    var n := c as int;
    9 <= n <= 13 || 28 <= n <= 32 || n == 0x85 || n == 0xA0 || n == 0x1680
    || 0x2000 <= n <= 0x200A || n == 0x2028 || n == 0x2029 || n == 0x202F
    || n == 0x205F || n == 0x3000
  }

  /** `s` without its leading whitespace. */
  function TrimStart(s: string): (r: string)
    ensures |r| <= |s|
    ensures r == [] || !IsSpace(r[0])
  {
    if s != [] && IsSpace(s[0]) then TrimStart(s[1..]) else s
  }

  /** `TrimStart` keeps a suffix of `s` and drops only whitespace. */
  lemma {:induction false} TrimStartSuffix(s: string)
    ensures forall j, k :: 0 <= k < |TrimStart(s)| && j == |s| - |TrimStart(s)| + k ==> TrimStart(s)[k] == s[j]
    ensures forall i :: 0 <= i < |s| - |TrimStart(s)| ==> IsSpace(s[i])
  {
    if s != [] && IsSpace(s[0]) {
      TrimStartSuffix(s[1..]);
      assert forall i :: 1 <= i < |s| ==> s[1..][i - 1] == s[i];
    }
  }

  /** `s` without its trailing whitespace. */
  function TrimEnd(s: string): (r: string)
    ensures |r| <= |s|
    ensures r == [] || !IsSpace(r[|r| - 1])
  {
    if s != [] && IsSpace(s[|s| - 1]) then TrimEnd(s[..|s| - 1]) else s
  }

  /** `TrimEnd` keeps a prefix of `s` and drops only whitespace. */
  lemma {:induction false} TrimEndPrefix(s: string)
    ensures forall k :: 0 <= k < |TrimEnd(s)| ==> TrimEnd(s)[k] == s[k]
    ensures forall i :: |TrimEnd(s)| <= i < |s| ==> IsSpace(s[i])
  {
    if s != [] && IsSpace(s[|s| - 1]) {
      TrimEndPrefix(s[..|s| - 1]);
    }
  }

  /** `s.strip()`: never longer than `s`, and neither starting nor ending
      with whitespace. */
  function Strip(s: string): (r: string)
    ensures |r| <= |s|
    ensures r == [] || (!IsSpace(r[0]) && !IsSpace(r[|r| - 1]))
  {
    var t := TrimStart(s);
    TrimEndPrefix(t);
    TrimEnd(t)
  }

  /** `strip()` keeps the part of `s` between a whitespace prefix and a
      whitespace suffix. */
  lemma {:induction false} StripCutsSpace(s: string)
    ensures var r := Strip(s);
            var i := |s| - |TrimStart(s)|;
            && 0 <= i <= i + |r| <= |s|
            && (forall k :: 0 <= k < |r| ==> r[k] == s[i + k])
            && (forall j :: 0 <= j < i ==> IsSpace(s[j]))
            && (forall j :: i + |r| <= j < |s| ==> IsSpace(s[j]))
  {
    TrimStartSuffix(s);
    StripKeepsMiddle(s, TrimStart(s));
    StripDropsTail(s, TrimStart(s));
  }

  lemma {:induction false} StripKeepsMiddle(s: string, t: string)
    requires t == TrimStart(s)
    ensures forall k :: 0 <= k < |TrimEnd(t)| ==> TrimEnd(t)[k] == s[|s| - |t| + k]
  {
    TrimStartSuffix(s);
    TrimEndPrefix(t);
    forall k | 0 <= k < |TrimEnd(t)|
      ensures TrimEnd(t)[k] == s[|s| - |t| + k]
    {
      assert TrimEnd(t)[k] == t[k];
      assert t[k] == s[|s| - |t| + k];
    }
  }

  lemma {:induction false} StripDropsTail(s: string, t: string)
    requires t == TrimStart(s)
    ensures forall j :: |s| - |t| + |TrimEnd(t)| <= j < |s| ==> IsSpace(s[j])
  {
    TrimStartSuffix(s);
    TrimEndPrefix(t);
    forall j | |s| - |t| + |TrimEnd(t)| <= j < |s|
      ensures IsSpace(s[j])
    {
      var k := j - (|s| - |t|);
      assert t[k] == s[j];
    }
  }

  /** A string that neither starts nor ends with whitespace is returned
      unchanged. */
  lemma {:induction false} StripKeepsTrimmed(s: string)
    requires s == [] || (!IsSpace(s[0]) && !IsSpace(s[|s| - 1]))
    ensures Strip(s) == s
  {
  }

  /** A token of `str.split()`: non-empty and free of whitespace. */
  predicate IsWord(w: string)
  {
    w != [] && forall i :: 0 <= i < |w| ==> !IsSpace(w[i])
  }

  /** Length of the longest whitespace-free prefix of `s`. */
  function WordEnd(s: string): (n: nat)
    ensures n <= |s|
    ensures n < |s| ==> IsSpace(s[n])
  {
    if s == [] || IsSpace(s[0]) then 0 else 1 + WordEnd(s[1..])
  }

  /** The prefix `WordEnd` measures has no whitespace. */
  lemma {:induction false} WordEndNoSpace(s: string)
    ensures forall i :: 0 <= i < WordEnd(s) ==> !IsSpace(s[i])
  {
    if s != [] && !IsSpace(s[0]) {
      WordEndNoSpace(s[1..]);
      assert forall i :: 1 <= i < |s| ==> s[1..][i - 1] == s[i];
    }
  }

  /** `s.split()`: the maximal runs of non-whitespace characters, in order;
      every token is non-empty and free of whitespace. */
  function Split(s: string): (r: seq<string>)
    ensures forall i :: 0 <= i < |r| ==> IsWord(r[i])
    decreases |s|
  {
    var t := TrimStart(s);
    if t == [] then []
    else
      var n := WordEnd(t);
      WordEndNoSpace(t);
      [t[..n]] + Split(t[n..])
  }

  /** `" ".join(words)`. */
  function JoinSpaced(words: seq<string>): string
  {
    if |words| == 0 then ""
    else if |words| == 1 then words[0]
    else words[0] + " " + JoinSpaced(words[1..])
  }

  lemma {:induction false} WordEndOfWord(w: string, tail: string)
    requires IsWord(w)
    requires tail == [] || IsSpace(tail[0])
    ensures WordEnd(w + tail) == |w|
  {
    if |w| > 1 {
      assert (w + tail)[1..] == w[1..] + tail;
      WordEndOfWord(w[1..], tail);
    } else {
      assert (w + tail)[1..] == tail;
    }
  }

  lemma {:induction false} SplitLeadingSpace(c: char, s: string)
    requires IsSpace(c)
    ensures Split([c] + s) == Split(s)
  {
    assert ([c] + s)[1..] == s;
  }

  /** A word followed by whitespace (or nothing) splits off as the first token. */
  lemma {:induction false} SplitWordThen(w: string, rest: string)
    requires IsWord(w)
    requires rest == [] || IsSpace(rest[0])
    ensures Split(w + rest) == [w] + Split(rest)
  {
    var s := w + rest;
    assert TrimStart(s) == s;
    WordEndOfWord(w, rest);
    assert s[..|w|] == w;
    assert s[|w|..] == rest;
  }

  lemma {:induction false} SplitSingle(w: string)
    requires IsWord(w)
    ensures Split(w) == [w]
  {
    assert w + [] == w;
    SplitWordThen(w, []);
    assert TrimStart([]) == [];
  }

  lemma {:induction false} SplitWordSpaceThen(w: string, tail: string)
    requires IsWord(w)
    ensures Split(w + ([' '] + tail)) == [w] + Split(tail)
  {
    SplitWordThen(w, [' '] + tail);
    SplitLeadingSpace(' ', tail);
  }

  /** `split()` undoes `" ".join(...)` on whitespace-free, non-empty tokens. */
  lemma {:induction false} SplitJoinSpaced(words: seq<string>)
    requires forall i :: 0 <= i < |words| ==> IsWord(words[i])
    ensures Split(JoinSpaced(words)) == words
  {
    if |words| == 1 {
      SplitSingle(words[0]);
      assert words == [words[0]];
    } else if |words| > 1 {
      var w, tail := words[0], JoinSpaced(words[1..]);
      assert JoinSpaced(words) == w + ([' '] + tail);
      SplitWordSpaceThen(w, tail);
      SplitJoinSpaced(words[1..]);
      assert words == [w] + words[1..];
    }
  }

  predicate IsDigit(c: char)
  {
    '0' <= c <= '9'
  }

  /** The digit part accepted by `int()`: a digit, then digits, each of
      which may be preceded by a single underscore. */
  predicate IsDigitBody(s: string)
  {
    |s| > 0 && IsDigit(s[0]) && IsDigitRest(s[1..])
  }

  predicate IsDigitRest(t: string)
    decreases |t|
  {
    || t == []
    || (IsDigit(t[0]) && IsDigitRest(t[1..]))
    || (|t| >= 2 && t[0] == '_' && IsDigit(t[1]) && IsDigitRest(t[2..]))
  }

  /** The shape of an accepted digit part, character by character: it starts
      and ends with a digit, holds only digits and underscores, and never two
      underscores in a row. */
  lemma {:induction false} DigitRestShape(t: string)
    requires IsDigitRest(t)
    ensures t == [] || IsDigit(t[|t| - 1])
    ensures forall i :: 0 <= i < |t| ==> IsDigit(t[i]) || t[i] == '_'
    ensures forall i :: 0 <= i < |t| - 1 && t[i] == '_' ==> IsDigit(t[i + 1])
    decreases |t|
  {
    if t != [] {
      var k := if IsDigit(t[0]) && IsDigitRest(t[1..]) then 1 else 2;
      var u := t[k..];
      DigitRestShape(u);
      assert forall i :: k <= i < |t| ==> t[i] == u[i - k];
    }
  }

  lemma {:induction false} DigitBodyShape(s: string)
    requires IsDigitBody(s)
    ensures IsDigit(s[0]) && IsDigit(s[|s| - 1])
    ensures forall i :: 0 <= i < |s| ==> IsDigit(s[i]) || s[i] == '_'
    ensures forall i :: 0 <= i < |s| - 1 && s[i] == '_' ==> IsDigit(s[i + 1])
  {
    var t := s[1..];
    DigitRestShape(t);
    assert forall i :: 1 <= i < |s| ==> s[i] == t[i - 1];
  }

  lemma {:induction false} DigitsAreDigitRest(t: string)
    requires forall i :: 0 <= i < |t| ==> IsDigit(t[i])
    ensures IsDigitRest(t)
    decreases |t|
  {
    if t != [] {
      DigitsAreDigitRest(t[1..]);
    }
  }

  /** The decimal value of the digits of `s`, underscores ignored. */
  function DigitsValue(s: string): nat
  {
    if s == [] then 0
    else
      var last := s[|s| - 1];
      var prefix := DigitsValue(s[..|s| - 1]);
      if IsDigit(last) then 10 * prefix + (last as int - '0' as int) else prefix
  }

  /** `int(s)` on an already stripped string; `None` is the `ValueError`.
      An integer literal never contains whitespace. */
  function ParseInt(s: string): (r: Option<int>)
    ensures r.Some? ==> |s| > 0 && IsDigit(s[|s| - 1])
    ensures r.Some? && r.value < 0 ==> s[0] == '-'
  {
    if |s| > 0 && (s[0] == '+' || s[0] == '-') then
      if IsDigitBody(s[1..]) then
        DigitBodyShape(s[1..]);
        var v: int := DigitsValue(s[1..]);
        Some(if s[0] == '-' then -v else v)
      else None
    else if IsDigitBody(s) then
      DigitBodyShape(s);
      Some(DigitsValue(s))
    else None
  }

  /** A string `int()` accepts contains no whitespace. */
  lemma {:induction false} ParseIntNoSpace(s: string)
    requires ParseInt(s).Some?
    ensures forall i :: 0 <= i < |s| ==> !IsSpace(s[i])
  {
    if |s| > 0 && (s[0] == '+' || s[0] == '-') {
      DigitBodyShape(s[1..]);
      assert forall i :: 1 <= i < |s| ==> s[i] == s[1..][i - 1];
    } else {
      DigitBodyShape(s);
    }
  }

  function DigitChar(d: nat): (c: char)
    requires d < 10
    ensures IsDigit(c) && c as int - '0' as int == d
  {
    ('0' as int + d) as char
  }

  /** `str(n)` for a natural number. */
  function NatToString(n: nat): (s: string)
    ensures |s| > 0 && forall i :: 0 <= i < |s| ==> IsDigit(s[i])
  {
    if n < 10 then [DigitChar(n)] else NatToString(n / 10) + [DigitChar(n % 10)]
  }

  /** `str(n)` for an integer. */
  function IntToString(n: int): string
  {
    if n < 0 then "-" + NatToString(-n) else NatToString(n)
  }

  lemma {:induction false} NatToStringValue(n: nat)
    ensures DigitsValue(NatToString(n)) == n
  {
    var s := NatToString(n);
    if n >= 10 {
      assert s[..|s| - 1] == NatToString(n / 10);
      NatToStringValue(n / 10);
    }
  }

  /** `int(str(n)) == n`: the count parser reads back every integer. */
  lemma {:induction false} ParseIntToString(n: int)
    ensures ParseInt(IntToString(n)) == Some(n)
  {
    var m: nat := if n < 0 then -n else n;
    var d := NatToString(m);
    NatToStringValue(m);
    DigitsAreDigitRest(d[1..]);
    if n < 0 {
      assert IntToString(n)[1..] == d;
    }
  }
}
