/**
 * String helpers the handlers rely on: JavaScript's `trim`, `split(',')`
 * and the decimal rendering of integers inside template strings.
 */
module Text {

  /** The characters JavaScript's `trim` removes (its WhiteSpace and LineTerminator sets). */
  predicate IsWhitespace(c: char)
  {
    c == ' ' || c == '\t' || c == '\n' || c == '\r' || c == '\U{000B}' || c == '\U{000C}'
    || c == '\U{00A0}' || c == '\U{1680}' || ('\U{2000}' <= c <= '\U{200A}')
    || c == '\U{2028}' || c == '\U{2029}' || c == '\U{202F}' || c == '\U{205F}'
    || c == '\U{3000}' || c == '\U{FEFF}'
  }

  /** True when every character is whitespace (the empty string included). */
  predicate IsBlank(s: string)
  {
    forall i :: 0 <= i < |s| ==> IsWhitespace(s[i])
  }

  /** `s` without its leading whitespace. */
  function TrimStart(s: string): (r: string)
    ensures |r| <= |s| && r == s[|s| - |r|..]
    ensures r == [] || !IsWhitespace(r[0])
    ensures IsBlank(s[..|s| - |r|])
    ensures r == [] <==> IsBlank(s)
  {
    if s != [] && IsWhitespace(s[0]) then
      var t := s[1..];
      var r := TrimStart(t);
      assert t[|t| - |r|..] == s[|s| - |r|..];
      var cut, cutT := s[..|s| - |r|], t[..|t| - |r|];
      forall k | 0 <= k < |cut|
        ensures IsWhitespace(cut[k])
      {
        if k > 0 {
          assert cut[k] == cutT[k - 1];
        }
      }
      assert IsBlank(t) <==> IsBlank(s) by {
        if IsBlank(t) {
          forall k | 0 <= k < |s|
            ensures IsWhitespace(s[k])
          {
            if k > 0 {
              assert s[k] == t[k - 1];
            }
          }
        }
        if IsBlank(s) {
          forall k | 0 <= k < |t|
            ensures IsWhitespace(t[k])
          {
            assert t[k] == s[k + 1];
          }
        }
      }
      r
    else s
  }

  /** `s` without its trailing whitespace. */
  function TrimEnd(s: string): (r: string)
    ensures |r| <= |s| && r == s[..|r|]
    ensures r == [] || !IsWhitespace(r[|r| - 1])
    ensures IsBlank(s[|r|..])
    ensures r == [] <==> IsBlank(s)
  {
    if s != [] && IsWhitespace(s[|s| - 1]) then
      var t := s[..|s| - 1];
      var r := TrimEnd(t);
      assert t[..|r|] == s[..|r|];
      var cut, cutT := s[|r|..], t[|r|..];
      forall k | 0 <= k < |cut|
        ensures IsWhitespace(cut[k])
      {
        if k < |cutT| {
          assert cut[k] == cutT[k];
        }
      }
      assert IsBlank(t) <==> IsBlank(s) by {
        if IsBlank(t) {
          forall k | 0 <= k < |s|
            ensures IsWhitespace(s[k])
          {
            if k < |t| {
              assert s[k] == t[k];
            }
          }
        }
      }
      r
    else s
  }

  /** JavaScript's `String.prototype.trim`. */
  function Trim(s: string): (r: string)
    ensures |r| <= |s|
    ensures r == [] || (!IsWhitespace(r[0]) && !IsWhitespace(r[|r| - 1]))
    ensures r == [] <==> IsBlank(s)
  {
    var a := TrimStart(s);
    assert IsBlank(a) ==> IsBlank(s) by {
      assert s == s[..|s| - |a|] + a;
    }
    TrimEnd(a)
  }

  /** What trimming keeps is a slice of the input with only whitespace around it. */
  lemma TrimSlice(s: string) returns (i: nat, j: nat)
    ensures i <= j <= |s| && Trim(s) == s[i..j]
    ensures IsBlank(s[..i]) && IsBlank(s[j..])
  {
    var a := TrimStart(s);
    var r := TrimEnd(a);
    i, j := |s| - |a|, |s| - |a| + |r|;
    assert s[j..] == a[|r|..];
  }

  /** A string with no surrounding whitespace is its own trim. */
  lemma TrimIdempotent(s: string)
    ensures Trim(Trim(s)) == Trim(s)
  {
    var t := Trim(s);
    assert TrimStart(t) == t;
    assert TrimEnd(t) == t;
  }

  /** JavaScript's `s.split(sep)` for a one-character separator: never empty, "" gives [""]. */
  function Split(s: string, sep: char): (parts: seq<string>)
    ensures |parts| >= 1
    ensures forall k :: 0 <= k < |parts| ==> sep !in parts[k]
  {
    if s == [] then [[]]
    else
      var rest := Split(s[1..], sep);
      if s[0] == sep then [[]] + rest else [[s[0]] + rest[0]] + rest[1..]
  }

  /** JavaScript's `parts.join(sep)`. */
  function Join(parts: seq<string>, sep: char): string
    requires |parts| >= 1
  {
    if |parts| == 1 then parts[0] else parts[0] + [sep] + Join(parts[1..], sep)
  }

  /** Splitting and joining again gives back the original string. */
  lemma {:induction false} JoinSplit(s: string, sep: char)
    ensures Join(Split(s, sep), sep) == s
  {
    if s != [] {
      var rest := Split(s[1..], sep);
      JoinSplit(s[1..], sep);
      if s[0] == sep {
        assert Split(s, sep)[1..] == rest;
      } else {
        var parts := Split(s, sep);
        if |rest| == 1 {
          assert parts == [[s[0]] + rest[0]];
        } else {
          assert parts[1..] == rest[1..];
          assert Join(rest, sep) == rest[0] + [sep] + Join(rest[1..], sep);
        }
      }
    }
  }

  /** The digit character of a value below ten. */
  function DigitChar(d: nat): (c: char)
    requires d < 10
    ensures '0' <= c <= '9'
  {
    ['0', '1', '2', '3', '4', '5', '6', '7', '8', '9'][d]
  }

  /** The value of a digit character. */
  function DigitValue(c: char): (d: nat)
    requires '0' <= c <= '9'
    ensures d < 10 && DigitChar(d) == c
  {
    if c == '0' then 0 else if c == '1' then 1 else if c == '2' then 2 else if c == '3' then 3
    else if c == '4' then 4 else if c == '5' then 5 else if c == '6' then 6 else if c == '7' then 7
    else if c == '8' then 8 else 9
  }

  predicate IsDigits(s: string)
  {
    forall i :: 0 <= i < |s| ==> '0' <= s[i] <= '9'
  }

  /** The decimal rendering of a natural number, as `${n}` gives it: no leading zeros. */
  function NatToString(n: nat): (s: string)
    ensures |s| >= 1 && IsDigits(s)
    ensures s[0] == '0' ==> n == 0
  {
    if n < 10 then [DigitChar(n)] else NatToString(n / 10) + [DigitChar(n % 10)]
  }

  /** The value of a string of decimal digits. */
  function ParseNat(s: string): nat
    requires IsDigits(s)
  {
    if s == [] then 0 else 10 * ParseNat(s[..|s| - 1]) + DigitValue(s[|s| - 1])
  }

  /** Reading back a rendered number gives the number. */
  lemma {:induction false} ParseNatString(n: nat)
    ensures ParseNat(NatToString(n)) == n
  {
    if n >= 10 {
      var s := NatToString(n);
      assert s[..|s| - 1] == NatToString(n / 10);
      ParseNatString(n / 10);
    }
  }

  /** The decimal rendering of an integer, with a leading '-' when negative. */
  function IntToString(i: int): (s: string)
    ensures |s| >= 1
    ensures s[0] == '-' <==> i < 0
  {
    if i < 0 then "-" + NatToString(-i) else NatToString(i)
  }

  /** After the sign, the rendering is the decimal digits of the magnitude. */
  lemma IntToStringDigits(i: int)
    ensures i >= 0 ==> IsDigits(IntToString(i)) && ParseNat(IntToString(i)) == i
    ensures i < 0 ==> IsDigits(IntToString(i)[1..]) && ParseNat(IntToString(i)[1..]) == -i
  {
    if i < 0 {
      var digits := NatToString(-i);
      assert IntToString(i) == "-" + digits;
      assert ("-" + digits)[1..] == digits;
      ParseNatString(-i);
    } else {
      ParseNatString(i);
    }
  }
}
