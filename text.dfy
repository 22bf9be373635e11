/** String helpers the application gets from Python: decimal formatting of a
    counter, the `prefix (n)` session-name candidates, `str.strip()` and the
    lower-casing used to recognise the search tool's name. */
module Text {

  /** The decimal digit for `d`. */
  function DigitChar(d: nat): (c: char)
    requires d < 10
    ensures '0' <= c <= '9'
  {
    (('0' as int) + d) as char
  }

  /** The value of a decimal digit character. */
  function DigitValue(c: char): nat
  {
    if '0' <= c <= '9' then (c as int) - ('0' as int) else 0
  }

  /** `str(n)` for a non-negative integer: its decimal digits. */
  function NatToString(n: nat): (s: string)
    ensures |s| >= 1
    ensures forall i :: 0 <= i < |s| ==> '0' <= s[i] <= '9'
    decreases n
  {
    if n < 10 then [DigitChar(n)] else NatToString(n / 10) + [DigitChar(n % 10)]
  }

  /** Reads a string of decimal digits back as a number. */
  function ParseNat(s: string): nat
  {
    if s == [] then 0 else ParseNat(s[..|s| - 1]) * 10 + DigitValue(s[|s| - 1])
  }

  /** Decimal formatting can be undone: it loses nothing. */
  lemma {:induction false} ParseNatToString(n: nat)
    ensures ParseNat(NatToString(n)) == n
    decreases n
  {
    var s := NatToString(n);
    if n < 10 {
      assert s[..|s| - 1] == [];
    } else {
      assert s[..|s| - 1] == NatToString(n / 10);
      ParseNatToString(n / 10);
    }
  }

  /** Different counters are formatted differently. */
  lemma NatToStringInjective(a: nat, b: nat)
    ensures NatToString(a) == NatToString(b) ==> a == b
  {
    ParseNatToString(a);
    ParseNatToString(b);
  }

  /** The `k`-th name `create_new_session_db` tries: the prefix itself for
      k = 0, and `prefix (k)` after that. */
  function SessionName(prefix: string, k: nat): string
  {
    if k == 0 then prefix else prefix + " (" + NatToString(k) + ")"
  }

  /** Every probe tries a name not tried before. */
  lemma {:induction false} SessionNameInjective(prefix: string, j: nat, k: nat)
    ensures SessionName(prefix, j) == SessionName(prefix, k) ==> j == k
  {
    if j != k {
      if j == 0 || k == 0 {
        assert |SessionName(prefix, j)| != |SessionName(prefix, k)|;
      } else if SessionName(prefix, j) == SessionName(prefix, k) {
        var a, b := NatToString(j), NatToString(k);
        var n := SessionName(prefix, j);
        assert |a| == |b|;
        assert n[|prefix| + 2 .. |prefix| + 2 + |a|] == a;
        assert SessionName(prefix, k)[|prefix| + 2 .. |prefix| + 2 + |b|] == b;
        NatToStringInjective(j, k);
      }
    }
  }

  /** The names tried before the `n`-th probe. */
  function NamesBelow(prefix: string, n: nat): (names: set<string>)
    ensures forall k :: 0 <= k < n ==> SessionName(prefix, k) in names
  {
    if n == 0 then {} else NamesBelow(prefix, n - 1) + {SessionName(prefix, n - 1)}
  }

  /** A probe's name is not among the names tried before it. */
  lemma {:induction false} NotTriedBefore(prefix: string, j: nat, m: nat)
    requires m <= j
    ensures SessionName(prefix, j) !in NamesBelow(prefix, m)
  {
    if m > 0 {
      NotTriedBefore(prefix, j, m - 1);
      SessionNameInjective(prefix, m - 1, j);
    }
  }

  /** The first `n` probes try `n` different names. */
  lemma {:induction false} NamesBelowCount(prefix: string, n: nat)
    ensures |NamesBelow(prefix, n)| == n
  {
    if n > 0 {
      NamesBelowCount(prefix, n - 1);
      NotTriedBefore(prefix, n - 1, n - 1);
    }
  }

  /** Python's `str.isspace()`: the white-space code points. */
  predicate IsSpace(c: char)
  {
    var n := c as int;
    (9 <= n <= 13) || (28 <= n <= 32) || n == 0x85 || n == 0xA0 || n == 0x1680
    || (0x2000 <= n <= 0x200A) || n == 0x2028 || n == 0x2029 || n == 0x202F
    || n == 0x205F || n == 0x3000
  }

  /** `s.lstrip()`: drops the leading white space and nothing else. */
  function StripLeading(s: string): (r: string)
    ensures |r| <= |s| && r == s[|s| - |r|..]
    ensures forall i :: 0 <= i < |s| - |r| ==> IsSpace(s[i])
    ensures r != [] ==> !IsSpace(r[0])
  {
    if s != [] && IsSpace(s[0]) then StripLeading(s[1..]) else s
  }

  /** `s.rstrip()`: drops the trailing white space and nothing else. */
  function StripTrailing(s: string): (r: string)
    ensures |r| <= |s| && r == s[..|r|]
    ensures forall i :: |r| <= i < |s| ==> IsSpace(s[i])
    ensures r != [] ==> !IsSpace(r[|r| - 1])
  {
    if s != [] && IsSpace(s[|s| - 1]) then StripTrailing(s[..|s| - 1]) else s
  }

  /** `s.strip()`. */
  function Strip(s: string): string
  {
    StripTrailing(StripLeading(s))
  }

  /** A stripped name is empty exactly when the input was all white space,
      and otherwise neither starts nor ends with white space. */
  lemma StripEmptyIffBlank(s: string)
    ensures Strip(s) == [] <==> forall i :: 0 <= i < |s| ==> IsSpace(s[i])
    ensures Strip(s) != [] ==> !IsSpace(Strip(s)[0]) && !IsSpace(Strip(s)[|Strip(s)| - 1])
  {
    var l := StripLeading(s);
    var r := StripTrailing(l);
    if l == [] {
      assert r == [];
    } else {
      assert !IsSpace(l[0]);
      assert |r| >= 1;
      assert r[0] == l[0];
      assert s[|s| - |l|] == l[0];
    }
  }

  /** `c.lower()` on the ASCII letters. */
  function LowerChar(c: char): (r: char)
  {
    if 'A' <= c <= 'Z' then ((c as int) + 32) as char else c
  }

  /** `s.lower()`, restricted to ASCII letters. No other code point
      lower-cases to an ASCII letter of "googlesearch" or "google_search",
      so comparing against those names loses nothing. */
  function Lower(s: string): (r: string)
    ensures |r| == |s|
    ensures forall i :: 0 <= i < |s| ==> !('A' <= r[i] <= 'Z')
  {
    seq(|s|, i requires 0 <= i < |s| => LowerChar(s[i]))
  }

  /** Lower-casing leaves a string without capitals unchanged. */
  lemma LowerKeepsLowerCase(s: string)
    requires forall i :: 0 <= i < |s| ==> !('A' <= s[i] <= 'Z')
    ensures Lower(s) == s
  {
  }
}
