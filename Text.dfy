/** The JavaScript string operations the storefront relies on, on `seq<char>`:
    ASCII case folding (`toLowerCase` / `toUpperCase`), `includes`, `trim`,
    `slice(-n)`, clamped `substring`, `replace` of the first occurrence and
    the decimal rendering of a non-negative integer (`toString()`). */
module Text {

  /** `c` folded to lower case when it is an ASCII capital letter. */
  function LowerChar(c: char): char
  {
    if 'A' <= c <= 'Z' then (c as int + 32) as char else c
  }

  /** `c` folded to upper case when it is an ASCII small letter. */
  function UpperChar(c: char): char
  {
    if 'a' <= c <= 'z' then (c as int - 32) as char else c
  }

  lemma UpperCharNotSmall(c: char)
    ensures !('a' <= UpperChar(c) <= 'z')
  {
  }

  /** `s.toLowerCase()`, restricted to ASCII letters. */
  function Lower(s: string): (r: string)
    ensures |r| == |s|
    ensures forall i :: 0 <= i < |s| ==> r[i] == LowerChar(s[i])
  {
    seq(|s|, i requires 0 <= i < |s| => LowerChar(s[i]))
  }

  /** `s.toUpperCase()`, restricted to ASCII letters. */
  function Upper(s: string): (r: string)
    ensures |r| == |s|
    ensures forall i :: 0 <= i < |s| ==> r[i] == UpperChar(s[i])
  {
    seq(|s|, i requires 0 <= i < |s| => UpperChar(s[i]))
  }

  lemma UpperAppend(x: string, y: string)
    ensures Upper(x + y) == Upper(x) + Upper(y)
  {
  }

  /** `s.includes(t)`: `t` occurs in `s` as a contiguous block. */
  predicate Contains(s: string, t: string)
    decreases |s|
  {
    t <= s || (s != [] && Contains(s[1..], t))
  }

  /** A block that starts at index `i` of `s` is found by `Contains`. */
  lemma {:induction false} ContainsAt(s: string, t: string, i: nat)
    requires i + |t| <= |s| && s[i..i + |t|] == t
    ensures Contains(s, t)
    decreases i
  {
    if i == 0 {
      assert t <= s;
    } else {
      assert s[1..][i - 1..i - 1 + |t|] == s[i..i + |t|];
      ContainsAt(s[1..], t, i - 1);
    }
  }

  /** The empty string is found in every string, so an empty search term matches everything. */
  lemma ContainsEmpty(s: string)
    ensures Contains(s, "")
  {
  }

  /** The characters that ECMAScript's `String.prototype.trim` removes:
      the WhiteSpace and LineTerminator code points. */
  predicate IsSpace(c: char)
  {
    c == '\t' || c == '\n' || c == '\U{000B}' || c == '\U{000C}' || c == '\r' || c == ' '
    || c == '\U{00A0}' || c == '\U{1680}' || ('\U{2000}' <= c <= '\U{200A}')
    || c == '\U{2028}' || c == '\U{2029}' || c == '\U{202F}' || c == '\U{205F}'
    || c == '\U{3000}' || c == '\U{FEFF}'
  }

  function TrimStart(s: string): (r: string)
    ensures |r| <= |s| && r == s[|s| - |r|..]
    ensures r == [] || !IsSpace(r[0])
    ensures forall i :: 0 <= i < |s| - |r| ==> IsSpace(s[i])
  {
    if s != [] && IsSpace(s[0]) then TrimStart(s[1..]) else s
  }

  function TrimEnd(s: string): (r: string)
    ensures |r| <= |s| && r == s[..|r|]
    ensures r == [] || !IsSpace(r[|r| - 1])
    ensures forall i :: |r| <= i < |s| ==> IsSpace(s[i])
  {
    if s != [] && IsSpace(s[|s| - 1]) then TrimEnd(s[..|s| - 1]) else s
  }

  /** `s.trim()`. */
  function Trim(s: string): string
  {
    TrimEnd(TrimStart(s))
  }

  /** `!s.trim()` holds exactly when every character of `s` is white space. */
  predicate IsBlank(s: string)
  {
    Trim(s) == ""
  }

  lemma BlankIffAllSpace(s: string)
    ensures IsBlank(s) <==> forall i :: 0 <= i < |s| ==> IsSpace(s[i])
  {
    var a := TrimStart(s);
    if IsBlank(s) {
      forall i | 0 <= i < |s| ensures IsSpace(s[i]) {
        if i >= |s| - |a| {
          assert a[i - (|s| - |a|)] == s[i];
        }
      }
    } else {
      var b := Trim(s);
      assert b != [] && b == a[..|b|] && a == s[|s| - |a|..];
      if |b| == |a| {
        assert !IsSpace(a[0]) && a[0] == s[|s| - |a|];
      } else {
        assert !IsSpace(b[|b| - 1]) && b[|b| - 1] == s[|s| - |a| + |b| - 1];
      }
    }
  }

  /** `s.slice(-n)` for `n >= 1`: the last `n` characters, or all of `s` when it is shorter. */
  function Last(s: string, n: nat): (r: string)
    requires n >= 1
    ensures |r| == if |s| <= n then |s| else n
    ensures r == s[|s| - |r|..]
  {
    if |s| <= n then s else s[|s| - n..]
  }

  /** `s.substring(from, to)` for `0 <= from <= to`: both ends are clamped to the length. */
  function Substring(s: string, from: nat, to: nat): (r: string)
    requires from <= to
    ensures |r| <= to - from
    ensures from <= |s| ==> r == s[from..if to <= |s| then to else |s|]
    ensures from > |s| ==> r == ""
  {
    var a := if from <= |s| then from else |s|;
    var b := if to <= |s| then to else |s|;
    s[a..b]
  }

  /** `s.indexOf(a)` for a one-character string: the first position of `a`, or -1. */
  function IndexOf(s: string, a: char): (i: int)
    ensures -1 <= i < |s|
    ensures i == -1 <==> a !in s
    ensures i >= 0 ==> s[i] == a && a !in s[..i]
  {
    if s == [] then -1
    else if s[0] == a then 0
    else
      var j := IndexOf(s[1..], a);
      assert s[1..][..j + 1] == s[1..j + 2] || j == -1;
      if j == -1 then -1 else j + 1
  }

  /** The first `c` of `a + [c] + b` is the one after `a` when `a` has none. */
  lemma IndexOfAfter(a: string, c: char, b: string)
    requires c !in a
    ensures IndexOf(a + [c] + b, c) == |a|
  {
    var s := a + [c] + b;
    var i := IndexOf(s, c);
    assert s[|a|] == c;
  }

  /** `s.replace(a, b)` with one-character strings: only the first `a` is replaced. */
  function ReplaceFirst(s: string, a: char, b: char): (r: string)
    ensures |r| == |s|
    ensures a !in s ==> r == s
    ensures a in s ==> exists i :: 0 <= i < |s| && s[i] == a && a !in s[..i] && r == s[..i] + [b] + s[i + 1..]
  {
    var i := IndexOf(s, a);
    if i < 0 then s else s[..i] + [b] + s[i + 1..]
  }

  function DigitChar(d: nat): (c: char)
    requires d < 10
    ensures '0' <= c <= '9'
  {
    ('0' as int + d) as char
  }

  /** `n.toString()` for a non-negative integer: decimal digits, no leading zeros. */
  function NatToString(n: nat): (r: string)
    ensures |r| >= 1
    ensures forall i :: 0 <= i < |r| ==> '0' <= r[i] <= '9'
    ensures n >= 10 ==> r[0] != '0'
    decreases n
  {
    if n < 10 then [DigitChar(n)] else NatToString(n / 10) + [DigitChar(n % 10)]
  }

  /** The `k` lowest decimal digits of `n`, with leading zeros. */
  function LowDigits(n: nat, k: nat): (r: string)
    ensures |r| == k
  {
    if k == 0 then [] else LowDigits(n / 10, k - 1) + [DigitChar(n % 10)]
  }

  function Pow10(k: nat): (r: nat)
    ensures r >= 1
  {
    if k == 0 then 1 else 10 * Pow10(k - 1)
  }

  /** A number with at least `k` decimal digits ends in its `k` lowest digits. */
  lemma {:induction false} LastOfNatToString(n: nat, k: nat)
    requires k >= 1 && n >= Pow10(k - 1)
    ensures |NatToString(n)| >= k
    ensures Last(NatToString(n), k) == LowDigits(n, k)
    decreases k
  {
    if k == 1 {
      LastDigit(n);
    } else {
      assert n / 10 >= Pow10(k - 2) by {
        assert Pow10(k - 1) == 10 * Pow10(k - 2);
      }
      LastOfNatToString(n / 10, k - 1);
      LastDigitsStep(n, k);
    }
  }

  lemma LastDigit(n: nat)
    ensures Last(NatToString(n), 1) == LowDigits(n, 1)
  {
    var s, l := NatToString(n), LowDigits(n, 1);
    var d := DigitChar(n % 10);
    assert l == LowDigits(n / 10, 0) + [d];
    assert l[0] == d;
    if n >= 10 {
      assert s == NatToString(n / 10) + [d];
      assert s[|s| - 1] == d;
    } else {
      assert s == [d];
    }
    assert Last(s, 1)[0] == s[|s| - 1];
  }

  /** Appending the last digit extends the run of low digits by one. */
  lemma LastDigitsStep(n: nat, k: nat)
    requires k >= 2 && n >= 10
    requires |NatToString(n / 10)| >= k - 1 && Last(NatToString(n / 10), k - 1) == LowDigits(n / 10, k - 1)
    ensures |NatToString(n)| >= k
    ensures Last(NatToString(n), k) == LowDigits(n, k)
  {
    var h, d := NatToString(n / 10), DigitChar(n % 10);
    assert NatToString(n) == h + [d];
    LastSnoc(h, d, k);
    assert LowDigits(n, k) == LowDigits(n / 10, k - 1) + [d];
  }

  /** The last `k` characters after appending one are the last `k - 1` before it and the new one. */
  lemma LastSnoc(s: string, c: char, k: nat)
    requires k >= 2
    ensures Last(s + [c], k) == Last(s, k - 1) + [c]
  {
    var a, b := Last(s + [c], k), Last(s, k - 1) + [c];
    assert |a| == |b|;
    forall i | 0 <= i < |a| ensures a[i] == b[i] {
      if i < |a| - 1 {
        assert a[i] == s[|s| + 1 - |a| + i];
      }
    }
  }

  /** Equal runs of `k` low digits mean equal remainders modulo 10^k. */
  lemma {:induction false} LowDigitsDetermineRemainder(a: nat, b: nat, k: nat)
    requires LowDigits(a, k) == LowDigits(b, k)
    ensures a % Pow10(k) == b % Pow10(k)
    decreases k
  {
    if k > 0 {
      var da, db := LowDigits(a / 10, k - 1), LowDigits(b / 10, k - 1);
      assert da == LowDigits(a, k)[..k - 1] && db == LowDigits(b, k)[..k - 1];
      LowDigitsDetermineRemainder(a / 10, b / 10, k - 1);
      assert DigitChar(a % 10) == LowDigits(a, k)[k - 1];
      assert a % 10 == b % 10;
      var m := Pow10(k - 1);
      ModStep(a, m);
      ModStep(b, m);
    }
  }

  /** n mod 10m is made of n's last digit and (n / 10) mod m. */
  lemma ModStep(n: nat, m: nat)
    requires m >= 1
    ensures n % (10 * m) == 10 * ((n / 10) % m) + n % 10
  {
    var q, r := n / 10, n % 10;
    var a, b := q / m, q % m;
    assert n == 10 * q + r;
    assert q == a * m + b;
    assert n == (10 * m) * a + (10 * b + r) by {
      assert 10 * q == 10 * (a * m) + 10 * b;
      assert 10 * (a * m) == (10 * m) * a;
    }
    assert 0 <= 10 * b + r < 10 * m;
    DivModUnique(n, 10 * m, a, 10 * b + r);
  }

  lemma DivModUnique(n: int, d: int, q: int, r: int)
    requires d > 0 && 0 <= r < d && n == d * q + r
    ensures n % d == r
  {
    var q', r' := n / d, n % d;
    assert n == d * q' + r';
    if q' > q {
      assert d * q' >= d * (q + 1) by { MulMono(d, q + 1, q'); }
    } else if q' < q {
      assert d * q >= d * (q' + 1) by { MulMono(d, q' + 1, q); }
    }
  }

  lemma MulMono(d: int, x: int, y: int)
    requires d > 0 && x <= y
    ensures d * x <= d * y
  {
    assert d * y - d * x == d * (y - x);
  }
}
