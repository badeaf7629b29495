/**
 * String helpers the backup script gets from Python's standard library:
 * zero-padded decimal fields of `strftime`, `os.path.join`, `os.path.basename`
 * and `str.join`.
 */
module Text {

  function Pow10(k: nat): (p: nat)
    ensures p >= 1
  {
    if k == 0 then 1 else 10 * Pow10(k - 1)
  }

  predicate IsDigit(c: char) { '0' <= c <= '9' }

  function DigitChar(d: nat): (c: char)
    requires d < 10
    ensures IsDigit(c) && c as int - '0' as int == d
  {
    ('0' as int + d) as char
  }

  /** `n` written in decimal with exactly `width` digits, zero-padded on the left
      (the `%Y`, `%m`, `%d`, `%H`, `%M`, `%S` fields of `strftime`). */
  function PadDigits(n: nat, width: nat): (s: string)
    requires n < Pow10(width)
    ensures |s| == width
    ensures forall i :: 0 <= i < |s| ==> IsDigit(s[i])
  {
    if width == 0 then "" else PadDigits(n / 10, width - 1) + [DigitChar(n % 10)]
  }

  /** Reads a string of decimal digits back as a number. */
  function ParseDigits(s: string): nat
  {
    if s == [] then 0
    else 10 * ParseDigits(s[..|s| - 1]) + (if IsDigit(s[|s| - 1]) then s[|s| - 1] as int - '0' as int else 0)
  }

  /** Padding loses nothing: the digits read back as the number. */
  lemma {:induction false} ParsePadDigits(n: nat, width: nat)
    requires n < Pow10(width)
    ensures ParseDigits(PadDigits(n, width)) == n
  {
    if width > 0 {
      var s := PadDigits(n, width);
      assert s[..|s| - 1] == PadDigits(n / 10, width - 1);
      ParsePadDigits(n / 10, width - 1);
    }
  }

  /** Two fields of the same width are equal exactly when the numbers are. */
  lemma PadDigitsInjective(a: nat, b: nat, width: nat)
    requires a < Pow10(width) && b < Pow10(width)
    ensures PadDigits(a, width) == PadDigits(b, width) <==> a == b
  {
    ParsePadDigits(a, width);
    ParsePadDigits(b, width);
  }

  /** A zero-padded number holds no path separator. */
  lemma PadDigitsNoSlash(n: nat, width: nat)
    requires n < Pow10(width)
    ensures '/' !in PadDigits(n, width)
  {
    var s := PadDigits(n, width);
    forall i | 0 <= i < |s|
      ensures s[i] != '/'
    {
      assert IsDigit(s[i]);
    }
  }

  /** `os.path.join(a, b)` on POSIX: an absolute `b` discards `a`; otherwise a `/`
      is inserted unless `a` is empty or already ends with one. Either way the result
      is at least as long as `b`. */
  function PathJoin(a: string, b: string): (r: string)
    ensures |b| <= |r|
  {
    if |b| > 0 && b[0] == '/' then b
    else if a == "" || a[|a| - 1] == '/' then a + b
    else a + "/" + b
  }

  /** The shape of a join: an absolute second part is the result, and otherwise the result
      keeps the first part in front and ends with the second. */
  lemma PathJoinShape(a: string, b: string)
    ensures |b| > 0 && b[0] == '/' ==> PathJoin(a, b) == b
    ensures (|b| == 0 || b[0] != '/') ==>
      var r := PathJoin(a, b);
      |r| >= |a| + |b| && r[..|a|] == a && r[|r| - |b|..] == b
  {
  }

  /** `os.path.basename(p)`: the part after the last `/`. */
  function Basename(p: string): (r: string)
    ensures '/' !in r
  {
    if p == [] || p[|p| - 1] == '/' then ""
    else Basename(p[..|p| - 1]) + [p[|p| - 1]]
  }

  /** The base name of a path joined from a directory and a plain file name is that file name. */
  lemma {:induction false} BasenameOfJoin(dir: string, name: string)
    requires '/' !in name
    ensures Basename(PathJoin(dir, name)) == name
  {
    var p := PathJoin(dir, name);
    PathJoinShape(dir, name);
    BasenameOfSuffix(p, |name|);
    assert p[|p| - |name|..] == name;
  }

  lemma {:induction false} BasenameOfSuffix(p: string, k: nat)
    requires k <= |p|
    requires '/' !in p[|p| - k..]
    requires k < |p| ==> p[|p| - k - 1] == '/'
    ensures Basename(p) == p[|p| - k..]
  {
    if k > 0 {
      var q := p[..|p| - 1];
      var tail := p[|p| - k..];
      var front := tail[..k - 1];
      assert tail == front + [tail[k - 1]];
      assert q[|q| - (k - 1)..] == front;
      assert '/' !in front;
      assert p[|p| - 1] == tail[k - 1] != '/';
      assert k - 1 < |q| ==> q[|q| - (k - 1) - 1] == p[|p| - k - 1];
      BasenameOfSuffix(q, k - 1);
    }
  }

  /** `sep.join(parts)`. */
  function JoinWith(sep: string, parts: seq<string>): string
  {
    if parts == [] then ""
    else if |parts| == 1 then parts[0]
    else parts[0] + sep + JoinWith(sep, parts[1..])
  }
}
