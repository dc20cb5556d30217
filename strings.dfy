/**
 * Python string primitives used by the repository: str.isspace(), str.split(),
 * str.strip(), substring tests, str.count, slicing and ' '.join.
 * Case folding is ASCII only; decimal digits are ASCII only.
 */
module Strings {

  /** str.isspace() for one character (also what regex \s and str.split() use). */
  predicate IsSpace(c: char)
  {
    var n := c as int;
    (9 <= n <= 13) || (28 <= n <= 32) || n == 0x85 || n == 0xA0 || n == 0x1680
    || (0x2000 <= n <= 0x200A) || n == 0x2028 || n == 0x2029 || n == 0x202F
    || n == 0x205F || n == 0x3000
  }

  predicate IsDigit(c: char) { '0' <= c <= '9' }

  predicate IsAsciiUpper(c: char) { 'A' <= c <= 'Z' }

  predicate IsAsciiLower(c: char) { 'a' <= c <= 'z' }

  predicate IsAsciiAlnum(c: char) { IsDigit(c) || IsAsciiUpper(c) || IsAsciiLower(c) }

  function LowerChar(c: char): char
  {
    if IsAsciiUpper(c) then (c as int + 32) as char else c
  }

  /** str.lower(), restricted to ASCII letters. */
  function Lower(s: string): (r: string)
    ensures |r| == |s|
    ensures forall i :: 0 <= i < |s| ==> r[i] == LowerChar(s[i])
  {
    seq(|s|, i requires 0 <= i < |s| => LowerChar(s[i]))
  }

  predicate NoSpace(s: string) { forall i :: 0 <= i < |s| ==> !IsSpace(s[i]) }

  predicate HasDigit(s: string) { exists i :: 0 <= i < |s| && IsDigit(s[i]) }

  /** Removes leading whitespace: the result is a suffix of s. */
  function LStrip(s: string): (r: string)
    ensures |r| <= |s|
    ensures r == [] || !IsSpace(r[0])
  {
    if |s| > 0 && IsSpace(s[0]) then LStrip(s[1..]) else s
  }

  /** LStrip drops exactly a whitespace prefix. */
  lemma {:induction false} LStripDropsSpace(s: string)
    ensures LStrip(s) == s[|s| - |LStrip(s)|..]
    ensures forall i :: 0 <= i < |s| - |LStrip(s)| ==> IsSpace(s[i])
    decreases |s|
  {
    if |s| > 0 && IsSpace(s[0]) {
      LStripDropsSpace(s[1..]);
    }
  }

  /** Removes trailing whitespace: the result is a prefix of s. */
  function RStrip(s: string): (r: string)
    ensures |r| <= |s|
    ensures r == [] || !IsSpace(r[|r| - 1])
  {
    if |s| > 0 && IsSpace(s[|s| - 1]) then RStrip(s[..|s| - 1]) else s
  }

  /** RStrip drops exactly a whitespace suffix. */
  lemma {:induction false} RStripDropsSpace(s: string)
    ensures RStrip(s) == s[..|RStrip(s)|]
    ensures forall i :: |RStrip(s)| <= i < |s| ==> IsSpace(s[i])
    decreases |s|
  {
    if |s| > 0 && IsSpace(s[|s| - 1]) {
      RStripDropsSpace(s[..|s| - 1]);
    }
  }

  /** str.strip() with no argument. */
  function Strip(s: string): (r: string)
    ensures |r| <= |s|
    ensures r == [] || (!IsSpace(r[0]) && !IsSpace(r[|r| - 1]))
  {
    var t := LStrip(s);
    RStripDropsSpace(t);
    RStrip(t)
  }

  /** Length of the leading run of non-whitespace characters. */
  function NonSpaceSpan(s: string): (n: nat)
    ensures n <= |s|
    ensures forall k :: 0 <= k < n ==> !IsSpace(s[k])
    ensures n == |s| || IsSpace(s[n])
  {
    if |s| == 0 || IsSpace(s[0]) then 0 else 1 + NonSpaceSpan(s[1..])
  }

  /** str.split() with no argument: maximal runs of non-whitespace, in order. */
  function Words(s: string): (ws: seq<string>)
    ensures forall k :: 0 <= k < |ws| ==> |ws[k]| > 0 && NoSpace(ws[k])
    decreases |s|
  {
    var t := LStrip(s);
    if t == [] then [] else
      var n := NonSpaceSpan(t);
      [t[..n]] + Words(t[n..])
  }

  function WordCount(s: string): nat { |Words(s)| }

  /** sep.join(parts). */
  function Join(sep: string, parts: seq<string>): string
  {
    if |parts| == 0 then ""
    else if |parts| == 1 then parts[0]
    else parts[0] + sep + Join(sep, parts[1..])
  }

  lemma {:induction false} JoinSnoc(sep: string, parts: seq<string>, p: string)
    ensures Join(sep, parts + [p]) == if parts == [] then p else Join(sep, parts) + sep + p
    decreases |parts|
  {
    if |parts| == 0 {
      assert parts + [p] == [p];
    } else if |parts| == 1 {
      assert parts + [p] == [parts[0], p];
      assert (parts + [p])[1..] == [p];
    } else {
      assert (parts + [p])[1..] == parts[1..] + [p];
      JoinSnoc(sep, parts[1..], p);
    }
  }

  /** Python's `p in s` for strings. */
  predicate Contains(s: string, p: string)
  {
    exists i :: 0 <= i <= |s| && p <= s[i..]
  }

  predicate ContainsChar(s: string, c: char) { c in s }

  /** A string holding a character that s lacks does not occur in s. */
  lemma MissingCharNotContained(s: string, p: string, j: nat)
    requires j < |p| && p[j] !in s
    ensures !Contains(s, p)
  {
    forall i | 0 <= i <= |s| ensures !(p <= s[i..]) {
      if i + |p| <= |s| {
        assert s[i..][j] == s[i + j];
      }
    }
  }

  /** A string holding two adjacent characters that never stand side by side in s does not occur in s. */
  lemma MissingPairNotContained(s: string, p: string, j: nat)
    requires j + 1 < |p| && forall i :: 0 <= i < |s| - 1 ==> !(s[i] == p[j] && s[i + 1] == p[j + 1])
    ensures !Contains(s, p)
  {
    forall i | 0 <= i <= |s| ensures !(p <= s[i..]) {
      if i + |p| <= |s| {
        assert s[i..][j] == s[i + j] && s[i..][j + 1] == s[i + j + 1];
      }
    }
  }

  /** The test `p in s` as a function of p, for filtering a word list. */
  function FoundIn(s: string): string -> bool
  {
    (p: string) => Contains(s, p)
  }

  /** True when some element of ps occurs in s. */
  predicate ContainsAny(s: string, ps: seq<string>)
  {
    exists k :: 0 <= k < |ps| && Contains(s, ps[k])
  }

  /** str.startswith with a tuple of prefixes. */
  predicate StartsWithAny(s: string, ps: seq<string>)
  {
    exists k :: 0 <= k < |ps| && ps[k] <= s
  }

  predicate EndsWith(s: string, p: string)
  {
    |p| <= |s| && s[|s| - |p|..] == p
  }

  /** Number of occurrences of one character (str.count with a one-character argument). */
  function CountChar(s: string, c: char): (n: nat)
    ensures n <= |s|
    ensures n == 0 <==> c !in s
  {
    if |s| == 0 then 0
    else CountChar(s[..|s| - 1], c) + (if s[|s| - 1] == c then 1 else 0)
  }

  /** s.split(c)[0]: everything before the first occurrence of c. */
  function BeforeFirst(s: string, c: char): (r: string)
    ensures r <= s
    ensures c !in r
    ensures |r| < |s| ==> s[|r|] == c
  {
    if |s| == 0 then ""
    else if s[0] == c then ""
    else [s[0]] + BeforeFirst(s[1..], c)
  }

  /** s[-n:] for n > 0. */
  function TakeLast(s: string, n: nat): (r: string)
    ensures |r| == if |s| <= n then |s| else n
    ensures EndsWith(s, r)
  {
    if |s| <= n then s else s[|s| - n..]
  }

  /** Decimal digits of a natural number (str(n)). */
  function NatToString(n: nat): (r: string)
    ensures |r| > 0
    ensures forall i :: 0 <= i < |r| ==> IsDigit(r[i])
  {
    if n < 10 then [DigitChar(n)] else NatToString(n / 10) + [DigitChar(n % 10)]
  }

  function DigitChar(d: nat): (c: char)
    requires d < 10
    ensures IsDigit(c)
  {
    ('0' as int + d) as char
  }

  function DigitValue(c: char): nat
    requires IsDigit(c)
  {
    c as int - '0' as int
  }

  function Zeros(n: nat): (r: string)
    ensures |r| == n
  {
    if n == 0 then "" else "0" + Zeros(n - 1)
  }

  /** f"{n:0{width}d}": sign, then the digits zero-padded to width minus the sign. */
  function PadInt(n: int, width: nat): (r: string)
    ensures |r| >= width
  {
    var sign := if n < 0 then "-" else "";
    var digits := NatToString(if n < 0 then -n else n);
    var fill := if |sign| + |digits| < width then width - |sign| - |digits| else 0;
    sign + Zeros(fill) + digits
  }

  /** str(n) for an int. */
  function IntToString(n: int): string
  {
    if n < 0 then "-" + NatToString(-n) else NatToString(n)
  }
  /** f"{n:02d}" for 0 <= n < 100: exactly the two decimal digits of n. */
  lemma PadTwoDigits(n: int)
    requires 0 <= n < 100
    ensures PadInt(n, 2) == [DigitChar(n / 10), DigitChar(n % 10)]
  {
    if n >= 10 {
      assert NatToString(n) == NatToString(n / 10) + [DigitChar(n % 10)];
    } else {
      assert Zeros(1) == "0";
    }
  }

  /** s.find(p) for a non-empty p: the first index where p occurs, or |s| when it does not. */
  function Find(s: string, p: string): (k: nat)
    requires |p| > 0
    ensures k <= |s|
    ensures k < |s| ==> p <= s[k..]
    ensures forall i :: 0 <= i < k ==> !(p <= s[i..])
    decreases |s|
  {
    if p <= s then 0
    else if |s| == 0 then 0
    else
      var k := Find(s[1..], p);
      assert forall i :: 1 <= i <= |s| ==> s[1..][i - 1..] == s[i..];
      1 + k
  }

  /** Find reports |s| exactly when p does not occur in s. */
  lemma FindContains(s: string, p: string)
    requires |p| > 0
    ensures Find(s, p) < |s| <==> Contains(s, p)
  {
    var k := Find(s, p);
    if Contains(s, p) {
      var i :| 0 <= i <= |s| && p <= s[i..];
      assert i < |s|;
      assert k <= i;
    }
  }

  /** s.split(sep) for a non-empty separator. */
  function SplitOn(s: string, sep: string): (r: seq<string>)
    requires |sep| > 0
    ensures |r| >= 1
    decreases |s|
  {
    var k := Find(s, sep);
    if k == |s| then [s] else [s[..k]] + SplitOn(s[k + |sep|..], sep)
  }

  /** A string holding the separator splits into at least two pieces, the first before its first occurrence. */
  lemma SplitOnFound(s: string, sep: string)
    requires |sep| > 0 && Contains(s, sep)
    ensures |SplitOn(s, sep)| >= 2
    ensures SplitOn(s, sep)[0] == s[..Find(s, sep)] && !Contains(SplitOn(s, sep)[0], sep)
  {
    FindContains(s, sep);
    var k := Find(s, sep);
    var head := s[..k];
    forall i | 0 <= i <= |head| ensures !(sep <= head[i..]) {
      assert i < k ==> !(sep <= s[i..]);
    }
  }

  lemma {:induction false} CountCharAppend(x: string, y: string, c: char)
    ensures CountChar(x + y, c) == CountChar(x, c) + CountChar(y, c)
    decreases |y|
  {
    if |y| > 0 {
      var y' := y[..|y| - 1];
      assert (x + y)[..|x + y| - 1] == x + y';
      CountCharAppend(x, y', c);
    } else {
      assert x + y == x;
    }
  }

  lemma PrefixChar(s: string, i: nat, c: char)
    requires i < |s|
    ensures [c] <= s[i..] <==> s[i] == c
  {
    assert s[i..][..1] == [s[i]];
  }

  /** The search for one character stops at its first occurrence, or at the end when there is none. */
  lemma FindChar(s: string, c: char)
    ensures var k := Find(s, [c]);
      c !in s[..k] && (k < |s| ==> s[k] == c)
  {
    var k := Find(s, [c]);
    forall i | 0 <= i < k ensures s[i] != c {
      PrefixChar(s, i, c);
    }
    if k < |s| {
      PrefixChar(s, k, c);
    }
  }

  /** Splitting on one character gives one piece more than there are occurrences of it. */
  lemma {:induction false} SplitCount(s: string, c: char)
    ensures |SplitOn(s, [c])| == CountChar(s, c) + 1
    decreases |s|
  {
    var k := Find(s, [c]);
    FindChar(s, c);
    if k < |s| {
      var head, rest := s[..k], s[k + 1..];
      SplitCount(rest, c);
      assert SplitOn(s, [c]) == [head] + SplitOn(rest, [c]);
      assert s == head + [c] + rest;
      CountCharAppend(head + [c], rest, c);
      CountCharAppend(head, [c], c);
    } else {
      assert s[..k] == s;
    }
  }

  /** Pieces without the character c, joined by c, split back into the same pieces. */
  lemma {:induction false} SplitJoinChar(parts: seq<string>, c: char)
    requires |parts| > 0 && forall i :: 0 <= i < |parts| ==> c !in parts[i]
    ensures SplitOn(Join([c], parts), [c]) == parts
  {
    var head := parts[0];
    FindChar(head, c);
    if |parts| == 1 {
      assert head[..Find(head, [c])] == head;
    } else {
      var rest := Join([c], parts[1..]);
      var s := head + [c] + rest;
      assert Join([c], parts) == s;
      FindChar(s, c);
      assert s[|head|] == c;
      assert Find(s, [c]) == |head| by {
        assert forall i :: 0 <= i < |head| ==> s[i] == head[i];
      }
      assert s[..|head|] == head && s[|head| + 1..] == rest;
      SplitJoinChar(parts[1..], c);
      assert parts == [head] + parts[1..];
    }
  }

  // ---------------------------------------------------------------------------
  // Listing a set of strings
  // ---------------------------------------------------------------------------

  /** a comes no later than b in lexicographic order of character codes. */
  predicate LexLe(a: string, b: string)
    decreases |a|
  {
    |a| == 0 || (|b| > 0 && (a[0] < b[0] || (a[0] == b[0] && LexLe(a[1..], b[1..]))))
  }

  lemma {:induction false} LexLeTotal(a: string, b: string)
    ensures LexLe(a, b) || LexLe(b, a)
    decreases |a|
  {
    if |a| > 0 && |b| > 0 && a[0] == b[0] {
      LexLeTotal(a[1..], b[1..]);
    }
  }

  lemma {:induction false} LexLeReflexive(a: string)
    ensures LexLe(a, a)
    decreases |a|
  {
    if |a| > 0 {
      LexLeReflexive(a[1..]);
    }
  }

  lemma {:induction false} LexLeAntisymmetric(a: string, b: string)
    requires LexLe(a, b) && LexLe(b, a)
    ensures a == b
    decreases |a|
  {
    if |a| > 0 {
      LexLeAntisymmetric(a[1..], b[1..]);
      assert a == [a[0]] + a[1..] && b == [b[0]] + b[1..];
    }
  }

  lemma {:induction false} LexLeTransitive(a: string, b: string, c: string)
    requires LexLe(a, b) && LexLe(b, c)
    ensures LexLe(a, c)
    decreases |a|
  {
    if |a| > 0 && a[0] == b[0] && b[0] == c[0] {
      LexLeTransitive(a[1..], b[1..], c[1..]);
    }
  }

  predicate IsLeast(m: string, s: set<string>)
  {
    m in s && forall y :: y in s ==> LexLe(m, y)
  }

  lemma {:induction false} HasLeast(s: set<string>) returns (m: string)
    requires s != {}
    ensures IsLeast(m, s)
    decreases |s|
  {
    if forall z :: z !in s {
      assert false;
    }
    var x :| x in s;
    if s - {x} == {} {
      assert s == {x};
      LexLeReflexive(x);
      m := x;
    } else {
      var r := HasLeast(s - {x});
      LexLeTotal(x, r);
      if LexLe(x, r) {
        forall y | y in s ensures LexLe(x, y) {
          if y == x {
            LexLeReflexive(x);
          } else {
            LexLeTransitive(x, r, y);
          }
        }
        m := x;
      } else {
        assert LexLe(r, x);
        m := r;
      }
    }
  }

  lemma LeastExists(s: set<string>)
    requires s != {}
    ensures exists m :: IsLeast(m, s)
  {
    var m := HasLeast(s);
  }

  lemma LeastUnique(s: set<string>)
    ensures forall a, b :: IsLeast(a, s) && IsLeast(b, s) ==> a == b
  {
    forall a, b | IsLeast(a, s) && IsLeast(b, s) ensures a == b {
      LexLeAntisymmetric(a, b);
    }
  }

  /**
   * The elements of a set of strings, each once, in lexicographic order: one
   * of the orders in which iterating a Python set may list them.
   */
  function Listing(s: set<string>): (r: seq<string>)
    ensures |r| == |s|
    ensures forall k :: 0 <= k < |r| ==> r[k] in s
    ensures forall y :: y in s ==> y in r
    ensures forall a, b :: 0 <= a < b < |r| ==> r[a] != r[b]
    decreases |s|
  {
    if s == {} then []
    else
      LeastExists(s);
      LeastUnique(s);
      var m :| IsLeast(m, s);
      [m] + Listing(s - {m})
  }
}
