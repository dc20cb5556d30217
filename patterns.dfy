/**
 * The fixed regular-expression shapes the repository searches for, written as
 * predicates: \b word boundaries, alternations of literals, `\bA\b.*\bB\b`
 * and lists built from grouped alternatives such as `in (this|that) video`.
 */
module Patterns {
  import opened Strings

  /**
   * Regex \w: ASCII letters, digits and '_', plus every other character outside
   * ASCII except whitespace, common punctuation and the Devanagari and Arabic
   * combining signs (which are not alphanumeric to Python).
   */
  predicate IsWordChar(c: char)
  {
    var n := c as int;
    if n < 128 then IsAsciiAlnum(c) || c == '_'
    else !IsSpace(c) && !IsNonWordSymbol(n)
  }

  predicate IsNonWordSymbol(n: int)
  {
    (0xA1 <= n <= 0xBF && n != 0xAA && n != 0xB2 && n != 0xB3 && n != 0xB5
      && n != 0xB9 && n != 0xBA && !(0xBC <= n <= 0xBE))
    || n == 0xD7 || n == 0xF7
    || (0x0900 <= n <= 0x0903) || (0x093A <= n <= 0x094F && n != 0x093D)
    || (0x0951 <= n <= 0x0957) || (0x0962 <= n <= 0x0965) || n == 0x0970
    || (0x064B <= n <= 0x065F) || n == 0x0670 || n == 0x060C || n == 0x061B
    || n == 0x061F || n == 0x06D4
    || (0x2010 <= n <= 0x2027) || (0x2030 <= n <= 0x205E)
    || (0x3001 <= n <= 0x3004) || (0x3008 <= n <= 0x3011) || (0x3014 <= n <= 0x301F)
    || (0xFF01 <= n <= 0xFF0F) || (0xFF1A <= n <= 0xFF20) || (0xFF3B <= n <= 0xFF40)
    || (0xFF5B <= n <= 0xFF65)
  }

  /** True when position k of s holds a word character (false outside s). */
  predicate WordCharAt(s: string, k: int)
  {
    0 <= k < |s| && IsWordChar(s[k])
  }

  /** Regex \b at position k: exactly one side of k is a word character. */
  predicate IsBoundary(s: string, k: int)
  {
    WordCharAt(s, k - 1) != WordCharAt(s, k)
  }

  /** The literal occurs in s at index i. */
  predicate LiteralAt(s: string, i: int, lit: string)
  {
    0 <= i && i + |lit| <= |s| && s[i..i + |lit|] == lit
  }

  /** `\b(lit)\b` matches at index i. */
  predicate BoundedAt(s: string, i: int, lit: string)
  {
    LiteralAt(s, i, lit) && IsBoundary(s, i) && IsBoundary(s, i + |lit|)
  }

  /** re.search(r'\b(a|b|...)\b', s). */
  predicate SearchBounded(s: string, alts: seq<string>)
  {
    exists i, k :: 0 <= i <= |s| && 0 <= k < |alts| && BoundedAt(s, i, alts[k])
  }

  /** re.search(r'\b(lit)', s): a boundary before the literal only. */
  predicate SearchLeftBounded(s: string, alts: seq<string>)
  {
    exists i, k :: 0 <= i <= |s| && 0 <= k < |alts| && LiteralAt(s, i, alts[k]) && IsBoundary(s, i)
  }

  /** re.search(r'\b(a|b|...)\s+', s): the literal after a boundary and before whitespace. */
  predicate SearchBoundedThenSpace(s: string, alts: seq<string>)
  {
    exists i, k :: 0 <= i <= |s| && 0 <= k < |alts| && LiteralAt(s, i, alts[k]) && IsBoundary(s, i)
      && i + |alts[k]| < |s| && IsSpace(s[i + |alts[k]|])
  }

  /** re.match(r'(a|b|...)\s+', s): a literal at the very start, then whitespace. */
  predicate StartsWithThenSpace(s: string, alts: seq<string>)
  {
    exists k :: 0 <= k < |alts| && LiteralAt(s, 0, alts[k])
      && |alts[k]| < |s| && IsSpace(s[|alts[k]|])
  }

  /** re.search(r'\b(A)\b.*\b(B)\b', s): a bounded A, then later on the same line a bounded B. */
  predicate SearchBoundedPair(s: string, first: seq<string>, second: seq<string>)
  {
    exists i, a :: 0 <= i <= |s| && 0 <= a < |first| && BoundedAt(s, i, first[a])
      && BoundedLater(s, i + |first[a]|, second)
  }

  /** Some bounded B starts at or after `from` with no newline in between. */
  predicate BoundedLater(s: string, from: int, second: seq<string>)
  {
    exists j, b :: 0 <= from <= j <= |s| && 0 <= b < |second| && BoundedAt(s, j, second[b])
      && '\n' !in s[from..j]
  }

  /** Every concatenation x + y with x drawn from xs and y from ys, xs-major: `(x1|x2)(y1|y2)`. */
  function Cross(xs: seq<string>, ys: seq<string>): (r: seq<string>)
    ensures |r| == |xs| * |ys|
    ensures forall a, b :: 0 <= a < |xs| && 0 <= b < |ys| ==> xs[a] + ys[b] in r
  {
    if |xs| == 0 then []
    else
      var head := seq(|ys|, b requires 0 <= b < |ys| => xs[0] + ys[b]);
      var rest := Cross(xs[1..], ys);
      assert forall a, b :: 1 <= a < |xs| && 0 <= b < |ys| ==> xs[a] + ys[b] in rest by {
        forall a, b | 1 <= a < |xs| && 0 <= b < |ys| ensures xs[a] + ys[b] in rest {
          assert xs[1..][a - 1] == xs[a];
        }
      }
      assert forall b :: 0 <= b < |ys| ==> head[b] == xs[0] + ys[b];
      head + rest
  }

  /** A bounded literal that starts and ends with word characters is found after a space. */
  lemma BoundedAfterSpace(s: string, i: int, lit: string)
    requires LiteralAt(s, i, lit) && |lit| > 0
    requires i == 0 || IsSpace(s[i - 1])
    requires i + |lit| == |s| || IsSpace(s[i + |lit|])
    requires IsWordChar(lit[0]) && IsWordChar(lit[|lit| - 1])
    ensures BoundedAt(s, i, lit)
  {
    assert s[i] == lit[0];
    assert s[i + |lit| - 1] == lit[|lit| - 1];
  }

  /**
   * re.match(r'(a|b)\s+(c|d)\s+...', s): the groups in order, each an
   * alternation of literals that do not begin with whitespace, separated by
   * runs of at least one whitespace character.
   */
  predicate MatchSpaced(s: string, groups: seq<seq<string>>)
    decreases |groups|
  {
    if |groups| == 0 then true
    else
      exists k :: 0 <= k < |groups[0]| && groups[0][k] <= s
        && (|groups| == 1
            || (var rest := s[|groups[0][k]|..];
                |LStrip(rest)| < |rest| && MatchSpaced(LStrip(rest), groups[1..])))
  }

  /** s[i..j] is a non-empty run of decimal digits (regex \d+). */
  predicate DigitRun(s: string, i: int, j: int)
  {
    0 <= i < j <= |s| && forall t :: i <= t < j ==> IsDigit(s[t])
  }

  /** s[i..j] is a (possibly empty) run of whitespace (regex \s*). */
  predicate SpaceRun(s: string, i: int, j: int)
  {
    0 <= i <= j <= |s| && forall t :: i <= t < j ==> IsSpace(s[t])
  }

  /** At index i: digits, then at least minSpace whitespace characters, then one of alts. */
  predicate NumberThenAt(s: string, i: int, minSpace: nat, alts: seq<string>)
  {
    exists j, k, a :: 0 <= i < j <= k <= |s| && 0 <= a < |alts|
      && DigitRun(s, i, j) && SpaceRun(s, j, k) && k - j >= minSpace && LiteralAt(s, k, alts[a])
  }

  /** re.search(r'\d+\s*(a|b)', s) for minSpace 0, r'\d+\s+(a|b)' for minSpace 1. */
  predicate SearchNumberThen(s: string, minSpace: nat, alts: seq<string>)
  {
    exists i :: 0 <= i <= |s| && NumberThenAt(s, i, minSpace, alts)
  }

  /** A number pattern can only match a text that holds a digit. */
  lemma NumberThenHasDigit(s: string, i: int, minSpace: nat, alts: seq<string>)
    requires NumberThenAt(s, i, minSpace, alts)
    ensures HasDigit(s)
  {
    var j, k, a :| 0 <= i < j <= k <= |s| && 0 <= a < |alts|
      && DigitRun(s, i, j) && SpaceRun(s, j, k) && k - j >= minSpace && LiteralAt(s, k, alts[a]);
    assert IsDigit(s[i]);
  }

  /** One entry of a pattern table, as the scorers write them. */
  datatype Pattern =
    | AnyOf(alts: seq<string>)      // r'(a|b)': a substring
    | WordOf(alts: seq<string>)     // r'\b(a|b)\b'
    | StartOf(alts: seq<string>)    // r'^(a|b)'
    | QuestionThenWord              // r'\?\s*\w+': a question mark, optional spaces, a word character

  predicate Matches(p: Pattern, s: string)
  {
    match p
    case AnyOf(alts) => ContainsAny(s, alts)
    case WordOf(alts) => SearchBounded(s, alts)
    case StartOf(alts) => StartsWithAny(s, alts)
    case QuestionThenWord => exists i, j :: 0 <= i < j < |s| && s[i] == '?' && SpaceRun(s, i + 1, j) && IsWordChar(s[j])
  }

  /** A pattern paired with the points it is worth. */
  datatype Weighted = Weighted(pattern: Pattern, points: real)

  /** The points of the first entry that matches, or 0: a loop over the table that breaks on the first hit. */
  function FirstMatchPoints(table: seq<Weighted>, s: string): (r: real)
    ensures r == 0.0 || exists k :: 0 <= k < |table| && r == table[k].points && Matches(table[k].pattern, s)
    ensures (forall k :: 0 <= k < |table| ==> !Matches(table[k].pattern, s)) ==> r == 0.0
  {
    if |table| == 0 then 0.0
    else if Matches(table[0].pattern, s) then table[0].points
    else
      var r := FirstMatchPoints(table[1..], s);
      assert forall k :: 1 <= k < |table| ==> table[1..][k - 1] == table[k];
      r
  }

  /** One step of the scan: the entry at k decides, or the scan moves past it. */
  lemma FirstMatchStep(table: seq<Weighted>, s: string, k: nat)
    requires k < |table|
    ensures FirstMatchPoints(table[k..], s)
      == if Matches(table[k].pattern, s) then table[k].points else FirstMatchPoints(table[k + 1..], s)
  {
    assert table[k..][1..] == table[k + 1..];
  }

  /** The first matching entry decides: entries after it are never consulted. */
  lemma {:induction false} FirstMatchDecides(table: seq<Weighted>, s: string, k: nat)
    requires k < |table| && Matches(table[k].pattern, s)
    requires forall j :: 0 <= j < k ==> !Matches(table[j].pattern, s)
    ensures FirstMatchPoints(table, s) == table[k].points
  {
    if k > 0 {
      assert forall j :: 0 <= j < k - 1 ==> table[1..][j] == table[j + 1];
      FirstMatchDecides(table[1..], s, k - 1);
    }
  }
}
