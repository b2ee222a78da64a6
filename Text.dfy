/**
 * The JavaScript string operations the application relies on, stated over strings of characters:
 * `toLowerCase` (over ASCII letters), `includes`, `indexOf`, `replace` with a string pattern,
 * `trim`, `split` on one character and `join`.
 */
module Text {
  import opened Wrappers

  /** The code points `String.prototype.trim` and `parseInt` skip: WhiteSpace and LineTerminator. */
  predicate IsJsSpace(c: char) {
    var n := c as int;
    n == 0x09 || n == 0x0A || n == 0x0B || n == 0x0C || n == 0x0D || n == 0x20 || n == 0xA0 ||
    n == 0x1680 || 0x2000 <= n <= 0x200A || n == 0x2028 || n == 0x2029 || n == 0x202F ||
    n == 0x205F || n == 0x3000 || n == 0xFEFF
  }

  predicate IsUpper(c: char) {
    'A' <= c <= 'Z'
  }

  /** `toLowerCase` on one character, over the ASCII letters. */
  function LowerChar(c: char): (r: char)
    ensures !IsUpper(r)
  {
    if IsUpper(c) then (c as int + 32) as char else c
  }

  /** `s.toLowerCase()`, over the ASCII letters. */
  function Lower(s: string): (r: string)
    ensures |r| == |s|
    ensures forall i :: 0 <= i < |s| ==> r[i] == LowerChar(s[i])
  {
    seq(|s|, i requires 0 <= i < |s| => LowerChar(s[i]))
  }

  predicate StartsWith(s: string, prefix: string) {
    |prefix| <= |s| && s[..|prefix|] == prefix
  }

  predicate EndsWith(s: string, suffix: string) {
    |suffix| <= |s| && s[|s| - |suffix|..] == suffix
  }

  /** `t` occurs in `s` starting at index `i`. */
  predicate OccursAt(s: string, t: string, i: int) {
    0 <= i && i + |t| <= |s| && s[i..i + |t|] == t
  }

  /** `s.includes(t)`; the empty string is included in every string. */
  predicate Contains(s: string, t: string) {
    exists i | 0 <= i <= |s| - |t| :: OccursAt(s, t, i)
  }

  /** `i` is where `t` first occurs in `s`. */
  predicate IsFirstOccurrence(s: string, t: string, i: int) {
    OccursAt(s, t, i) && forall j :: 0 <= j < i ==> !OccursAt(s, t, j)
  }

  /** The first index at or after `from` where `t` occurs in `s`. */
  function IndexOfFrom(s: string, t: string, from: nat): (r: Option<nat>)
    ensures r.Some? ==> from <= r.value && OccursAt(s, t, r.value)
    ensures r.Some? ==> forall j :: from <= j < r.value ==> !OccursAt(s, t, j)
    ensures r.None? ==> forall j :: from <= j ==> !OccursAt(s, t, j)
    decreases |s| - from
  {
    if from + |t| > |s| then None
    else if s[from..from + |t|] == t then Some(from)
    else IndexOfFrom(s, t, from + 1)
  }

  /** `s.indexOf(t)`, with `None` for -1. */
  function IndexOf(s: string, t: string): (r: Option<nat>)
    ensures r.Some? <==> Contains(s, t)
    ensures r.Some? ==> IsFirstOccurrence(s, t, r.value)
  {
    IndexOfFrom(s, t, 0)
  }

  /**
   * The text a replacement string stands for when `replace` is called with a string pattern:
   * `$$` is a dollar sign, `$&` the matched text, `` $` `` the text before the match and `$'` the
   * text after it; every other `$` is literal, since a string pattern has no capture groups.
   */
  function Substitution(replacement: string, matched: string, before: string, after: string): string
    decreases |replacement|
  {
    if |replacement| == 0 then ""
    else if replacement[0] == '$' && |replacement| >= 2 && replacement[1] in "$&`'" then
      (match replacement[1]
       case '$' => "$"
       case '&' => matched
       case '`' => before
       case _ => after)
      + Substitution(replacement[2..], matched, before, after)
    else [replacement[0]] + Substitution(replacement[1..], matched, before, after)
  }

  /** A replacement without a dollar sign is inserted as it is. */
  lemma {:induction false} SubstitutionPlain(replacement: string, matched: string, before: string, after: string)
    requires '$' !in replacement
    ensures Substitution(replacement, matched, before, after) == replacement
    decreases |replacement|
  {
    if |replacement| > 0 {
      assert '$' !in replacement[1..] by {
        forall k | 0 <= k < |replacement| - 1 ensures replacement[1..][k] != '$' {
          assert replacement[1..][k] == replacement[k + 1];
        }
      }
      SubstitutionPlain(replacement[1..], matched, before, after);
    }
  }

  /** The replacement `$&` stands for the matched text. */
  lemma SubstitutionMatched(matched: string, before: string, after: string)
    ensures Substitution("$&", matched, before, after) == matched
  {
    assert "$&"[2..] == "";
  }

  /**
   * `s.replace(pattern, replacement)` with a string pattern: only the first occurrence of `pattern`
   * is replaced, and `s` is returned unchanged when `pattern` does not occur.
   */
  function ReplaceFirst(s: string, pattern: string, replacement: string): (r: string)
    ensures !Contains(s, pattern) ==> r == s
    ensures forall i :: IsFirstOccurrence(s, pattern, i) ==>
      r == s[..i] + Substitution(replacement, pattern, s[..i], s[i + |pattern|..]) + s[i + |pattern|..]
  {
    match IndexOf(s, pattern)
    case None => s
    case Some(i) => s[..i] + Substitution(replacement, pattern, s[..i], s[i + |pattern|..]) + s[i + |pattern|..]
  }

  /** `s` is `r` with only whitespace before index `i` and after `r`. */
  predicate SurroundedBySpace(s: string, r: string, i: int) {
    0 <= i && i + |r| <= |s| && s[i..i + |r|] == r &&
    (forall k :: 0 <= k < i ==> IsJsSpace(s[k])) &&
    (forall k :: i + |r| <= k < |s| ==> IsJsSpace(s[k]))
  }

  function TrimStart(s: string): (r: string)
    ensures |r| <= |s| && r == s[|s| - |r|..]
    ensures forall k :: 0 <= k < |s| - |r| ==> IsJsSpace(s[k])
    ensures r == [] || !IsJsSpace(r[0])
    decreases |s|
  {
    if |s| > 0 && IsJsSpace(s[0]) then TrimStart(s[1..]) else s
  }

  function TrimEnd(s: string): (r: string)
    ensures |r| <= |s| && r == s[..|r|]
    ensures forall k :: |r| <= k < |s| ==> IsJsSpace(s[k])
    ensures r == [] || !IsJsSpace(r[|r| - 1])
    decreases |s|
  {
    if |s| > 0 && IsJsSpace(s[|s| - 1]) then TrimEnd(s[..|s| - 1]) else s
  }

  /** `s.trim()`: `s` without its leading and trailing whitespace. */
  function Trim(s: string): (r: string)
    ensures r == [] || (!IsJsSpace(r[0]) && !IsJsSpace(r[|r| - 1]))
    ensures exists i :: SurroundedBySpace(s, r, i)
  {
    var t := TrimStart(s);
    var r := TrimEnd(t);
    SurroundedAfterTrims(s, t, r);
    r
  }

  /** Whitespace cut from the front of `s` and then from the back leaves a part surrounded by it. */
  lemma SurroundedAfterTrims(s: string, t: string, r: string)
    requires |t| <= |s| && t == s[|s| - |t|..] && forall k :: 0 <= k < |s| - |t| ==> IsJsSpace(s[k])
    requires |r| <= |t| && r == t[..|r|] && forall k :: |r| <= k < |t| ==> IsJsSpace(t[k])
    ensures SurroundedBySpace(s, r, |s| - |t|)
  {
    var i := |s| - |t|;
    assert s[i..i + |r|] == t[..|r|];
    forall k | i + |r| <= k < |s| ensures IsJsSpace(s[k]) {
      assert s[k] == t[k - i];
    }
  }

  /** A string that neither starts nor ends with whitespace is its own trim. */
  lemma TrimUnchanged(s: string)
    requires s == [] || (!IsJsSpace(s[0]) && !IsJsSpace(s[|s| - 1]))
    ensures Trim(s) == s
  {
  }

  /** `xs.join(sep)`. */
  function Join(xs: seq<string>, sep: string): string
    decreases |xs|
  {
    if |xs| == 0 then "" else if |xs| == 1 then xs[0] else xs[0] + sep + Join(xs[1..], sep)
  }

  /** `s.split(c)` for a one-character separator. */
  function Split(s: string, c: char): (r: seq<string>)
    ensures |r| >= 1
    ensures forall k :: 0 <= k < |r| ==> c !in r[k]
    ensures StartsWith(s, r[0]) && (|r[0]| < |s| ==> s[|r[0]|] == c)
    decreases |s|
  {
    if |s| == 0 then [""]
    else
      var rest := Split(s[1..], c);
      if s[0] == c then [""] + rest else [[s[0]] + rest[0]] + rest[1..]
  }

  /** Splitting a text that starts with a separator-free part keeps that part on the first line. */
  lemma {:induction false} SplitAfterPlainPrefix(x: string, t: string, c: char)
    requires c !in x
    ensures Split(x + t, c) == [x + Split(t, c)[0]] + Split(t, c)[1..]
    decreases |x|
  {
    if |x| > 0 {
      assert (x + t)[0] == x[0] != c;
      assert (x + t)[1..] == x[1..] + t;
      assert c !in x[1..] by {
        forall k | 0 <= k < |x| - 1 ensures x[1..][k] != c {
          assert x[1..][k] == x[k + 1];
        }
      }
      SplitAfterPlainPrefix(x[1..], t, c);
      var rest := Split((x + t)[1..], c);
      assert Split(x + t, c) == [[x[0]] + rest[0]] + rest[1..];
      assert rest[0] == x[1..] + Split(t, c)[0];
      assert rest[1..] == Split(t, c)[1..];
      assert [x[0]] + (x[1..] + Split(t, c)[0]) == x + Split(t, c)[0];
    } else {
      assert x + t == t && x + Split(t, c)[0] == Split(t, c)[0];
      assert Split(t, c) == [Split(t, c)[0]] + Split(t, c)[1..];
    }
  }

  /** Splitting a join on its separator gives back the parts, when no part holds the separator. */
  lemma {:induction false} SplitJoin(xs: seq<string>, c: char)
    requires |xs| >= 1
    requires forall k :: 0 <= k < |xs| ==> c !in xs[k]
    ensures Split(Join(xs, [c]), c) == xs
    decreases |xs|
  {
    if |xs| == 1 {
      SplitAfterPlainPrefix(xs[0], "", c);
      assert xs[0] + "" == xs[0];
    } else {
      var rest := Join(xs[1..], [c]);
      SplitJoin(xs[1..], c);
      assert Join(xs, [c]) == xs[0] + ([c] + rest);
      SplitAfterPlainPrefix(xs[0], [c] + rest, c);
      assert ([c] + rest)[1..] == rest;
      assert xs == [xs[0]] + xs[1..];
    }
  }

  /** `s.split(c)[0]`: the text before the first `c`, or all of `s` when there is none. */
  function Before(s: string, c: char): (r: string)
    ensures StartsWith(s, r) && c !in r
    ensures |r| < |s| ==> s[|r|] == c
  {
    Split(s, c)[0]
  }

  /** A string occurs inside any text that has it as a middle part. */
  lemma ContainsInfix(a: string, t: string, b: string)
    ensures Contains(a + t + b, t)
  {
    assert (a + t + b)[|a|..|a| + |t|] == t;
    assert OccursAt(a + t + b, t, |a|);
  }

  /** Containment is transitive. */
  lemma ContainsTransitive(s: string, t: string, u: string)
    requires Contains(s, t) && Contains(t, u)
    ensures Contains(s, u)
  {
    var i :| 0 <= i <= |s| - |t| && OccursAt(s, t, i);
    var j :| 0 <= j <= |t| - |u| && OccursAt(t, u, j);
    assert t == s[i..i + |t|] && u == t[j..j + |u|];
    forall k | 0 <= k < |u| ensures s[i + j + k] == u[k] {
      assert s[i + j + k] == s[i..i + |t|][j + k];
    }
    assert s[i + j..i + j + |u|] == u;
    assert OccursAt(s, u, i + j);
  }

  /** What a text contains, every text around it contains too. */
  lemma ContainsWithin(a: string, t: string, b: string, u: string)
    requires Contains(t, u)
    ensures Contains(a + t + b, u)
  {
    ContainsInfix(a, t, b);
    ContainsTransitive(a + t + b, t, u);
  }

  /** The text of a template literal: its pieces, literal text and interpolated values, one after the other. */
  function Concat(parts: seq<string>): string
    decreases |parts|
  {
    if |parts| == 0 then "" else parts[0] + Concat(parts[1..])
  }

  /** A template literal is the text before a piece, the piece, and the text after it. */
  lemma {:induction false} ConcatSplit(parts: seq<string>, k: nat)
    requires k < |parts|
    ensures Concat(parts) == Concat(parts[..k]) + parts[k] + Concat(parts[k + 1..])
    decreases k
  {
    if k > 0 {
      var tail := parts[1..];
      ConcatSplit(tail, k - 1);
      assert tail[..k - 1] == parts[1..k] && tail[k - 1] == parts[k] && tail[k..] == parts[k + 1..];
      assert parts[..k][0] == parts[0] && parts[..k][1..] == parts[1..k];
      assert Concat(parts[..k]) == parts[0] + Concat(parts[1..k]);
      RegroupLeft(parts[0], Concat(parts[1..k]), parts[k], Concat(parts[k + 1..]));
    } else {
      assert parts[..0] == [] && parts[1..] == parts[k + 1..];
    }
  }

  lemma RegroupLeft(a: string, b: string, c: string, d: string)
    ensures a + (b + c + d) == (a + b) + c + d
  {
  }

  /** Every piece of a template literal occurs in its text. */
  lemma ConcatContainsPiece(parts: seq<string>, k: nat)
    requires k < |parts|
    ensures Contains(Concat(parts), parts[k])
  {
    ConcatSplit(parts, k);
    ContainsInfix(Concat(parts[..k]), parts[k], Concat(parts[k + 1..]));
  }

  /** Two neighbouring pieces occur together in the text. */
  lemma ConcatContainsNeighbours(parts: seq<string>, k: nat)
    requires k + 1 < |parts|
    ensures Contains(Concat(parts), parts[k] + parts[k + 1])
  {
    ConcatSplit(parts, k);
    var before, after := Concat(parts[..k]), Concat(parts[k + 2..]);
    assert parts[k + 1..] == [parts[k + 1]] + parts[k + 2..];
    assert Concat(parts[k + 1..]) == parts[k + 1] + after;
    Regroup(before, parts[k], parts[k + 1], after);
    ContainsInfix(before, parts[k] + parts[k + 1], after);
  }

  /** The text of two lists of pieces one after the other. */
  lemma {:induction false} ConcatAppend(a: seq<string>, b: seq<string>)
    ensures Concat(a + b) == Concat(a) + Concat(b)
    decreases |a|
  {
    if |a| > 0 {
      assert (a + b)[0] == a[0] && (a + b)[1..] == a[1..] + b;
      ConcatAppend(a[1..], b);
    } else {
      assert a + b == b;
    }
  }

  /** A run of consecutive pieces occurs in the text. */
  lemma ConcatContainsRun(parts: seq<string>, k: nat, n: nat)
    requires k + n <= |parts|
    ensures Contains(Concat(parts), Concat(parts[k..k + n]))
  {
    assert parts == parts[..k] + parts[k..k + n] + parts[k + n..];
    ConcatAppend(parts[..k] + parts[k..k + n], parts[k + n..]);
    ConcatAppend(parts[..k], parts[k..k + n]);
    ContainsInfix(Concat(parts[..k]), Concat(parts[k..k + n]), Concat(parts[k + n..]));
  }

  /** What one piece of a template literal contains, the whole text contains. */
  lemma ConcatContainsWithinPiece(parts: seq<string>, k: nat, t: string)
    requires k < |parts| && Contains(parts[k], t)
    ensures Contains(Concat(parts), t)
  {
    ConcatContainsPiece(parts, k);
    ContainsTransitive(Concat(parts), parts[k], t);
  }

  /** A text lacking the first character of `t` does not contain `t`. */
  lemma MissingFirstChar(s: string, t: string)
    ensures |t| > 0 && t[0] !in s ==> !Contains(s, t)
  {
    if |t| > 0 && t[0] !in s {
      forall i | 0 <= i <= |s| - |t| ensures !OccursAt(s, t, i) {
        assert s[i..i + |t|][0] == s[i] != t[0];
      }
    }
  }

  /** A prefix of a prefix is a prefix. */
  lemma StartsWithTransitive(s: string, t: string, u: string)
    requires StartsWith(s, t) && StartsWith(t, u)
    ensures StartsWith(s, u)
  {
    assert s[..|u|] == t[..|u|];
  }

  /** A suffix of a suffix is a suffix. */
  lemma EndsWithTransitive(s: string, t: string, u: string)
    requires EndsWith(s, t) && EndsWith(t, u)
    ensures EndsWith(s, u)
  {
    assert s[|s| - |u|..] == t[|t| - |u|..];
  }

  lemma Regroup(a: string, b: string, c: string, d: string)
    ensures a + b + (c + d) == a + (b + c) + d
  {
  }

  /** The text starts with the first piece and ends with the last. */
  lemma ConcatEnds(parts: seq<string>)
    requires |parts| > 0
    ensures StartsWith(Concat(parts), parts[0])
    ensures EndsWith(Concat(parts), parts[|parts| - 1])
  {
    var n := |parts| - 1;
    ConcatSplit(parts, n);
    assert parts[n + 1..] == [];
    assert Concat(parts) == Concat(parts[..n]) + parts[n];
    assert Concat(parts) == parts[0] + Concat(parts[1..]);
  }

  /**
   * Two template literals that differ in one piece: the second is the first with that piece's text
   * exchanged, everything before and after it kept.
   */
  lemma ConcatExchange(parts: seq<string>, k: nat, piece: string)
    requires k < |parts|
    ensures Concat(parts[k := piece]) == Concat(parts[..k]) + piece + Concat(parts[k + 1..])
  {
    ConcatSplit(parts[k := piece], k);
    assert parts[k := piece][..k] == parts[..k];
    assert parts[k := piece][k + 1..] == parts[k + 1..];
  }

  /** A template literal whose first and last pieces start and end with visible text is its own trim. */
  lemma TrimOfTemplate(parts: seq<string>)
    requires |parts| > 0 && |parts[0]| > 0 && |parts[|parts| - 1]| > 0
    requires !IsJsSpace(parts[0][0]) && !IsJsSpace(parts[|parts| - 1][|parts[|parts| - 1]| - 1])
    ensures Trim(Concat(parts)) == Concat(parts)
  {
    var text, first, last := Concat(parts), parts[0], parts[|parts| - 1];
    ConcatEnds(parts);
    assert text[0] == first[0] by { assert text[..|first|] == first; }
    assert text[|text| - 1] == last[|last| - 1] by { assert text[|text| - |last|..] == last; }
    TrimUnchanged(text);
  }

  /** `text` is `base` with `section` inserted at index `cut`. */
  predicate InsertedAt(text: string, base: string, cut: int, section: string) {
    0 <= cut <= |base| && text == base[..cut] + section + base[cut..]
  }

  /**
   * Filling an empty piece of a template literal with `section` inserts `section` at one place of
   * the text and changes nothing else.
   */
  lemma ConcatInsert(parts: seq<string>, k: nat, section: string) returns (cut: nat)
    requires k < |parts| && parts[k] == ""
    ensures InsertedAt(Concat(parts[k := section]), Concat(parts), cut, section)
  {
    var before, after := Concat(parts[..k]), Concat(parts[k + 1..]);
    ConcatSplit(parts, k);
    ConcatExchange(parts, k, section);
    assert Concat(parts) == before + after;
    assert Concat(parts)[..|before|] == before && Concat(parts)[|before|..] == after;
    cut := |before|;
  }
}
