/**
 * The few JavaScript semantics the invoice code leans on: dynamic values and their
 * truthiness (`x || fallback`), NaN, `Number.parseFloat`, and the String methods
 * `startsWith`, `includes`, `replace` (string pattern), `replace(/\n/g, " ")` and `split`.
 */
module Js {
  import opened Wrappers

  /** A JavaScript value, as far as the invoice code tells values apart. */
  datatype Value = Undefined | Null | Bool(b: bool) | Number(n: real) | NaN | Str(s: string) | Object

  /** ToBoolean: what `if (v)` and `v || fallback` test. */
  predicate Truthy(v: Value) {
    match v
    case Undefined => false
    case Null => false
    case NaN => false
    case Bool(b) => b
    case Number(n) => n != 0.0
    case Str(s) => s != ""
    case Object => true
  }

  /** A JavaScript number that may be NaN (infinities are not modelled). */
  datatype Num = Finite(value: real) | NotANumber

  function DivNum(a: Num, d: real): (r: Num)
    requires d != 0.0
    ensures r.Finite? <==> a.Finite?
    ensures a.Finite? ==> r.value * d == a.value
  {
    match a
    case Finite(v) => Finite(v / d)
    case NotANumber => NotANumber
  }

  /**
   * `Number.parseFloat` on a string is taken as given: None stands for NaN.
   * It is a parameter of every member that parses, never a fixed function.
   */
  type Parser = string -> Option<real>

  /**
   * `Number.parseFloat(v)`: a number parses to itself, a string goes to the parser,
   * and every other value stringifies to a word that is not a numeral ("undefined",
   * "null", "true", "false", "NaN", "[object Object]"), hence NaN.
   */
  function ParseFloat(parse: Parser, v: Value): Option<real> {
    match v
    case Number(n) => Some(n)
    case Str(s) => parse(s)
    case _ => None
  }

  /** `parsed || fallback` for a parsed number: NaN and 0 both fall back. */
  function NumberOr(parsed: Option<real>, fallback: real): (r: real)
    ensures parsed.Some? && parsed.value != 0.0 ==> r == parsed.value
    ensures parsed.None? || parsed.value == 0.0 ==> r == fallback
  {
    if parsed.Some? && parsed.value != 0.0 then parsed.value else fallback
  }

  /** `s || fallback` for a string field: the empty string (or an absent field) falls back. */
  function TextOr(s: string, fallback: string): (r: string)
    ensures r == s || r == fallback
    ensures r == "" ==> fallback == ""
    ensures s != "" ==> r == s
    ensures s == "" ==> r == fallback
  {
    if s != "" then s else fallback
  }

  /** `s.startsWith(p)` */
  predicate StartsWith(s: string, p: string) {
    |p| <= |s| && s[..|p|] == p
  }

  /** p occurs in s at index j. */
  predicate MatchAt(s: string, p: string, j: nat) {
    j + |p| <= |s| && s[j..j + |p|] == p
  }

  /** First index at or after i where p occurs in s. */
  function IndexFrom(s: string, p: string, i: nat): (r: Option<nat>)
    decreases |s| - i
    ensures r.Some? ==> i <= r.value && MatchAt(s, p, r.value)
    ensures r.Some? ==> forall j: nat :: i <= j < r.value ==> !MatchAt(s, p, j)
    ensures r.None? ==> forall j: nat :: i <= j ==> !MatchAt(s, p, j)
  {
    if i + |p| > |s| then None
    else if s[i..i + |p|] == p then Some(i)
    else IndexFrom(s, p, i + 1)
  }

  /** `s.indexOf(p)`, None for -1: the first occurrence of p in s. */
  function IndexOf(s: string, p: string): (r: Option<nat>)
    ensures r.Some? ==> MatchAt(s, p, r.value) && forall j: nat :: j < r.value ==> !MatchAt(s, p, j)
    ensures r.None? ==> forall j: nat :: !MatchAt(s, p, j)
  {
    IndexFrom(s, p, 0)
  }

  /** `s.includes(p)` */
  predicate Includes(s: string, p: string) {
    IndexOf(s, p).Some?
  }

  lemma StartsWithIncludes(s: string, p: string)
    requires StartsWith(s, p)
    ensures Includes(s, p) && IndexOf(s, p) == Some(0)
  {
    assert MatchAt(s, p, 0);
  }

  /** `s.replace(p, r)` with a string pattern: only the first occurrence is replaced. */
  function ReplaceFirst(s: string, p: string, r: string): string {
    match IndexOf(s, p)
    case None => s
    case Some(k) => s[..k] + r + s[k + |p|..]
  }

  /** Replacing a pattern that the string starts with swaps exactly that prefix. */
  lemma ReplaceFirstAtStart(p: string, x: string, r: string)
    ensures ReplaceFirst(p + x, p, r) == r + x
  {
    assert (p + x)[..|p|] == p;
    StartsWithIncludes(p + x, p);
    assert (p + x)[|p|..] == x;
  }

  /** `s.replace(/\n/g, " ")` */
  function NewlinesToSpaces(s: string): (r: string)
    ensures |r| == |s| && '\n' !in r
    ensures forall i :: 0 <= i < |s| && s[i] != '\n' ==> r[i] == s[i]
  {
    seq(|s|, i requires 0 <= i < |s| => if s[i] == '\n' then ' ' else s[i])
  }

  lemma MatchAtChar(s: string, c: char, j: nat)
    ensures MatchAt(s, [c], j) <==> j < |s| && s[j] == c
  {
    if j < |s| {
      assert s[j..j + 1] == [s[j]];
    }
  }

  lemma NoCharAbsent(s: string, c: char)
    requires IndexOf(s, [c]).None?
    ensures c !in s
  {
    forall j | 0 <= j < |s| ensures s[j] != c {
      MatchAtChar(s, c, j);
    }
  }

  lemma NoCharBefore(s: string, c: char, k: nat)
    requires IndexOf(s, [c]) == Some(k)
    ensures c !in s[..k] && k < |s| && s[k] == c
  {
    forall j | 0 <= j < k ensures s[j] != c {
      MatchAtChar(s, c, j);
    }
    MatchAtChar(s, c, k);
  }

  /** `s.split(c)` for a one-character separator. */
  function Split(s: string, c: char): (parts: seq<string>)
    decreases |s|
    ensures |parts| >= 1
    ensures |parts| == 1 <==> IndexOf(s, [c]).None?
    ensures forall k :: 0 <= k < |parts| ==> c !in parts[k]
  {
    match IndexOf(s, [c])
    case None =>
      NoCharAbsent(s, c);
      [s]
    case Some(k) =>
      NoCharBefore(s, c, k);
      [s[..k]] + Split(s[k + 1..], c)
  }

  /** `parts.join(c)` */
  function Join(parts: seq<string>, c: char): string
    requires |parts| >= 1
  {
    if |parts| == 1 then parts[0] else parts[0] + [c] + Join(parts[1..], c)
  }

  /** Splitting and joining again gives back the string. */
  lemma {:induction false} JoinSplit(s: string, c: char)
    decreases |s|
    ensures Join(Split(s, c), c) == s
  {
    match IndexOf(s, [c])
    case None =>
    case Some(k) =>
      NoCharBefore(s, c, k);
      var rest := Split(s[k + 1..], c);
      var parts := Split(s, c);
      assert parts == [s[..k]] + rest;
      assert parts[1..] == rest;
      assert Join(parts, c) == s[..k] + [c] + Join(rest, c);
      JoinSplit(s[k + 1..], c);
      assert s[..k + 1] == s[..k] + [c];
      assert s == s[..k + 1] + s[k + 1..];
  }

  /** Splitting a join of separator-free parts gives back the parts. */
  lemma {:induction false} SplitJoin(parts: seq<string>, c: char)
    requires |parts| >= 1
    requires forall k :: 0 <= k < |parts| ==> c !in parts[k]
    ensures Split(Join(parts, c), c) == parts
  {
    var s := Join(parts, c);
    if |parts| == 1 {
      if IndexOf(s, [c]).Some? {
        NoCharBefore(s, c, IndexOf(s, [c]).value);
      }
    } else {
      var head := parts[0];
      var rest := Join(parts[1..], c);
      assert s == head + [c] + rest;
      MatchAtChar(s, c, |head|);
      forall j: nat | j < |head| ensures !MatchAt(s, [c], j) {
        MatchAtChar(s, c, j);
        assert s[j] == head[j];
      }
      assert IndexOf(s, [c]) == Some(|head|);
      assert s[..|head|] == head;
      assert s[|head| + 1..] == rest;
      SplitJoin(parts[1..], c);
    }
  }
}
