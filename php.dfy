/**
 * PHP's string and array semantics, as far as the plugin relies on them:
 * truthiness of strings, `empty()`, `trim`/`rtrim` with a character list,
 * `str_replace` of one character, `str_starts_with`, `str_ends_with`,
 * `str_contains`, `explode`, `implode`, `strtolower` and integer-to-string
 * conversion. Every function here is total; the PHP behaviour that needs
 * the host (locales, multibyte) is not part of this module.
 */
module Php {

  datatype Option<+T> = None | Some(value: T)

  /** PHP's conversion of a string to bool: only "" and "0" are false. */
  predicate Truthy(s: string) {
    s != "" && s != "0"
  }

  /** `empty($s)` for a string is the negation of its truthiness. */
  predicate Empty(s: string) {
    !Truthy(s)
  }

  /** `$v` used as a condition, for an optional string (null is false). */
  predicate TruthyOpt(v: Option<string>) {
    v.Some? && Truthy(v.value)
  }

  /** `$a ?? $b` for an optional value. */
  function Coalesce<T>(v: Option<T>, default: T): (r: T)
    ensures v.Some? ==> r == v.value
    ensures v.None? ==> r == default
  {
    if v.Some? then v.value else default
  }

  // ---------------------------------------------------------------- prefixes

  /** `str_starts_with($s, $prefix)` */
  predicate StartsWith(s: string, prefix: string) {
    |prefix| <= |s| && s[..|prefix|] == prefix
  }

  /** `str_ends_with($s, $suffix)` */
  predicate EndsWith(s: string, suffix: string) {
    |suffix| <= |s| && s[|s| - |suffix|..] == suffix
  }

  predicate OccursAt(s: string, sub: string, i: nat) {
    i + |sub| <= |s| && s[i..i + |sub|] == sub
  }

  /** `str_contains($s, $sub)`: some position of `s` starts a copy of `sub`. */
  predicate Contains(s: string, sub: string) {
    exists i :: 0 <= i <= |s| - |sub| && OccursAt(s, sub, i)
  }

  lemma ContainsItself(s: string)
    ensures Contains(s, s)
  {
    assert OccursAt(s, s, 0);
  }

  lemma StartsWithContains(s: string, p: string)
    requires StartsWith(s, p)
    ensures Contains(s, p)
  {
    assert OccursAt(s, p, 0);
  }

  lemma ContainsInfix(a: string, b: string, c: string)
    ensures Contains(a + b + c, b)
  {
    var s := a + b + c;
    assert s[|a|..|a| + |b|] == b;
    assert OccursAt(s, b, |a|);
  }

  lemma ContainsSuffix(a: string, b: string)
    ensures Contains(a + b, b)
  {
    assert a + b + "" == a + b;
    ContainsInfix(a, b, "");
  }

  lemma ContainsExtend(s: string, sub: string, pre: string, post: string)
    requires Contains(s, sub)
    ensures Contains(pre + s + post, sub)
  {
    var i :| 0 <= i <= |s| - |sub| && OccursAt(s, sub, i);
    var t := pre + s + post;
    assert t[|pre| + i..|pre| + i + |sub|] == s[i..i + |sub|];
    assert OccursAt(t, sub, |pre| + i);
  }

  lemma StartsWithConcat(p: string, s: string)
    ensures StartsWith(p + s, p)
  {
    assert (p + s)[..|p|] == p;
  }

  lemma EndsWithConcat(s: string, p: string)
    ensures EndsWith(s + p, p)
  {
    assert (s + p)[|s + p| - |p|..] == p;
  }

  // ------------------------------------------------------------- trimming

  /** The characters PHP's `trim` strips by default. */
  const Whitespace: set<char> := {' ', '\t', '\n', '\r', '\0', 11 as char}

  /** `ltrim($s, $chars)` */
  function TrimLeft(s: string, chars: set<char>): (r: string)
    ensures |r| <= |s| && r == s[|s| - |r|..]
    ensures r == [] || r[0] !in chars
    ensures forall i :: 0 <= i < |s| - |r| ==> s[i] in chars
  {
    if |s| > 0 && s[0] in chars then TrimLeft(s[1..], chars) else s
  }

  /** `rtrim($s, $chars)` */
  function TrimRight(s: string, chars: set<char>): (r: string)
    ensures |r| <= |s| && r == s[..|r|]
    ensures r == [] || r[|r| - 1] !in chars
    ensures forall i :: |r| <= i < |s| ==> s[i] in chars
  {
    if |s| > 0 && s[|s| - 1] in chars then TrimRight(s[..|s| - 1], chars) else s
  }

  /** `trim($s, $chars)` */
  function Trim(s: string, chars: set<char>): string {
    TrimRight(TrimLeft(s, chars), chars)
  }

  lemma TrimLeftNoop(s: string, chars: set<char>)
    requires s == [] || s[0] !in chars
    ensures TrimLeft(s, chars) == s
  {
  }

  lemma TrimRightNoop(s: string, chars: set<char>)
    requires s == [] || s[|s| - 1] !in chars
    ensures TrimRight(s, chars) == s
  {
  }

  /** A trimmed string has no trimmable character at either end. */
  lemma TrimEnds(s: string, chars: set<char>)
    ensures var t := Trim(s, chars); t == [] || (t[0] !in chars && t[|t| - 1] !in chars)
  {
    var l := TrimLeft(s, chars);
    var t := TrimRight(l, chars);
    if t != [] {
      assert t == l[..|t|];
      assert t[0] == l[0];
    }
  }

  lemma TrimIdempotent(s: string, chars: set<char>)
    ensures Trim(Trim(s, chars), chars) == Trim(s, chars)
  {
    var t := Trim(s, chars);
    TrimEnds(s, chars);
    TrimLeftNoop(t, chars);
    TrimRightNoop(t, chars);
  }

  /** Trimming text that already has clean ends changes nothing. */
  lemma TrimNoop(s: string, chars: set<char>)
    requires s == [] || (s[0] !in chars && s[|s| - 1] !in chars)
    ensures Trim(s, chars) == s
  {
    TrimLeftNoop(s, chars);
    TrimRightNoop(s, chars);
  }

  /** Right-trimming `s + t` where `t` has a clean last character only sees `t`. */
  lemma TrimRightConcat(s: string, t: string, chars: set<char>)
    requires t != [] && t[|t| - 1] !in chars
    ensures TrimRight(s + t, chars) == s + t
  {
  }

  /** Left-trimming `s + t` where `s` has a clean first character. */
  lemma TrimLeftConcat(s: string, t: string, chars: set<char>)
    requires s != [] && s[0] !in chars
    ensures TrimLeft(s + t, chars) == s + t
  {
  }

  // ---------------------------------------------------- replace, lower case

  /** `str_replace($from, $to, $s)` for single characters. */
  function ReplaceChar(s: string, from: char, to: char): (r: string)
    ensures |r| == |s|
    ensures forall i :: 0 <= i < |s| ==> r[i] == (if s[i] == from then to else s[i])
  {
    if s == [] then [] else [if s[0] == from then to else s[0]] + ReplaceChar(s[1..], from, to)
  }

  lemma ReplaceCharConcat(s: string, t: string, from: char, to: char)
    ensures ReplaceChar(s + t, from, to) == ReplaceChar(s, from, to) + ReplaceChar(t, from, to)
  {
    var l := ReplaceChar(s + t, from, to);
    var r := ReplaceChar(s, from, to) + ReplaceChar(t, from, to);
    assert |l| == |r|;
    forall i | 0 <= i < |l| ensures l[i] == r[i] {
      if i < |s| {
        assert (s + t)[i] == s[i];
      } else {
        assert (s + t)[i] == t[i - |s|];
      }
    }
  }

  /** The ASCII upper-case letter of `ucfirst`. */
  function UpperChar(c: char): char {
    if 'a' <= c <= 'z' then (c as int - 32) as char else c
  }

  function LowerChar(c: char): char {
    if 'A' <= c <= 'Z' then (c as int + 32) as char else c
  }

  /** `strtolower`, which since PHP 8.2 maps ASCII letters only. */
  function Lower(s: string): (r: string)
    ensures |r| == |s|
    ensures forall i :: 0 <= i < |s| ==> r[i] == LowerChar(s[i])
  {
    if s == [] then [] else [LowerChar(s[0])] + Lower(s[1..])
  }

  // ------------------------------------------------------- explode, implode

  /** `explode($sep, $s)`: the pieces between occurrences of `sep`. */
  function Split(s: string, sep: char): (parts: seq<string>)
    ensures |parts| >= 1
    ensures forall i :: 0 <= i < |parts| ==> sep !in parts[i]
    decreases |s|
  {
    if s == [] then [""]
    else
      var rest := Split(s[1..], sep);
      if s[0] == sep then [""] + rest else [[s[0]] + rest[0]] + rest[1..]
  }

  /** `implode($glue, $parts)` */
  function Join(parts: seq<string>, glue: string): string {
    if parts == [] then ""
    else if |parts| == 1 then parts[0]
    else parts[0] + glue + Join(parts[1..], glue)
  }

  lemma {:induction false} SplitNoSeparator(s: string, sep: char)
    requires sep !in s
    ensures Split(s, sep) == [s]
    decreases |s|
  {
    if s != [] {
      SplitNoSeparator(s[1..], sep);
      assert [s[0]] + s[1..] == s;
    }
  }

  /** The first piece of `explode` is the text up to the first separator. */
  lemma {:induction false} SplitCons(a: string, b: string, sep: char)
    requires sep !in a
    ensures Split(a + [sep] + b, sep) == [a] + Split(b, sep)
    decreases |a|
  {
    if a == [] {
      assert a + [sep] + b == [sep] + b;
      assert ([sep] + b)[1..] == b;
    } else {
      var s := a + [sep] + b;
      assert s[1..] == a[1..] + [sep] + b;
      SplitCons(a[1..], b, sep);
      assert [a[0]] + a[1..] == a;
    }
  }

  /** `implode` undoes `explode`. */
  lemma {:induction false} JoinSplit(s: string, sep: char)
    ensures Join(Split(s, sep), [sep]) == s
    decreases |s|
  {
    if s != [] {
      JoinSplit(s[1..], sep);
      var rest := Split(s[1..], sep);
      if s[0] == sep {
        assert Join([""] + rest, [sep]) == "" + [sep] + Join(rest, [sep]);
      } else {
        var parts := [[s[0]] + rest[0]] + rest[1..];
        if |rest| == 1 {
          assert parts == [[s[0]] + rest[0]];
        } else {
          assert parts[1..] == rest[1..];
          assert Join(rest, [sep]) == rest[0] + [sep] + Join(rest[1..], [sep]);
        }
      }
    }
  }

  /** `implode('', $parts)`, accumulated from the back as a loop builds it. */
  function Concat(parts: seq<string>): string {
    if parts == [] then "" else Concat(parts[..|parts| - 1]) + parts[|parts| - 1]
  }

  lemma {:induction false} ConcatAppend(xs: seq<string>, ys: seq<string>)
    ensures Concat(xs + ys) == Concat(xs) + Concat(ys)
    decreases |ys|
  {
    if ys == [] {
      assert xs + ys == xs;
    } else {
      var zs := xs + ys;
      assert zs[..|zs| - 1] == xs + ys[..|ys| - 1];
      ConcatAppend(xs, ys[..|ys| - 1]);
    }
  }

  lemma ConcatSnoc(parts: seq<string>, last: string)
    ensures Concat(parts + [last]) == Concat(parts) + last
  {
    assert (parts + [last])[..|parts|] == parts;
  }

  /** A run of consecutive parts is part of the whole concatenation. */
  lemma ConcatInfix(xs: seq<string>, ys: seq<string>, zs: seq<string>)
    ensures Contains(Concat(xs + ys + zs), Concat(ys))
  {
    ConcatAppend(xs + ys, zs);
    ConcatAppend(xs, ys);
    ContainsInfix(Concat(xs), Concat(ys), Concat(zs));
  }

  lemma ConcatPair(x: string, y: string)
    ensures Concat([x, y]) == x + y
  {
    assert [x, y][..1] == [x];
    assert Concat([x]) == x by {
      assert [x][..0] == [];
      assert Concat([x]) == Concat([]) + x;
    }
  }

  /** The concatenation is empty exactly when every part is. */
  lemma {:induction false} ConcatEmptyIff(parts: seq<string>)
    ensures Concat(parts) == "" <==> forall i :: 0 <= i < |parts| ==> parts[i] == ""
  {
    if parts != [] {
      ConcatEmptyIff(parts[..|parts| - 1]);
    }
  }

  // ------------------------------------------------------ numbers as text

  function DigitChar(d: nat): char
    requires d < 10
  {
    "0123456789"[d]
  }

  predicate IsDigit(c: char) {
    '0' <= c <= '9'
  }

  /** Decimal representation of a natural number, as PHP's string conversion. */
  function NatToString(n: nat): (r: string)
    ensures |r| >= 1
    ensures forall i :: 0 <= i < |r| ==> IsDigit(r[i])
  {
    if n < 10 then [DigitChar(n)] else NatToString(n / 10) + [DigitChar(n % 10)]
  }

  /** `(string) $i` for an integer. */
  function IntToString(i: int): string {
    if i < 0 then "-" + NatToString(-i) else NatToString(i)
  }

  // ----------------------------------------------------- list filtering

  /** `array_values(array_filter($xs, $keep))`: order-preserving selection. */
  function Filter<T>(keep: T -> bool, xs: seq<T>): (r: seq<T>)
    ensures |r| <= |xs|
    ensures forall x :: x in r ==> x in xs && keep(x)
    ensures forall x :: x in xs && keep(x) ==> x in r
  {
    if xs == [] then []
    else if keep(xs[0]) then [xs[0]] + Filter(keep, xs[1..])
    else Filter(keep, xs[1..])
  }

  lemma FilterAppend<T>(keep: T -> bool, xs: seq<T>, ys: seq<T>)
    ensures Filter(keep, xs + ys) == Filter(keep, xs) + Filter(keep, ys)
  {
    if xs == [] {
      assert xs + ys == ys;
    } else {
      assert (xs + ys)[0] == xs[0];
      assert (xs + ys)[1..] == xs[1..] + ys;
      FilterAppend(keep, xs[1..], ys);
    }
  }

  /** Filtering a list extended by one element, as a loop does it. */
  /** Concatenation of lists is associative. */
  lemma AppendAssoc<T>(a: seq<T>, b: seq<T>, c: seq<T>)
    ensures (a + b) + c == a + (b + c)
  {
  }

  lemma FilterSnoc<T>(keep: T -> bool, xs: seq<T>, x: T)
    ensures Filter(keep, xs + [x]) == Filter(keep, xs) + (if keep(x) then [x] else [])
  {
    FilterAppend(keep, xs, [x]);
    assert [x][1..] == [];
  }

  /** `array_map($f, $xs)` on a list. */
  function Map<A, B>(f: A -> B, xs: seq<A>): (r: seq<B>)
    ensures |r| == |xs|
    ensures forall i :: 0 <= i < |xs| ==> r[i] == f(xs[i])
  {
    if xs == [] then [] else [f(xs[0])] + Map(f, xs[1..])
  }

  lemma {:induction false} MapSnoc<A, B>(f: A -> B, xs: seq<A>, x: A)
    ensures Map(f, xs + [x]) == Map(f, xs) + [f(x)]
  {
    assert |Map(f, xs + [x])| == |Map(f, xs) + [f(x)]|;
  }

  /** Selecting with a stricter test before mapping is selecting on the
      mapped values afterwards, when the stricter test is the looser one
      plus a test `d` of the mapped value. */
  lemma {:induction false} MapFilterCommute<A, B>(f: A -> B, strict: A -> bool, loose: A -> bool, d: B -> bool, xs: seq<A>)
    requires forall x :: strict(x) == (loose(x) && d(f(x)))
    ensures Map(f, Filter(strict, xs)) == Filter(d, Map(f, Filter(loose, xs)))
  {
    if xs != [] {
      MapFilterCommute(f, strict, loose, d, xs[1..]);
      var restL := Filter(loose, xs[1..]);
      if loose(xs[0]) {
        var m := Map(f, [xs[0]] + restL);
        assert m == [f(xs[0])] + Map(f, restL);
        assert m[1..] == Map(f, restL);
        if strict(xs[0]) {
          assert Map(f, [xs[0]] + Filter(strict, xs[1..])) == [f(xs[0])] + Map(f, Filter(strict, xs[1..]));
        }
      }
    }
  }

  /** No two elements share a key. */
  ghost predicate DistinctBy<T, K>(key: T -> K, xs: seq<T>) {
    forall i, j :: 0 <= i < j < |xs| ==> key(xs[i]) != key(xs[j])
  }

  /** Selection keeps keys distinct. */
  lemma {:induction false} FilterKeepsDistinct<T, K>(keep: T -> bool, key: T -> K, xs: seq<T>)
    requires DistinctBy(key, xs)
    ensures DistinctBy(key, Filter(keep, xs))
  {
    if xs != [] {
      var tail := xs[1..];
      assert DistinctBy(key, tail) by {
        forall i, j | 0 <= i < j < |tail| ensures key(tail[i]) != key(tail[j]) {
          assert tail[i] == xs[i + 1] && tail[j] == xs[j + 1];
        }
      }
      FilterKeepsDistinct(keep, key, tail);
      var rest := Filter(keep, tail);
      if keep(xs[0]) {
        forall j | 0 <= j < |rest| ensures key(rest[j]) != key(xs[0]) {
          assert rest[j] in tail;
          var k :| 0 <= k < |tail| && tail[k] == rest[j];
          assert xs[k + 1] == rest[j];
        }
        var r := [xs[0]] + rest;
        assert Filter(keep, xs) == r;
        forall i, j | 0 <= i < j < |r| ensures key(r[i]) != key(r[j]) {
          if i > 0 {
            assert r[i] == rest[i - 1] && r[j] == rest[j - 1];
          } else {
            assert r[j] == rest[j - 1];
          }
        }
      }
    }
  }
}
