/** The Python string operations the pipeline is built from: `strip`, `rstrip(c)`, `lower`,
    `split()`, `sep.join`, `in` and `replace`, as total functions on `seq<char>`. */
module Text {

  /** Python's `str.isspace()`: the characters `strip()` and `split()` treat as whitespace. */
  predicate IsSpace(c: char)
  {
    || c == ' ' || c == '\t' || c == '\n' || c == '\r'
    || c == '\U{0B}' || c == '\U{0C}'
    || ('\U{1C}' <= c <= '\U{1F}')
    || c == '\U{85}' || c == '\U{A0}' || c == '\U{1680}'
    || ('\U{2000}' <= c <= '\U{200A}')
    || c == '\U{2028}' || c == '\U{2029}' || c == '\U{202F}' || c == '\U{205F}' || c == '\U{3000}'
  }

  predicate NoSpace(w: string)
  {
    forall k :: 0 <= k < |w| ==> !IsSpace(w[k])
  }

  /** `s.lstrip()`: drops the leading whitespace and nothing else. */
  function LStrip(s: string): (r: string)
    ensures |r| <= |s| && r == s[|s| - |r|..]
    ensures forall k :: 0 <= k < |s| - |r| ==> IsSpace(s[k])
    ensures r == [] || !IsSpace(r[0])
    decreases |s|
  {
    if s != [] && IsSpace(s[0]) then LStrip(s[1..]) else s
  }

  /** `s.rstrip()`: drops the trailing whitespace and nothing else. */
  function RStrip(s: string): (r: string)
    ensures |r| <= |s| && r == s[..|r|]
    ensures forall k :: |r| <= k < |s| ==> IsSpace(s[k])
    ensures r == [] || !IsSpace(r[|r| - 1])
    decreases |s|
  {
    if s != [] && IsSpace(s[|s| - 1]) then RStrip(s[..|s| - 1]) else s
  }

  /** `s.strip()`. */
  function Strip(s: string): (r: string)
    ensures r == [] || (!IsSpace(r[0]) && !IsSpace(r[|r| - 1]))
  {
    RStrip(LStrip(s))
  }

  /** `s.rstrip(c)` for a single character `c`. */
  function RStripChar(s: string, c: char): (r: string)
    ensures |r| <= |s| && r == s[..|r|]
    ensures forall k :: |r| <= k < |s| ==> s[k] == c
    ensures r == [] || r[|r| - 1] != c
    decreases |s|
  {
    if s != [] && s[|s| - 1] == c then RStripChar(s[..|s| - 1], c) else s
  }

  /** Stripping twice strips nothing more. */
  lemma StripIdempotent(s: string)
    ensures Strip(Strip(s)) == Strip(s)
  {
    var t := Strip(s);
    assert LStrip(t) == t;
    assert RStrip(t) == t;
  }

  function LowerChar(c: char): char
  {
    if 'A' <= c <= 'Z' then (c as int + 32) as char else c
  }

  /** `s.lower()` on ASCII letters; every other character is kept. */
  function Lower(s: string): (r: string)
    ensures |r| == |s|
    ensures forall k :: 0 <= k < |s| ==> r[k] == LowerChar(s[k])
  {
    seq(|s|, k requires 0 <= k < |s| => LowerChar(s[k]))
  }

  /** Lowering twice is lowering once. */
  lemma LowerIdempotent(s: string)
    ensures Lower(Lower(s)) == Lower(s)
  {
    var l := Lower(s);
    forall k | 0 <= k < |s|
      ensures Lower(l)[k] == l[k]
    {
      var c := s[k];
      if 'A' <= c <= 'Z' {
        assert 'a' <= l[k] <= 'z';
      }
    }
  }

  /** Length of the leading run of non-whitespace characters. */
  function WordLen(t: string): (n: nat)
    ensures n <= |t|
    ensures forall k :: 0 <= k < n ==> !IsSpace(t[k])
    ensures n == |t| || IsSpace(t[n])
    decreases |t|
  {
    if t == [] || IsSpace(t[0]) then 0 else 1 + WordLen(t[1..])
  }

  lemma WordsCons(w: string, rest: seq<string>)
    requires w != [] && NoSpace(w)
    requires forall i :: 0 <= i < |rest| ==> rest[i] != [] && NoSpace(rest[i])
    ensures forall i :: 0 <= i < |[w] + rest| ==> ([w] + rest)[i] != [] && NoSpace(([w] + rest)[i])
  {
    assert forall i :: 1 <= i < |[w] + rest| ==> ([w] + rest)[i] == rest[i - 1];
  }

  /** A text that starts with a non-space character starts with a non-empty word. */
  lemma FirstWord(t: string)
    requires t != [] && !IsSpace(t[0])
    ensures WordLen(t) > 0 && NoSpace(t[..WordLen(t)])
  {
    var w := t[..WordLen(t)];
    assert forall k :: 0 <= k < |w| ==> w[k] == t[k];
  }

  /** `s.split()` with no separator: the maximal runs of non-whitespace characters, in order. */
  function Words(s: string): (ws: seq<string>)
    ensures forall i :: 0 <= i < |ws| ==> ws[i] != [] && NoSpace(ws[i])
    decreases |s|
  {
    var t := LStrip(s);
    if t == [] then []
    else
      var n := WordLen(t);
      FirstWord(t);
      var rest := Words(t[n..]);
      var ws := [t[..n]] + rest;
      WordsCons(t[..n], rest);
      ws
  }

  /** `set(s.lower().split())`. */
  function WordSet(s: string): set<string>
  {
    var ws := Words(Lower(s));
    set i | 0 <= i < |ws| :: ws[i]
  }

  /** A text has no words exactly when it is blank. */
  lemma {:induction false} WordSetEmptyIffBlank(s: string)
    ensures WordSet(s) == {} <==> forall k :: 0 <= k < |s| ==> IsSpace(s[k])
  {
    var l := Lower(s);
    assert forall k :: 0 <= k < |s| ==> (IsSpace(l[k]) <==> IsSpace(s[k]));
    var t := LStrip(l);
    if t == [] {
      assert Words(l) == [];
    } else {
      assert Words(l)[0] in WordSet(s);
      assert !IsSpace(l[|l| - |t|]);
    }
  }

  /** `sep.join(parts)`. */
  function Join(sep: string, parts: seq<string>): string
  {
    if |parts| == 0 then []
    else if |parts| == 1 then parts[0]
    else parts[0] + sep + Join(sep, parts[1..])
  }

  lemma {:induction false} JoinAppend(sep: string, parts: seq<string>, x: string)
    requires parts != []
    ensures Join(sep, parts + [x]) == Join(sep, parts) + sep + x
    decreases |parts|
  {
    if |parts| == 1 {
      assert parts + [x] == [parts[0], x];
    } else {
      assert (parts + [x])[1..] == parts[1..] + [x];
      JoinAppend(sep, parts[1..], x);
    }
  }

  /** Joining two non-empty lists equals joining their joins. */
  lemma {:induction false} JoinConcat(sep: string, a: seq<string>, b: seq<string>)
    requires a != [] && b != []
    ensures Join(sep, a + b) == Join(sep, a) + sep + Join(sep, b)
    decreases |a|
  {
    if |a| == 1 {
      assert (a + b)[1..] == b;
    } else {
      assert (a + b)[1..] == a[1..] + b;
      JoinConcat(sep, a[1..], b);
    }
  }

  predicate StartsWith(s: string, p: string)
  {
    |p| <= |s| && s[..|p|] == p
  }

  /** `p in s`: some position of `s` starts an occurrence of `p`. */
  predicate Occurs(s: string, p: string)
    decreases |s|
  {
    StartsWith(s, p) || (s != [] && Occurs(s[1..], p))
  }

  /** `s.replace(old, new)`: scan left to right and replace each occurrence that does not
      overlap an earlier replaced one. An empty `old` occurs before every character and at the
      end, as in Python. */
  function ReplaceAll(s: string, pat: string, rep: string): string
    decreases |s|
  {
    if pat == [] then rep + (if s == [] then [] else [s[0]] + ReplaceAll(s[1..], pat, rep))
    else if StartsWith(s, pat) then rep + ReplaceAll(s[|pat|..], pat, rep)
    else if s == [] then []
    else [s[0]] + ReplaceAll(s[1..], pat, rep)
  }

  function SplitOn(s: string, sep: string): (parts: seq<string>)
    requires sep != []
    ensures parts != []
    decreases |s|
  {
    if StartsWith(s, sep) then [[]] + SplitOn(s[|sep|..], sep)
    else if s == [] then [[]]
    else
      var r := SplitOn(s[1..], sep);
      [[s[0]] + r[0]] + r[1..]
  }

  lemma JoinPrependChar(sep: string, c: char, parts: seq<string>)
    requires parts != []
    ensures Join(sep, [[c] + parts[0]] + parts[1..]) == [c] + Join(sep, parts)
  {
    var q := [[c] + parts[0]] + parts[1..];
    if |parts| > 1 {
      assert q[1..] == parts[1..];
    }
  }

  /** The pieces of a split are free of the separator, and the first one is a prefix. */
  lemma {:induction false} SplitPiecesFree(s: string, sep: string)
    requires sep != []
    ensures var parts := SplitOn(s, sep);
      && |parts[0]| <= |s| && parts[0] == s[..|parts[0]|]
      && forall i :: 0 <= i < |parts| ==> !Occurs(parts[i], sep)
    decreases |s|
  {
    var parts := SplitOn(s, sep);
    if StartsWith(s, sep) {
      SplitPiecesFree(s[|sep|..], sep);
      assert !Occurs([], sep);
    } else if s == [] {
      assert !Occurs([], sep);
    } else {
      var r := SplitOn(s[1..], sep);
      SplitPiecesFree(s[1..], sep);
      var x := [s[0]] + r[0];
      assert x == s[..|x|];
      assert x[1..] == r[0];
      if |sep| <= |x| {
        assert x[..|sep|] == s[..|sep|];
      }
      assert !Occurs(x, sep);
      assert forall i :: 1 <= i < |parts| ==> parts[i] == r[i];
    }
  }

  /** Joining the pieces of a split with the separator gives back the text. */
  lemma JoinSplitRoundTrip(s: string, sep: string)
    requires sep != []
    ensures Join(sep, SplitOn(s, sep)) == s
  {
    ReplaceAllIsJoinOfSplit(s, sep, sep);
    ReplaceBySelf(s, sep);
  }

  /** Replacing a pattern by itself changes nothing. */
  lemma {:induction false} ReplaceBySelf(s: string, pat: string)
    ensures ReplaceAll(s, pat, pat) == s
    decreases |s|
  {
    if pat == [] {
      if s != [] {
        ReplaceBySelf(s[1..], pat);
        assert s == [s[0]] + s[1..];
      }
    } else if StartsWith(s, pat) {
      ReplaceBySelf(s[|pat|..], pat);
      assert s == s[..|pat|] + s[|pat|..];
    } else if s != [] {
      ReplaceBySelf(s[1..], pat);
      assert s == [s[0]] + s[1..];
    }
  }

  /** `s.replace(old, new) == new.join(s.split(old))`: every occurrence of `old` is
      replaced, since the pieces between replacements contain none (`SplitPiecesFree`). */
  lemma {:induction false} ReplaceAllIsJoinOfSplit(s: string, pat: string, rep: string)
    requires pat != []
    ensures ReplaceAll(s, pat, rep) == Join(rep, SplitOn(s, pat))
    decreases |s|
  {
    if StartsWith(s, pat) {
      var rest := SplitOn(s[|pat|..], pat);
      ReplaceAllIsJoinOfSplit(s[|pat|..], pat, rep);
      assert ReplaceAll(s, pat, rep) == rep + ReplaceAll(s[|pat|..], pat, rep);
      assert SplitOn(s, pat) == [[]] + rest;
      assert ([[]] + rest)[1..] == rest;
      assert Join(rep, [[]] + rest) == [] + rep + Join(rep, rest);
    } else if s == [] {
    } else {
      ReplaceAllIsJoinOfSplit(s[1..], pat, rep);
      assert ReplaceAll(s, pat, rep) == [s[0]] + ReplaceAll(s[1..], pat, rep);
      JoinPrependChar(rep, s[0], SplitOn(s[1..], pat));
    }
  }

  /** Replacing a text that does not occur changes nothing. */
  lemma {:induction false} ReplaceAllAbsent(s: string, pat: string, rep: string)
    requires !Occurs(s, pat)
    ensures ReplaceAll(s, pat, rep) == s
    decreases |s|
  {
    if s != [] {
      ReplaceAllAbsent(s[1..], pat, rep);
      assert s == [s[0]] + s[1..];
    }
  }

  /** Replacing a text in itself gives the replacement. */
  lemma ReplaceWhole(pat: string, rep: string)
    requires pat != []
    ensures ReplaceAll(pat, pat, rep) == rep
  {
    assert StartsWith(pat, pat);
    assert pat[|pat|..] == [];
  }

  /** A character that does not start the pattern is copied as it is. */
  lemma ReplaceAllCons(c: char, s: string, pat: string, rep: string)
    requires pat != [] && pat[0] != c
    ensures ReplaceAll([c] + s, pat, rep) == [c] + ReplaceAll(s, pat, rep)
  {
    assert ([c] + s)[1..] == s;
  }

  /** A text that lacks one of the characters of `p` does not contain `p`. */
  lemma {:induction false} MissingCharAbsent(s: string, p: string, c: char)
    requires c in p && c !in s
    ensures !Occurs(s, p)
    decreases |s|
  {
    if s != [] {
      MissingCharAbsent(s[1..], p, c);
    }
  }

  /** A text shorter than `p` does not contain `p`. */
  lemma {:induction false} ShorterAbsent(s: string, p: string)
    requires |s| < |p|
    ensures !Occurs(s, p)
    decreases |s|
  {
    if s != [] {
      ShorterAbsent(s[1..], p);
    }
  }

  predicate EndsWith(s: string, p: string)
  {
    |p| <= |s| && s[|s| - |p|..] == p
  }

  /** Python's `<` on strings: code point order at the first difference, a proper prefix first. */
  predicate LexLess(a: string, b: string)
    decreases |a|
  {
    if a == [] then b != []
    else if b == [] then false
    else if a[0] != b[0] then a[0] < b[0]
    else LexLess(a[1..], b[1..])
  }

  lemma {:induction false} LexLessIrreflexive(a: string)
    ensures !LexLess(a, a)
    decreases |a|
  {
    if a != [] {
      LexLessIrreflexive(a[1..]);
    }
  }

  lemma {:induction false} LexLessTransitive(a: string, b: string, c: string)
    requires LexLess(a, b) && LexLess(b, c)
    ensures LexLess(a, c)
    decreases |a|
  {
    if a != [] && b != [] && c != [] && a[0] == b[0] && b[0] == c[0] {
      LexLessTransitive(a[1..], b[1..], c[1..]);
    }
  }

  lemma {:induction false} LexLessTotal(a: string, b: string)
    requires a != b
    ensures LexLess(a, b) || LexLess(b, a)
    decreases |a|
  {
    if a != [] && b != [] && a[0] == b[0] {
      assert a == [a[0]] + a[1..] && b == [b[0]] + b[1..];
      LexLessTotal(a[1..], b[1..]);
    }
  }

  lemma LexLessAsymmetric()
    ensures forall a, b :: LexLess(a, b) ==> !LexLess(b, a)
  {
    forall a, b | LexLess(a, b)
      ensures !LexLess(b, a)
    {
      if LexLess(b, a) {
        LexLessTransitive(a, b, a);
        LexLessIrreflexive(a);
      }
    }
  }

  predicate IsLeast(m: string, names: set<string>)
  {
    m in names && forall x :: x in names && x != m ==> LexLess(m, x)
  }

  /** A non-empty finite set of names has a least element. */
  lemma {:induction false} LeastExists(names: set<string>) returns (m: string)
    requires names != {}
    ensures IsLeast(m, names)
    decreases |names|
  {
    var x :| x in names;
    if names == {x} {
      m := x;
    } else {
      var m' := LeastExists(names - {x});
      LexLessTotal(x, m');
      if LexLess(x, m') {
        forall y | y in names && y != x
          ensures LexLess(x, y)
        {
          if y != m' {
            LexLessTransitive(x, m', y);
          }
        }
        m := x;
      } else {
        m := m';
      }
    }
  }

  lemma HasLeast(names: set<string>)
    requires names != {}
    ensures exists m :: IsLeast(m, names)
  {
    var m := LeastExists(names);
  }

  /** The least name of a non-empty finite set. */
  function LeastName(names: set<string>): (m: string)
    requires names != {}
    ensures m in names
    ensures forall x :: x in names && x != m ==> LexLess(m, x)
  {
    HasLeast(names);
    LexLessAsymmetric();
    var m :| IsLeast(m, names);
    m
  }

  /** `sorted(names)`: the names in strictly increasing order, each exactly once. */
  function SortedNames(names: set<string>): (r: seq<string>)
    ensures |r| == |names|
    ensures forall i :: 0 <= i < |r| ==> r[i] in names
    ensures forall x :: x in names ==> x in r
    ensures forall i, j :: 0 <= i < j < |r| ==> LexLess(r[i], r[j])
    decreases |names|
  {
    if names == {} then []
    else
      var m := LeastName(names);
      var rest := SortedNames(names - {m});
      var r := [m] + rest;
      assert forall i :: 1 <= i < |r| ==> r[i] == rest[i - 1];
      r
  }

  /** `str(n)` of a non-negative int: its decimal digits, most significant first. */
  function Decimal(n: nat): (s: string)
    ensures s != []
    ensures forall i :: 0 <= i < |s| ==> '0' <= s[i] <= '9'
    decreases n
  {
    var d := ('0' as int + n % 10) as char;
    if n < 10 then [d] else Decimal(n / 10) + [d]
  }
}
