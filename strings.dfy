/** The Python `str` operations the pipeline relies on, over ASCII case rules:
    `upper`, `title`, `split` on one character, `join`, the `in` substring test,
    and the code-point order pandas uses to sort column labels. */
module Strings {

  predicate IsUpper(c: char) { 'A' <= c <= 'Z' }
  predicate IsLower(c: char) { 'a' <= c <= 'z' }
  predicate IsCased(c: char) { IsUpper(c) || IsLower(c) }

  function UpperChar(c: char): char
  {
    if IsLower(c) then (c as int - 32) as char else c
  }

  function LowerChar(c: char): char
  {
    if IsUpper(c) then (c as int + 32) as char else c
  }

  /** `s.upper()` */
  function Upper(s: string): (r: string)
    ensures |r| == |s|
    ensures forall i :: 0 <= i < |s| ==> r[i] == UpperChar(s[i])
  {
    seq(|s|, i requires 0 <= i < |s| => UpperChar(s[i]))
  }

  /** `str.title` once the previous character is known to be cased or not:
      a character after a cased one is lowered, any other is raised. */
  function TitleAfter(s: string, previousCased: bool): (r: string)
    ensures |r| == |s|
  {
    if s == [] then []
    else
      [if previousCased then LowerChar(s[0]) else UpperChar(s[0])]
      + TitleAfter(s[1..], IsCased(s[0]))
  }

  /** `s.title()` */
  function Title(s: string): (r: string)
    ensures |r| == |s|
  {
    TitleAfter(s, false)
  }

  /** `s.split(sep)`: the pieces between the occurrences of `sep`; always at least one. */
  function Split(s: string, sep: char): (r: seq<string>)
    ensures |r| >= 1
  {
    if s == [] then [""]
    else
      var rest := Split(s[1..], sep);
      if s[0] == sep then [""] + rest else [[s[0]] + rest[0]] + rest[1..]
  }

  /** `sep.join(pieces)` */
  function Join(pieces: seq<string>, sep: string): string
  {
    if pieces == [] then ""
    else if |pieces| == 1 then pieces[0]
    else pieces[0] + sep + Join(pieces[1..], sep)
  }

  /** Every occurrence of `a` replaced by `b`. */
  function ReplaceChar(s: string, a: char, b: char): (r: string)
    ensures |r| == |s|
    ensures forall i :: 0 <= i < |s| ==> r[i] == if s[i] == a then b else s[i]
  {
    seq(|s|, i requires 0 <= i < |s| => if s[i] == a then b else s[i])
  }

  /** `sub in s` */
  predicate Contains(s: string, sub: string)
  {
    |sub| <= |s| && (s[..|sub|] == sub || Contains(s[1..], sub))
  }

  /** Python's `<` on strings: lexicographic by code point. */
  predicate Less(a: string, b: string)
  {
    if a == [] then b != []
    else if b == [] then false
    else if a[0] == b[0] then Less(a[1..], b[1..])
    else a[0] < b[0]
  }

  predicate StrictlySorted(s: seq<string>)
  {
    forall i, j :: 0 <= i < j < |s| ==> Less(s[i], s[j])
  }

  /** Split inverts join: joining the pieces with the separator gives the string back. */
  lemma {:induction false} JoinSplit(s: string, sep: char)
    ensures Join(Split(s, sep), [sep]) == s
  {
    if s != [] {
      var rest := Split(s[1..], sep);
      JoinSplit(s[1..], sep);
      if s[0] == sep {
        assert Split(s, sep) == [""] + rest;
        assert ([""] + rest)[1..] == rest;
      } else {
        var pieces := [[s[0]] + rest[0]] + rest[1..];
        assert Split(s, sep) == pieces;
        if |rest| == 1 {
          assert Join(pieces, [sep]) == [s[0]] + rest[0];
        } else {
          assert pieces[1..] == rest[1..];
          assert Join(rest, [sep]) == rest[0] + [sep] + Join(rest[1..], [sep]);
        }
      }
    }
  }

  /** No piece of a split contains the separator. */
  lemma {:induction false} SplitPieces(s: string, sep: char)
    ensures forall p :: p in Split(s, sep) ==> sep !in p
  {
    if s != [] {
      SplitPieces(s[1..], sep);
      var rest := Split(s[1..], sep);
      if s[0] != sep {
        assert forall p :: p in rest[1..] ==> p in rest;
        assert sep !in rest[0];
      }
    }
  }

  /** Splitting `a + [sep] + b` where neither part holds the separator gives exactly the two parts. */
  lemma {:induction false} SplitPair(a: string, b: string, sep: char)
    requires sep !in a && sep !in b
    ensures Split(a + [sep] + b, sep) == [a, b]
  {
    if a == [] {
      assert [sep] + b == a + [sep] + b;
      SplitNone(b, sep);
      assert ([sep] + b)[1..] == b;
    } else {
      assert (a + [sep] + b)[1..] == a[1..] + [sep] + b;
      SplitPair(a[1..], b, sep);
      assert [a[0]] + a[1..] == a;
    }
  }

  /** A string without the separator splits into itself. */
  lemma {:induction false} SplitNone(s: string, sep: char)
    requires sep !in s
    ensures Split(s, sep) == [s]
  {
    if s != [] {
      SplitNone(s[1..], sep);
      assert [s[0]] + s[1..] == s;
    }
  }

  lemma {:induction false} LessIrreflexive(a: string)
    ensures !Less(a, a)
  {
    if a != [] { LessIrreflexive(a[1..]); }
  }

  lemma {:induction false} LessTransitive(a: string, b: string, c: string)
    requires Less(a, b) && Less(b, c)
    ensures Less(a, c)
  {
    if a != [] && b != [] && c != [] && a[0] == b[0] && b[0] == c[0] {
      LessTransitive(a[1..], b[1..], c[1..]);
    }
  }

  /** Two different strings are ordered one way or the other. */
  lemma {:induction false} LessTotal(a: string, b: string)
    requires a != b
    ensures Less(a, b) || Less(b, a)
  {
    if a != [] && b != [] && a[0] == b[0] {
      assert a == [a[0]] + a[1..] && b == [b[0]] + b[1..];
      LessTotal(a[1..], b[1..]);
    }
  }

  lemma {:induction false} LessAsymmetric(a: string, b: string)
    requires Less(a, b)
    ensures !Less(b, a)
  {
    if a != [] && b != [] && a[0] == b[0] {
      LessAsymmetric(a[1..], b[1..]);
    }
  }

  /** `x` inserted into the sorted list of distinct labels `s`, unless already there. */
  function Insert(s: seq<string>, x: string): (r: seq<string>)
    requires StrictlySorted(s)
    ensures StrictlySorted(r)
    ensures forall y :: y in r <==> y in s || y == x
  {
    if s == [] then [x]
    else if x == s[0] then s
    else if Less(x, s[0]) then
      forall j | 0 < j < |s| ensures Less(x, s[j]) {
        LessTransitive(x, s[0], s[j]);
      }
      [x] + s
    else
      LessTotal(x, s[0]);
      var t := Insert(s[1..], x);
      assert forall y :: y in s[1..] ==> y in s;
      forall j | 0 <= j < |t| ensures Less(s[0], t[j]) {
        assert t[j] in s[1..] || t[j] == x;
        if t[j] in s[1..] {
          var m :| 0 <= m < |s[1..]| && s[1..][m] == t[j];
          assert s[m + 1] == t[j];
        }
      }
      assert forall y :: y in s <==> y in s[1..] || y == s[0];
      [s[0]] + t
  }

  /** `sorted(set(s))`: the labels of `s`, once each, in increasing order. */
  function SortedDistinct(s: seq<string>): (r: seq<string>)
    ensures StrictlySorted(r)
    ensures forall y :: y in r <==> y in s
  {
    if s == [] then []
    else
      assert forall y :: y in s <==> y in s[..|s| - 1] || y == s[|s| - 1];
      Insert(SortedDistinct(s[..|s| - 1]), s[|s| - 1])
  }

  /** The tail of a strictly sorted listing holds every label but the first. */
  lemma SortedTail(s: seq<string>, y: string)
    requires StrictlySorted(s) && s != []
    ensures y in s[1..] <==> y in s && y != s[0]
  {
    if y in s[1..] {
      var i :| 0 <= i < |s| - 1 && s[1..][i] == y;
      assert Less(s[0], s[i + 1]);
      LessIrreflexive(y);
    }
    if y in s && y != s[0] {
      var i :| 0 <= i < |s| && s[i] == y;
      assert s[1..][i - 1] == y;
    }
  }

  /** A set of labels has exactly one strictly sorted listing. */
  lemma {:induction false} SortedListingUnique(a: seq<string>, b: seq<string>)
    requires StrictlySorted(a) && StrictlySorted(b)
    requires forall y :: y in a <==> y in b
    ensures a == b
  {
    assert a == [] <==> b == [] by {
      if a != [] { assert a[0] in b; }
      if b != [] { assert b[0] in a; }
    }
    if a != [] {
      assert a[0] in b && b[0] in a;
      if a[0] != b[0] {
        var i :| 0 <= i < |b| && b[i] == a[0];
        var j :| 0 <= j < |a| && a[j] == b[0];
        assert Less(b[0], a[0]);
        assert Less(a[0], b[0]);
        LessAsymmetric(a[0], b[0]);
      }
      forall y ensures y in a[1..] <==> y in b[1..] {
        SortedTail(a, y);
        SortedTail(b, y);
      }
      SortedListingUnique(a[1..], b[1..]);
      assert a == [a[0]] + a[1..] && b == [b[0]] + b[1..];
    }
  }

  /** Whether the last character of `s` is cased, or `previousCased` when `s` is empty. */
  function EndsCased(s: string, previousCased: bool): bool
  {
    if s == [] then previousCased else IsCased(s[|s| - 1])
  }

  /** Title-casing a concatenation: the second part continues from where the first ends. */
  lemma {:induction false} TitleAfterAppend(a: string, b: string, previousCased: bool)
    ensures TitleAfter(a + b, previousCased) == TitleAfter(a, previousCased) + TitleAfter(b, EndsCased(a, previousCased))
  {
    if a == [] {
      assert a + b == b;
    } else {
      assert (a + b)[1..] == a[1..] + b;
      TitleAfterAppend(a[1..], b, IsCased(a[0]));
      assert EndsCased(a[1..], IsCased(a[0])) == EndsCased(a, previousCased);
    }
  }

  /** Upper- and lower-casing leave every uncased character alone and map no other onto it. */
  lemma UncasedFixed(c: char, x: char)
    requires !IsCased(c)
    ensures UpperChar(x) == c <==> x == c
    ensures LowerChar(x) == c <==> x == c
  {
  }

  /** Title-casing neither adds nor removes an uncased character such as `_`, ` ` or `&`. */
  lemma TitleKeepsUncased(s: string, previousCased: bool, c: char)
    requires !IsCased(c)
    ensures c in TitleAfter(s, previousCased) <==> c in s
  {
    var r := TitleAfter(s, previousCased);
    if c in r {
      var i :| 0 <= i < |r| && r[i] == c;
      TitleAt(s, previousCased, i);
      UncasedFixed(c, s[i]);
    }
    if c in s {
      var i :| 0 <= i < |s| && s[i] == c;
      TitleAt(s, previousCased, i);
      UncasedFixed(c, s[i]);
    }
  }

  /** Upper-casing neither adds nor removes an uncased character. */
  lemma UpperKeepsUncased(s: string, c: char)
    requires !IsCased(c)
    ensures c in Upper(s) <==> c in s
  {
    if c in Upper(s) {
      var i :| 0 <= i < |s| && Upper(s)[i] == c;
      UncasedFixed(c, s[i]);
    }
  }

  /** `Title` applied to every piece. */
  function Titles(pieces: seq<string>): (r: seq<string>)
    ensures |r| == |pieces|
    ensures forall i :: 0 <= i < |pieces| ==> r[i] == Title(pieces[i])
  {
    seq(|pieces|, i requires 0 <= i < |pieces| => Title(pieces[i]))
  }

  /** Title-casing pieces one by one and joining them with an uncased character is
      title-casing the joined string: the character resets the "previous was cased" state. */
  lemma {:induction false} TitleJoin(pieces: seq<string>, c: char)
    requires !IsCased(c)
    ensures Join(Titles(pieces), [c]) == Title(Join(pieces, [c]))
  {
    if |pieces| > 1 {
      var rest := Join(pieces[1..], [c]);
      TitleJoin(pieces[1..], c);
      assert Titles(pieces)[1..] == Titles(pieces[1..]);
      TitleAfterAppend(pieces[0], [c] + rest, false);
      assert pieces[0] + [c] + rest == pieces[0] + ([c] + rest);
      var e := EndsCased(pieces[0], false);
      assert TitleAfter([c] + rest, e) == [c] + TitleAfter(rest, false) by {
        assert ([c] + rest)[1..] == rest;
        UncasedFixed(c, c);
      }
    }
  }

  /** Split on `sep` distributes over a concatenation around one `sep`. */
  lemma {:induction false} SplitAppend(a: string, b: string, sep: char)
    ensures Split(a + [sep] + b, sep) == Split(a, sep) + Split(b, sep)
  {
    if a == [] {
      assert a + [sep] + b == [sep] + b;
      assert ([sep] + b)[1..] == b;
    } else {
      assert (a + [sep] + b)[1..] == a[1..] + [sep] + b;
      SplitAppend(a[1..], b, sep);
    }
  }

  /** Prefixing a character to the first piece prefixes it to the join. */
  lemma JoinPrefix(c: char, pieces: seq<string>, sep: string)
    requires |pieces| >= 1
    ensures Join([[c] + pieces[0]] + pieces[1..], sep) == [c] + Join(pieces, sep)
  {
    var prefixed := [[c] + pieces[0]] + pieces[1..];
    if |pieces| > 1 {
      assert prefixed[1..] == pieces[1..];
    }
  }

  /** Replacing in a non-empty string replaces its head, then its tail. */
  lemma ReplaceHead(s: string, a: char, b: char)
    requires s != []
    ensures ReplaceChar(s, a, b) == [if s[0] == a then b else s[0]] + ReplaceChar(s[1..], a, b)
  {
  }

  /** Splitting on one character and joining with another replaces the one by the other. */
  lemma {:induction false} JoinSplitReplace(s: string, sep: char, sub: char)
    ensures Join(Split(s, sep), [sub]) == ReplaceChar(s, sep, sub)
  {
    if s != [] {
      var rest := Split(s[1..], sep);
      JoinSplitReplace(s[1..], sep, sub);
      ReplaceHead(s, sep, sub);
      if s[0] == sep {
        assert Split(s, sep) == [""] + rest;
        assert ([""] + rest)[1..] == rest;
      } else {
        assert Split(s, sep) == [[s[0]] + rest[0]] + rest[1..];
        JoinPrefix(s[0], rest, [sub]);
      }
    }
  }

  /** `s.count(c)` */
  function Count(s: string, c: char): nat
  {
    if s == [] then 0 else Count(s[..|s| - 1], c) + (if s[|s| - 1] == c then 1 else 0)
  }

  /** Counting is additive over concatenation. */
  lemma {:induction false} CountAppend(a: string, b: string, c: char)
    ensures Count(a + b, c) == Count(a, c) + Count(b, c)
  {
    if b == [] {
      assert a + b == a;
    } else {
      var n := |b|;
      assert (a + b)[..|a + b| - 1] == a + b[..n - 1];
      CountAppend(a, b[..n - 1], c);
    }
  }

  /** A character that does not occur is counted zero times, and conversely. */
  lemma {:induction false} CountNone(s: string, c: char)
    ensures Count(s, c) == 0 <==> c !in s
  {
    if s != [] {
      CountNone(s[..|s| - 1], c);
      assert s == s[..|s| - 1] + [s[|s| - 1]];
    }
  }

  /** The character `str.title` puts at position `i`: lowered after a cased character,
      raised anywhere else. */
  lemma {:induction false} TitleAt(s: string, previousCased: bool, i: int)
    requires 0 <= i < |s|
    ensures TitleAfter(s, previousCased)[i] ==
      if (if i == 0 then previousCased else IsCased(s[i - 1])) then LowerChar(s[i]) else UpperChar(s[i])
  {
    if i > 0 {
      TitleAt(s[1..], IsCased(s[0]), i - 1);
    }
  }
}
