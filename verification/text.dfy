/** String operations the program uses: `split`, `join`, `toUpperCase`, capitalising. */
module Text {
  /** `toUpperCase` on one character, for the ASCII letters. */
  function UpperChar(c: char): char {
    if 'a' <= c <= 'z' then (c as int - 32) as char else c
  }

  function Upper(s: string): (r: string)
    ensures |r| == |s|
    ensures forall i :: 0 <= i < |s| ==> r[i] == UpperChar(s[i])
  {
    seq(|s|, i requires 0 <= i < |s| => UpperChar(s[i]))
  }

  /** `s.charAt(0).toUpperCase() + s.slice(1)`. */
  function Capitalize(s: string): (r: string)
    ensures |r| == |s|
    ensures s != [] ==> r[0] == UpperChar(s[0]) && r[1..] == s[1..]
  {
    if s == [] then [] else [UpperChar(s[0])] + s[1..]
  }

  /** `parts.join(sep)`. */
  function Join(parts: seq<string>, sep: string): string {
    if |parts| == 0 then []
    else if |parts| == 1 then parts[0]
    else Join(parts[..|parts| - 1], sep) + sep + parts[|parts| - 1]
  }

  /** `s.split(sep)` for a one-character separator: never empty, no part holds `sep`. */
  function Split(s: string, sep: char): (r: seq<string>)
    ensures |r| >= 1
    ensures forall i :: 0 <= i < |r| ==> sep !in r[i]
  {
    if s == [] then [[]]
    else
      var p := Split(s[..|s| - 1], sep);
      var c := s[|s| - 1];
      if c == sep then p + [[]] else p[..|p| - 1] + [p[|p| - 1] + [c]]
  }

  /** Joining the parts of a split with the separator gives back the string. */
  lemma {:induction false} SplitJoin(s: string, sep: char)
    ensures Join(Split(s, sep), [sep]) == s
  {
    if s != [] {
      var init := s[..|s| - 1];
      var c := s[|s| - 1];
      var p := Split(init, sep);
      SplitJoin(init, sep);
      assert s == init + [c];
      if c == sep {
        var q := p + [[]];
        assert q[..|q| - 1] == p;
      } else {
        var q := p[..|p| - 1] + [p[|p| - 1] + [c]];
        assert q[..|q| - 1] == p[..|p| - 1];
        if |p| > 1 {
          assert Join(p, [sep]) == Join(p[..|p| - 1], [sep]) + [sep] + p[|p| - 1];
        }
      }
    }
  }

  lemma {:induction false} SplitAppendWord(x: string, w: string, sep: char)
    requires sep !in w
    ensures var p := Split(x, sep);
            Split(x + w, sep) == p[..|p| - 1] + [p[|p| - 1] + w]
  {
    var p := Split(x, sep);
    if w == [] {
      assert x + w == x;
      assert p[|p| - 1] + w == p[|p| - 1];
      assert p[..|p| - 1] + [p[|p| - 1]] == p;
    } else {
      var w' := w[..|w| - 1];
      var c := w[|w| - 1];
      assert w == w' + [c];
      SplitAppendWord(x, w', sep);
      assert (x + w)[..|x + w| - 1] == x + w';
      var q := Split(x + w', sep);
      assert q[..|q| - 1] == p[..|p| - 1];
      assert q[|q| - 1] + [c] == p[|p| - 1] + w;
    }
  }

  /** A trailing separator opens an empty last part. */
  lemma SplitSeparatorEnd(x: string, sep: char)
    ensures Split(x + [sep], sep) == Split(x, sep) + [[]]
  {
    var y := x + [sep];
    assert y[..|y| - 1] == x;
  }

  /** Joining `init` and `last` is joining `init`, the separator, then `last`. */
  lemma JoinSnoc(init: seq<string>, last: string, sep: string)
    requires |init| >= 1
    ensures Join(init + [last], sep) == Join(init, sep) + sep + last
  {
    var parts := init + [last];
    assert parts[..|parts| - 1] == init;
  }

  /** Splitting a join of separator-free parts gives back the parts. */
  lemma {:induction false} JoinSplit(parts: seq<string>, sep: char)
    requires |parts| >= 1
    requires forall i :: 0 <= i < |parts| ==> sep !in parts[i]
    ensures Split(Join(parts, [sep]), sep) == parts
  {
    var last := parts[|parts| - 1];
    if |parts| == 1 {
      SplitAppendWord([], last, sep);
      assert [] + last == last;
    } else {
      var init := parts[..|parts| - 1];
      assert parts == init + [last];
      JoinSplit(init, sep);
      var x := Join(init, [sep]);
      JoinSnoc(init, last, [sep]);
      SplitSeparatorEnd(x, sep);
      SplitAppendWord(x + [sep], last, sep);
      var p := init + [[]];
      assert p[..|p| - 1] == init && p[|p| - 1] + last == last;
      assert x + [sep] + last == Join(parts, [sep]);
    }
  }

  /** Where part `i` starts in `Join(parts, sep)`: the parts before it, each followed by `sep`. */
  function Offset(parts: seq<string>, sep: string, i: nat): nat
    requires i <= |parts|
  {
    if i == 0 then 0 else Offset(parts, sep, i - 1) + |parts[i - 1]| + |sep|
  }

  lemma {:induction false} OffsetPrefix(parts: seq<string>, sep: string, m: nat, i: nat)
    requires i <= m <= |parts|
    ensures Offset(parts[..m], sep, i) == Offset(parts, sep, i)
  {
    if i > 0 {
      OffsetPrefix(parts, sep, m, i - 1);
    }
  }

  /** A join of at least one part ends where its last part ends. */
  lemma {:induction false} JoinLength(parts: seq<string>, sep: string)
    requires |parts| >= 1
    ensures |Join(parts, sep)| == Offset(parts, sep, |parts| - 1) + |parts[|parts| - 1]|
  {
    var n := |parts|;
    if n > 1 {
      JoinLength(parts[..n - 1], sep);
      OffsetPrefix(parts, sep, n - 1, n - 2);
    }
  }

  /** Part `i` of `parts` appears in `m` at its offset. */
  ghost predicate PartAt(parts: seq<string>, sep: string, m: string, i: nat)
    requires i < |parts|
  {
    var o := Offset(parts, sep, i);
    o + |parts[i]| <= |m| && m[o..o + |parts[i]|] == parts[i]
  }

  /** `sep` stands in `m` between part `i` and part `i + 1`. */
  ghost predicate SeparatorAfter(parts: seq<string>, sep: string, m: string, i: nat)
    requires i + 1 < |parts|
  {
    var e := Offset(parts, sep, i) + |parts[i]|;
    e + |sep| <= |m| && Offset(parts, sep, i + 1) == e + |sep| && m[e..e + |sep|] == sep
  }

  /** Part `i` of a join sits at its offset. */
  lemma {:induction false} JoinPart(parts: seq<string>, sep: string, i: nat)
    requires i < |parts|
    ensures PartAt(parts, sep, Join(parts, sep), i)
  {
    var n := |parts|;
    JoinLength(parts, sep);
    if i < n - 1 {
      var init := parts[..n - 1];
      var a := Join(init, sep);
      JoinPart(init, sep, i);
      OffsetPrefix(parts, sep, n - 1, i);
      JoinLength(init, sep);
      OffsetPrefix(parts, sep, n - 1, n - 2);
      var o := Offset(parts, sep, i);
      assert Join(parts, sep)[o..o + |parts[i]|] == a[o..o + |parts[i]|];
    } else if n > 1 {
      var init := parts[..n - 1];
      var a := Join(init, sep);
      JoinLength(init, sep);
      OffsetPrefix(parts, sep, n - 1, n - 2);
      assert Offset(parts, sep, i) == |a| + |sep|;
      assert Join(parts, sep) == a + sep + parts[i];
    }
  }

  /** Between part `i` and part `i + 1` of a join stands the separator. */
  lemma {:induction false} JoinSeparator(parts: seq<string>, sep: string, i: nat)
    requires i + 1 < |parts|
    ensures SeparatorAfter(parts, sep, Join(parts, sep), i)
  {
    var n := |parts|;
    var init := parts[..n - 1];
    var a := Join(init, sep);
    JoinLength(parts, sep);
    JoinLength(init, sep);
    OffsetPrefix(parts, sep, n - 1, n - 2);
    var e := Offset(parts, sep, i) + |parts[i]|;
    if i + 1 < n - 1 {
      JoinSeparator(init, sep, i);
      OffsetPrefix(parts, sep, n - 1, i);
      OffsetPrefix(parts, sep, n - 1, i + 1);
      assert Join(parts, sep)[e..e + |sep|] == a[e..e + |sep|];
    } else {
      assert Join(parts, sep) == a + sep + parts[n - 1];
    }
  }

  /**
   * `m` is each of `parts` in turn, part `i` at `Offset(parts, sep, i)`,
   * with `sep` between neighbours and nothing after the last part.
   */
  ghost predicate JoinedInOrder(parts: seq<string>, sep: string, m: string)
    requires |parts| >= 1
  {
    && |m| == Offset(parts, sep, |parts| - 1) + |parts[|parts| - 1]|
    && (forall i: nat :: i < |parts| ==> PartAt(parts, sep, m, i))
    && (forall i: nat :: i + 1 < |parts| ==> SeparatorAfter(parts, sep, m, i))
  }

  /** A join of at least one part lists the parts in order, separated by `sep`. */
  lemma JoinPieces(parts: seq<string>, sep: string)
    requires |parts| >= 1
    ensures JoinedInOrder(parts, sep, Join(parts, sep))
  {
    JoinLength(parts, sep);
    forall i: nat | i < |parts| ensures PartAt(parts, sep, Join(parts, sep), i) {
      JoinPart(parts, sep, i);
    }
    forall i: nat | i + 1 < |parts| ensures SeparatorAfter(parts, sep, Join(parts, sep), i) {
      JoinSeparator(parts, sep, i);
    }
  }
}
