/** String operations the TypeScript sources use through built-ins:
    `split` on a one-character separator, `join`, `toString` of an integer,
    `toUpperCase`, and the `=== HEADING ===` section layout shared by both
    plain-text serialisers. */
module TextUtil {

  // ---------------------------------------------------------------- split / join

  /** Number of occurrences of `c` in `s`. */
  function Count(s: string, c: char): nat
  {
    if |s| == 0 then 0 else (if s[0] == c then 1 else 0) + Count(s[1..], c)
  }

  /** `s.split(c)`: the pieces between the occurrences of `c`, always at least one. */
  function Split(s: string, c: char): (parts: seq<string>)
    ensures |parts| >= 1
  {
    if |s| == 0 then [""]
    else
      var rest := Split(s[1..], c);
      if s[0] == c then [""] + rest else [[s[0]] + rest[0]] + rest[1..]
  }

  /** `xs.join(sep)`. */
  function Join(xs: seq<string>, sep: string): string
  {
    if |xs| == 0 then ""
    else if |xs| == 1 then xs[0]
    else xs[0] + sep + Join(xs[1..], sep)
  }

  /** The last piece of `s.split(c)`, i.e. `s.split(c).pop()`. */
  function LastPiece(s: string, c: char): string
  {
    var parts := Split(s, c); parts[|parts| - 1]
  }

  /** `s.split(c)[0]`. */
  function FirstPiece(s: string, c: char): string
  {
    Split(s, c)[0]
  }

  lemma {:induction false} SplitLength(s: string, c: char)
    ensures |Split(s, c)| == Count(s, c) + 1
  {
    if |s| > 0 { SplitLength(s[1..], c); }
  }

  lemma {:induction false} SplitPiecesFree(s: string, c: char)
    ensures forall i :: 0 <= i < |Split(s, c)| ==> c !in Split(s, c)[i]
  {
    if |s| > 0 { SplitPiecesFree(s[1..], c); }
  }

  lemma {:induction false} SplitWithout(s: string, c: char)
    requires c !in s
    ensures Split(s, c) == [s]
  {
    if |s| > 0 {
      SplitWithout(s[1..], c);
      assert [s[0]] + s[1..] == s;
    }
  }

  /** Splitting distributes over a separator: the pieces of `a` followed by the pieces of `b`. */
  lemma {:induction false} SplitAround(a: string, b: string, c: char)
    ensures Split(a + [c] + b, c) == Split(a, c) + Split(b, c)
  {
    if |a| == 0 {
      assert a + [c] + b == [c] + b;
      assert ([c] + b)[1..] == b;
    } else {
      assert (a + [c] + b)[0] == a[0];
      assert (a + [c] + b)[1..] == a[1..] + [c] + b;
      SplitAround(a[1..], b, c);
    }
  }

  lemma {:induction false} SplitPrefixPiece(s: string, c: char)
    ensures var p := FirstPiece(s, c);
      |p| <= |s| && s[..|p|] == p && (|p| < |s| ==> s[|p|] == c)
  {
    if |s| > 0 { SplitPrefixPiece(s[1..], c); }
  }

  /** Joining the pieces of a split with the separator gives the original string back. */
  lemma {:induction false} JoinSplit(s: string, c: char)
    ensures Join(Split(s, c), [c]) == s
  {
    if |s| > 0 {
      var rest := Split(s[1..], c);
      JoinSplit(s[1..], c);
      if s[0] == c {
        assert ([""] + rest)[1..] == rest;
      } else {
        JoinHead([s[0]] + rest[0], rest[1..], [c]);
        JoinHead(rest[0], rest[1..], [c]);
        assert [rest[0]] + rest[1..] == rest;
      }
    }
  }

  lemma JoinHead(x: string, xs: seq<string>, sep: string)
    ensures Join([x] + xs, sep) == x + (if |xs| == 0 then "" else sep + Join(xs, sep))
  {
    assert ([x] + xs)[1..] == xs;
  }

  /** Splitting a join of separator-free pieces gives the pieces back. */
  lemma {:induction false} SplitJoin(xs: seq<string>, c: char)
    requires |xs| >= 1
    requires forall i :: 0 <= i < |xs| ==> c !in xs[i]
    ensures Split(Join(xs, [c]), c) == xs
  {
    if |xs| == 1 {
      SplitWithout(xs[0], c);
    } else {
      SplitJoin(xs[1..], c);
      SplitWithout(xs[0], c);
      SplitAround(xs[0], Join(xs[1..], [c]), c);
      assert [xs[0]] + xs[1..] == xs;
    }
  }

  /** The last piece of `a + [c] + b` is that of `b`. */
  lemma LastPieceAround(a: string, b: string, c: char)
    ensures LastPiece(a + [c] + b, c) == LastPiece(b, c)
  {
    SplitAround(a, b, c);
  }

  /** When `c` occurs in `s`, the last piece is strictly shorter than `s`. */
  lemma {:induction false} LastPieceShorter(s: string, c: char)
    requires c in s
    ensures |LastPiece(s, c)| < |s|
  {
    var rest := Split(s[1..], c);
    if s[0] == c {
      LastPieceBound(s[1..], c);
    } else {
      assert c in s[1..] by {
        var k :| 0 <= k < |s| && s[k] == c;
        assert s[1..][k - 1] == c;
      }
      LastPieceShorter(s[1..], c);
      assert |rest| >= 2 by {
        if |rest| == 1 {
          JoinSplit(s[1..], c);
          SplitPiecesFree(s[1..], c);
          assert false;
        }
      }
    }
  }

  lemma {:induction false} LastPieceBound(s: string, c: char)
    ensures |LastPiece(s, c)| <= |s|
  {
    if |s| > 0 {
      LastPieceBound(s[1..], c);
    }
  }

  /** Joining pieces that are free of `c` with a separator free of `c` gives a text free of `c`. */
  lemma {:induction false} JoinFree(xs: seq<string>, sep: string, c: char)
    requires c !in sep
    requires forall i :: 0 <= i < |xs| ==> c !in xs[i]
    ensures c !in Join(xs, sep)
  {
    if |xs| > 1 {
      JoinFree(xs[1..], sep, c);
      assert xs[0] + sep + Join(xs[1..], sep) == Join(xs, sep);
    }
  }

  /** A first line free of `c` is the first piece of the split. */
  lemma SplitLine(a: string, rest: string, c: char)
    requires c !in a
    ensures Split(a + [c] + rest, c) == [a] + Split(rest, c)
  {
    SplitAround(a, rest, c);
    SplitWithout(a, c);
  }

  // ---------------------------------------------------------------- concatenation over a sequence

  /** The text built by `xs.forEach(x => text += f(x))`, starting from the empty string. */
  function ConcatMap<T>(xs: seq<T>, f: T -> string): string
  {
    if |xs| == 0 then "" else ConcatMap(xs[..|xs| - 1], f) + f(xs[|xs| - 1])
  }

  lemma {:induction false} ConcatMapAppend<T>(xs: seq<T>, ys: seq<T>, f: T -> string)
    ensures ConcatMap(xs + ys, f) == ConcatMap(xs, f) + ConcatMap(ys, f)
  {
    if |ys| == 0 {
      assert xs + ys == xs;
    } else {
      assert (xs + ys)[..|xs + ys| - 1] == xs + ys[..|ys| - 1];
      ConcatMapAppend(xs, ys[..|ys| - 1], f);
    }
  }

  /** Item `i` contributes its own text, between that of the items before it and that of the items after it. */
  lemma {:induction false} ConcatMapAt<T>(xs: seq<T>, f: T -> string, i: nat)
    requires i < |xs|
    ensures ConcatMap(xs, f) == ConcatMap(xs[..i], f) + f(xs[i]) + ConcatMap(xs[i + 1..], f)
  {
    var n := |xs| - 1;
    var init, last := xs[..n], f(xs[n]);
    if i == n {
      assert xs[i + 1..] == [];
    } else {
      ConcatMapAt(init, f, i);
      var tail := xs[i + 1..];
      assert tail[..|tail| - 1] == init[i + 1..];
      assert init[..i] == xs[..i];
      assert ConcatMap(tail, f) == ConcatMap(init[i + 1..], f) + last;
    }
  }

  /** The text for the first `k + 1` items is that for the first `k` followed by item `k`'s. */
  lemma ConcatMapPrefix<T>(xs: seq<T>, f: T -> string, k: nat)
    requires k < |xs|
    ensures ConcatMap(xs[..k + 1], f) == ConcatMap(xs[..k], f) + f(xs[k])
  {
    assert xs[..k + 1][..k] == xs[..k];
  }

  /** One step of an accumulator loop: text so far plus item `k`'s text is the text up to item `k`. */
  lemma ConcatMapStep<T>(start: string, xs: seq<T>, f: T -> string, k: nat, block: string)
    requires k < |xs| && block == f(xs[k])
    ensures start + ConcatMap(xs[..k], f) + block == start + ConcatMap(xs[..k + 1], f)
  {
    ConcatMapPrefix(xs, f, k);
  }

  /** The lines `x + "\n"` of `xs`, as `forEach` emits them. */
  function Line(x: string): string { x + "\n" }

  /** Line-terminated items and `\n`-joined items differ exactly by the final newline, except for an empty list. */
  lemma {:induction false} LinesJoin(xs: seq<string>)
    ensures ConcatMap(xs, Line) == if |xs| == 0 then "" else Join(xs, "\n") + "\n"
  {
    if |xs| > 1 {
      var init := xs[..|xs| - 1];
      LinesJoin(init);
      JoinSnoc(init, xs[|xs| - 1], "\n");
      assert init + [xs[|xs| - 1]] == xs;
    } else if |xs| == 1 {
      assert xs[..0] == [];
    }
  }

  /** Line-terminated items free of line breaks split back into the items and a final empty
      piece; an empty list gives no item line at all. */
  lemma ItemLines(xs: seq<string>)
    requires forall i :: 0 <= i < |xs| ==> '\n' !in xs[i]
    ensures Split(ConcatMap(xs, Line), '\n') == xs + [""]
  {
    if |xs| == 0 {
      assert ConcatMap(xs, Line) == "";
    } else {
      LinesJoin(xs);
      var ys := xs + [""];
      SnocFree(xs, "", '\n');
      SplitJoin(ys, '\n');
      JoinSnoc(xs, "", "\n");
      assert ConcatMap(xs, Line) == Join(ys, "\n");
    }
  }

  lemma SnocFree(xs: seq<string>, y: string, c: char)
    requires forall i :: 0 <= i < |xs| ==> c !in xs[i]
    requires c !in y
    ensures forall i :: 0 <= i < |xs + [y]| ==> c !in (xs + [y])[i]
  {
  }

  lemma {:induction false} JoinSnoc(xs: seq<string>, y: string, sep: string)
    requires |xs| >= 1
    ensures Join(xs + [y], sep) == Join(xs, sep) + sep + y
  {
    if |xs| == 1 {
      assert (xs + [y])[1..] == [y];
    } else {
      assert (xs + [y])[1..] == xs[1..] + [y];
      JoinSnoc(xs[1..], y, sep);
    }
  }

  // ---------------------------------------------------------------- numbers

  function DigitChar(d: nat): (c: char)
    requires d < 10
    ensures '0' <= c <= '9'
  {
    ['0', '1', '2', '3', '4', '5', '6', '7', '8', '9'][d]
  }

  predicate IsDigits(s: string)
  {
    forall i :: 0 <= i < |s| ==> '0' <= s[i] <= '9'
  }

  /** The value of a string of decimal digits (a reference parser). */
  function DigitsValue(s: string): nat
    requires IsDigits(s)
  {
    if |s| == 0 then 0 else 10 * DigitsValue(s[..|s| - 1]) + (s[|s| - 1] as int - '0' as int)
  }

  /** `n.toString()` for a non-negative integer: its decimal digits, with no leading zero. */
  function NatToString(n: nat): (s: string)
    ensures |s| >= 1 && IsDigits(s)
    ensures s[0] == '0' ==> n == 0
  {
    if n < 10 then [DigitChar(n)] else NatToString(n / 10) + [DigitChar(n % 10)]
  }

  /** `n.toString()` for any integer. */
  function IntToString(n: int): string
  {
    if n < 0 then "-" + NatToString(-n) else NatToString(n)
  }

  /** The digits parse back to the number. */
  lemma {:induction false} NatToStringValue(n: nat)
    ensures DigitsValue(NatToString(n)) == n
  {
    var s := NatToString(n);
    if n >= 10 {
      NatToStringValue(n / 10);
      assert s[..|s| - 1] == NatToString(n / 10);
    }
  }

  function Pow10(k: nat): nat { if k == 0 then 1 else 10 * Pow10(k - 1) }

  /** `n` has at most `k` digits exactly when it is below 10^k. */
  lemma {:induction false} NatToStringLength(n: nat, k: nat)
    requires k >= 1
    ensures |NatToString(n)| <= k <==> n < Pow10(k)
  {
    if n >= 10 {
      if k == 1 {
        assert Pow10(1) == 10;
      } else {
        NatToStringLength(n / 10, k - 1);
        assert n / 10 < Pow10(k - 1) <==> n < 10 * Pow10(k - 1);
      }
    } else {
      PowAtLeast10(k);
    }
  }

  lemma {:induction false} PowAtLeast10(k: nat)
    requires k >= 1
    ensures Pow10(k) >= 10
  {
    if k > 1 { PowAtLeast10(k - 1); }
  }

  // ---------------------------------------------------------------- upper case

  /** `toUpperCase` on one character, for ASCII and the Latin-1 letters. */
  function UpperChar(c: char): char
  {
    if 'a' <= c <= 'z' || ('\U{00E0}' <= c <= '\U{00FE}' && c != '\U{00F7}') then
      (c as int - 32) as char
    else
      c
  }

  function Upper(s: string): (r: string)
  {
    seq(|s|, i requires 0 <= i < |s| => UpperChar(s[i]))
  }

  lemma UpperProperties(s: string)
    ensures |Upper(s)| == |s|
    ensures forall i :: 0 <= i < |s| ==> Upper(s)[i] == UpperChar(s[i])
    ensures Upper(Upper(s)) == Upper(s)
    ensures forall i :: 0 <= i < |s| ==> !('a' <= Upper(s)[i] <= 'z')
  {
  }

  // ---------------------------------------------------------------- `=== HEADING ===` sections

  /** A section of a plain-text report: a heading line and the text below it. */
  datatype Section = Section(heading: string, body: string)

  /** The delimiter line and the blank line after it. */
  function Delimiter(heading: string): string
  {
    "=== " + heading + " ===\n\n"
  }

  function RenderSection(s: Section): string
  {
    Delimiter(s.heading) + s.body
  }

  function JoinSections(ss: seq<Section>): string
  {
    ConcatMap(ss, RenderSection)
  }

  function Headings(ss: seq<Section>): seq<string>
  {
    seq(|ss|, i requires 0 <= i < |ss| => ss[i].heading)
  }

  /** Where section `k` starts: after the rendered text of the sections before it. */
  function SectionOffset(ss: seq<Section>, k: nat): nat
    requires k <= |ss|
  {
    |JoinSections(ss[..k])|
  }

  /** The delimiter line of section `k` stands at its offset,
      and each section starts strictly after the one before it. */
  lemma SectionHeadingAt(ss: seq<Section>, k: nat)
    requires k < |ss|
    ensures var off, d := SectionOffset(ss, k), Delimiter(ss[k].heading);
      off + |d| <= |JoinSections(ss)| && JoinSections(ss)[off..off + |d|] == d
    ensures SectionOffset(ss, k) < SectionOffset(ss, k + 1)
  {
    var pre, d, body := JoinSections(ss[..k]), Delimiter(ss[k].heading), ss[k].body;
    var rest := ConcatMap(ss[k + 1..], RenderSection);
    ConcatMapAt(ss, RenderSection, k);
    assert JoinSections(ss) == pre + d + (body + rest);
    SliceMiddle(pre, d, body + rest);
    ConcatMapPrefix(ss, RenderSection, k);
  }

  lemma SliceMiddle(a: string, b: string, c: string)
    ensures (a + b + c)[|a|..|a| + |b|] == b
  {
  }

  /** The rendered sections end with the last section, delimiter and body. */
  lemma EndsWithLastSection(ss: seq<Section>)
    requires |ss| >= 1
    ensures var t, r := JoinSections(ss), RenderSection(ss[|ss| - 1]);
      |r| <= |t| && t[|t| - |r|..] == r
  {
  }

  /** Appending one more section to rendered sections appends its delimiter and body. */
  lemma SectionAppended(ss: seq<Section>, done: string, heading: string, body: string)
    requires done == JoinSections(ss)
    ensures done + Delimiter(heading) + body == JoinSections(ss + [Section(heading, body)])
  {
    assert (ss + [Section(heading, body)])[..|ss|] == ss;
  }

  /** The whole text ends with the body of the last section. */
  lemma EndsWithLastBody(ss: seq<Section>)
    requires |ss| >= 1
    ensures var t, b := JoinSections(ss), ss[|ss| - 1].body;
      |b| <= |t| && t[|t| - |b|..] == b
  {
  }
}
