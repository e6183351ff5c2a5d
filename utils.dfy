/** The string helpers of `utils.ts`: `truncate`, `formatNumber`, `getInitials` and
    `readingTime`. JavaScript numbers are taken as integers here. */
module Utils {
  import opened TextUtil

  // ---------------------------------------------------------------- truncate

  /** `truncate(text, length)`: `substring(0, length)` clamps a negative length to 0. */
  function Truncate(text: string, length: int): (r: string)
    ensures |text| <= length ==> r == text
    ensures |text| > length ==> r == text[..if length < 0 then 0 else length] + "..."
    ensures length >= 0 ==> |r| <= length + 3
  {
    if |text| > length then text[..if length < 0 then 0 else length] + "..." else text
  }

  /** Truncating what was already truncated to the same length changes nothing. */
  lemma TruncateIdempotent(text: string, length: int)
    ensures Truncate(Truncate(text, length), length) == Truncate(text, length)
  {
    var r := Truncate(text, length);
    if |text| > length {
      var k := if length < 0 then 0 else length;
      assert r[..k] == text[..k];
    }
  }

  // ---------------------------------------------------------------- formatNumber

  /** The regular expression `\B(?=(\d{3})+(?!\d))` on a run of digits: a `.` goes before
      every position that is not the first and is followed by a multiple of three digits. */
  function Group(d: string): string
  {
    if |d| <= 3 then d else Group(d[..|d| - 3]) + "." + d[|d| - 3..]
  }

  /** `formatNumber` on an integer: the word boundary after a minus sign gets no dot. */
  function FormatNumber(n: int): string
  {
    if n < 0 then "-" + Group(NatToString(-n)) else Group(NatToString(n))
  }

  /** `s` with every `c` removed. */
  function Without(s: string, c: char): string
  {
    if |s| == 0 then "" else Without(s[..|s| - 1], c) + (if s[|s| - 1] == c then "" else [s[|s| - 1]])
  }

  lemma {:induction false} WithoutAppend(a: string, b: string, c: char)
    ensures Without(a + b, c) == Without(a, c) + Without(b, c)
  {
    if |b| > 0 {
      WithoutAppend(a, b[..|b| - 1], c);
      assert (a + b)[..|a + b| - 1] == a + b[..|b| - 1];
    } else {
      assert a + b == a;
    }
  }

  lemma {:induction false} WithoutAbsent(s: string, c: char)
    requires c !in s
    ensures Without(s, c) == s
  {
    if |s| > 0 {
      WithoutAbsent(s[..|s| - 1], c);
    }
  }

  /** The last three digits of a longer run, and what comes before them, are free of dots too. */
  lemma GroupStep(d: string)
    requires |d| > 3 && '.' !in d
    ensures '.' !in d[..|d| - 3] && '.' !in d[|d| - 3..]
    ensures Group(d) == Group(d[..|d| - 3]) + ['.'] + d[|d| - 3..]
    ensures d[..|d| - 3] + d[|d| - 3..] == d
  {
    var init, last := d[..|d| - 3], d[|d| - 3..];
    forall i | 0 <= i < |init| ensures init[i] != '.' { assert init[i] == d[i]; }
    forall i | 0 <= i < |last| ensures last[i] != '.' { assert last[i] == d[|d| - 3 + i]; }
  }

  /** The grouped digits split at the dots into a leading group of one to three digits and
      groups of exactly three. */
  lemma {:induction false} GroupShape(d: string)
    requires |d| >= 1 && '.' !in d
    ensures var gs := Split(Group(d), '.');
      1 <= |gs[0]| <= 3
      && (forall i :: 1 <= i < |gs| ==> |gs[i]| == 3)
      && |gs| == (|d| + 2) / 3
  {
    if |d| <= 3 {
      SplitWithout(d, '.');
    } else {
      var init, last := d[..|d| - 3], d[|d| - 3..];
      GroupStep(d);
      GroupShape(init);
      SplitAround(Group(init), last, '.');
      SplitWithout(last, '.');
      var gs, gi := Split(Group(d), '.'), Split(Group(init), '.');
      assert gs == gi + [last];
      assert gs[0] == gi[0];
      forall i | 1 <= i < |gs| ensures |gs[i]| == 3 {
        if i < |gi| { assert gs[i] == gi[i]; }
      }
    }
  }

  /** Removing the dots from the grouped digits gives back the digits. */
  lemma {:induction false} GroupWithout(d: string)
    requires '.' !in d
    ensures Without(Group(d), '.') == d
  {
    if |d| <= 3 {
      WithoutAbsent(d, '.');
    } else {
      var init, last := d[..|d| - 3], d[|d| - 3..];
      GroupStep(d);
      GroupWithout(init);
      WithoutAppend(Group(init) + ['.'], last, '.');
      WithoutAppend(Group(init), ['.'], '.');
      WithoutAbsent(last, '.');
      assert Without(['.'], '.') == [];
    }
  }

  /** `formatNumber(n)` without its dots is `n.toString()`; for `n >= 0` the groups have the
      thousands shape, and a dot appears exactly from 1000 on. */
  lemma FormatNumberProperties(n: int)
    ensures Without(FormatNumber(n), '.') == IntToString(n)
    ensures n >= 0 ==> var gs := Split(FormatNumber(n), '.');
      1 <= |gs[0]| <= 3 && forall i :: 1 <= i < |gs| ==> |gs[i]| == 3
    ensures n >= 0 ==> ('.' in FormatNumber(n) <==> n >= 1000)
  {
    if n < 0 {
      FormatNegative(n);
    } else {
      FormatNonNegative(n);
    }
  }

  /** A decimal rendering has no dot. */
  lemma DigitsDotFree(m: nat)
    ensures '.' !in NatToString(m)
  {
    var d := NatToString(m);
    forall i | 0 <= i < |d| ensures d[i] != '.' { assert '0' <= d[i] <= '9'; }
  }

  /** A negative number keeps its sign, and the dots follow it. */
  lemma FormatNegative(n: int)
    requires n < 0
    ensures Without(FormatNumber(n), '.') == IntToString(n)
  {
    var d := NatToString(-n);
    DigitsDotFree(-n);
    GroupWithout(d);
    WithoutAppend("-", Group(d), '.');
    assert Without("-", '.') == "-" by {
      assert "-"[..0] == "";
    }
    assert FormatNumber(n) == "-" + Group(d);
  }

  lemma FormatNonNegative(n: nat)
    ensures Without(FormatNumber(n), '.') == IntToString(n)
    ensures var gs := Split(FormatNumber(n), '.');
      1 <= |gs[0]| <= 3 && forall i :: 1 <= i < |gs| ==> |gs[i]| == 3
    ensures '.' in FormatNumber(n) <==> n >= 1000
  {
    var d := NatToString(n);
    DigitsDotFree(n);
    GroupShape(d);
    GroupWithout(d);
    NatToStringLength(n, 3);
    assert Pow10(3) == 1000;
    if |d| <= 3 {
      assert Group(d) == d;
    } else {
      SplitLength(Group(d), '.');
      CountPositive(Group(d), '.');
    }
  }

  /** A text with more than one piece contains the separator. */
  lemma {:induction false} CountPositive(s: string, c: char)
    requires Count(s, c) > 0
    ensures c in s
  {
    if s[0] != c {
      CountPositive(s[1..], c);
    }
  }

  // ---------------------------------------------------------------- getInitials

  /** `part => part[0]` then `join('')`: an empty part gives `undefined`, which joins as nothing. */
  function FirstChars(parts: seq<string>): string
  {
    if |parts| == 0 then ""
    else (if parts[0] == "" then "" else [parts[0][0]]) + FirstChars(parts[1..])
  }

  /** `getInitials(name)`: at most two upper-cased first letters. */
  function GetInitials(name: string): (r: string)
    ensures |r| <= 2
    ensures forall i :: 0 <= i < |r| ==> UpperChar(r[i]) == r[i]
  {
    var all := Upper(FirstChars(Split(name, ' ')));
    UpperProperties(FirstChars(Split(name, ' ')));
    all[..if |all| < 2 then |all| else 2]
  }

  /** The non-empty parts, in order. */
  function NonEmpty(parts: seq<string>): (r: seq<string>)
    ensures forall i :: 0 <= i < |r| ==> r[i] != ""
  {
    if |parts| == 0 then []
    else if parts[0] == "" then NonEmpty(parts[1..])
    else [parts[0]] + NonEmpty(parts[1..])
  }

  /** The first characters of the non-empty parts (a reference definition). */
  function Heads(parts: seq<string>): string
    requires forall i :: 0 <= i < |parts| ==> parts[i] != ""
  {
    seq(|parts|, i requires 0 <= i < |parts| => parts[i][0])
  }

  lemma {:induction false} FirstCharsNonEmpty(parts: seq<string>)
    ensures FirstChars(parts) == Heads(NonEmpty(parts))
  {
    if |parts| > 0 {
      FirstCharsNonEmpty(parts[1..]);
    }
  }

  /** The initials are the upper-cased first characters of the first two non-empty
      space-separated parts: empty parts (from repeated spaces) contribute nothing. */
  lemma GetInitialsSpec(name: string)
    ensures var heads := Heads(NonEmpty(Split(name, ' ')));
      var k := if |heads| < 2 then |heads| else 2;
      GetInitials(name) == Upper(heads[..k])
  {
    var parts := Split(name, ' ');
    FirstCharsNonEmpty(parts);
    var heads := Heads(NonEmpty(parts));
    var k := if |heads| < 2 then |heads| else 2;
    assert Upper(heads)[..k] == Upper(heads[..k]);
  }

  // ---------------------------------------------------------------- readingTime

  /** ECMAScript white space and line terminators, the set of `\s` and of `trim`. */
  predicate IsSpace(c: char)
  {
    c == '\t' || c == '\n' || c == '\U{000B}' || c == '\U{000C}' || c == '\r' || c == ' '
    || c == '\U{00A0}' || c == '\U{1680}' || ('\U{2000}' <= c <= '\U{200A}')
    || c == '\U{2028}' || c == '\U{2029}' || c == '\U{202F}' || c == '\U{205F}'
    || c == '\U{3000}' || c == '\U{FEFF}'
  }

  /** Every character of `s` is white space. */
  predicate AllSpace(s: string)
  {
    forall i :: 0 <= i < |s| ==> IsSpace(s[i])
  }

  /** How many white-space characters `s` starts with. */
  function LeadingSpace(s: string): (n: nat)
    ensures n <= |s| && AllSpace(s[..n])
    ensures n < |s| ==> !IsSpace(s[n])
  {
    if |s| > 0 && IsSpace(s[0]) then 1 + LeadingSpace(s[1..]) else 0
  }

  /** How many white-space characters `s` ends with. */
  function TrailingSpace(s: string): (n: nat)
    ensures n <= |s| && AllSpace(s[|s| - n..])
    ensures n < |s| ==> !IsSpace(s[|s| - n - 1])
  {
    if |s| > 0 && IsSpace(s[|s| - 1]) then 1 + TrailingSpace(s[..|s| - 1]) else 0
  }

  /** `trimStart`: drops the leading white space, and nothing else. */
  function TrimStart(s: string): (r: string)
    ensures |r| <= |s| && r == s[|s| - |r|..]
    ensures |r| > 0 ==> !IsSpace(r[0])
    ensures AllSpace(s[..|s| - |r|])
  {
    s[LeadingSpace(s)..]
  }

  /** `trimEnd`: drops the trailing white space, and nothing else. */
  function TrimEnd(s: string): (r: string)
    ensures |r| <= |s| && r == s[..|r|]
    ensures |r| > 0 ==> !IsSpace(r[|r| - 1])
    ensures AllSpace(s[|r|..])
  {
    s[..|s| - TrailingSpace(s)]
  }

  /** `text.trim()`: no white space left at either end. */
  function Trim(s: string): (r: string)
    ensures |r| > 0 ==> !IsSpace(r[0]) && !IsSpace(r[|r| - 1])
  {
    TrimEnd(TrimStart(s))
  }

  /** `trim` cuts only white space: the result is the slice of `s` that starts after the
      leading white space, and everything before and after that slice is white space. */
  lemma TrimOnlyWhiteSpace(s: string)
    ensures var r, k := Trim(s), |s| - |TrimStart(s)|;
      k + |r| <= |s| && r == s[k..k + |r|] && AllSpace(s[..k]) && AllSpace(s[k + |r|..])
  {
    SliceOfSuffix(s, LeadingSpace(s), Trim(s));
  }

  /** A prefix `r` of `s[n..]`, followed there by white space only, is the slice of `s`
      at `n`, followed in `s` by white space only. */
  lemma SliceOfSuffix(s: string, n: nat, r: string)
    requires n <= |s| && |r| <= |s| - n
    requires r == s[n..][..|r|] && AllSpace(s[n..][|r|..])
    ensures r == s[n..n + |r|] && AllSpace(s[n + |r|..])
  {
    assert s[n + |r|..] == s[n..][|r|..];
  }

  /** The maximal runs of white space, counted by where they start; `afterSpace` says whether
      the character before `s` was white space. */
  function SpaceRuns(s: string, afterSpace: bool): nat
  {
    if |s| == 0 then 0
    else (if IsSpace(s[0]) && !afterSpace then 1 else 0) + SpaceRuns(s[1..], IsSpace(s[0]))
  }

  /** `s.split(/\s+/).length`: one piece more than there are runs of white space. */
  function SplitCount(s: string): nat
  {
    SpaceRuns(s, false) + 1
  }

  /** `text.trim().split(/\s+/).length`. */
  function WordCount(text: string): (count: nat)
    ensures count >= 1
  {
    SplitCount(Trim(text))
  }

  /** The words of `s` (a reference definition): where a non-space follows a space or the start. */
  function WordStarts(s: string, afterSpace: bool): nat
  {
    if |s| == 0 then 0
    else (if !IsSpace(s[0]) && afterSpace then 1 else 0) + WordStarts(s[1..], IsSpace(s[0]))
  }

  function Words(s: string): nat
  {
    WordStarts(s, true)
  }

  lemma {:induction false} WordsVersusRuns(s: string, afterSpace: bool)
    requires |s| > 0 && !IsSpace(s[|s| - 1])
    ensures WordStarts(s, afterSpace) == SpaceRuns(s, afterSpace) + (if afterSpace then 1 else 0)
  {
    if |s| > 1 {
      WordsVersusRuns(s[1..], IsSpace(s[0]));
    }
  }

  lemma {:induction false} TrimStartWords(s: string)
    ensures Words(TrimStart(s)) == Words(s)
  {
    if |s| > 0 && IsSpace(s[0]) {
      TrimStartWords(s[1..]);
    }
  }

  lemma {:induction false} WordsSnocSpace(s: string, c: char, afterSpace: bool)
    requires IsSpace(c)
    ensures WordStarts(s + [c], afterSpace) == WordStarts(s, afterSpace)
  {
    if |s| > 0 {
      WordsSnocSpace(s[1..], c, IsSpace(s[0]));
      assert (s + [c])[1..] == s[1..] + [c];
    }
  }

  lemma {:induction false} TrimEndWords(s: string)
    ensures Words(TrimEnd(s)) == Words(s)
  {
    if |s| > 0 && IsSpace(s[|s| - 1]) {
      TrimEndWords(s[..|s| - 1]);
      assert TrimEnd(s) == TrimEnd(s[..|s| - 1]);
      WordsSnocSpace(s[..|s| - 1], s[|s| - 1], true);
      assert s[..|s| - 1] + [s[|s| - 1]] == s;
    } else {
      assert TrimEnd(s) == s;
    }
  }

  /** The word count is the number of whitespace-separated words, except that a text with
      no word at all still counts as one. */
  lemma WordCountIsWords(text: string)
    ensures WordCount(text) == if Words(text) == 0 then 1 else Words(text)
  {
    var t := Trim(text);
    TrimStartWords(text);
    TrimEndWords(TrimStart(text));
    if |t| > 0 {
      WordsVersusRuns(t, true);
      WordsVersusRuns(t, false);
    }
  }

  const DefaultWordsPerMinute := 200

  /** `Math.ceil(a / b)` for a positive divisor. */
  function CeilDiv(a: nat, b: nat): (q: nat)
    requires b > 0
    ensures a == 0 ==> q == 0
    ensures a > 0 ==> q >= 1 && (q - 1) * b < a <= q * b
  {
    (a + b - 1) / b
  }

  /** `readingTime(text, wordsPerMinute)` for a positive rate. */
  function ReadingTime(text: string, wordsPerMinute: nat): (minutes: nat)
    requires wordsPerMinute > 0
    ensures minutes >= 1
    ensures (minutes - 1) * wordsPerMinute < WordCount(text) <= minutes * wordsPerMinute
  {
    CeilDiv(WordCount(text), wordsPerMinute)
  }

  /** More words never mean less reading time. */
  lemma ReadingTimeMonotone(t1: string, t2: string, wordsPerMinute: nat)
    requires wordsPerMinute > 0
    requires Words(t1) <= Words(t2)
    ensures ReadingTime(t1, wordsPerMinute) <= ReadingTime(t2, wordsPerMinute)
  {
    WordCountMonotone(t1, t2);
    CeilDivMonotone(WordCount(t1), WordCount(t2), wordsPerMinute);
  }

  lemma WordCountMonotone(t1: string, t2: string)
    requires Words(t1) <= Words(t2)
    ensures WordCount(t1) <= WordCount(t2)
  {
    WordCountIsWords(t1);
    WordCountIsWords(t2);
  }

  lemma CeilDivMonotone(a: nat, b: nat, d: nat)
    requires d > 0 && a <= b
    ensures CeilDiv(a, d) <= CeilDiv(b, d)
  {
    DivMonotone(a + d - 1, b + d - 1, d);
  }

  lemma DivMonotone(x: nat, y: nat, d: nat)
    requires d > 0 && x <= y
    ensures x / d <= y / d
  {
    var qx, qy := x / d, y / d;
    assert qx * d <= x && y < (qy + 1) * d;
    if qx > qy {
      MulMonotone(qy + 1, qx, d);
      assert false;
    }
  }

  lemma MulMonotone(a: nat, b: nat, d: nat)
    requires a <= b
    ensures a * d <= b * d
  {
  }
}
