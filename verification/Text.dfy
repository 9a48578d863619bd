/** The string operations the controller relies on, with the laws the other modules need. */
module Text {

  // ----- Byte order, as `ORDER BY hostname` and Go's `<` compare strings -----

  predicate StrLess(a: string, b: string) {
    |b| > 0 && (|a| == 0 || a[0] < b[0] || (a[0] == b[0] && StrLess(a[1..], b[1..])))
  }

  lemma {:induction false} StrLessIrreflexive(a: string)
    ensures !StrLess(a, a)
  {
    if a != "" {
      StrLessIrreflexive(a[1..]);
    }
  }

  lemma {:induction false} StrLessTransitive(a: string, b: string, c: string)
    requires StrLess(a, b) && StrLess(b, c)
    ensures StrLess(a, c)
  {
    if |a| > 0 && a[0] == b[0] && b[0] == c[0] {
      StrLessTransitive(a[1..], b[1..], c[1..]);
    }
  }

  lemma {:induction false} StrLessTotal(a: string, b: string)
    ensures a == b || StrLess(a, b) || StrLess(b, a)
  {
    if |a| > 0 && |b| > 0 && a[0] == b[0] {
      StrLessTotal(a[1..], b[1..]);
      assert a == [a[0]] + a[1..] && b == [b[0]] + b[1..];
    }
  }

  /** `a` and `b` agree on their first `k` characters, and then `a` ends or has the smaller one. */
  predicate LessFrom(a: string, b: string, k: int) {
    0 <= k <= |a| && k < |b| && a[..k] == b[..k] && (k == |a| || a[k] < b[k])
  }

  lemma SameFirst(a: string, b: string, k: int)
    requires LessFrom(a, b, k) && k > 0
    ensures a[0] == b[0]
  {
    assert a[..k][0] == a[0] && b[..k][0] == b[0];
  }

  /** The order is decided by the first position where the strings differ, or by one being a proper
      prefix of the other. */
  lemma {:induction false} StrLessIsByteOrder(a: string, b: string)
    ensures StrLess(a, b) <==> exists k :: LessFrom(a, b, k)
  {
    if a == "" || b == "" || a[0] != b[0] {
      assert |b| > 0 ==> a[..0] == b[..0];
      assert StrLess(a, b) ==> LessFrom(a, b, 0);
      forall k | LessFrom(a, b, k) ensures k == 0 {
        if k > 0 {
          SameFirst(a, b, k);
        }
      }
    } else {
      StrLessIsByteOrder(a[1..], b[1..]);
      if k :| LessFrom(a[1..], b[1..], k) {
        assert a[..k + 1] == [a[0]] + a[1..][..k] && b[..k + 1] == [b[0]] + b[1..][..k];
        assert LessFrom(a, b, k + 1);
      }
      if k :| LessFrom(a, b, k) {
        assert k > 0;
        assert a[1..][..k - 1] == a[..k][1..] && b[1..][..k - 1] == b[..k][1..];
        assert LessFrom(a[1..], b[1..], k - 1);
      }
    }
  }

  // ----- strings.Split and its inverse -----

  function Split(s: string, c: char): (parts: seq<string>)
    ensures |parts| >= 1
  {
    if s == "" then [""]
    else
      var rest := Split(s[1..], c);
      if s[0] == c then [""] + rest else [[s[0]] + rest[0]] + rest[1..]
  }

  function Join(parts: seq<string>, c: char): string
    requires |parts| >= 1
  {
    if |parts| == 1 then parts[0] else parts[0] + [c] + Join(parts[1..], c)
  }

  /** Splitting then joining gives the text back, and no part holds the separator. */
  lemma {:induction false} JoinSplit(s: string, c: char)
    ensures Join(Split(s, c), c) == s
    ensures forall i :: 0 <= i < |Split(s, c)| ==> c !in Split(s, c)[i]
  {
    if s != "" {
      JoinSplit(s[1..], c);
      var rest := Split(s[1..], c);
      var parts := Split(s, c);
      assert s == [s[0]] + s[1..];
      if s[0] == c {
        assert parts[1..] == rest;
      } else {
        assert parts[1..] == rest[1..];
        if |rest| > 1 {
          assert [s[0]] + (rest[0] + [c] + Join(rest[1..], c)) == ([s[0]] + rest[0]) + [c] + Join(rest[1..], c);
        }
      }
    }
  }

  lemma {:induction false} JoinLast(parts: seq<string>, c: char)
    requires |parts| >= 2
    ensures Join(parts, c) == Join(parts[..|parts| - 1], c) + [c] + parts[|parts| - 1]
  {
    if |parts| > 2 {
      JoinLast(parts[1..], c);
      assert parts[1..][..|parts| - 2] == parts[..|parts| - 1][1..];
    }
  }

  lemma {:induction false} SplitAtom(s: string, c: char)
    requires c !in s
    ensures Split(s, c) == [s]
  {
    if s != "" {
      SplitAtom(s[1..], c);
      assert [s[0]] + s[1..] == s;
    }
  }

  /** Splitting distributes over a separator in the middle. */
  lemma {:induction false} SplitConcat(a: string, b: string, c: char)
    ensures Split(a + [c] + b, c) == Split(a, c) + Split(b, c)
  {
    var whole := a + [c] + b;
    if a == "" {
      assert whole[1..] == b;
    } else {
      assert whole[1..] == a[1..] + [c] + b;
      SplitConcat(a[1..], b, c);
    }
  }

  lemma {:induction false} SplitJoin(parts: seq<string>, c: char)
    requires |parts| >= 1
    requires forall i :: 0 <= i < |parts| ==> c !in parts[i]
    ensures Split(Join(parts, c), c) == parts
  {
    SplitAtom(parts[0], c);
    if |parts| > 1 {
      SplitConcat(parts[0], Join(parts[1..], c), c);
      SplitJoin(parts[1..], c);
      assert [parts[0]] + parts[1..] == parts;
    } else {
      assert parts == [parts[0]];
    }
  }

  // ----- strings.Trim, strings.TrimSpace, strings.ToLower, strings.HasSuffix -----

  function TrimLeft(s: string, cut: set<char>): string {
    if s != "" && s[0] in cut then TrimLeft(s[1..], cut) else s
  }

  function TrimRight(s: string, cut: set<char>): string {
    if s != "" && s[|s| - 1] in cut then TrimRight(s[..|s| - 1], cut) else s
  }

  function Trim(s: string, cut: set<char>): string {
    TrimRight(TrimLeft(s, cut), cut)
  }

  predicate CleanEdges(s: string, cut: set<char>) {
    s == "" || (s[0] !in cut && s[|s| - 1] !in cut)
  }

  lemma {:induction false} TrimLeftEdge(s: string, cut: set<char>)
    ensures var t := TrimLeft(s, cut); t == "" || t[0] !in cut
  {
    if s != "" && s[0] in cut {
      TrimLeftEdge(s[1..], cut);
    }
  }

  lemma {:induction false} TrimRightEdges(s: string, cut: set<char>)
    requires s == "" || s[0] !in cut
    ensures CleanEdges(TrimRight(s, cut), cut)
  {
    if s != "" && s[|s| - 1] in cut {
      TrimRightEdges(s[..|s| - 1], cut);
    }
  }

  /** Trimming leaves exactly the strings with clean edges alone; its result always is one. */
  lemma TrimFixpoint(s: string, cut: set<char>)
    ensures CleanEdges(Trim(s, cut), cut)
    ensures Trim(s, cut) == s <==> CleanEdges(s, cut)
    ensures Trim(Trim(s, cut), cut) == Trim(s, cut)
  {
    TrimLeftEdge(s, cut);
    TrimRightEdges(TrimLeft(s, cut), cut);
  }

  lemma {:induction false} TrimLeftDrops(s: string, cut: set<char>) returns (i: nat)
    ensures i <= |s| && TrimLeft(s, cut) == s[i..] && forall k :: 0 <= k < i ==> s[k] in cut
  {
    if s != "" && s[0] in cut {
      var j := TrimLeftDrops(s[1..], cut);
      i := j + 1;
    } else {
      i := 0;
    }
  }

  lemma {:induction false} TrimRightDrops(s: string, cut: set<char>) returns (j: nat)
    ensures j <= |s| && TrimRight(s, cut) == s[..j] && forall k :: j <= k < |s| ==> s[k] in cut
  {
    if s != "" && s[|s| - 1] in cut {
      j := TrimRightDrops(s[..|s| - 1], cut);
    } else {
      j := |s|;
    }
  }

  /** Trimming drops characters of the cut set from both ends, and nothing else. */
  lemma TrimDropsEdges(s: string, cut: set<char>)
    ensures exists i, j :: 0 <= i <= j <= |s| && Trim(s, cut) == s[i..j]
              && (forall k :: 0 <= k < i || j <= k < |s| ==> s[k] in cut)
  {
    var i := TrimLeftDrops(s, cut);
    var j := TrimRightDrops(s[i..], cut);
    assert s[i..][..j] == s[i..i + j];
    forall k | 0 <= k < i || i + j <= k < |s| ensures s[k] in cut {
      if k >= i {
        assert s[k] == s[i..][k - i];
      }
    }
  }

  /** Trimming undoes one wrapping in cut characters. */
  lemma TrimWrapped(open: char, s: string, close: char, cut: set<char>)
    requires open in cut && close in cut && s != "" && CleanEdges(s, cut)
    ensures Trim([open] + s + [close], cut) == s
  {
    var w := [open] + s + [close];
    assert w[1..] == s + [close];
    assert TrimLeft(w, cut) == TrimLeft(w[1..], cut) == s + [close];
    assert (s + [close])[..|s|] == s;
    assert TrimRight(s + [close], cut) == TrimRight(s, cut);
  }

  /** Unicode White_Space, the characters strings.TrimSpace removes. */
  const SPACES: set<char> := {
    '\t', '\n', '\U{0B}', '\U{0C}', '\r', ' ', '\U{85}', '\U{A0}', '\U{1680}',
    '\U{2000}', '\U{2001}', '\U{2002}', '\U{2003}', '\U{2004}', '\U{2005}', '\U{2006}',
    '\U{2007}', '\U{2008}', '\U{2009}', '\U{200A}', '\U{2028}', '\U{2029}', '\U{202F}',
    '\U{205F}', '\U{3000}'
  }

  function TrimSpace(s: string): string {
    Trim(s, SPACES)
  }

  predicate IsGraphic(c: char) {
    '!' <= c <= '~'
  }

  /** Visible ASCII at both ends is nothing to trim. */
  lemma TrimSpaceKeeps(s: string)
    requires s == "" || (IsGraphic(s[0]) && IsGraphic(s[|s| - 1]))
    ensures TrimSpace(s) == s
  {
    TrimFixpoint(s, SPACES);
  }

  /** Lower case, exact wherever the result is ASCII: besides A-Z only U+0130 and U+212A map into ASCII. */
  function LowerChar(c: char): char {
    if 'A' <= c <= 'Z' then c - 'A' + 'a'
    else if c == '\U{0130}' then 'i'
    else if c == '\U{212A}' then 'k'
    else c
  }

  function ToLower(s: string): (t: string)
    ensures |t| == |s|
    ensures forall k :: 0 <= k < |s| ==> t[k] == LowerChar(s[k])
  {
    seq(|s|, k requires 0 <= k < |s| => LowerChar(s[k]))
  }

  predicate HasSuffix(s: string, suffix: string) {
    |s| >= |suffix| && s[|s| - |suffix|..] == suffix
  }

  // ----- Decimal integers, as fmt and strconv print them -----

  predicate IsDigits(s: string) {
    forall k :: 0 <= k < |s| ==> '0' <= s[k] <= '9'
  }

  function Decimal(n: nat): (s: string)
    ensures s != "" && IsDigits(s)
  {
    if n < 10 then ['0' + n as char] else Decimal(n / 10) + ['0' + (n % 10) as char]
  }

  function PrintInt(n: int): string {
    if n < 0 then "-" + Decimal(-n) else Decimal(n)
  }

  function ParseDigits(s: string): nat
    requires IsDigits(s)
  {
    if s == "" then 0 else 10 * ParseDigits(s[..|s| - 1]) + (s[|s| - 1] as int - '0' as int)
  }

  lemma {:induction false} ParsePrinted(n: nat)
    ensures ParseDigits(Decimal(n)) == n
  {
    var s := Decimal(n);
    if n < 10 {
      assert s[..0] == "";
    } else {
      ParsePrinted(n / 10);
      assert s[..|s| - 1] == Decimal(n / 10);
    }
  }

  // ----- Cutting at a separator -----

  /** The part of `s` before the first `c`; all of `s` when there is none. */
  function Before(s: string, c: char): string {
    if s == "" || s[0] == c then "" else [s[0]] + Before(s[1..], c)
  }

  lemma {:induction false} BeforeFirst(a: string, c: char, b: string)
    requires c !in a
    ensures Before(a + [c] + b, c) == a
  {
    if a != "" {
      assert (a + [c] + b)[1..] == a[1..] + [c] + b;
      BeforeFirst(a[1..], c, b);
    }
  }

  /** The part of `s` after the last `c`; all of `s` when there is none. */
  function AfterLast(s: string, c: char): string {
    if s == "" || s[|s| - 1] == c then "" else AfterLast(s[..|s| - 1], c) + [s[|s| - 1]]
  }

  lemma {:induction false} AfterLastOf(a: string, c: char, b: string)
    requires c !in b
    ensures AfterLast(a + [c] + b, c) == b
  {
    var s := a + [c] + b;
    if b != "" {
      assert s[..|s| - 1] == a + [c] + b[..|b| - 1];
      AfterLastOf(a, c, b[..|b| - 1]);
    }
  }
}
