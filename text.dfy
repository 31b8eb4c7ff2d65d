/**
 * The parts of Go's `strings`, `strconv` and `sort` packages that the
 * framework's core relies on, written out over `string` (a sequence of
 * Unicode scalar values). Go works on UTF-8 bytes; for the separators used
 * here ('/', ',', ':', '=', '(' and ')') and for ordering, byte order and
 * code-point order agree.
 */
module Text {
  import opened Wrappers

  // ---------------------------------------------------------------------------
  // Prefixes and suffixes (strings.HasPrefix, HasSuffix, TrimPrefix, TrimSuffix)

  predicate HasPrefix(s: string, p: string) {
    |p| <= |s| && s[..|p|] == p
  }

  predicate HasSuffix(s: string, x: string) {
    |x| <= |s| && s[|s| - |x|..] == x
  }

  function TrimPrefix(s: string, p: string): (r: string)
    ensures HasPrefix(s, p) ==> s == p + r
    ensures !HasPrefix(s, p) ==> r == s
  {
    if HasPrefix(s, p) then s[|p|..] else s
  }

  function TrimSuffix(s: string, x: string): (r: string)
    ensures HasSuffix(s, x) ==> s == r + x
    ensures !HasSuffix(s, x) ==> r == s
  {
    if HasSuffix(s, x) then s[..|s| - |x|] else s
  }

  /** strings.Contains: `sub` occurs somewhere in `s`. */
  predicate Contains(s: string, sub: string)
    decreases |s|
  {
    HasPrefix(s, sub) || (|s| > 0 && Contains(s[1..], sub))
  }

  // ---------------------------------------------------------------------------
  // Trimming a cut set of one character (strings.Trim(s, "/"))

  function TrimLeft(s: string, c: char): (r: string)
    ensures |r| <= |s| && r == s[|s| - |r|..]
    ensures r == [] || r[0] != c
  {
    if |s| > 0 && s[0] == c then TrimLeft(s[1..], c) else s
  }

  function TrimRight(s: string, c: char): (r: string)
    ensures |r| <= |s| && r == s[..|r|]
    ensures r == [] || r[|r| - 1] != c
  {
    if |s| > 0 && s[|s| - 1] == c then TrimRight(s[..|s| - 1], c) else s
  }

  /** TrimLeft removes only copies of `c`. */
  lemma {:induction false} TrimLeftRemoves(s: string, c: char)
    ensures forall i :: 0 <= i < |s| - |TrimLeft(s, c)| ==> s[i] == c
    decreases |s|
  {
    if |s| > 0 && s[0] == c {
      TrimLeftRemoves(s[1..], c);
    }
  }

  /** TrimRight removes only copies of `c`. */
  lemma {:induction false} TrimRightRemoves(s: string, c: char)
    ensures forall i :: |TrimRight(s, c)| <= i < |s| ==> s[i] == c
    decreases |s|
  {
    if |s| > 0 && s[|s| - 1] == c {
      TrimRightRemoves(s[..|s| - 1], c);
    }
  }

  /** Removes every leading and trailing `c`; what is left neither starts nor ends with `c`. */
  function Trim(s: string, c: char): (r: string)
    ensures r == [] || (r[0] != c && r[|r| - 1] != c)
  {
    TrimRight(TrimLeft(s, c), c)
  }

  /** Trim leaves nothing exactly when the string is made of `c` only. */
  lemma TrimEmpty(s: string, c: char)
    ensures Trim(s, c) == [] <==> forall i :: 0 <= i < |s| ==> s[i] == c
  {
    var l := TrimLeft(s, c);
    TrimLeftRemoves(s, c);
    TrimRightRemoves(l, c);
    if l != [] {
      assert l[0] != c && l[0] == s[|s| - |l|];
    }
    if Trim(s, c) == [] {
      assert l == [];
    }
  }

  lemma TrimOfClean(s: string, c: char)
    requires s == [] || (s[0] != c && s[|s| - 1] != c)
    ensures Trim(s, c) == s
  {
  }

  // ---------------------------------------------------------------------------
  // Searching for one character (strings.Index, strings.LastIndex)

  function IndexOf(s: string, c: char): (r: int)
    ensures -1 <= r < |s|
    ensures r >= 0 ==> s[r] == c && c !in s[..r]
    ensures r < 0 ==> c !in s
  {
    if |s| == 0 then -1
    else if s[0] == c then 0
    else
      var k := IndexOf(s[1..], c);
      if k < 0 then -1 else k + 1
  }

  function LastIndexOf(s: string, c: char): (r: int)
    ensures -1 <= r < |s|
    ensures r >= 0 ==> s[r] == c && c !in s[r + 1..]
    ensures r < 0 ==> c !in s
  {
    if |s| == 0 then -1
    else if s[|s| - 1] == c then |s| - 1
    else LastIndexOf(s[..|s| - 1], c)
  }

  lemma {:induction false} IndexOfJoin(a: string, c: char, b: string)
    requires c !in a
    ensures IndexOf(a + [c] + b, c) == |a|
    decreases |a|
  {
    if |a| > 0 {
      IndexOfJoin(a[1..], c, b);
      assert (a + [c] + b)[1..] == a[1..] + [c] + b;
    }
  }

  // ---------------------------------------------------------------------------
  // Splitting and joining (strings.Split, strings.SplitN(_, _, 2), strings.Join)

  /** strings.Split with a one-character separator: never empty; no piece holds `c`. */
  function Split(s: string, c: char): (r: seq<string>)
    ensures |r| >= 1
    decreases |s|
  {
    var i := IndexOf(s, c);
    if i < 0 then [s] else [s[..i]] + Split(s[i + 1..], c)
  }

  /** No piece of a split holds the separator. */
  lemma {:induction false} SplitNoSep(s: string, c: char)
    ensures forall k :: 0 <= k < |Split(s, c)| ==> c !in Split(s, c)[k]
    decreases |s|
  {
    var i := IndexOf(s, c);
    if i >= 0 {
      var rest := Split(s[i + 1..], c);
      SplitNoSep(s[i + 1..], c);
      var r := Split(s, c);
      assert r == [s[..i]] + rest;
      forall k | 0 <= k < |r| ensures c !in r[k] {
        if k > 0 {
          assert r[k] == rest[k - 1];
          assert c !in rest[k - 1];
        } else {
          assert r[0] == s[..i];
          assert c !in s[..i];
        }
      }
    }
  }

  /** strings.SplitN(s, c, 2): the text before the first `c` and, if there is one, the text after it. */
  function SplitFirst(s: string, c: char): (r: seq<string>)
    ensures 1 <= |r| <= 2 && c !in r[0]
    ensures |r| == 1 <==> c !in s
    ensures |r| == 1 ==> r[0] == s
    ensures |r| == 2 ==> s == r[0] + [c] + r[1]
  {
    var i := IndexOf(s, c);
    if i < 0 then [s] else [s[..i], s[i + 1..]]
  }

  function Join(parts: seq<string>, sep: string): string
  {
    if |parts| == 0 then ""
    else if |parts| == 1 then parts[0]
    else parts[0] + sep + Join(parts[1..], sep)
  }

  /** Joining a head and a non-empty rest puts one separator between them. */
  lemma JoinCons(a: string, rest: seq<string>, sep: string)
    requires |rest| > 0
    ensures Join([a] + rest, sep) == a + sep + Join(rest, sep)
  {
    assert ([a] + rest)[1..] == rest;
  }

  lemma {:induction false} JoinSplit(s: string, c: char)
    ensures Join(Split(s, c), [c]) == s
    decreases |s|, 1
  {
    if IndexOf(s, c) >= 0 {
      JoinSplitAt(s, c);
    } else {
      assert Split(s, c) == [s];
    }
  }

  /** The case of JoinSplit where `c` occurs in `s`. */
  lemma {:induction false} JoinSplitAt(s: string, c: char)
    requires IndexOf(s, c) >= 0
    ensures Join(Split(s, c), [c]) == s
    decreases |s|, 0
  {
    var i := IndexOf(s, c);
    SliceAround(s, i);
    JoinSplit(s[i + 1..], c);
    JoinAround(s, s[..i], s[i + 1..], Split(s[i + 1..], c), c);
  }

  lemma SliceAround(s: string, i: nat)
    requires i < |s|
    ensures s == s[..i] + [s[i]] + s[i + 1..]
  {
  }

  lemma JoinAround(s: string, head: string, tail: string, rest: seq<string>, c: char)
    requires s == head + [c] + tail && |rest| > 0 && Join(rest, [c]) == tail
    ensures Join([head] + rest, [c]) == s
  {
    JoinCons(head, rest, [c]);
  }

  lemma {:induction false} SplitJoin(parts: seq<string>, c: char)
    requires |parts| >= 1
    requires forall i :: 0 <= i < |parts| ==> c !in parts[i]
    ensures Split(Join(parts, [c]), c) == parts
  {
    if |parts| == 1 {
    } else {
      var rest := Join(parts[1..], [c]);
      IndexOfJoin(parts[0], c, rest);
      var s := parts[0] + [c] + rest;
      assert s[..|parts[0]|] == parts[0];
      assert s[|parts[0]| + 1..] == rest;
      SplitJoin(parts[1..], c);
    }
  }

  lemma {:induction false} JoinBounds(parts: seq<string>, c: char)
    requires |parts| >= 1
    ensures var j := Join(parts, [c]);
      (|parts[0]| > 0 ==> |j| > 0 && j[0] == parts[0][0]) &&
      (|parts[|parts| - 1]| > 0 ==> |j| > 0 && j[|j| - 1] == parts[|parts| - 1][|parts[|parts| - 1]| - 1])
  {
    if |parts| > 1 {
      JoinBounds(parts[1..], c);
    }
  }

  // ---------------------------------------------------------------------------
  // White space (strings.TrimSpace, with unicode.IsSpace)

  predicate IsSpace(c: char) {
    c == ' ' || ('\t' <= c <= '\r') || c == '\U{85}' || c == '\U{A0}' || c == '\U{1680}' ||
    ('\U{2000}' <= c <= '\U{200A}') || c == '\U{2028}' || c == '\U{2029}' ||
    c == '\U{202F}' || c == '\U{205F}' || c == '\U{3000}'
  }

  function TrimSpaceLeft(s: string): string
    decreases |s|
  {
    if |s| > 0 && IsSpace(s[0]) then TrimSpaceLeft(s[1..]) else s
  }

  function TrimSpaceRight(s: string): string
    decreases |s|
  {
    if |s| > 0 && IsSpace(s[|s| - 1]) then TrimSpaceRight(s[..|s| - 1]) else s
  }

  /** strings.TrimSpace: leading and trailing white space removed. */
  function TrimSpace(s: string): string {
    TrimSpaceRight(TrimSpaceLeft(s))
  }

  /** TrimSpaceLeft drops a prefix of white space and stops at a non-space. */
  lemma {:induction false} TrimSpaceLeftSlice(s: string)
    ensures var r := TrimSpaceLeft(s);
      |r| <= |s| && r == s[|s| - |r|..] && (r == [] || !IsSpace(r[0])) &&
      forall i :: 0 <= i < |s| - |r| ==> IsSpace(s[i])
    decreases |s|
  {
    if |s| > 0 && IsSpace(s[0]) {
      TrimSpaceLeftSlice(s[1..]);
    }
  }

  /** TrimSpaceRight drops a suffix of white space and stops at a non-space. */
  lemma {:induction false} TrimSpaceRightSlice(s: string)
    ensures var r := TrimSpaceRight(s);
      |r| <= |s| && r == s[..|r|] && (r == [] || !IsSpace(r[|r| - 1])) &&
      forall i :: |r| <= i < |s| ==> IsSpace(s[i])
    decreases |s|
  {
    if |s| > 0 && IsSpace(s[|s| - 1]) {
      TrimSpaceRightSlice(s[..|s| - 1]);
    }
  }

  /** What TrimSpace keeps neither starts nor ends with white space, and it is empty only for blank input. */
  lemma TrimSpaceClean(s: string)
    ensures var r := TrimSpace(s);
      (r == [] || (!IsSpace(r[0]) && !IsSpace(r[|r| - 1]))) &&
      (r == [] <==> forall i :: 0 <= i < |s| ==> IsSpace(s[i]))
  {
    var l := TrimSpaceLeft(s);
    TrimSpaceLeftSlice(s);
    TrimSpaceRightSlice(l);
    if l != [] {
      assert !IsSpace(l[0]);
      assert !IsSpace(s[|s| - |l|]);
    }
  }

  /** TrimSpace only removes characters: what it keeps was in `s`. */
  lemma TrimSpaceWithin(s: string, c: char)
    ensures c in TrimSpace(s) ==> c in s
  {
    var l := TrimSpaceLeft(s);
    var r := TrimSpaceRight(l);
    TrimSpaceLeftSlice(s);
    TrimSpaceRightSlice(l);
    if c in r {
      var k :| 0 <= k < |r| && r[k] == c;
      assert l[k] == c;
      assert s[|s| - |l| + k] == c;
    }
  }

  lemma TrimSpaceOfClean(s: string)
    requires s == [] || (!IsSpace(s[0]) && !IsSpace(s[|s| - 1]))
    ensures TrimSpace(s) == s
  {
  }

  // ---------------------------------------------------------------------------
  // Case mapping (strings.ToLower, strings.ToUpper), on ASCII letters only

  function LowerChar(c: char): char {
    if 'A' <= c <= 'Z' then (c as int + 32) as char else c
  }

  function UpperChar(c: char): char {
    if 'a' <= c <= 'z' then (c as int - 32) as char else c
  }

  function ToLower(s: string): (r: string)
    ensures |r| == |s| && forall i :: 0 <= i < |s| ==> r[i] == LowerChar(s[i])
  {
    seq(|s|, i requires 0 <= i < |s| => LowerChar(s[i]))
  }

  function ToUpper(s: string): (r: string)
    ensures |r| == |s| && forall i :: 0 <= i < |s| ==> r[i] == UpperChar(s[i])
  {
    seq(|s|, i requires 0 <= i < |s| => UpperChar(s[i]))
  }

  lemma ToUpperIdempotent(s: string)
    ensures ToUpper(ToUpper(s)) == ToUpper(s)
  {
  }

  /** A string without lower-case ASCII letters is its own upper-case form. */
  lemma ToUpperOfUpper(s: string)
    requires forall i :: 0 <= i < |s| ==> !('a' <= s[i] <= 'z')
    ensures ToUpper(s) == s
  {
  }

  /** A string without upper-case ASCII letters is its own lower-case form. */
  lemma ToLowerOfLower(s: string)
    requires forall i :: 0 <= i < |s| ==> !('A' <= s[i] <= 'Z')
    ensures ToLower(s) == s
  {
  }

  lemma ToLowerIdempotent(s: string)
    ensures ToLower(ToLower(s)) == ToLower(s)
  {
  }

  // ---------------------------------------------------------------------------
  // Decimal integers (strconv.Atoi on a 64-bit platform, fmt's %d)

  const MinInt64: int := -0x8000_0000_0000_0000
  const MaxInt64: int := 0x7FFF_FFFF_FFFF_FFFF

  predicate IsDigit(c: char) {
    '0' <= c <= '9'
  }

  predicate AllDigits(s: string) {
    forall i :: 0 <= i < |s| ==> IsDigit(s[i])
  }

  function DigitsValue(s: string): nat
    requires AllDigits(s)
  {
    if |s| == 0 then 0 else DigitsValue(s[..|s| - 1]) * 10 + (s[|s| - 1] as int - '0' as int)
  }

  /** An optional sign and at least one decimal digit, in the int64 range; anything else is an error. */
  function Atoi(s: string): (r: Option<int>)
    ensures r.Some? ==> MinInt64 <= r.value <= MaxInt64
    ensures r.Some? ==> |s| > 0 && (IsDigit(s[0]) || s[0] == '+' || s[0] == '-')
  {
    if |s| == 0 then None
    else
      var digits := if s[0] == '+' || s[0] == '-' then s[1..] else s;
      if |digits| == 0 || !AllDigits(digits) then None
      else
        var v: int := if s[0] == '-' then 0 - DigitsValue(digits) as int else DigitsValue(digits) as int;
        if MinInt64 <= v <= MaxInt64 then Some(v) else None
  }

  function Digit(d: nat): char
    requires d < 10
  {
    ('0' as int + d) as char
  }

  function NatToString(n: nat): (r: string)
    ensures |r| >= 1 && AllDigits(r)
  {
    if n < 10 then [Digit(n)] else NatToString(n / 10) + [Digit(n % 10)]
  }

  /** fmt.Sprintf("%d", n). */
  function Itoa(n: int): string {
    if n < 0 then "-" + NatToString(-n) else NatToString(n)
  }

  lemma {:induction false} DigitsOfNatToString(n: nat)
    ensures DigitsValue(NatToString(n)) == n
  {
    if n >= 10 {
      DigitsOfNatToString(n / 10);
      var s := NatToString(n);
      assert s[..|s| - 1] == NatToString(n / 10);
    }
  }

  /** Printing an int64 with %d and reading it back with Atoi gives the same number. */
  lemma AtoiItoa(n: int)
    requires MinInt64 <= n <= MaxInt64
    ensures Atoi(Itoa(n)) == Some(n)
  {
    var s := Itoa(n);
    if n < 0 {
      var digits := NatToString(-n);
      DigitsOfNatToString(-n);
      assert s == "-" + digits && s[0] == '-' && s[1..] == digits;
      AtoiNegative(s, digits, -n);
    } else {
      DigitsOfNatToString(n);
      assert s[0] != '+' && s[0] != '-';
    }
  }

  lemma AtoiNegative(s: string, digits: string, m: nat)
    requires |s| > 0 && s[0] == '-' && s[1..] == digits
    requires |digits| >= 1 && AllDigits(digits) && DigitsValue(digits) == m && m <= MaxInt64 + 1
    ensures Atoi(s) == Some(0 - m)
  {
  }

  // ---------------------------------------------------------------------------
  // Lexicographic order and sort.Strings

  predicate LexLe(a: string, b: string)
    decreases |a|
  {
    |a| == 0 || (|b| > 0 && (a[0] < b[0] || (a[0] == b[0] && LexLe(a[1..], b[1..]))))
  }

  lemma {:induction false} LexLeTotal(a: string, b: string)
    ensures LexLe(a, b) || LexLe(b, a)
    decreases |a|
  {
    if |a| > 0 && |b| > 0 && a[0] == b[0] {
      LexLeTotal(a[1..], b[1..]);
    }
  }

  lemma {:induction false} LexLeTrans(a: string, b: string, c: string)
    requires LexLe(a, b) && LexLe(b, c)
    ensures LexLe(a, c)
    decreases |a|
  {
    if |a| > 0 && a[0] == b[0] && b[0] == c[0] {
      LexLeTrans(a[1..], b[1..], c[1..]);
    }
  }

  lemma {:induction false} LexLeAntisym(a: string, b: string)
    requires LexLe(a, b) && LexLe(b, a)
    ensures a == b
    decreases |a|
  {
    if |a| > 0 {
      LexLeAntisym(a[1..], b[1..]);
      assert a == [a[0]] + a[1..] && b == [b[0]] + b[1..];
    }
  }

  predicate Sorted(s: seq<string>) {
    forall i, j :: 0 <= i < j < |s| ==> LexLe(s[i], s[j])
  }

  function Insert(x: string, s: seq<string>): seq<string> {
    if |s| == 0 then [x]
    else if LexLe(x, s[0]) then [x] + s
    else [s[0]] + Insert(x, s[1..])
  }

  /** Inserting into a sorted list keeps it sorted and adds exactly the new element. */
  lemma {:induction false} InsertSorted(x: string, s: seq<string>)
    requires Sorted(s)
    ensures Sorted(Insert(x, s))
    ensures multiset(Insert(x, s)) == multiset(s) + multiset{x}
    decreases |s|
  {
    if |s| == 0 {
    } else if LexLe(x, s[0]) {
      InsertFront(x, s);
    } else {
      LexLeTotal(x, s[0]);
      var t := Insert(x, s[1..]);
      InsertSorted(x, s[1..]);
      assert s == [s[0]] + s[1..];
      InsertBehind(s[0], x, s[1..], t);
    }
  }

  lemma InsertFront(x: string, s: seq<string>)
    requires Sorted(s) && |s| > 0 && LexLe(x, s[0])
    ensures Sorted([x] + s)
  {
    forall j | 0 <= j < |s|
      ensures LexLe(x, s[j])
    {
      if j > 0 {
        LexLeTrans(x, s[0], s[j]);
      }
    }
    var r := [x] + s;
    forall i, j | 0 <= i < j < |r|
      ensures LexLe(r[i], r[j])
    {
      if i > 0 {
        assert r[i] == s[i - 1] && r[j] == s[j - 1];
      }
    }
  }

  lemma InsertBehind(h: string, x: string, rest: seq<string>, t: seq<string>)
    requires Sorted([h] + rest) && LexLe(h, x)
    requires Sorted(t) && multiset(t) == multiset(rest) + multiset{x}
    ensures Sorted([h] + t)
  {
    forall y | y in t
      ensures LexLe(h, y)
    {
      assert y in multiset(t);
      if y != x {
        assert y in multiset(rest);
        assert y in rest;
        var k :| 0 <= k < |rest| && rest[k] == y;
        var hr := [h] + rest;
        assert hr[0] == h && hr[k + 1] == y;
        assert LexLe(hr[0], hr[k + 1]);
      }
    }
    var r := [h] + t;
    forall i, j | 0 <= i < j < |r|
      ensures LexLe(r[i], r[j])
    {
      if i == 0 {
        assert r[j] == t[j - 1] && t[j - 1] in t;
      } else {
        assert r[i] == t[i - 1] && r[j] == t[j - 1];
      }
    }
  }

  /** sort.Strings, as an insertion sort: the result is ordered and a permutation of the input. */
  function SortStrings(s: seq<string>): (r: seq<string>)
    ensures Sorted(r)
    ensures multiset(r) == multiset(s)
    ensures |r| == |s|
  {
    if |s| == 0 then []
    else
      var init := s[..|s| - 1];
      var last := s[|s| - 1];
      var sorted := SortStrings(init);
      assert s == init + [last];
      assert multiset(s) == multiset(init) + multiset{last};
      InsertSorted(last, sorted);
      Insert(last, sorted)
  }

  lemma SortedMembers(s: seq<string>, x: string)
    ensures x in SortStrings(s) <==> x in s
  {
    var r := SortStrings(s);
    assert x in r <==> x in multiset(r);
    assert x in s <==> x in multiset(s);
  }

  // ---------------------------------------------------------------------------
  // Paths

  /** filepath.Join, without the clean-up of repeated or trailing separators. */
  function Path(parts: seq<string>): string {
    Join(parts, "/")
  }

  /** filepath.Join of a head and a non-empty rest puts one separator between them. */
  lemma PathCons(a: string, rest: seq<string>)
    requires |rest| > 0
    ensures Path([a] + rest) == a + "/" + Path(rest)
  {
    JoinCons(a, rest, "/");
  }

  /** filepath.Join of three parts, spelled out. */
  lemma PathThree(a: string, b: string, c: string)
    ensures Path([a, b, c]) == a + "/" + (b + "/" + c)
  {
    PathCons(a, [b, c]);
    PathCons(b, [c]);
  }

  // ---------------------------------------------------------------------------
  // filepath.Base

  function TrimTrailingSlashes(p: string): (r: string)
    ensures |r| <= |p| && r == p[..|r|]
    ensures r == "" || r[|r| - 1] != '/'
    ensures p != "" && p[|p| - 1] != '/' ==> r == p
  {
    if |p| > 0 && p[|p| - 1] == '/' then TrimTrailingSlashes(p[..|p| - 1]) else p
  }

  /** The last element of a path: "." for the empty path, "/" for a path of slashes only. */
  function Base(p: string): (r: string)
    ensures r != ""
  {
    if p == "" then "."
    else
      var q := TrimTrailingSlashes(p);
      var i := LastIndexOf(q, '/');
      var b := q[i + 1..];
      if b == "" then "/" else b
  }

  /** The last '/' of a concatenation is in the second part if it has one, otherwise in the first. */
  lemma {:induction false} LastIndexOfAppend(u: string, v: string, c: char)
    ensures LastIndexOf(u + v, c) == if c in v then |u| + LastIndexOf(v, c) else LastIndexOf(u, c)
    decreases |v|
  {
    if |v| == 0 {
      assert u + v == u;
    } else {
      assert (u + v)[..|u + v| - 1] == u + v[..|v| - 1];
      if v[|v| - 1] != c {
        LastIndexOfAppend(u, v[..|v| - 1], c);
        assert c in v <==> c in v[..|v| - 1] by {
          assert v == v[..|v| - 1] + [v[|v| - 1]];
        }
      }
    }
  }

  /** The base of a path below a directory is the base of the path's own tail. */
  lemma BaseBelow(dir: string, x: string)
    requires x != "" && x[|x| - 1] != '/'
    ensures Base(dir + "/" + x) == Base(x)
  {
    if '/' !in x {
      BaseBelowFlat(dir, x);
    } else {
      BaseBelowDeep(dir, x);
    }
  }

  lemma BaseBelowDeep(dir: string, x: string)
    requires x != "" && x[|x| - 1] != '/' && '/' in x
    ensures Base(dir + "/" + x) == Base(x)
  {
    BaseOfAppend(dir + "/", x);
  }

  /** A prefix in front of a path whose tail already holds a '/' does not change the base. */
  lemma BaseOfAppend(u: string, x: string)
    requires x != "" && x[|x| - 1] != '/' && '/' in x
    ensures Base(u + x) == Base(x)
  {
    var p := u + x;
    var i := LastIndexOf(x, '/');
    BaseTail(x);
    assert p[|p| - 1] == x[|x| - 1];
    BaseTail(p);
    LastIndexOfAppend(u, x, '/');
    assert LastIndexOf(p, '/') == |u| + i;
    SuffixOfAppend(u, x, i + 1);
    assert Base(p) == p[|u| + i + 1..];
  }

  /** The base of a path that does not end in '/' is what follows its last '/'. */
  lemma BaseTail(q: string)
    requires q != "" && q[|q| - 1] != '/'
    ensures Base(q) == q[LastIndexOf(q, '/') + 1..]
  {
    var i := LastIndexOf(q, '/');
    assert q[|q| - 1] in q[i + 1..];
  }

  lemma SuffixOfAppend(u: string, x: string, k: nat)
    requires k <= |x|
    ensures (u + x)[|u| + k..] == x[k..]
  {
  }

  lemma BaseBelowFlat(dir: string, x: string)
    requires x != "" && '/' !in x
    ensures LastIndexOf(dir + "/" + x, '/') == |dir| && Base(x) == x
    ensures Base(dir + "/" + x) == Base(x)
  {
    LastIndexOfAppend(dir + "/", x, '/');
    LastIndexOfAppend(dir, "/", '/');
  }

  /** Appending a slash-free suffix to a path appends it to the base. */
  lemma BaseAppend(p: string, suffix: string)
    requires p != "" && p[|p| - 1] != '/'
    requires suffix != "" && '/' !in suffix
    ensures Base(p + suffix) == Base(p) + suffix
  {
    var q := p + suffix;
    assert q[|q| - 1] == suffix[|suffix| - 1];
    LastIndexOfAppend(p, suffix, '/');
    var i := LastIndexOf(p, '/');
    assert q[i + 1..] == p[i + 1..] + suffix;
    assert p[i + 1..] != "" by {
      assert p[|p| - 1] in p[i + 1..];
    }
  }
}
