/** Strings as the operator handles them: decimal ordinals, byte-wise order,
    whitespace trimming, prefixes, and splitting at a separator. */
module Text {

  // ----- decimal ordinals (fmt.Sprint, %d) -----

  function Digit(d: nat): (c: char)
    requires d < 10
  {
    (48 + d) as char
  }

  function Decimal(n: nat): (s: string)
    ensures |s| > 0
    ensures forall c :: c in s ==> '0' <= c <= '9'
  {
    if n < 10 then [Digit(n)] else Decimal(n / 10) + [Digit(n % 10)]
  }

  lemma {:induction false} DecimalInjective(m: nat, n: nat)
    requires Decimal(m) == Decimal(n)
    ensures m == n
  {
    var s, t := Decimal(m), Decimal(n);
    assert s[|s| - 1] == t[|t| - 1];
    assert (|s| == 1 <==> m < 10) && (|t| == 1 <==> n < 10);
    if m >= 10 && n >= 10 {
      assert s[..|s| - 1] == Decimal(m / 10);
      assert t[..|t| - 1] == Decimal(n / 10);
      DecimalInjective(m / 10, n / 10);
    }
  }

  /** A numbered name keeps its number: equal names around the same prefix and suffix have equal numbers. */
  lemma NumberedInjective(pre: string, m: nat, n: nat, post: string)
    requires pre + Decimal(m) + post == pre + Decimal(n) + post
    ensures m == n
  {
    var s, t := pre + Decimal(m) + post, pre + Decimal(n) + post;
    assert |Decimal(m)| == |Decimal(n)|;
    assert s[|pre|..|pre| + |Decimal(m)|] == Decimal(m);
    assert t[|pre|..|pre| + |Decimal(n)|] == Decimal(n);
    DecimalInjective(m, n);
  }

  // ----- strings.Compare, sort.Strings -----

  predicate Less(a: string, b: string) {
    b != "" && (a == "" || a[0] < b[0] || (a[0] == b[0] && Less(a[1..], b[1..])))
  }

  predicate AtMost(a: string, b: string) {
    a == b || Less(a, b)
  }

  /** The order of dictionaries: at the first difference the smaller character decides, and a proper prefix comes
      first. */
  lemma {:induction false} LessIsLexicographic(a: string, b: string)
    ensures Less(a, b) <==> exists k: nat :: FirstDifference(a, b, k) && (k == |a| || (k < |b| && a[k] < b[k]))
  {
    if a != "" && b != "" && a[0] == b[0] {
      LessIsLexicographic(a[1..], b[1..]);
      forall k: nat ensures FirstDifference(a[1..], b[1..], k) <==> FirstDifference(a, b, k + 1) {
        DifferenceLater(a, b, k);
      }
      if Less(a, b) {
        var k: nat :| FirstDifference(a[1..], b[1..], k)
          && (k == |a[1..]| || (k < |b[1..]| && a[1..][k] < b[1..][k]));
        assert FirstDifference(a, b, k + 1);
      }
      if k: nat :| FirstDifference(a, b, k) && (k == |a| || (k < |b| && a[k] < b[k])) {
        assert k > 0;
        assert FirstDifference(a[1..], b[1..], k - 1);
      }
    } else {
      assert FirstDifference(a, b, 0) <==> a != b;
      forall k: nat ensures FirstDifference(a, b, k) ==> k == 0 {
        if 0 < k <= |a| && k <= |b| {
          assert a[..k][0] == a[0] && b[..k][0] == b[0];
        }
      }
    }
  }

  /** a and b agree in their first k characters and no further. */
  predicate FirstDifference(a: string, b: string, k: nat) {
    k <= |a| && k <= |b| && a[..k] == b[..k] && a != b && (k < |a| && k < |b| ==> a[k] != b[k])
  }

  lemma {:induction false} DifferenceLater(a: string, b: string, k: nat)
    requires a != "" && b != "" && a[0] == b[0]
    ensures FirstDifference(a[1..], b[1..], k) <==> FirstDifference(a, b, k + 1)
  {
    assert a == [a[0]] + a[1..] && b == [b[0]] + b[1..];
    if k < |a| && k < |b| {
      assert a[..k + 1] == [a[0]] + a[1..][..k] && b[..k + 1] == [b[0]] + b[1..][..k];
      assert a[..k + 1] == b[..k + 1] <==> a[1..][..k] == b[1..][..k] by {
        assert a[..k + 1][1..] == a[1..][..k] && b[..k + 1][1..] == b[1..][..k];
      }
    }
  }

  lemma LessIrreflexive(a: string)
    ensures !Less(a, a)
  {
  }

  lemma {:induction false} LessTransitive(a: string, b: string, c: string)
    requires Less(a, b) && Less(b, c)
    ensures Less(a, c)
  {
    if a != "" && a[0] == b[0] == c[0] {
      LessTransitive(a[1..], b[1..], c[1..]);
    }
  }

  lemma {:induction false} LessTotal(a: string, b: string)
    ensures a == b || Less(a, b) || Less(b, a)
  {
    if a != "" && b != "" && a[0] == b[0] {
      LessTotal(a[1..], b[1..]);
      assert a == [a[0]] + a[1..] && b == [b[0]] + b[1..];
    }
  }

  /** A common prefix does not influence the order. */
  lemma {:induction false} LessPrefix(p: string, a: string, b: string)
    ensures Less(p + a, p + b) == Less(a, b)
  {
    if p == "" {
      assert p + a == a && p + b == b;
    } else {
      assert (p + a)[1..] == p[1..] + a && (p + b)[1..] == p[1..] + b;
      LessPrefix(p[1..], a, b);
    }
  }

  ghost predicate Sorted(s: seq<string>) {
    forall i, j :: 0 <= i < j < |s| ==> AtMost(s[i], s[j])
  }

  function Insert(x: string, s: seq<string>): (r: seq<string>)
    ensures multiset(r) == multiset(s) + multiset{x}
  {
    if s == [] then [x]
    else
      assert s == [s[0]] + s[1..];
      if AtMost(x, s[0]) then [x] + s else [s[0]] + Insert(x, s[1..])
  }

  lemma {:induction false} InsertSorted(x: string, s: seq<string>)
    requires Sorted(s)
    ensures Sorted(Insert(x, s))
  {
    if s != [] {
      var r := Insert(x, s);
      if AtMost(x, s[0]) {
        forall j | 0 <= j < |s| ensures AtMost(x, s[j]) {
          if j > 0 && x != s[0] && s[0] != s[j] { LessTransitive(x, s[0], s[j]); }
        }
      } else {
        InsertSorted(x, s[1..]);
        LessTotal(x, s[0]);
        var t := Insert(x, s[1..]);
        forall j | 0 <= j < |t| ensures AtMost(s[0], t[j]) {
          assert t[j] in multiset(t);
          assert t[j] == x || t[j] in s[1..];
        }
      }
    }
  }

  /** There is one sorted arrangement of a multiset of strings. */
  lemma {:induction false} SortedUnique(a: seq<string>, b: seq<string>)
    requires Sorted(a) && Sorted(b)
    requires multiset(a) == multiset(b)
    ensures a == b
  {
    assert |a| == |multiset(a)| == |multiset(b)| == |b|;
    if a != [] {
      SortedHead(a, b);
      TailMultiset(a);
      TailMultiset(b);
      SortedUnique(a[1..], b[1..]);
      assert a == [a[0]] + a[1..] && b == [b[0]] + b[1..];
    }
  }

  lemma TailMultiset(a: seq<string>)
    requires a != []
    ensures multiset(a[1..]) == multiset(a) - multiset{a[0]}
  {
    assert a == [a[0]] + a[1..];
  }

  lemma SortedHead(a: seq<string>, b: seq<string>)
    requires Sorted(a) && Sorted(b) && a != [] && b != []
    requires multiset(a) == multiset(b)
    ensures a[0] == b[0]
  {
    assert a[0] in multiset(a) && b[0] in multiset(b);
    var i :| 0 <= i < |b| && b[i] == a[0];
    var j :| 0 <= j < |a| && a[j] == b[0];
    assert AtMost(b[0], a[0]) && AtMost(a[0], b[0]);
    if Less(a[0], b[0]) && Less(b[0], a[0]) {
      LessTransitive(a[0], b[0], a[0]);
      LessIrreflexive(a[0]);
    }
  }

  // ----- strings.TrimSpace, strings.TrimPrefix -----

  /** unicode.IsSpace */
  predicate IsSpace(c: char) {
    var n := c as int;
    9 <= n <= 13 || n == 0x20 || n == 0x85 || n == 0xA0 || n == 0x1680 || 0x2000 <= n <= 0x200A
    || n == 0x2028 || n == 0x2029 || n == 0x202F || n == 0x205F || n == 0x3000
  }

  predicate StartsClean(s: string) {
    s != "" ==> !IsSpace(s[0])
  }

  predicate EndsClean(s: string) {
    s != "" ==> !IsSpace(s[|s| - 1])
  }

  predicate Trimmed(s: string) {
    StartsClean(s) && EndsClean(s)
  }

  function TrimLeft(s: string): (r: string)
    ensures StartsClean(r)
    ensures EndsClean(s) ==> EndsClean(r)
    ensures StartsClean(s) ==> r == s
    ensures forall c :: c in r ==> c in s
  {
    if s != "" && IsSpace(s[0]) then TrimLeft(s[1..]) else s
  }

  function TrimRight(s: string): (r: string)
    ensures EndsClean(r)
    ensures StartsClean(s) ==> StartsClean(r)
    ensures EndsClean(s) ==> r == s
    ensures forall c :: c in r ==> c in s
  {
    if s != "" && IsSpace(s[|s| - 1]) then TrimRight(s[..|s| - 1]) else s
  }

  function TrimSpace(s: string): (r: string)
    ensures Trimmed(r)
    ensures Trimmed(s) ==> r == s
    ensures forall c :: c in r ==> c in s
  {
    TrimLeft(TrimRight(s))
  }

  function TrimPrefix(s: string, p: string): (r: string)
    ensures EndsClean(s) ==> EndsClean(r)
    ensures forall c :: c in r ==> c in s
  {
    if p <= s then s[|p|..] else s
  }

  /** Spaces, tabs and line ends, which is what people put around a flag. */
  predicate Blank(s: string) {
    forall c :: c in s ==> c == ' ' || c == '\t' || c == '\n' || c == '\r'
  }

  /** Trimming takes off what surrounds a text, and nothing of the text. */
  lemma {:induction false} TrimSpaceExact(a: string, s: string, b: string)
    requires Blank(a) && Blank(b) && Trimmed(s)
    ensures TrimSpace(a + s + b) == s
  {
    if s == "" {
      assert a + s + b == a + b;
      TrimRightBlank("", a + b);
      assert "" + (a + b) == a + b;
    } else {
      assert a + s + b == (a + s) + b;
      TrimRightBlank(a + s, b);
      assert (a + s)[|a + s| - 1] == s[|s| - 1];
      TrimLeftBlank(a, s);
    }
  }

  lemma {:induction false} TrimRightBlank(s: string, b: string)
    requires Blank(b) && EndsClean(s)
    ensures TrimRight(s + b) == s
  {
    if b == "" {
      assert s + b == s;
    } else {
      var front := b[..|b| - 1];
      assert (s + b)[..|s + b| - 1] == s + front;
      assert b[|b| - 1] in b && (s + b)[|s + b| - 1] == b[|b| - 1];
      assert forall c :: c in front ==> c in b;
      TrimRightBlank(s, front);
    }
  }

  lemma {:induction false} TrimLeftBlank(a: string, s: string)
    requires Blank(a) && StartsClean(s)
    ensures TrimLeft(a + s) == s
  {
    if a == "" {
      assert a + s == s;
    } else {
      assert (a + s)[1..] == a[1..] + s && a[0] in a && forall c :: c in a[1..] ==> c in a;
      TrimLeftBlank(a[1..], s);
    }
  }

  /** The prefix is taken off where it is, and nothing is where it is not. */
  lemma {:induction false} TrimPrefixExact(s: string, p: string)
    ensures TrimPrefix(p + s, p) == s
    ensures !(p <= s) ==> TrimPrefix(s, p) == s
  {
    assert (p + s)[|p|..] == s;
  }

  // ----- strings.SplitN(s, sep, 2), strings.Split, strings.Join -----

  /** Position of the first c, or |s| when there is none. */
  function Index(s: string, c: char): (i: nat)
    ensures i <= |s|
    ensures c !in s[..i]
    ensures i < |s| ==> s[i] == c
  {
    if s == "" then 0
    else if s[0] == c then 0
    else
      var i := Index(s[1..], c);
      assert s[..i + 1] == [s[0]] + s[1..][..i];
      i + 1
  }

  lemma {:induction false} IndexAt(a: string, c: char, b: string)
    requires c !in a
    ensures Index(a + [c] + b, c) == |a|
    ensures Index(a, c) == |a|
  {
    if a != "" {
      assert (a + [c] + b)[1..] == a[1..] + [c] + b;
      IndexAt(a[1..], c, b);
    }
  }

  function Split(s: string, c: char): (fields: seq<string>)
    ensures |fields| > 0
    decreases |s|
  {
    var i := Index(s, c);
    if i == |s| then [s] else [s[..i]] + Split(s[i + 1..], c)
  }

  function Join(parts: seq<string>, sep: string): string {
    if parts == [] then ""
    else if |parts| == 1 then parts[0]
    else Join(parts[..|parts| - 1], sep) + sep + parts[|parts| - 1]
  }

  /** Splitting undoes joining when no part holds the separator. */
  lemma {:induction false} SplitJoin(parts: seq<string>, c: char)
    requires parts != []
    requires forall p :: p in parts ==> c !in p
    ensures Split(Join(parts, [c]), c) == parts
  {
    hide Split;
    var last := parts[|parts| - 1];
    if |parts| == 1 {
      SplitAt(last, c, "");
      assert parts == [last];
    } else {
      var front := parts[..|parts| - 1];
      SplitJoin(front, c);
      SplitAppend(Join(front, [c]), c, last);
      assert parts == front + [last];
    }
  }

  /** The first separator ends the first field. */
  lemma {:induction false} SplitAt(a: string, c: char, b: string)
    requires c !in a
    ensures Split(a + [c] + b, c) == [a] + Split(b, c)
    ensures Split(a, c) == [a]
  {
    IndexAt(a, c, b);
    var s := a + [c] + b;
    assert s[..|a|] == a && s[|a| + 1..] == b;
  }

  lemma {:induction false} SplitAppend(pre: string, c: char, last: string)
    requires c !in last
    ensures Split(pre + [c] + last, c) == Split(pre, c) + [last]
    decreases |pre|
  {
    SplitAt(last, c, "");
    var i := Index(pre, c);
    var first := pre[..i];
    if i == |pre| {
      assert first == pre;
      SplitAt(pre, c, last);
    } else {
      var rest := pre[i + 1..];
      assert pre == first + [c] + rest;
      assert pre + [c] + last == first + [c] + (rest + [c] + last);
      SplitAt(first, c, rest);
      SplitAt(first, c, rest + [c] + last);
      SplitAppend(rest, c, last);
      assert [first] + (Split(rest, c) + [last]) == ([first] + Split(rest, c)) + [last];
    }
  }
}
