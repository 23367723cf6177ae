/** Command-line flag lists and maps (pkg/utils/flag/flag.go): a printer, a parser and an overlay. */
module Flags {
  import opened Text

  // ----- the parser -----

  function Key(flag: string, prefix: string): string {
    TrimPrefix(TrimSpace(flag[..Index(flag, '=')]), prefix)
  }

  function Value(flag: string): string {
    var i := Index(flag, '=');
    if i == |flag| then "true" else TrimSpace(flag[i + 1..])
  }

  /** What a list of flags means: later flags override earlier ones, empty strings are skipped. */
  function Parse(flags: seq<string>, prefix: string): map<string, string> {
    if flags == [] then map[]
    else
      var m := Parse(flags[..|flags| - 1], prefix);
      var flag := flags[|flags| - 1];
      if flag == "" then m else m[Key(flag, prefix) := Value(flag)]
  }

  method ToMap(flags: seq<string>, trimPrefix: string) returns (flagMap: map<string, string>)
    ensures flagMap == Parse(flags, trimPrefix)
  {
    flagMap := map[];
    for n := 0 to |flags|
      invariant flagMap == Parse(flags[..n], trimPrefix)
    {
      hide Parse, TrimSpace, TrimPrefix;
      ParseNext(flags, n, trimPrefix);
      var flag := flags[n];
      if |flag| == 0 {
        continue;
      }
      var i := Index(flag, '=');
      var k := TrimPrefix(TrimSpace(flag[..i]), trimPrefix);
      if i == |flag| {
        flagMap := flagMap[k := "true"];
      } else {
        flagMap := flagMap[k := TrimSpace(flag[i + 1..])];
      }
    }
    assert flags[..|flags|] == flags;
  }

  lemma ParseNext(flags: seq<string>, n: nat, prefix: string)
    requires n < |flags|
    ensures Parse(flags[..n + 1], prefix)
            == if flags[n] == "" then Parse(flags[..n], prefix)
                else Parse(flags[..n], prefix)[Key(flags[n], prefix) := Value(flags[n])]
  {
    hide Key, Value;
    assert flags[..n + 1][..n] == flags[..n];
  }

  /** flags[i] is the flag that decides the value of key k. */
  ghost predicate Decides(flags: seq<string>, prefix: string, k: string, i: nat) {
    i < |flags| && flags[i] != "" && Key(flags[i], prefix) == k
    && forall j :: i < j < |flags| && flags[j] != "" ==> Key(flags[j], prefix) != k
  }

  /** The parser keeps exactly the keys that occur, each with the value of its last occurrence. */
  lemma {:induction false} LastOccurrenceWins(flags: seq<string>, prefix: string, k: string)
    ensures k in Parse(flags, prefix) <==> exists i: nat :: Decides(flags, prefix, k, i)
    ensures forall i: nat :: Decides(flags, prefix, k, i) ==>
        k in Parse(flags, prefix) && Parse(flags, prefix)[k] == Value(flags[i])
  {
    hide Key, Value;
    if flags != [] {
      var n := |flags| - 1;
      if flags[n] != "" && Key(flags[n], prefix) == k {
        assert Decides(flags, prefix, k, n);
      } else {
        LastOccurrenceWins(flags[..n], prefix, k);
        forall i: nat ensures Decides(flags[..n], prefix, k, i) == Decides(flags, prefix, k, i) {
          DecidesEarlier(flags, prefix, k, i);
        }
      }
    }
  }

  lemma DecidesEarlier(flags: seq<string>, prefix: string, k: string, i: nat)
    requires flags != [] && (flags[|flags| - 1] == "" || Key(flags[|flags| - 1], prefix) != k)
    ensures Decides(flags[..|flags| - 1], prefix, k, i) == Decides(flags, prefix, k, i)
  {
    hide Key, Parse;
    var front := flags[..|flags| - 1];
    assert forall j :: 0 <= j < |front| ==> front[j] == flags[j];
    if Decides(front, prefix, k, i) {
      assert Decides(flags, prefix, k, i);
    }
    if Decides(flags, prefix, k, i) {
      assert Decides(front, prefix, k, i);
    }
  }

  /** A key all of whose occurrences carry the same value is parsed to that value. */
  lemma {:induction false} ParseAgree(flags: seq<string>, prefix: string, k: string, v: string)
    requires exists i :: 0 <= i < |flags| && flags[i] != "" && Key(flags[i], prefix) == k
    requires forall i :: 0 <= i < |flags| && flags[i] != "" && Key(flags[i], prefix) == k ==> Value(flags[i]) == v
    ensures k in Parse(flags, prefix) && Parse(flags, prefix)[k] == v
  {
    hide Key, Value;
    var n := |flags| - 1;
    var front := flags[..n];
    if flags[n] == "" || Key(flags[n], prefix) != k {
      assert forall j :: 0 <= j < n ==> front[j] == flags[j];
      ParseAgree(front, prefix, k, v);
    }
  }

  /** Nothing around the text, no separator and no prefix in it: a key as etcd knows it. */
  predicate PlainKey(k: string, prefix: string) {
    k != "" && Trimmed(k) && '=' !in k && !(prefix <= k)
  }

  /** With or without the prefix, whatever blanks stand around key and value: a flag sets that key, to that value or to
      true. */
  lemma {:induction false} FlagForms(pre: string, k: string, v: string, a: string, b: string, c: string, d: string)
    requires pre in {"", "--"} && PlainKey(k, "--") && Trimmed(v) && Blank(a) && Blank(b) && Blank(c) && Blank(d)
    ensures Parse([a + pre + k + b + "=" + c + v + d], "--") == map[k := v]
    ensures Parse([a + pre + k + b], "--") == map[k := "true"]
  {
    hide TrimSpace, TrimPrefix, Parse, Trimmed;
    var left, right := a + pre + k + b, c + v + d;
    KeyTrimmed(pre, k, a, b);
    TrimSpaceExact(c, v, d);
    assert left + "=" + right == a + pre + k + b + "=" + c + v + d;
    IndexAt(left, '=', right);
    var flag := left + "=" + right;
    assert flag[..|left|] == left && flag[|left| + 1..] == right && left[..|left|] == left;
    ParseOne(flag, "--");
    ParseOne(left, "--");
  }

  lemma {:induction false} KeyTrimmed(pre: string, k: string, a: string, b: string)
    requires pre in {"", "--"} && PlainKey(k, "--") && Blank(a) && Blank(b)
    ensures TrimPrefix(TrimSpace(a + pre + k + b), "--") == k && '=' !in a + pre + k + b && a + pre + k + b != ""
  {
    WithDashes(pre, k);
    NoSeparator(a, pre + k, b);
    hide TrimSpace, TrimPrefix, Trimmed, Blank;
    TrimSpaceExact(a, pre + k, b);
    assert a + (pre + k) + b == a + pre + k + b;
  }

  lemma {:induction false} WithDashes(pre: string, k: string)
    requires pre in {"", "--"} && PlainKey(k, "--")
    ensures Trimmed(pre + k) && '=' !in pre + k && pre + k != "" && TrimPrefix(pre + k, "--") == k
  {
    hide TrimPrefix;
    TrimPrefixExact(k, "--");
    if pre == "" {
      assert pre + k == k;
    } else {
      assert (pre + k)[0] == '-' && (pre + k)[|pre + k| - 1] == k[|k| - 1];
    }
  }

  lemma {:induction false} NoSeparator(a: string, s: string, b: string)
    requires Blank(a) && Blank(b) && '=' !in s
    ensures '=' !in a + s + b
  {
  }

  lemma {:induction false} ParseOne(flag: string, prefix: string)
    requires flag != ""
    ensures Parse([flag], prefix) == map[Key(flag, prefix) := Value(flag)]
  {
    hide Key, Value;
    assert [flag][..0] == [];
  }

  // ----- the printer -----

  function Entry(prefix: string, k: string, v: string): string {
    if v == "" then prefix + k else prefix + k + "=" + v
  }

  /** The printed form of a map: all its entries, in byte-wise order. The pick order does not matter, see
      PrintedRemove. */
  ghost function Printed(m: map<string, string>, prefix: string): (r: seq<string>)
    decreases |m|
  {
    if m == map[] then []
    else
      var k :| k in m;
      Insert(Entry(prefix, k, m[k]), Printed(m - {k}, prefix))
  }

  lemma PrintedStep(m: map<string, string>, prefix: string) returns (h: string)
    requires m != map[]
    ensures h in m && |m - {h}| < |m|
    ensures Printed(m, prefix) == Insert(Entry(prefix, h, m[h]), Printed(m - {h}, prefix))
  {
    h :| h in m && Printed(m, prefix) == Insert(Entry(prefix, h, m[h]), Printed(m - {h}, prefix));
    Smaller(m, h);
  }

  lemma Smaller(m: map<string, string>, k: string)
    requires k in m
    ensures |m - {k}| == |m| - 1
  {
    assert (m - {k}).Keys == m.Keys - {k};
  }

  lemma {:induction false} PrintedSorted(m: map<string, string>, prefix: string)
    ensures Sorted(Printed(m, prefix))
    decreases |m|
  {
    if m != map[] {
      var k := PrintedStep(m, prefix);
      PrintedSorted(m - {k}, prefix);
      InsertSorted(Entry(prefix, k, m[k]), Printed(m - {k}, prefix));
    }
  }

  /** Whichever key is taken out first, what is left to print is the same. */
  lemma {:induction false} PrintedRemove(m: map<string, string>, prefix: string, k: string)
    requires k in m
    ensures multiset(Printed(m, prefix)) == multiset(Printed(m - {k}, prefix)) + multiset{Entry(prefix, k, m[k])}
    decreases |m|
  {
    var h := PrintedStep(m, prefix);
    if h != k {
      Smaller(m, k);
      PrintedRemove(m - {h}, prefix, k);
      PrintedRemove(m - {k}, prefix, h);
      TakeBoth(m, h, k);
    }
  }

  lemma TakeBoth(m: map<string, string>, h: string, k: string)
    ensures m - {h} - {k} == m - {k} - {h}
  {
  }

  lemma {:induction false} PrintedContents(m: map<string, string>, prefix: string, x: string)
    ensures x in Printed(m, prefix) <==> exists k :: k in m && x == Entry(prefix, k, m[k])
    decreases |m|
  {
    if m != map[] {
      var h := PrintedStep(m, prefix);
      var rest := m - {h};
      PrintedContents(rest, prefix, x);
      InsertContents(Entry(prefix, h, m[h]), Printed(rest, prefix), x);
      if k :| k in m && x == Entry(prefix, k, m[k]) {
        assert k == h || (k in rest && x == Entry(prefix, k, rest[k]));
      }
      if k :| k in rest && x == Entry(prefix, k, rest[k]) {
        assert k in m && x == Entry(prefix, k, m[k]);
      }
    }
  }

  lemma InsertContents(e: string, s: seq<string>, x: string)
    ensures x in Insert(e, s) <==> x == e || x in s
  {
    assert x in Insert(e, s) <==> x in multiset(Insert(e, s));
  }

  method SortStrings(s: seq<string>) returns (r: seq<string>)
    ensures Sorted(r) && multiset(r) == multiset(s)
  {
    r := [];
    for n := 0 to |s|
      invariant Sorted(r) && multiset(r) == multiset(s[..n])
    {
      assert s[..n + 1] == s[..n] + [s[n]];
      InsertSorted(s[n], r);
      r := Insert(s[n], r);
    }
    assert s[..|s|] == s;
  }

  /** The loop takes the map's keys in any order; the sorted result does not depend on it. */
  method ToStringSlice(flagMap: map<string, string>, prefix: string) returns (flagSlice: seq<string>)
    ensures flagSlice == Printed(flagMap, prefix)
  {
    hide Printed;
    flagSlice := [];
    var rest := flagMap;
    ghost var done: multiset<string> := multiset{};
    while rest != map[]
      invariant multiset(flagSlice) == done
      invariant done + multiset(Printed(rest, prefix)) == multiset(Printed(flagMap, prefix))
      decreases |rest|
    {
      var k :| k in rest;
      var v := rest[k];
      PrintedRemove(rest, prefix, k);
      Smaller(rest, k);
      if |v| == 0 {
        flagSlice := flagSlice + [prefix + k];
      } else {
        flagSlice := flagSlice + [prefix + k + "=" + v];
      }
      done := done + multiset{Entry(prefix, k, v)};
      rest := rest - {k};
    }
    PrintedNothing(prefix);
    flagSlice := SortStrings(flagSlice);
    PrintedSorted(flagMap, prefix);
    SortedUnique(flagSlice, Printed(flagMap, prefix));
  }

  lemma PrintedNothing(prefix: string)
    ensures Printed(map[], prefix) == []
  {
  }

  // ----- the overlay -----

  ghost function Merged(base: seq<string>, extra: seq<string>, trimPrefix: string, addPrefix: string): seq<string> {
    Printed(Parse(base, trimPrefix) + Parse(extra, trimPrefix), addPrefix)
  }

  lemma OverlayStep(m: map<string, string>, rest: map<string, string>, k: string)
    requires k in rest
    ensures m[k := rest[k]] + (rest - {k}) == m + rest
  {
  }

  method Merge(base: seq<string>, extra: seq<string>, trimPrefix: string, addPrefix: string) returns (r: seq<string>)
    ensures r == Merged(base, extra, trimPrefix, addPrefix)
  {
    var flagMap := ToMap(base, trimPrefix);
    var extraFlagMap := ToMap(extra, trimPrefix);
    ghost var before := flagMap;
    var rest := extraFlagMap;
    while rest != map[]
      invariant forall k :: k in rest ==> k in extraFlagMap && extraFlagMap[k] == rest[k]
      invariant flagMap + rest == before + extraFlagMap
      decreases |rest|
    {
      var k :| k in rest;
      OverlayStep(flagMap, rest, k);
      Smaller(rest, k);
      flagMap := flagMap[k := rest[k]];
      rest := rest - {k};
    }
    assert flagMap == before + extraFlagMap;
    r := ToStringSlice(flagMap, addPrefix);
  }

  /** x is the flag for key k when now overrides before: with the prefix to be added, with the new value where there is
      one; a key without a value stands alone. */
  predicate MergedFlag(before: map<string, string>, now: map<string, string>, addPrefix: string, k: string,
                       x: string) {
    && (k in before || k in now)
    && var v := if k in now then now[k] else before[k];
       x == if v == "" then addPrefix + k else addPrefix + k + "=" + v
  }

  /** A merged list holds these flags, one for each key of either list, and no others. */
  lemma {:induction false} MergedContents(base: seq<string>, extra: seq<string>, trimPrefix: string,
                                          addPrefix: string, before: map<string, string>, now: map<string, string>,
                                          x: string)
    requires before == Parse(base, trimPrefix) && now == Parse(extra, trimPrefix)
    ensures x in Merged(base, extra, trimPrefix, addPrefix) <==> exists k :: MergedFlag(before, now, addPrefix, k, x)
  {
    hide Printed, MergedFlag, Parse;
    OverlayPrinted(before, now, addPrefix, x);
  }

  lemma {:induction false} OverlayPrinted(before: map<string, string>, now: map<string, string>, addPrefix: string,
                                          x: string)
    ensures x in Printed(before + now, addPrefix) <==> exists k :: MergedFlag(before, now, addPrefix, k, x)
  {
    hide Printed, Entry, MergedFlag;
    var all := before + now;
    PrintedContents(all, addPrefix, x);
    forall k ensures MergedFlag(before, now, addPrefix, k, x) <==> k in all && x == Entry(addPrefix, k, all[k]) {
      MergedFlagOf(before, now, addPrefix, k, x);
    }
    if x in Printed(all, addPrefix) {
      var k :| k in all && x == Entry(addPrefix, k, all[k]);
      assert MergedFlag(before, now, addPrefix, k, x);
    }
  }

  lemma MergedFlagOf(before: map<string, string>, now: map<string, string>, addPrefix: string, k: string, x: string)
    ensures var all := before + now;
            MergedFlag(before, now, addPrefix, k, x) <==> k in all && x == Entry(addPrefix, k, all[k])
  {
  }

  /** A user's flag written without dashes reaches etcd with them, and overrides what was there. */
  lemma {:induction false} PlainFlagMerged(base: seq<string>, k: string, v: string)
    requires PlainKey(k, "--") && Trimmed(v) && v != ""
    ensures "--" + k + "=" + v in Merged(base, [k + "=" + v], "--", "--")
    ensures k in Parse(Merged(base, [k + "=" + v], "--", "--"), "--")
    ensures Parse(Merged(base, [k + "=" + v], "--", "--"), "--")[k] == v
  {
    PlainFlagRead(k, v);
    hide Merged, PlainKey, Trimmed, Key, Value;
    var extra := [k + "=" + v];
    MergedContents(base, extra, "--", "--", Parse(base, "--"), map[k := v], "--" + k + "=" + v);
    assert MergedFlag(Parse(base, "--"), map[k := v], "--", k, "--" + k + "=" + v);
    DashesArePrefix();
    MergeOverlays(base, extra, "--");
    assert Normalized(Parse(base, "--") + map[k := v])[k] == v;
  }

  lemma {:induction false} PlainFlagRead(k: string, v: string)
    requires PlainKey(k, "--") && Trimmed(v)
    ensures Parse([k + "=" + v], "--") == map[k := v]
  {
    hide Parse, Trimmed, PlainKey;
    assert Blank("");
    FlagForms("", k, v, "", "", "", "");
    assert "" + "" + k + "" + "=" + "" + v + "" == k + "=" + v;
  }

  lemma DashesArePrefix()
    ensures IsFlagPrefix("--")
  {
  }

  /** The two examples in the comment on Merge. */
  lemma {:induction false} MergeExamples()
    ensures Merged(["a=1"], ["--b=2"], "--", "--") == ["--a=1", "--b=2"]
    ensures Merged(["--a=1"], ["b=2"], "--", "") == ["a=1", "b=2"]
  {
    FormsOfExamples();
    hide Parse, Printed;
    TwoPrinted("--");
    TwoPrinted("");
    assert map["a" := "1"] + map["b" := "2"] == map["a" := "1", "b" := "2"];
    assert "--" + "a=1" == "--a=1" && "--" + "b=2" == "--b=2" && "" + "a=1" == "a=1" && "" + "b=2" == "b=2";
  }

  lemma {:induction false} FormsOfExamples()
    ensures Parse(["a=1"], "--") == Parse(["--a=1"], "--") == map["a" := "1"]
    ensures Parse(["b=2"], "--") == Parse(["--b=2"], "--") == map["b" := "2"]
  {
    hide Parse;
    FlagForms("", "a", "1", "", "", "", "");
    FlagForms("--", "a", "1", "", "", "", "");
    FlagForms("", "b", "2", "", "", "", "");
    FlagForms("--", "b", "2", "", "", "", "");
    assert "" + "" + "a" + "" + "=" + "" + "1" + "" == "a=1" && "" + "--" + "a" + "" + "=" + "" + "1" + "" == "--a=1";
    assert "" + "" + "b" + "" + "=" + "" + "2" + "" == "b=2" && "" + "--" + "b" + "" + "=" + "" + "2" + "" == "--b=2";
  }

  lemma {:induction false} TwoPrinted(prefix: string)
    ensures Printed(map["a" := "1", "b" := "2"], prefix) == [prefix + "a=1", prefix + "b=2"]
  {
    hide Printed;
    var m := map["a" := "1", "b" := "2"];
    PrintedRemove(m, prefix, "a");
    assert m - {"a"} == map["b" := "2"];
    PrintedRemove(m - {"a"}, prefix, "b");
    assert m - {"a"} - {"b"} == map[];
    PrintedNothing(prefix);
    var list := [prefix + "a=1", prefix + "b=2"];
    assert prefix + "a" + "=" + "1" == prefix + "a=1" && prefix + "b" + "=" + "2" == prefix + "b=2";
    LessPrefix(prefix, "a=1", "b=2");
    assert Sorted(list);
    PrintedSorted(m, prefix);
    assert multiset(list) == multiset(Printed(m, prefix));
    SortedUnique(list, Printed(m, prefix));
  }

  // ----- printer and parser undo each other -----

  /** A prefix such as "--": printing with it and parsing with it agree. */
  predicate IsFlagPrefix(p: string) {
    p != "" && '=' !in p && Trimmed(p)
  }

  /** Exactly the maps the parser can return, see ParsePrintable and PrintableParsed. */
  ghost predicate Printable(m: map<string, string>) {
    forall k :: k in m ==> '=' !in k && EndsClean(k) && Trimmed(m[k])
  }

  function Normal(v: string): string {
    if v == "" then "true" else v
  }

  ghost function Normalized(m: map<string, string>): map<string, string> {
    map k | k in m :: Normal(m[k])
  }

  lemma {:induction false} ParsePrintable(flags: seq<string>, prefix: string)
    ensures Printable(Parse(flags, prefix))
  {
    if flags != [] {
      ParsePrintable(flags[..|flags| - 1], prefix);
      var flag := flags[|flags| - 1];
      assert '=' !in flag[..Index(flag, '=')];
      assert Trimmed("true");
    }
  }

  lemma ParseAppend(front: seq<string>, flag: string, p: string)
    requires flag != ""
    ensures Parse(front + [flag], p) == Parse(front, p)[Key(flag, p) := Value(flag)]
  {
    hide Key, Value;
    assert (front + [flag])[..|front|] == front;
  }

  lemma PutBack(m: map<string, string>, k: string)
    requires k in m
    ensures m == (m - {k})[k := m[k]]
  {
  }

  lemma ExplicitParsed(p: string, k: string, v: string)
    requires IsFlagPrefix(p) && '=' !in k && EndsClean(k) && Trimmed(v)
    ensures var e := p + k + "=" + v; e != "" && Key(e, p) == k && Value(e) == v
  {
    IndexAt(p + k, '=', v);
    var e := p + k + "=" + v;
    assert Trimmed(p + k);
    assert e[..|p + k|] == p + k && e[|p + k| + 1..] == v;
  }

  lemma {:induction false} PrintableParsed(m: map<string, string>, p: string) returns (flags: seq<string>)
    requires IsFlagPrefix(p) && Printable(m)
    ensures Parse(flags, p) == m
    decreases |m|
  {
    flags := [];
    if m != map[] {
      var k :| k in m;
      var front := PrintableParsed(m - {k}, p);
      var flag := p + k + "=" + m[k];
      flags := front + [flag];
      ExplicitParsed(p, k, m[k]);
      ParseAppend(front, flag, p);
      PutBack(m, k);
    }
  }

  lemma EntryParsed(p: string, k: string, v: string)
    requires IsFlagPrefix(p) && '=' !in k && EndsClean(k) && Trimmed(v)
    ensures var e := Entry(p, k, v); e != "" && Key(e, p) == k && Value(e) == Normal(v)
  {
    if v == "" {
      IndexAt(p + k, '=', v);
      assert (p + k)[..|p + k|] == p + k && Trimmed(p + k);
    } else {
      ExplicitParsed(p, k, v);
    }
  }

  lemma EntryInjective(p: string, k: string, v: string, k': string, v': string)
    requires IsFlagPrefix(p) && '=' !in k && '=' !in k'
    requires Entry(p, k, v) == Entry(p, k', v')
    ensures k == k' && v == v'
  {
    IndexAt(p + k, '=', v);
    IndexAt(p + k', '=', v');
    var e := Entry(p, k, v);
    assert Index(e, '=') == |p + k| == |p + k'|;
    assert e[|p|..|p + k|] == k && e[|p|..|p + k'|] == k';
    assert v != "" ==> e[|p + k| + 1..] == v;
    assert v' != "" ==> e[|p + k'| + 1..] == v';
    assert v == "" <==> |e| == |p + k|;
    assert v' == "" <==> |e| == |p + k'|;
  }

  /** Parsing what was printed gives the map back, with empty values turned into "true". */
  lemma PrintParse(m: map<string, string>, p: string)
    requires IsFlagPrefix(p) && Printable(m)
    ensures Parse(Printed(m, p), p) == Normalized(m)
    ensures Parse(Printed(m, p), p) == m <==> forall k :: k in m ==> m[k] != ""
  {
    hide Key, Value, Printed, Trimmed;
    var back := Parse(Printed(m, p), p);
    forall k ensures k in back <==> k in m {
      if k in m {
        PrintedValue(m, p, k);
      } else {
        PrintedKeys(m, p, k);
      }
    }
    forall k | k in m ensures back[k] == Normal(m[k]) {
      PrintedValue(m, p, k);
    }
    assert back == Normalized(m);
    if back == m {
      forall k | k in m ensures m[k] != "" {
        assert m[k] == Normalized(m)[k];
      }
    }
  }

  lemma PrintedKeys(m: map<string, string>, p: string, k: string)
    requires IsFlagPrefix(p) && Printable(m) && k !in m
    ensures k !in Parse(Printed(m, p), p)
  {
    var out := Printed(m, p);
    LastOccurrenceWins(out, p, k);
    if i: nat :| Decides(out, p, k, i) {
      PrintedContents(m, p, out[i]);
      var h :| h in m && out[i] == Entry(p, h, m[h]);
      EntryParsed(p, h, m[h]);
      assert false;
    }
  }

  lemma PrintedValue(m: map<string, string>, p: string, k: string)
    requires IsFlagPrefix(p) && Printable(m) && k in m
    ensures k in Parse(Printed(m, p), p) && Parse(Printed(m, p), p)[k] == Normal(m[k])
  {
    var out := Printed(m, p);
    PrintedContents(m, p, Entry(p, k, m[k]));
    EntryParsed(p, k, m[k]);
    forall i | 0 <= i < |out| && out[i] != "" && Key(out[i], p) == k ensures Value(out[i]) == Normal(m[k]) {
      PrintedContents(m, p, out[i]);
      var h :| h in m && out[i] == Entry(p, h, m[h]);
      EntryParsed(p, h, m[h]);
    }
    ParseAgree(out, p, k, Normal(m[k]));
  }

  /** Different maps print differently. */
  lemma PrintedInjective(m: map<string, string>, n: map<string, string>, p: string)
    requires IsFlagPrefix(p) && Printable(m) && Printable(n)
    requires Printed(m, p) == Printed(n, p)
    ensures m == n
  {
    PrintedSubset(m, n, p);
    PrintedSubset(n, m, p);
  }

  lemma PrintedSubset(m: map<string, string>, n: map<string, string>, p: string)
    requires IsFlagPrefix(p) && Printable(m) && Printable(n)
    requires Printed(m, p) == Printed(n, p)
    ensures forall k :: k in m ==> k in n && m[k] == n[k]
  {
    forall k | k in m ensures k in n && m[k] == n[k] {
      var e := Entry(p, k, m[k]);
      PrintedContents(m, p, e);
      PrintedContents(n, p, e);
      var h :| h in n && e == Entry(p, h, n[h]);
      EntryInjective(p, k, m[k], h, n[h]);
    }
  }

  // ----- laws of the overlay -----

  /** A merged list means the base flags overridden by the new ones, and is sorted. */
  lemma MergeOverlays(base: seq<string>, extra: seq<string>, p: string)
    requires IsFlagPrefix(p)
    ensures Parse(Merged(base, extra, p, p), p) == Normalized(Parse(base, p) + Parse(extra, p))
    ensures Sorted(Merged(base, extra, p, p))
  {
    ParsePrintable(base, p);
    ParsePrintable(extra, p);
    PrintParse(Parse(base, p) + Parse(extra, p), p);
    PrintedSorted(Parse(base, p) + Parse(extra, p), p);
  }

  /** Merging the same new flags again changes nothing exactly when every base flag they do not override has a value. */
  lemma MergeIdempotent(base: seq<string>, extra: seq<string>, p: string)
    requires IsFlagPrefix(p)
    ensures var once := Merged(base, extra, p, p);
            Merged(once, extra, p, p) == once <==> forall k :: k in Parse(base, p) && k !in Parse(extra, p) ==>
                Parse(base, p)[k] != ""
  {
    hide Parse, Printed, Normalized;
    var o, n := Parse(base, p), Parse(extra, p);
    ParsePrintable(base, p);
    ParsePrintable(extra, p);
    MergeOverlays(base, extra, p);
    ParsePrintable(Merged(base, extra, p, p), p);
    var again := Normalized(o + n) + n;
    if Printed(again, p) == Printed(o + n, p) {
      PrintedInjective(again, o + n, p);
    }
    OverlaySettles(o, n);
  }

  lemma OverlaySettles(o: map<string, string>, n: map<string, string>)
    ensures Normalized(o + n) + n == o + n <==> forall k :: k in o && k !in n ==> o[k] != ""
  {
    var once, again := o + n, Normalized(o + n) + n;
    assert again.Keys == once.Keys;
    if again == once {
      forall k | k in o && k !in n ensures o[k] != "" {
        assert again[k] == once[k];
      }
    }
  }

  /** Merging is associative exactly when the last list, and whatever of the first survives, has no empty value. */
  lemma MergeAssociative(a: seq<string>, b: seq<string>, c: seq<string>, p: string)
    requires IsFlagPrefix(p)
    ensures Merged(Merged(a, b, p, p), c, p, p) == Merged(a, Merged(b, c, p, p), p, p)
            <==> && (forall k :: k in Parse(c, p) ==> Parse(c, p)[k] != "")
                 && (forall k :: k in Parse(a, p) && k !in Parse(b, p) && k !in Parse(c, p) ==> Parse(a, p)[k] != "")
  {
    hide Parse, Printed, Normalized;
    var x, y, z := Parse(a, p), Parse(b, p), Parse(c, p);
    ParsePrintable(a, p);
    ParsePrintable(b, p);
    ParsePrintable(c, p);
    MergeOverlays(a, b, p);
    MergeOverlays(b, c, p);
    ParsePrintable(Merged(a, b, p, p), p);
    ParsePrintable(Merged(b, c, p, p), p);
    var left, right := Normalized(x + y) + z, x + Normalized(y + z);
    if Printed(left, p) == Printed(right, p) {
      PrintedInjective(left, right, p);
    }
    OverlaysAgree(x, y, z);
  }

  lemma OverlaysAgree(x: map<string, string>, y: map<string, string>, z: map<string, string>)
    ensures Normalized(x + y) + z == x + Normalized(y + z)
            <==> && (forall k :: k in z ==> z[k] != "")
                 && (forall k :: k in x && k !in y && k !in z ==> x[k] != "")
  {
    var left, right := Normalized(x + y) + z, x + Normalized(y + z);
    OverlayKeys(x, y, z);
    forall k | k in left
      ensures k in right
      ensures left[k] == right[k] <==> (k in z ==> z[k] != "") && (k in x && k !in y && k !in z ==> x[k] != "")
    {
      OverlayAt(x, y, z, k);
    }
    hide Normalized;
    assert left == right <==> forall k :: k in left ==> left[k] == right[k];
  }

  lemma OverlayKeys(x: map<string, string>, y: map<string, string>, z: map<string, string>)
    ensures (Normalized(x + y) + z).Keys == (x + Normalized(y + z)).Keys == x.Keys + y.Keys + z.Keys
  {
  }

  lemma OverlayAt(x: map<string, string>, y: map<string, string>, z: map<string, string>, k: string)
    requires k in x || k in y || k in z
    ensures var left, right := Normalized(x + y) + z, x + Normalized(y + z);
            && k in left && k in right
            && (left[k] == right[k] <==> (k in z ==> z[k] != "") && (k in x && k !in y && k !in z ==> x[k] != ""))
  {
    if k in z {
      assert (y + z)[k] == z[k];
    } else if k in y {
      assert (y + z)[k] == y[k] && (x + y)[k] == y[k];
    } else {
      assert (x + y)[k] == x[k];
    }
  }
}
