/**
 * The dashboard's figures (`useDashboardData`): the four totals, the
 * "last 30 days" counts, and the count-by-key charts for categories, age
 * ranges, roles and generation months.
 *
 * Each chart is built as in the source: a loop counts the keys in a
 * dictionary, the dictionary's entries are listed, and every entry becomes
 * a `{ name, value }` pair. `Object.entries` lists the keys in an order the
 * model does not fix, so the charts are specified by their contents.
 */
module Dashboard {
  import opened Schema
  import opened Text
  import Seqs

  /** One bar or slice of a chart. */
  datatype ChartData = ChartData(name: string, value: nat)

  datatype Metrics = Metrics(totalUsers: nat, totalTemplates: nat, totalZones: nat, totalPdfsGenerated: nat)

  /** The creation date of a generated PDF, as `getFullYear()` and `getMonth()` (0 to 11) give it. */
  datatype PdfDate = PdfDate(year: int, month: int)

  /** Thirty days in milliseconds. */
  const ThirtyDaysMs: int := 30 * 24 * 60 * 60 * 1000

  /** The totals: users, templates, zones of all templates together, generated PDFs. */
  function ComputeMetrics<P>(users: seq<UserRecord>, templates: seq<Template>,
                             zonesPerTemplate: seq<seq<Zone>>, pdfs: seq<P>): (m: Metrics)
    ensures m.totalUsers == |users| && m.totalTemplates == |templates|
    ensures m.totalZones == Seqs.SumLengths(zonesPerTemplate)
    ensures m.totalPdfsGenerated == |pdfs|
  {
    Metrics(|users|, |templates|, |Seqs.Flatten(zonesPerTemplate)|, |pdfs|)
  }

  /** How many creation times lie strictly after `now` minus thirty days. */
  function RecentCount(createdAt: seq<int>, now: int): (r: nat)
    ensures r == Seqs.CountIf(createdAt, (t: int) => t > now - ThirtyDaysMs)
    ensures r <= |createdAt|
    ensures (forall i :: 0 <= i < |createdAt| ==> createdAt[i] > now - ThirtyDaysMs) ==> r == |createdAt|
    ensures (forall i :: 0 <= i < |createdAt| ==> createdAt[i] <= now - ThirtyDaysMs) ==> r == 0
  {
    var recent := Seqs.Filter(createdAt, (t: int) => t > now - ThirtyDaysMs);
    if forall i :: 0 <= i < |createdAt| ==> createdAt[i] > now - ThirtyDaysMs then
      Seqs.FilterAll(createdAt, (t: int) => t > now - ThirtyDaysMs);
      |recent|
    else
      |recent|
  }

  // ---------------------------------------------------------------------------
  // Counting
  // ---------------------------------------------------------------------------

  /** The `forEach` loop: how often each key occurs. */
  method CountBy(keys: seq<string>) returns (counts: map<string, nat>)
    ensures forall k :: k in counts <==> k in keys
    ensures forall k :: k in counts ==> counts[k] == multiset(keys)[k]
  {
    counts := map[];
    var i := 0;
    while i < |keys|
      invariant 0 <= i <= |keys|
      invariant forall k :: k in counts <==> k in keys[..i]
      invariant forall k :: k in counts ==> counts[k] == multiset(keys[..i])[k]
    {
      var k := keys[i];
      var c := if k in counts then counts[k] else 0;
      counts := counts[k := c + 1];
      assert keys[..i + 1] == keys[..i] + [k];
      i := i + 1;
    }
    assert keys[..|keys|] == keys;
  }

  /** `Object.entries(counts)`: every key once, with its count, in some order. */
  method Entries(counts: map<string, nat>) returns (es: seq<(string, nat)>)
    ensures forall i :: 0 <= i < |es| ==> es[i].0 in counts && es[i].1 == counts[es[i].0]
    ensures forall k :: k in counts ==> exists i :: 0 <= i < |es| && es[i].0 == k
    ensures forall i, j :: 0 <= i < j < |es| ==> es[i].0 != es[j].0
  {
    es := [];
    var rest := counts.Keys;
    while rest != {}
      invariant rest <= counts.Keys
      invariant forall i :: 0 <= i < |es| ==> es[i].0 in counts && es[i].0 !in rest && es[i].1 == counts[es[i].0]
      invariant forall k :: k in counts ==> k in rest || exists i :: 0 <= i < |es| && es[i].0 == k
      invariant forall i, j :: 0 <= i < j < |es| ==> es[i].0 != es[j].0
      decreases |rest|
    {
      var k :| k in rest;
      ghost var prev := es;
      es := es + [(k, counts[k])];
      rest := rest - {k};
      assert es[|es| - 1].0 == k;
      assert forall i :: 0 <= i < |prev| ==> es[i] == prev[i];
    }
  }

  /** The `{ name, value }` pairs of the entries. */
  function ToChart(es: seq<(string, nat)>): (r: seq<ChartData>)
    ensures |r| == |es|
    ensures forall i :: 0 <= i < |es| ==> r[i] == ChartData(es[i].0, es[i].1)
  {
    seq(|es|, i requires 0 <= i < |es| => ChartData(es[i].0, es[i].1))
  }

  /**
   * `r` is a count of `keys`: one pair per distinct key, each carrying how
   * often its key occurs.
   */
  predicate CountsOf(r: seq<ChartData>, keys: seq<string>) {
    (forall i :: 0 <= i < |r| ==> r[i].name in keys && r[i].value == multiset(keys)[r[i].name])
    && (forall j :: 0 <= j < |keys| ==> keys[j] in Names(r))
    && Seqs.Distinct(Names(r))
  }

  /** `es` lists every key of `keys` once, with its number of occurrences. */
  predicate EntriesOf(es: seq<(string, nat)>, keys: seq<string>) {
    (forall i :: 0 <= i < |es| ==> es[i].0 in keys && es[i].1 == multiset(keys)[es[i].0])
    && (forall j :: 0 <= j < |keys| ==> keys[j] in KeysOf(es))
    && DistinctKeys(es)
  }

  function KeysOf(es: seq<(string, nat)>): (ks: seq<string>)
    ensures |ks| == |es| && forall i :: 0 <= i < |es| ==> ks[i] == es[i].0
  {
    seq(|es|, i requires 0 <= i < |es| => es[i].0)
  }

  predicate DistinctKeys(s: seq<(string, nat)>) {
    forall i, j :: 0 <= i < j < |s| ==> s[i].0 != s[j].0
  }

  /** The dictionary building and the entry listing together list the keys with their counts. */
  method CountEntries(keys: seq<string>) returns (es: seq<(string, nat)>)
    ensures EntriesOf(es, keys)
  {
    var counts := CountBy(keys);
    es := Entries(counts);
    forall j | 0 <= j < |keys| ensures keys[j] in KeysOf(es) {
      assert keys[j] in counts;
      var i :| 0 <= i < |es| && es[i].0 == keys[j];
      assert KeysOf(es)[i] == keys[j];
    }
  }

  /** The pairs of a listing of the keys with their counts are a count of the keys. */
  lemma EntriesChart(es: seq<(string, nat)>, keys: seq<string>)
    requires EntriesOf(es, keys)
    ensures CountsOf(ToChart(es), keys)
  {
    var r := ToChart(es);
    forall j | 0 <= j < |keys| ensures keys[j] in Names(r) {
      var i :| 0 <= i < |es| && KeysOf(es)[i] == keys[j];
      assert Names(r)[i] == keys[j];
    }
    assert Seqs.Distinct(Names(r)) by {
      forall a, b | 0 <= a < b < |r| ensures Names(r)[a] != Names(r)[b] {
        assert Names(r)[a] == es[a].0 && Names(r)[b] == es[b].0;
      }
    }
  }

  /** The count of `keys` as the source builds it: one `{ name, value }` pair per entry. */
  method CountChart(keys: seq<string>) returns (r: seq<ChartData>)
    ensures CountsOf(r, keys)
  {
    var es := CountEntries(keys);
    r := ToChart(es);
    EntriesChart(es, keys);
  }

  function SumValues(r: seq<ChartData>): nat {
    if r == [] then 0 else r[0].value + SumValues(r[1..])
  }

  function Names(r: seq<ChartData>): (ns: seq<string>)
    ensures |ns| == |r| && forall i :: 0 <= i < |r| ==> ns[i] == r[i].name
  {
    seq(|r|, i requires 0 <= i < |r| => r[i].name)
  }

  /** The total number of occurrences in `keys` of the names in `names`. */
  function SumOver(names: seq<string>, keys: seq<string>): nat {
    if names == [] then 0 else multiset(keys)[names[0]] + SumOver(names[1..], keys)
  }

  lemma {:induction false} SumOverAppend(names: seq<string>, a: seq<string>, b: seq<string>)
    ensures SumOver(names, a + b) == SumOver(names, a) + SumOver(names, b)
  {
    if names != [] {
      SumOverAppend(names[1..], a, b);
    }
  }

  lemma {:induction false} SumOverSingle(names: seq<string>, x: string)
    requires Seqs.Distinct(names)
    ensures SumOver(names, [x]) == if x in names then 1 else 0
  {
    if names != [] {
      assert Seqs.Distinct(names[1..]) by {
        forall a, b | 0 <= a < b < |names[1..]| ensures names[1..][a] != names[1..][b] {
          assert names[1..][a] == names[a + 1] && names[1..][b] == names[b + 1];
        }
      }
      SumOverSingle(names[1..], x);
      if names[0] == x {
        assert x !in names[1..] by {
          forall i | 0 <= i < |names[1..]| ensures names[1..][i] != x {
            assert names[1..][i] == names[i + 1];
          }
        }
      }
      assert x in names <==> x == names[0] || x in names[1..];
    }
  }

  /** Summing the occurrence counts over distinct names that cover every key gives the number of keys. */
  lemma {:induction false} SumOverAll(names: seq<string>, keys: seq<string>)
    requires Seqs.Distinct(names)
    requires forall j :: 0 <= j < |keys| ==> keys[j] in names
    ensures SumOver(names, keys) == |keys|
  {
    if keys == [] {
      SumOverEmpty(names);
    } else {
      assert keys == [keys[0]] + keys[1..];
      SumOverAppend(names, [keys[0]], keys[1..]);
      SumOverSingle(names, keys[0]);
      SumOverAll(names, keys[1..]);
    }
  }

  lemma {:induction false} SumOverEmpty(names: seq<string>)
    ensures SumOver(names, []) == 0
  {
    if names != [] { SumOverEmpty(names[1..]); }
  }

  lemma {:induction false} SumValuesIsSumOver(r: seq<ChartData>, keys: seq<string>)
    requires forall i :: 0 <= i < |r| ==> r[i].value == multiset(keys)[r[i].name]
    ensures SumValues(r) == SumOver(Names(r), keys)
  {
    if r != [] {
      SumValuesIsSumOver(r[1..], keys);
      assert Names(r)[1..] == Names(r[1..]);
    }
  }

  /** A count of `keys` adds up to the number of keys, and every count is at least 1. */
  lemma CountsOfTotals(r: seq<ChartData>, keys: seq<string>)
    requires CountsOf(r, keys)
    ensures SumValues(r) == |keys|
    ensures forall i :: 0 <= i < |r| ==> r[i].value >= 1
  {
    SumValuesIsSumOver(r, keys);
    SumOverAll(Names(r), keys);
    forall i | 0 <= i < |r| ensures r[i].value >= 1 {
      assert r[i].name in multiset(keys);
    }
  }

  // ---------------------------------------------------------------------------
  // The charts
  // ---------------------------------------------------------------------------

  /** `template.category || 'Non catégorisé'`. */
  function CategoryKey(t: Template): string {
    if t.category != "" then t.category else "Non catégorisé"
  }

  /** `template.ageRange || 'Non spécifié'`. */
  function AgeRangeKey(t: Template): string {
    if t.ageRange != "" then t.ageRange else "Non spécifié"
  }

  /** `user.role || 'user'`. */
  function RoleKey(u: UserRecord): string {
    if u.role != "" then u.role else "user"
  }

  /** `calculateCategoryStats`: templates counted by category, uncategorised ones together. */
  method CategoryStats(templates: seq<Template>) returns (r: seq<ChartData>)
    ensures CountsOf(r, Seqs.Map(templates, CategoryKey))
    ensures SumValues(r) == |templates|
    ensures forall i :: 0 <= i < |r| ==> r[i].value >= 1
  {
    r := CountChart(Seqs.Map(templates, CategoryKey));
    CountsOfTotals(r, Seqs.Map(templates, CategoryKey));
  }

  /** `calculateAgeRangeStats`: templates counted by age range, unspecified ones together. */
  method AgeRangeStats(templates: seq<Template>) returns (r: seq<ChartData>)
    ensures CountsOf(r, Seqs.Map(templates, AgeRangeKey))
    ensures SumValues(r) == |templates|
    ensures forall i :: 0 <= i < |r| ==> r[i].value >= 1
  {
    r := CountChart(Seqs.Map(templates, AgeRangeKey));
    CountsOfTotals(r, Seqs.Map(templates, AgeRangeKey));
  }

  /** The pairs with their names capitalised (`name.charAt(0).toUpperCase() + name.slice(1)`). */
  function CapitalizeNames(r: seq<ChartData>): (c: seq<ChartData>)
    ensures |c| == |r|
    ensures forall i :: 0 <= i < |r| ==> c[i] == ChartData(Capitalize(r[i].name), r[i].value)
  {
    seq(|r|, i requires 0 <= i < |r| => ChartData(Capitalize(r[i].name), r[i].value))
  }

  lemma {:induction false} CapitalizeKeepsSum(r: seq<ChartData>)
    ensures SumValues(CapitalizeNames(r)) == SumValues(r)
  {
    if r != [] {
      CapitalizeKeepsSum(r[1..]);
      assert CapitalizeNames(r)[1..] == CapitalizeNames(r[1..]);
    }
  }

  /**
   * `calculateRoleStats`: users counted by role (a missing role counts as
   * `'user'`), each role shown capitalised. Two roles differing only in their
   * first letter would be shown under the same name.
   */
  method RoleStats(users: seq<UserRecord>) returns (r: seq<ChartData>)
    ensures exists raw :: CountsOf(raw, Seqs.Map(users, RoleKey)) && r == CapitalizeNames(raw)
    ensures SumValues(r) == |users|
    ensures forall i :: 0 <= i < |r| ==> r[i].value >= 1
  {
    var raw := CountChart(Seqs.Map(users, RoleKey));
    CountsOfTotals(raw, Seqs.Map(users, RoleKey));
    CapitalizeKeepsSum(raw);
    r := CapitalizeNames(raw);
  }

  // ---------------------------------------------------------------------------
  // Months
  // ---------------------------------------------------------------------------

  lemma TwoDigitsValue(a: char, b: char)
    requires IsDigit(a) && IsDigit(b)
    ensures DigitsValue([a, b]) == DigitValue(a) * 10 + DigitValue(b)
  {
    assert [a, b][..1] == [a];
    assert [a][..0] == [];
    assert DigitsValue([a]) == DigitValue(a);
    assert DigitsValue([a, b]) == DigitsValue([a]) * 10 + DigitValue(b);
  }

  /** The two-digit month `String(month + 1).padStart(2, '0')`. */
  function MonthDigits(month: int): (r: string)
    requires 0 <= month < 12
    ensures |r| == 2 && IsDigit(r[0]) && IsDigit(r[1])
    ensures DigitsValue(r) == month + 1
  {
    var d := NatToString(month + 1);
    var r := PadStart(d, 2, '0');
    if month + 1 < 10 then
      assert r == ['0', DigitChar(month + 1)];
      TwoDigitsValue('0', DigitChar(month + 1));
      r
    else
      assert d == [DigitChar(1), DigitChar(month + 1 - 10)] by {
        assert NatToString((month + 1) / 10) == [DigitChar(1)];
      }
      TwoDigitsValue(DigitChar(1), DigitChar(month + 1 - 10));
      r
  }

  /** `` `${year}-${month + 1 padded}` ``: the year, a dash and the two-digit month. */
  function MonthKey(d: PdfDate): (r: string)
    requires 0 <= d.month < 12
    ensures |r| >= 4 && r[|r| - 3] == '-' && IsDigit(r[|r| - 2]) && IsDigit(r[|r| - 1])
  {
    var y := IntToString(d.year);
    var m := MonthDigits(d.month);
    var r := y + "-" + m;
    assert r[|r| - 3] == '-' && r[|r| - 2] == m[0] && r[|r| - 1] == m[1] by {
      assert r == y + ("-" + m);
    }
    r
  }

  lemma SplitAtDash(x: string, u: string, y: string, v: string)
    requires |u| == |v| && x + "-" + u == y + "-" + v
    ensures x == y && u == v
  {
    var k := x + "-" + u;
    assert |x| == |y|;
    assert x == k[..|x|] && y == k[..|y|];
    assert u == k[|x| + 1..] && v == k[|y| + 1..];
  }

  /** Two dates share a month key exactly when they share year and month. */
  lemma MonthKeyInjective(a: PdfDate, b: PdfDate)
    requires 0 <= a.month < 12 && 0 <= b.month < 12
    ensures MonthKey(a) == MonthKey(b) <==> a == b
  {
    if MonthKey(a) == MonthKey(b) {
      SplitAtDash(IntToString(a.year), MonthDigits(a.month), IntToString(b.year), MonthDigits(b.month));
      ParseIntOfIntToString(a.year);
      ParseIntOfIntToString(b.year);
    }
  }

  /** Keys strictly increasing in `localeCompare` order. */
  predicate StrictlySortedByKey(s: seq<(string, nat)>) {
    forall i, j :: 0 <= i < j < |s| ==> StrLess(s[i].0, s[j].0)
  }

  lemma StrictlySortedTail(s: seq<(string, nat)>)
    requires s != [] && StrictlySortedByKey(s)
    ensures StrictlySortedByKey(s[1..])
    ensures forall k :: 0 <= k < |s[1..]| ==> StrLess(s[0].0, s[1..][k].0)
  {
    var tail := s[1..];
    forall a, b | 0 <= a < b < |tail| ensures StrLess(tail[a].0, tail[b].0) {
      assert tail[a] == s[a + 1] && tail[b] == s[b + 1];
    }
    forall k | 0 <= k < |tail| ensures StrLess(s[0].0, tail[k].0) {
      assert tail[k] == s[k + 1];
    }
  }

  /** A key before the head of a sorted list is before all of its keys. */
  lemma BeforeHeadBeforeAll(x: (string, nat), s: seq<(string, nat)>)
    requires s != [] && StrictlySortedByKey(s) && StrLess(x.0, s[0].0)
    ensures forall j :: 0 <= j < |s| ==> StrLess(x.0, s[j].0)
  {
    forall j | 0 <= j < |s| ensures StrLess(x.0, s[j].0) {
      if j > 0 { StrLessTransitive(x.0, s[0].0, s[j].0); }
    }
  }

  /** A key before `x` and before every key of `tail` is before every key of a list drawn from both. */
  lemma BeforeAllDrawn(h: (string, nat), x: (string, nat), tail: seq<(string, nat)>, rest: seq<(string, nat)>)
    requires StrLess(h.0, x.0)
    requires forall k :: 0 <= k < |tail| ==> StrLess(h.0, tail[k].0)
    requires forall j :: 0 <= j < |rest| ==> rest[j] == x || rest[j] in tail
    ensures forall j :: 0 <= j < |rest| ==> StrLess(h.0, rest[j].0)
  {
    forall j | 0 <= j < |rest| ensures StrLess(h.0, rest[j].0) {
      if rest[j] != x {
        var k :| 0 <= k < |tail| && tail[k] == rest[j];
      }
    }
  }

  /** An entry whose key precedes every key of a sorted list can go in front of it. */
  lemma StrictlySortedCons(x: (string, nat), s: seq<(string, nat)>)
    requires StrictlySortedByKey(s)
    requires forall j :: 0 <= j < |s| ==> StrLess(x.0, s[j].0)
    ensures StrictlySortedByKey([x] + s)
  {
    var r := [x] + s;
    forall i, j | 0 <= i < j < |r| ensures StrLess(r[i].0, r[j].0) {
      assert r[j] == s[j - 1];
      if i > 0 { assert r[i] == s[i - 1]; }
    }
  }

  /** Keeping the head and every element of the tail keeps every element. */
  lemma ConsKeepsMembers<T>(h: T, tail: seq<T>, rest: seq<T>)
    requires forall i :: 0 <= i < |tail| ==> tail[i] in rest
    ensures forall i :: 0 <= i < |tail| + 1 ==> ([h] + tail)[i] in [h] + rest
  {
    forall i | 0 <= i < |tail| + 1 ensures ([h] + tail)[i] in [h] + rest {
      if i > 0 { assert ([h] + tail)[i] == tail[i - 1]; }
    }
  }

  /** Inserts an entry with a new key into a sorted entry list. */
  function InsertByKey(x: (string, nat), s: seq<(string, nat)>): (r: seq<(string, nat)>)
    requires StrictlySortedByKey(s)
    requires forall i :: 0 <= i < |s| ==> s[i].0 != x.0
    ensures StrictlySortedByKey(r)
    ensures |r| == |s| + 1
    ensures forall i :: 0 <= i < |r| ==> r[i] == x || r[i] in s
    ensures x in r && forall i :: 0 <= i < |s| ==> s[i] in r
  {
    if s == [] then [x]
    else if StrLess(x.0, s[0].0) then
      BeforeHeadBeforeAll(x, s);
      StrictlySortedCons(x, s);
      [x] + s
    else
      StrLessTotal(x.0, s[0].0);
      var tail := s[1..];
      StrictlySortedTail(s);
      var rest := InsertByKey(x, tail);
      BeforeAllDrawn(s[0], x, tail, rest);
      StrictlySortedCons(s[0], rest);
      assert s == [s[0]] + tail;
      ConsKeepsMembers(s[0], tail, rest);
      [s[0]] + rest
  }

  /** `.sort(([a], [b]) => a.localeCompare(b))` of entries with distinct keys: the same entries, in order. */
  function SortByKey(s: seq<(string, nat)>): (r: seq<(string, nat)>)
    requires DistinctKeys(s)
    ensures StrictlySortedByKey(r)
    ensures |r| == |s|
    ensures forall i :: 0 <= i < |r| ==> r[i] in s
    ensures forall i :: 0 <= i < |s| ==> s[i] in r
  {
    if s == [] then []
    else
      var tail := s[1..];
      DistinctKeysTail(s);
      var rest := SortByKey(tail);
      KeyStaysNew(s[0], tail, rest);
      var r := InsertByKey(s[0], rest);
      SortStepMembers(s, rest, r);
      r
  }

  lemma DistinctKeysTail(s: seq<(string, nat)>)
    requires s != [] && DistinctKeys(s)
    ensures DistinctKeys(s[1..])
    ensures forall i :: 0 <= i < |s[1..]| ==> s[1..][i].0 != s[0].0
  {
    var tail := s[1..];
    forall a, b | 0 <= a < b < |tail| ensures tail[a].0 != tail[b].0 {
      assert tail[a] == s[a + 1] && tail[b] == s[b + 1];
    }
    forall i | 0 <= i < |tail| ensures tail[i].0 != s[0].0 {
      assert tail[i] == s[i + 1];
    }
  }

  /** A key absent from `tail` is absent from any list drawn from it. */
  lemma KeyStaysNew(h: (string, nat), tail: seq<(string, nat)>, rest: seq<(string, nat)>)
    requires forall i :: 0 <= i < |tail| ==> tail[i].0 != h.0
    requires forall i :: 0 <= i < |rest| ==> rest[i] in tail
    ensures forall i :: 0 <= i < |rest| ==> rest[i].0 != h.0
  {
    forall i | 0 <= i < |rest| ensures rest[i].0 != h.0 {
      var k :| 0 <= k < |tail| && tail[k] == rest[i];
    }
  }

  /** Sorting the tail and inserting the head keeps exactly the elements. */
  lemma SortStepMembers(s: seq<(string, nat)>, rest: seq<(string, nat)>, r: seq<(string, nat)>)
    requires s != []
    requires forall i :: 0 <= i < |rest| ==> rest[i] in s[1..]
    requires forall i :: 0 <= i < |s[1..]| ==> s[1..][i] in rest
    requires forall i :: 0 <= i < |r| ==> r[i] == s[0] || r[i] in rest
    requires s[0] in r && forall i :: 0 <= i < |rest| ==> rest[i] in r
    ensures forall i :: 0 <= i < |r| ==> r[i] in s
    ensures forall i :: 0 <= i < |s| ==> s[i] in r
  {
    forall i | 0 <= i < |r| ensures r[i] in s {
      if r[i] != s[0] {
        var k :| 0 <= k < |rest| && rest[k] == r[i];
        var m :| 0 <= m < |s[1..]| && s[1..][m] == rest[k];
        assert s[m + 1] == r[i];
      }
    }
    forall i | 0 <= i < |s| ensures s[i] in r {
      if i > 0 {
        assert s[i] == s[1..][i - 1];
        var k :| 0 <= k < |rest| && rest[k] == s[i];
      }
    }
  }

  /** A reordering of a listing of the keys with their counts, without repeated keys, is one too. */
  lemma EntriesReordered(es: seq<(string, nat)>, sorted: seq<(string, nat)>, keys: seq<string>)
    requires EntriesOf(es, keys) && DistinctKeys(sorted)
    requires forall i :: 0 <= i < |sorted| ==> sorted[i] in es
    requires forall i :: 0 <= i < |es| ==> es[i] in sorted
    ensures EntriesOf(sorted, keys)
  {
    forall j | 0 <= j < |keys| ensures keys[j] in KeysOf(sorted) {
      var p :| 0 <= p < |es| && KeysOf(es)[p] == keys[j];
      assert es[p] in sorted;
      var q :| 0 <= q < |sorted| && sorted[q] == es[p];
      assert KeysOf(sorted)[q] == keys[j];
    }
  }

  /** Counting, listing and sorting the entries: a count of `keys` in strictly ascending name order. */
  method SortedCountChart(keys: seq<string>) returns (r: seq<ChartData>)
    ensures CountsOf(r, keys)
    ensures forall i, j :: 0 <= i < j < |r| ==> StrLess(r[i].name, r[j].name)
  {
    var es := CountEntries(keys);
    var sorted := SortByKey(es);
    assert DistinctKeys(sorted) by {
      forall i, j | 0 <= i < j < |sorted| ensures sorted[i].0 != sorted[j].0 {
        StrLessIrreflexive(sorted[i].0);
      }
    }
    EntriesReordered(es, sorted, keys);
    r := ToChart(sorted);
    EntriesChart(sorted, keys);
  }

  /** The month key of every date, in order. */
  function MonthKeys(dates: seq<PdfDate>): (keys: seq<string>)
    requires forall i :: 0 <= i < |dates| ==> 0 <= dates[i].month < 12
    ensures |keys| == |dates| && forall i :: 0 <= i < |dates| ==> keys[i] == MonthKey(dates[i])
  {
    seq(|dates|, i requires 0 <= i < |dates| => MonthKey(dates[i]))
  }

  /**
   * `calculatePdfStatsByMonth`: generated PDFs counted by `YYYY-MM` month key,
   * the months in ascending key order.
   */
  method PdfStatsByMonth(dates: seq<PdfDate>) returns (r: seq<ChartData>)
    requires forall i :: 0 <= i < |dates| ==> 0 <= dates[i].month < 12
    ensures CountsOf(r, MonthKeys(dates))
    ensures forall i, j :: 0 <= i < j < |r| ==> StrLess(r[i].name, r[j].name)
    ensures SumValues(r) == |dates|
    ensures forall i :: 0 <= i < |r| ==> r[i].value >= 1
  {
    r := SortedCountChart(MonthKeys(dates));
    CountsOfTotals(r, MonthKeys(dates));
  }
}
