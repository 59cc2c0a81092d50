/** The fault-type histogram behind the fault chart: detections are counted per
    `fault_type` into an object whose keys keep first-occurrence order, then the
    entries are sorted by descending count (a stable sort). */
module FaultChart {
  import opened Entities

  datatype Entry = Entry(name: string, count: nat)

  /** The fault types of the detections, in order. */
  function Types(ds: seq<FaultDetection>): (ts: seq<string>)
    ensures |ts| == |ds| && forall i :: 0 <= i < |ds| ==> ts[i] == ds[i].faultType
  {
    seq(|ds|, i requires 0 <= i < |ds| => ds[i].faultType)
  }

  /** How often `t` occurs in `ts`. */
  function Count(ts: seq<string>, t: string): nat {
    if ts == [] then 0 else Count(ts[..|ts| - 1], t) + (if ts[|ts| - 1] == t then 1 else 0)
  }

  lemma {:induction false} CountZero(ts: seq<string>, t: string)
    ensures Count(ts, t) == 0 <==> t !in ts
  {
    if ts != [] {
      var p := ts[..|ts| - 1];
      CountZero(p, t);
      assert t in ts <==> t in p || ts[|ts| - 1] == t by {
        assert ts == p + [ts[|ts| - 1]];
      }
    }
  }

  predicate Distinct(s: seq<string>) {
    forall i, j :: 0 <= i < j < |s| ==> s[i] != s[j]
  }

  /** The distinct elements of `ts`, in order of first occurrence
      (`Object.entries` order of the counting object). */
  function FirstOccurrences(ts: seq<string>): (ks: seq<string>)
    ensures Distinct(ks)
    ensures forall t :: t in ks <==> t in ts
  {
    if ts == [] then []
    else
      var p := FirstOccurrences(ts[..|ts| - 1]);
      var last := ts[|ts| - 1];
      assert ts == ts[..|ts| - 1] + [last];
      if last in p then p else p + [last]
  }

  /** `detections.reduce(...)`: the counting object, as a map plus its key order. */
  method CountFaults(ds: seq<FaultDetection>) returns (counts: map<string, nat>, keys: seq<string>)
    ensures keys == FirstOccurrences(Types(ds))
    ensures forall k :: k in counts <==> k in keys
    ensures forall k :: k in counts ==> counts[k] == Count(Types(ds), k)
  {
    var ts := Types(ds);
    counts := map[];
    keys := [];
    for i := 0 to |ds|
      invariant keys == FirstOccurrences(ts[..i])
      invariant CountsMatch(counts, keys, ts[..i])
    {
      var t := ds[i].faultType;
      assert ts[..i + 1] == ts[..i] + [t];
      CountStep(counts, keys, ts[..i], t);
      if t in counts {
        counts := counts[t := counts[t] + 1];
      } else {
        counts := counts[t := 1];
        keys := keys + [t];
      }
    }
    assert ts[..|ds|] == ts;
  }

  /** The counting object holds exactly the keys, each with its count in `ts`. */
  ghost predicate CountsMatch(counts: map<string, nat>, keys: seq<string>, ts: seq<string>) {
    && (forall k :: k in counts <==> k in keys)
    && (forall k :: k in counts ==> counts[k] == Count(ts, k))
  }

  /** `acc[t] = (acc[t] || 0) + 1` keeps the counting object right for one more element. */
  lemma CountStep(counts: map<string, nat>, keys: seq<string>, p: seq<string>, t: string)
    requires keys == FirstOccurrences(p) && CountsMatch(counts, keys, p)
    ensures t in counts ==> keys == FirstOccurrences(p + [t]) && CountsMatch(counts[t := counts[t] + 1], keys, p + [t])
    ensures t !in counts ==> keys + [t] == FirstOccurrences(p + [t]) && CountsMatch(counts[t := 1], keys + [t], p + [t])
  {
    var q := p + [t];
    assert q[..|q| - 1] == p;
    if t !in counts {
      CountZero(p, t);
    }
  }

  /** `Object.entries(faultCounts).map(...)` */
  function Entries(keys: seq<string>, ts: seq<string>): (es: seq<Entry>)
    ensures |es| == |keys| && forall i :: 0 <= i < |keys| ==> es[i] == Entry(keys[i], Count(ts, keys[i]))
  {
    seq(|keys|, i requires 0 <= i < |keys| => Entry(keys[i], Count(ts, keys[i])))
  }

  /** Puts `x` before the first entry whose count is not larger, so that it stays
      ahead of the later entries it ties with. */
  function Insert(x: Entry, s: seq<Entry>): (r: seq<Entry>)
    ensures |r| == |s| + 1
    ensures multiset(r) == multiset(s) + multiset{x}
  {
    if s == [] || x.count >= s[0].count then [x] + s
    else
      assert s == [s[0]] + s[1..];
      [s[0]] + Insert(x, s[1..])
  }

  /** `.sort((a, b) => b.count - a.count)`, stable. */
  function SortByCount(es: seq<Entry>): (r: seq<Entry>)
    ensures multiset(r) == multiset(es)
  {
    if es == [] then []
    else
      assert es == [es[0]] + es[1..];
      Insert(es[0], SortByCount(es[1..]))
  }

  predicate NonIncreasing(s: seq<Entry>) {
    forall i, j :: 0 <= i < j < |s| ==> s[i].count >= s[j].count
  }

  lemma {:induction false} InsertNonIncreasing(x: Entry, s: seq<Entry>)
    requires NonIncreasing(s)
    ensures NonIncreasing(Insert(x, s))
  {
    if s != [] && x.count < s[0].count {
      var rest := s[1..];
      InsertNonIncreasing(x, rest);
      var r := Insert(x, rest);
      assert multiset(r) == multiset(rest) + multiset{x};
      forall j | 0 <= j < |r| ensures s[0].count >= r[j].count {
        assert r[j] in multiset(r);
        if r[j] != x {
          assert r[j] in multiset(rest);
          var k :| 0 <= k < |rest| && rest[k] == r[j];
          assert rest[k] == s[k + 1];
        }
      }
    }
  }

  lemma {:induction false} SortNonIncreasing(es: seq<Entry>)
    ensures NonIncreasing(SortByCount(es))
  {
    if es != [] {
      SortNonIncreasing(es[1..]);
      InsertNonIncreasing(es[0], SortByCount(es[1..]));
    }
  }

  /** The chart's data. */
  function ChartData(ds: seq<FaultDetection>): seq<Entry> {
    var ts := Types(ds);
    SortByCount(Entries(FirstOccurrences(ts), ts))
  }

  /** The component's computation: count, list the entries, sort. */
  method BuildChartData(ds: seq<FaultDetection>) returns (data: seq<Entry>)
    ensures data == ChartData(ds)
  {
    var counts, keys := CountFaults(ds);
    var entries := seq(|keys|, i requires 0 <= i < |keys| && keys[i] in counts => Entry(keys[i], counts[keys[i]]));
    assert entries == Entries(keys, Types(ds));
    data := SortByCount(entries);
  }

  function SumCounts(s: seq<Entry>): nat {
    if s == [] then 0 else s[0].count + SumCounts(s[1..])
  }

  function Names(s: seq<Entry>): (ns: seq<string>)
    ensures |ns| == |s| && forall i :: 0 <= i < |s| ==> ns[i] == s[i].name
  {
    seq(|s|, i requires 0 <= i < |s| => s[i].name)
  }

  /** Each fault type of the detections is a bar, and no type is a bar twice. */
  lemma {:induction false} ChartTypesOnce(ds: seq<FaultDetection>)
    ensures Distinct(Names(ChartData(ds)))
    ensures forall t :: t in Names(ChartData(ds)) <==> exists d :: d in ds && d.faultType == t
  {
    var ts := Types(ds);
    var es := Entries(FirstOccurrences(ts), ts);
    assert Names(es) == FirstOccurrences(ts);
    SortKeepsNames(es);
    forall t ensures t in ts <==> exists d :: d in ds && d.faultType == t {
      if t in ts {
        var i :| 0 <= i < |ts| && ts[i] == t;
        assert ds[i] in ds;
      }
    }
  }

  /** Sorting keeps the set of names, and keeps them distinct. */
  lemma {:induction false} SortKeepsNames(es: seq<Entry>)
    requires Distinct(Names(es))
    ensures Distinct(Names(SortByCount(es)))
    ensures forall t :: t in Names(SortByCount(es)) <==> t in Names(es)
  {
    var r := SortByCount(es);
    forall t ensures t in Names(r) <==> t in Names(es) {
      NameInMultiset(r, es, t);
      NameInMultiset(es, r, t);
    }
    forall i, j | 0 <= i < j < |r| ensures r[i].name != r[j].name {
      assert r[i] in multiset(es) && r[j] in multiset(es);
      var k :| 0 <= k < |es| && es[k] == r[i];
      EntryOnce(es, k);
      CountAtLeast(r, i, j, r[i]);
      DistinctNames(es, r[i], r[j]);
    }
  }

  lemma NameInMultiset(a: seq<Entry>, b: seq<Entry>, t: string)
    requires multiset(a) == multiset(b)
    ensures t in Names(a) ==> t in Names(b)
  {
    if t in Names(a) {
      var i :| 0 <= i < |a| && Names(a)[i] == t;
      assert a[i] in multiset(b);
      var j :| 0 <= j < |b| && b[j] == a[i];
      assert Names(b)[j] == t;
    }
  }

  /** In a list with distinct names, different entries have different names. */
  lemma DistinctNames(es: seq<Entry>, x: Entry, y: Entry)
    requires Distinct(Names(es))
    requires x in es && y in es && x != y
    ensures x.name != y.name
  {
    var i :| 0 <= i < |es| && es[i] == x;
    var j :| 0 <= j < |es| && es[j] == y;
    assert i != j;
    assert Names(es)[i] != Names(es)[j];
  }

  /** In a list with distinct names, every entry occurs once. */
  lemma EntryOnce(es: seq<Entry>, k: nat)
    requires Distinct(Names(es)) && k < |es|
    ensures multiset(es)[es[k]] == 1
  {
    var x := es[k];
    var head, tail := es[..k], es[k + 1..];
    assert es == head + [x] + tail;
    forall m | 0 <= m < |head| ensures head[m] != x {
      assert Names(es)[m] != Names(es)[k];
    }
    forall m | 0 <= m < |tail| ensures tail[m] != x {
      assert tail[m] == es[k + 1 + m];
      assert Names(es)[k + 1 + m] != Names(es)[k];
    }
    assert x !in head && x !in tail;
  }

  /** Two positions holding `x` count twice. */
  lemma CountAtLeast(r: seq<Entry>, i: nat, j: nat, x: Entry)
    requires i < j < |r|
    ensures multiset(r)[x] >= (if r[i] == x then 1 else 0) + (if r[j] == x then 1 else 0)
  {
    var head, tail := r[..j], r[j + 1..];
    assert r == head + [r[j]] + tail;
    if r[i] == x {
      assert head[i] == x;
      assert x in multiset(head);
    }
  }

  /** A bar's height is the number of detections of its type. */
  lemma ChartCounts(ds: seq<FaultDetection>, e: Entry)
    requires e in ChartData(ds)
    ensures e.count == Count(Types(ds), e.name)
  {
    var ts := Types(ds);
    var es := Entries(FirstOccurrences(ts), ts);
    assert e in multiset(es);
  }

  /** The bars add up to the number of detections. */
  lemma {:induction false} ChartTotal(ds: seq<FaultDetection>)
    ensures SumCounts(ChartData(ds)) == |ds|
  {
    var ts := Types(ds);
    var keys := FirstOccurrences(ts);
    SortKeepsSum(Entries(keys, ts));
    EntriesSum(keys, ts);
    CountsCoverAll(ts);
  }

  lemma {:induction false} InsertSum(x: Entry, s: seq<Entry>)
    ensures SumCounts(Insert(x, s)) == x.count + SumCounts(s)
  {
    if s != [] && x.count < s[0].count {
      InsertSum(x, s[1..]);
    }
  }

  lemma {:induction false} SortKeepsSum(es: seq<Entry>)
    ensures SumCounts(SortByCount(es)) == SumCounts(es)
  {
    if es != [] {
      SortKeepsSum(es[1..]);
      InsertSum(es[0], SortByCount(es[1..]));
    }
  }

  /** Total of `Count(ts, k)` over the keys `ks`, summed from the back. */
  function KeyTotal(ks: seq<string>, ts: seq<string>): nat {
    if ks == [] then 0 else KeyTotal(ks[..|ks| - 1], ts) + Count(ts, ks[|ks| - 1])
  }

  lemma {:induction false} EntriesSum(ks: seq<string>, ts: seq<string>)
    ensures SumCounts(Entries(ks, ts)) == KeyTotal(ks, ts)
  {
    if ks != [] {
      var p := ks[..|ks| - 1];
      EntriesSum(p, ts);
      SumCountsSnoc(Entries(p, ts), Entry(ks[|ks| - 1], Count(ts, ks[|ks| - 1])));
      assert Entries(ks, ts) == Entries(p, ts) + [Entry(ks[|ks| - 1], Count(ts, ks[|ks| - 1]))];
    }
  }

  lemma {:induction false} SumCountsSnoc(s: seq<Entry>, x: Entry)
    ensures SumCounts(s + [x]) == SumCounts(s) + x.count
  {
    if s != [] {
      assert (s + [x])[1..] == s[1..] + [x];
      SumCountsSnoc(s[1..], x);
    }
  }

  /** Appending `t` to the counted list adds one to the total iff `t` is a
      key, keys being distinct. */
  lemma {:induction false} KeyTotalSnoc(ks: seq<string>, ts: seq<string>, t: string)
    requires Distinct(ks)
    ensures KeyTotal(ks, ts + [t]) == KeyTotal(ks, ts) + (if t in ks then 1 else 0)
  {
    if ks != [] {
      var p := ks[..|ks| - 1];
      KeyTotalSnoc(p, ts, t);
      assert (ts + [t])[..|ts + [t]| - 1] == ts;
      assert t in ks <==> t in p || ks[|ks| - 1] == t by {
        assert ks == p + [ks[|ks| - 1]];
      }
      assert ks[|ks| - 1] !in p;
    }
  }

  /** Counting from the distinct keys accounts for every element once. */
  lemma {:induction false} CountsCoverAll(ts: seq<string>)
    ensures KeyTotal(FirstOccurrences(ts), ts) == |ts|
  {
    if ts != [] {
      var p := ts[..|ts| - 1];
      var t := ts[|ts| - 1];
      var keys := FirstOccurrences(p);
      CountsCoverAll(p);
      assert ts == p + [t];
      KeyTotalSnoc(keys, p, t);
      if t !in keys {
        CountZero(p, t);
        assert (keys + [t])[..|keys + [t]| - 1] == keys;
      }
    }
  }

  /** No detections, no bars: the placeholder is shown exactly then. */
  lemma ChartEmptyIff(ds: seq<FaultDetection>)
    ensures ChartData(ds) == [] <==> ds == []
  {
    if ds != [] {
      ChartTotal(ds);
    }
  }

  lemma SortNonIncreasingChart(ds: seq<FaultDetection>)
    ensures NonIncreasing(ChartData(ds))
  {
    var ts := Types(ds);
    SortNonIncreasing(Entries(FirstOccurrences(ts), ts));
  }
}
