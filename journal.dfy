/** The mood journal: one entry per calendar date holding the mood picked and the
    journal text saved that day, with a seven-day chart and summary statistics.
    The entries object is an association list, because JavaScript objects keep
    their string keys in insertion order and the statistics depend on that order.
    Date keys and weekday labels come from the clock and the locale and are inputs. */
module Journal {
  import opened Wrappers
  import opened Seqs

  datatype Mood = Mood(name: string, value: nat)

  /** `moodOptions`, best first. */
  const MoodOptions: seq<Mood> :=
    [Mood("Amazing", 5), Mood("Good", 4), Mood("Okay", 3), Mood("Not Great", 2), Mood("Awful", 1)]

  lemma MoodOptionsShape()
    ensures forall m :: m in MoodOptions ==> 1 <= m.value <= 5 && m.name != ""
    ensures forall i, j :: 0 <= i < j < |MoodOptions| ==>
              MoodOptions[i].name != MoodOptions[j].name && MoodOptions[i].value > MoodOptions[j].value
  {
  }

  /** The value stored under a date key; absent properties are `None`. */
  datatype Entry = Entry(mood: Option<Mood>, journal: Option<string>, date: Option<string>, timestamp: Option<string>)

  /** `{}`. */
  const EmptyEntry := Entry(None, None, None, None)

  /** The entries object, key/value pairs in property order. */
  type Entries = seq<(string, Entry)>

  function Keys(es: Entries): (ks: seq<string>)
    ensures |ks| == |es|
  {
    if es == [] then [] else [es[0].0] + Keys(es[1..])
  }

  predicate DistinctKeys(es: Entries) {
    forall i, j :: 0 <= i < j < |Keys(es)| ==> Keys(es)[i] != Keys(es)[j]
  }

  /** Every stored mood is one of the options. */
  predicate WellFormed(es: Entries) {
    DistinctKeys(es) && MoodsAreOptions(es)
  }

  /** `entries[key]`. */
  function Lookup(es: Entries, key: string): (r: Option<Entry>)
    ensures r.None? <==> key !in Keys(es)
    ensures r.Some? ==> (key, r.value) in es
  {
    if es == [] then None
    else if es[0].0 == key then Some(es[0].1)
    else Lookup(es[1..], key)
  }

  /** `{...entries, [key]: e}`: an existing key keeps its position and takes the new
      value; a new key is appended. */
  function Put(es: Entries, key: string, e: Entry): (r: Entries)
    ensures Lookup(r, key) == Some(e)
    ensures forall k :: k != key ==> Lookup(r, k) == Lookup(es, k)
    ensures key in Keys(es) ==> Keys(r) == Keys(es)
    ensures key !in Keys(es) ==> Keys(r) == Keys(es) + [key]
  {
    if es == [] then [(key, e)]
    else if es[0].0 == key then [(key, e)] + es[1..]
    else [es[0]] + Put(es[1..], key, e)
  }

  predicate MoodsAreOptions(es: Entries) {
    forall i :: 0 <= i < |es| ==> es[i].1.mood.Some? ==> es[i].1.mood.value in MoodOptions
  }

  lemma {:induction false} PutMoods(es: Entries, key: string, e: Entry)
    requires MoodsAreOptions(es)
    requires e.mood.Some? ==> e.mood.value in MoodOptions
    ensures MoodsAreOptions(Put(es, key, e))
  {
    if es != [] {
      var r := Put(es, key, e);
      assert MoodsAreOptions(es[1..]) by {
        forall i | 0 <= i < |es[1..]| ensures es[1..][i] == es[i + 1] { }
      }
      if es[0].0 != key {
        PutMoods(es[1..], key, e);
        var rest := Put(es[1..], key, e);
        assert r == [es[0]] + rest;
        forall i | 0 <= i < |r| && r[i].1.mood.Some? ensures r[i].1.mood.value in MoodOptions {
          if i > 0 { assert r[i] == rest[i - 1]; }
        }
      } else {
        assert r == [(key, e)] + es[1..];
        forall i | 0 <= i < |r| && r[i].1.mood.Some? ensures r[i].1.mood.value in MoodOptions {
          if i > 0 { assert r[i] == es[i]; }
        }
      }
    }
  }

  /** Writing one key keeps the entries well formed when the written mood is an option. */
  lemma PutWellFormed(es: Entries, key: string, e: Entry)
    requires WellFormed(es)
    requires e.mood.Some? ==> e.mood.value in MoodOptions
    ensures WellFormed(Put(es, key, e))
  {
    PutMoods(es, key, e);
  }

  /** `getCurrentEntry`: the entry under the key, or `{}`. */
  function CurrentEntry(es: Entries, key: string): (e: Entry)
    ensures key !in Keys(es) ==> e == EmptyEntry
    ensures key in Keys(es) ==> (key, e) in es
  {
    Lookup(es, key).GetOr(EmptyEntry)
  }

  /** `handleMoodSelect`: the day's entry gets the mood, its date and the time of
      the change; its journal text and every other day are kept. */
  function SelectMood(es: Entries, key: string, mood: Mood, now: string): (r: Entries)
    ensures Lookup(r, key).Some?
    ensures Lookup(r, key).value.mood == Some(mood)
    ensures Lookup(r, key).value.journal == CurrentEntry(es, key).journal
    ensures Lookup(r, key).value.date == Some(key) && Lookup(r, key).value.timestamp == Some(now)
    ensures forall k :: k != key ==> Lookup(r, k) == Lookup(es, k)
  {
    Put(es, key, CurrentEntry(es, key).(mood := Some(mood), date := Some(key), timestamp := Some(now)))
  }

  /** `handleJournalSave`: the day's entry gets the text, its date and the time of
      the change; its mood and every other day are kept. */
  function SaveJournal(es: Entries, key: string, text: string, now: string): (r: Entries)
    ensures Lookup(r, key).Some?
    ensures Lookup(r, key).value.journal == Some(text)
    ensures Lookup(r, key).value.mood == CurrentEntry(es, key).mood
    ensures Lookup(r, key).value.date == Some(key) && Lookup(r, key).value.timestamp == Some(now)
    ensures forall k :: k != key ==> Lookup(r, k) == Lookup(es, k)
  {
    Put(es, key, CurrentEntry(es, key).(journal := Some(text), date := Some(key), timestamp := Some(now)))
  }

  /** Picking a mood and saving text on the same day keeps both, whichever comes first. */
  lemma MoodAndJournalCommute(es: Entries, key: string, mood: Mood, text: string, now: string)
    ensures Lookup(SaveJournal(SelectMood(es, key, mood, now), key, text, now), key)
         == Lookup(SelectMood(SaveJournal(es, key, text, now), key, mood, now), key)
  {
  }

  // ----- the seven-day chart -------------------------------------------------------

  datatype ChartPoint = ChartPoint(date: string, mood: nat, moodName: string)

  /** One point of the chart: the weekday label, and the mood's value and label, or
      0 and 'No entry' when the day has no mood. */
  function PointFor(es: Entries, key: string, weekday: string): (p: ChartPoint)
    ensures p.date == weekday
    ensures p.mood == 0 <==> Lookup(es, key).None? || Lookup(es, key).value.mood.None?
                             || Lookup(es, key).value.mood.value.value == 0
    ensures WellFormed(es) && p.mood != 0 ==> 1 <= p.mood <= 5 && p.moodName != "No entry"
    ensures Lookup(es, key).Some? && Lookup(es, key).value.mood.Some? ==>
              p.mood == Lookup(es, key).value.mood.value.value
    ensures Lookup(es, key).Some? && Lookup(es, key).value.mood.Some? && Lookup(es, key).value.mood.value.name != "" ==>
              p.moodName == Lookup(es, key).value.mood.value.name
    ensures p.moodName == "No entry" <== Lookup(es, key).None? || Lookup(es, key).value.mood.None?
                                         || Lookup(es, key).value.mood.value.name == ""
  {
    var e := Lookup(es, key);
    var value := if e.Some? && e.value.mood.Some? then e.value.mood.value.value else 0;
    var moodName := if e.Some? && e.value.mood.Some? && e.value.mood.value.name != "" then e.value.mood.value.name
                 else "No entry";
    ChartPoint(weekday, value, moodName)
  }

  /** `getChartData`: seven points, oldest first; `dayKey(i)` and `weekday(i)` are the
      date key and weekday label of the day `i` days before today. */
  method GetChartData(es: Entries, dayKey: nat -> string, weekday: nat -> string) returns (points: seq<ChartPoint>)
    ensures |points| == 7
    ensures forall k :: 0 <= k < 7 ==> points[k] == PointFor(es, dayKey(6 - k), weekday(6 - k))
    ensures WellFormed(es) ==> forall k :: 0 <= k < 7 ==> points[k].mood <= 5
  {
    points := [];
    for i := 7 downto 0
      invariant |points| == 7 - i
      invariant forall k :: 0 <= k < |points| ==> points[k] == PointFor(es, dayKey(6 - k), weekday(6 - k))
    {
      points := points + [PointFor(es, dayKey(i), weekday(i))];
    }
  }

  // ----- statistics -------------------------------------------------------------------

  predicate HasMood(p: (string, Entry)) {
    p.1.mood.Some?
  }

  /** The moods of the entries that have one, in property order. */
  function MoodsOf(es: Entries): (ms: seq<Mood>)
    ensures |ms| <= |es|
    ensures (ms == []) <==> forall i :: 0 <= i < |es| ==> es[i].1.mood.None?
    ensures |ms| == |Filter(HasMood, es)|
    ensures forall i :: 0 <= i < |ms| ==> Filter(HasMood, es)[i].1.mood == Some(ms[i])
  {
    if es == [] then []
    else
      var rest := MoodsOf(es[1..]);
      assert forall i :: 1 <= i < |es| ==> es[i] == es[1..][i - 1];
      if es[0].1.mood.Some? then [es[0].1.mood.value] + rest else rest
  }

  lemma {:induction false} MoodsOfWellFormed(es: Entries)
    requires MoodsAreOptions(es)
    ensures forall m :: m in MoodsOf(es) ==> m in MoodOptions
  {
    if es != [] {
      assert forall i :: 0 <= i < |es[1..]| ==> es[1..][i] == es[i + 1];
      MoodsOfWellFormed(es[1..]);
    }
  }

  function Labels(ms: seq<Mood>): (ls: seq<string>)
    ensures |ls| == |ms|
    ensures forall i :: 0 <= i < |ms| ==> ls[i] == ms[i].name
  {
    seq(|ms|, i requires 0 <= i < |ms| => ms[i].name)
  }

  function SumValues(ms: seq<Mood>): nat {
    if ms == [] then 0 else SumValues(ms[..|ms| - 1]) + ms[|ms| - 1].value
  }

  /** A property of `moodCounts`. */
  datatype LabelCount = LabelCount(name: string, count: nat)

  /** `Object.keys(moodCounts)`. */
  function CountKeys(cs: seq<LabelCount>): (ks: seq<string>)
    ensures |ks| == |cs| && forall i :: 0 <= i < |cs| ==> ks[i] == cs[i].name
  {
    if cs == [] then [] else [cs[0].name] + CountKeys(cs[1..])
  }

  /** `moodCounts[label] || 0`. */
  function CountOf(cs: seq<LabelCount>, moodName: string): nat {
    if cs == [] then 0 else if cs[0].name == moodName then cs[0].count else CountOf(cs[1..], moodName)
  }

  function Total(cs: seq<LabelCount>): nat {
    if cs == [] then 0 else cs[0].count + Total(cs[1..])
  }

  predicate Positive(cs: seq<LabelCount>) {
    forall i :: 0 <= i < |cs| ==> cs[i].count >= 1
  }

  predicate DistinctLabels(cs: seq<LabelCount>) {
    forall i, j :: 0 <= i < j < |cs| ==> cs[i].name != cs[j].name
  }

  /** `moodCounts[label] = (moodCounts[label] || 0) + 1`. */
  function Bump(cs: seq<LabelCount>, moodName: string): (r: seq<LabelCount>)
    ensures moodName in CountKeys(cs) ==> CountKeys(r) == CountKeys(cs)
    ensures moodName !in CountKeys(cs) ==> CountKeys(r) == CountKeys(cs) + [moodName]
    ensures forall l :: CountOf(r, l) == CountOf(cs, l) + (if l == moodName then 1 else 0)
  {
    if cs == [] then [LabelCount(moodName, 1)]
    else if cs[0].name == moodName then [cs[0].(count := cs[0].count + 1)] + cs[1..]
    else
      var rest := Bump(cs[1..], moodName);
      assert forall i :: 1 <= i < |cs| ==> cs[i] == cs[1..][i - 1];
      [cs[0]] + rest
  }

  /** A bump adds one to the total and keeps every count positive. */
  lemma {:induction false} BumpTotal(cs: seq<LabelCount>, moodName: string)
    ensures Total(Bump(cs, moodName)) == Total(cs) + 1
    ensures Positive(cs) ==> Positive(Bump(cs, moodName))
  {
    if cs != [] && cs[0].name != moodName {
      BumpTotal(cs[1..], moodName);
      var r := Bump(cs, moodName);
      assert r == [cs[0]] + Bump(cs[1..], moodName);
      assert r[1..] == Bump(cs[1..], moodName);
    }
  }

  /** `moodCounts` after the `forEach` over the given labels. */
  function Tally(labels: seq<string>): seq<LabelCount> {
    if labels == [] then [] else Bump(Tally(labels[..|labels| - 1]), labels[|labels| - 1])
  }

  /** The tally has one property per distinct label, counts its occurrences
      exactly, holds only positive counts and counts every label once. */
  lemma TallyFacts(labels: seq<string>)
    ensures DistinctLabels(Tally(labels))
    ensures Positive(Tally(labels))
    ensures forall l :: CountOf(Tally(labels), l) == multiset(labels)[l]
    ensures Total(Tally(labels)) == |labels|
    ensures forall l :: l in CountKeys(Tally(labels)) <==> l in labels
  {
    TallyKeys(labels);
    TallyCounts(labels);
    TallyTotal(labels);
  }

  lemma {:induction false} TallyKeys(labels: seq<string>)
    ensures DistinctLabels(Tally(labels))
    ensures forall l :: l in CountKeys(Tally(labels)) <==> l in labels
  {
    if labels != [] {
      var init := labels[..|labels| - 1];
      var last := labels[|labels| - 1];
      TallyKeys(init);
      assert labels == init + [last];
      var cs := Tally(init);
      var r := Bump(cs, last);
      assert forall i :: 0 <= i < |r| ==> r[i].name == CountKeys(r)[i];
      assert forall i :: 0 <= i < |cs| ==> cs[i].name == CountKeys(cs)[i];
    }
  }

  lemma {:induction false} TallyCounts(labels: seq<string>)
    ensures forall l :: CountOf(Tally(labels), l) == multiset(labels)[l]
  {
    if labels != [] {
      var init := labels[..|labels| - 1];
      var last := labels[|labels| - 1];
      TallyCounts(init);
      assert labels == init + [last];
      assert multiset(labels) == multiset(init) + multiset{last};
    }
  }

  lemma {:induction false} TallyTotal(labels: seq<string>)
    ensures Positive(Tally(labels))
    ensures Total(Tally(labels)) == |labels|
  {
    if labels != [] {
      var init := labels[..|labels| - 1];
      TallyTotal(init);
      BumpTotal(Tally(init), labels[|labels| - 1]);
    }
  }

  /** Index of the entry `Object.entries(moodCounts).reduce((a, b) => counts[a] >
      counts[b] ? a : b)` keeps: its count is maximal and every later entry's count
      is strictly smaller, so a tie goes to the later entry. */
  function LastMaxIndex(cs: seq<LabelCount>): (i: nat)
    requires |cs| >= 1
    ensures i < |cs|
    ensures forall j :: 0 <= j < |cs| ==> cs[j].count <= cs[i].count
    ensures forall j :: i < j < |cs| ==> cs[j].count < cs[i].count
  {
    if |cs| == 1 then 0
    else
      var a := LastMaxIndex(cs[..|cs| - 1]);
      if cs[a].count > cs[|cs| - 1].count then a else |cs| - 1
  }

  /** Math.round(count / total * 100), on exact rationals: the nearest integer, halves up. */
  function RoundPercent(count: nat, total: nat): (p: nat)
    requires total > 0
    ensures 2 * total * p <= 200 * count + total < 2 * total * (p + 1)
    ensures count <= total ==> p <= 100
  {
    var p := (200 * count + total) / (2 * total);
    RoundBounds(count, total, p);
    p
  }

  lemma RoundBounds(count: nat, total: nat, p: nat)
    requires total > 0 && p == (200 * count + total) / (2 * total)
    ensures 2 * total * p <= 200 * count + total < 2 * total * (p + 1)
    ensures count <= total ==> p <= 100
  {
    var n, d := 200 * count + total, 2 * total;
    assert d * p <= n < d * (p + 1);
    if count <= total {
      assert d * p < d * 101;
      MulMonotone(d, p, 101);
    }
  }

  lemma MulMonotone(d: nat, a: nat, b: nat)
    requires d > 0 && d * a < d * b
    ensures a < b
  {
  }

  datatype Share = Share(mood: string, count: nat, percentage: nat)

  /** `moodDistribution`: each property of the tally with its rounded percentage. */
  function Distribution(cs: seq<LabelCount>, total: nat): (ds: seq<Share>)
    requires total > 0
    ensures |ds| == |cs|
    ensures forall i :: 0 <= i < |cs| ==>
              ds[i].mood == cs[i].name && ds[i].count == cs[i].count && ds[i].percentage == RoundPercent(cs[i].count, total)
  {
    seq(|cs|, i requires 0 <= i < |cs| => Share(cs[i].name, cs[i].count, RoundPercent(cs[i].count, total)))
  }

  /** The summary; the average mood is represented by the exact total of mood values. */
  datatype Stats = Stats(totalEntries: nat, totalMood: nat, mostCommonMood: string, moodDistribution: seq<Share>)

  /** `getMoodStats`: absent when no entry has a mood; otherwise the number of moods,
      their total value, the most common label and the distribution. */
  method GetMoodStats(es: Entries) returns (r: Option<Stats>)
    ensures r.None? <==> forall i :: 0 <= i < |es| ==> es[i].1.mood.None?
    ensures r.Some? ==>
              var moods := MoodsOf(es);
              var cs := Tally(Labels(moods));
              && r.value.totalEntries == |moods| > 0
              && r.value.totalMood == SumValues(moods)
              && |cs| >= 1
              && r.value.mostCommonMood == cs[LastMaxIndex(cs)].name
              && r.value.moodDistribution == Distribution(cs, |moods|)
    ensures r.Some? ==> forall s :: s in r.value.moodDistribution ==> 1 <= s.count && s.percentage <= 100
    ensures r.Some? ==> forall l :: l in Labels(MoodsOf(es)) ==>
              multiset(Labels(MoodsOf(es)))[l] <= multiset(Labels(MoodsOf(es)))[r.value.mostCommonMood]
  {
    var moods := MoodsOf(es);
    if |moods| == 0 {
      return None;
    }
    var labels := Labels(moods);
    var counts: seq<LabelCount> := [];
    var totalMood := 0;
    for i := 0 to |moods|
      invariant counts == Tally(labels[..i])
      invariant totalMood == SumValues(moods[..i])
    {
      TallyStep(labels, i);
      SumStep(moods, i);
      counts := Bump(counts, moods[i].name);
      totalMood := totalMood + moods[i].value;
    }
    assert labels[..|moods|] == labels && moods[..|moods|] == moods;
    TallyNonEmpty(labels);
    var best := 0;
    for j := 1 to |counts|
      invariant best == LastMaxIndex(counts[..j])
    {
      LastMaxStep(counts, j);
      if !(counts[best].count > counts[j].count) {
        best := j;
      }
    }
    assert counts[..|counts|] == counts;
    var dist := Distribution(counts, |moods|);
    StatsFacts(labels, best);
    r := Some(Stats(|moods|, totalMood, counts[best].name, dist));
  }

  lemma TallyStep(labels: seq<string>, i: nat)
    requires i < |labels|
    ensures Tally(labels[..i + 1]) == Bump(Tally(labels[..i]), labels[i])
  {
    assert labels[..i + 1][..i] == labels[..i];
  }

  lemma SumStep(moods: seq<Mood>, i: nat)
    requires i < |moods|
    ensures SumValues(moods[..i + 1]) == SumValues(moods[..i]) + moods[i].value
  {
    assert moods[..i + 1][..i] == moods[..i];
  }

  lemma LastMaxStep(cs: seq<LabelCount>, j: nat)
    requires 1 <= j < |cs|
    ensures var a := LastMaxIndex(cs[..j]);
            LastMaxIndex(cs[..j + 1]) == if cs[a].count > cs[j].count then a else j
  {
    assert cs[..j + 1][..j] == cs[..j];
  }

  lemma TallyNonEmpty(labels: seq<string>)
    requires |labels| >= 1
    ensures |Tally(labels)| >= 1
  {
    TallyFacts(labels);
    assert labels[0] in CountKeys(Tally(labels));
  }

  lemma CountBound(labels: seq<string>, l: string)
    ensures multiset(labels)[l] <= |labels|
  {
  }

  /** What the statistics promise, stated over the labels counted. */
  lemma StatsFacts(labels: seq<string>, best: nat)
    requires |labels| >= 1
    requires |Tally(labels)| >= 1 && best == LastMaxIndex(Tally(labels))
    ensures forall s :: s in Distribution(Tally(labels), |labels|) ==> 1 <= s.count && s.percentage <= 100
    ensures forall l :: l in labels ==> multiset(labels)[l] <= multiset(labels)[Tally(labels)[best].name]
  {
    DistributionBounds(labels);
    MostCommonIsMaximal(labels, best);
  }

  /** Every share counts at least one entry and is at most 100 percent. */
  lemma DistributionBounds(labels: seq<string>)
    requires |labels| >= 1
    ensures forall s :: s in Distribution(Tally(labels), |labels|) ==> 1 <= s.count && s.percentage <= 100
  {
    var cs := Tally(labels);
    var dist := Distribution(cs, |labels|);
    TallyFacts(labels);
    forall s | s in dist ensures 1 <= s.count && s.percentage <= 100 {
      var i :| 0 <= i < |dist| && dist[i] == s;
      ShareBounds(labels, i);
    }
  }

  lemma ShareBounds(labels: seq<string>, i: nat)
    requires |labels| >= 1 && i < |Tally(labels)|
    ensures var s := Distribution(Tally(labels), |labels|)[i]; 1 <= s.count && s.percentage <= 100
  {
    var cs := Tally(labels);
    TallyFacts(labels);
    CountAtIndex(cs, i);
    CountBound(labels, cs[i].name);
  }

  /** The label the reduction keeps occurs at least as often as any other label. */
  lemma MostCommonIsMaximal(labels: seq<string>, best: nat)
    requires |labels| >= 1
    requires |Tally(labels)| >= 1 && best == LastMaxIndex(Tally(labels))
    ensures forall l :: l in labels ==> multiset(labels)[l] <= multiset(labels)[Tally(labels)[best].name]
  {
    var cs := Tally(labels);
    TallyFacts(labels);
    CountAtIndex(cs, best);
    forall l | l in labels ensures multiset(labels)[l] <= multiset(labels)[cs[best].name] {
      var k :| 0 <= k < |cs| && cs[k].name == l by {
        assert l in CountKeys(cs);
      }
      CountAtIndex(cs, k);
    }
  }

  /** With distinct labels, the count found for a label is the count at its index. */
  lemma {:induction false} CountAtIndex(cs: seq<LabelCount>, k: nat)
    requires DistinctLabels(cs) && k < |cs|
    ensures CountOf(cs, cs[k].name) == cs[k].count
  {
    if k > 0 {
      CountAtIndex(cs[1..], k - 1);
    }
  }
}
