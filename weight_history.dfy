/** The weight and waist tabs (src/components/WeightHistory.tsx). Weight entries and waist
    entries have the same shape, so every derivation is written once over `Measurement` and
    serves both tabs. */
module WeightHistory {
  import opened Wrappers
  import opened Numbers
  import opened Types
  import Tracker

  /** A stored entry as the tab receives it: a hole (`null`), or a record whose value may not
      be a number, whose date may be missing (`''`) and whose id may be 0. */
  datatype RawEntry =
    | Hole
    | Entry(id: int, value: Option<real>, date: Option<Date>)

  /** `entry && typeof value === 'number' && entry.date && entry.id`. */
  predicate Usable(e: RawEntry) {
    e.Entry? && e.value.Some? && e.date.Some? && e.id != 0
  }

  /** `safeWeightHistory` / `safeWaistHistory`: `[]` when the input is not an array, else the
      usable entries in their order. */
  function SafeHistory(raw: Option<seq<RawEntry>>): (r: seq<Measurement>)
    ensures raw.None? ==> r == []
    ensures raw.Some? ==> |r| <= |raw.value|
    ensures forall i :: 0 <= i < |r| ==> r[i].id != 0
  {
    if raw.None? then [] else Usables(raw.value)
  }

  function Usables(raw: seq<RawEntry>): (r: seq<Measurement>)
    ensures |r| <= |raw|
    ensures forall i :: 0 <= i < |r| ==> r[i].id != 0
  {
    if raw == [] then []
    else if Usable(raw[0]) then [Measurement(raw[0].id, raw[0].value.value, raw[0].date.value)] + Usables(raw[1..])
    else Usables(raw[1..])
  }

  /** Exactly the usable entries survive, in order: the filter distributes over
      concatenation. */
  lemma {:induction false} UsablesAppend(a: seq<RawEntry>, b: seq<RawEntry>)
    ensures Usables(a + b) == Usables(a) + Usables(b)
  {
    if a != [] {
      UsablesAppend(a[1..], b);
      assert (a + b)[0] == a[0] && (a + b)[1..] == a[1..] + b;
    } else {
      assert a + b == b;
    }
  }

  /** A single stored entry survives exactly when it is usable. */
  lemma UsablesSingle(e: RawEntry)
    ensures Usable(e) ==> Usables([e]) == [Measurement(e.id, e.value.value, e.date.value)]
    ensures !Usable(e) ==> Usables([e]) == []
  {
    assert [e][1..] == [];
  }

  predicate SortedByDate(s: seq<Measurement>) {
    forall i, j :: 0 <= i < j < |s| ==> s[i].date <= s[j].date
  }

  /** Puts `m` before the first entry of `s` dated on or after it. */
  function InsertByDate(m: Measurement, s: seq<Measurement>): (r: seq<Measurement>)
    ensures |r| == |s| + 1
  {
    if s == [] || m.date <= s[0].date then [m] + s
    else [s[0]] + InsertByDate(m, s[1..])
  }

  /** Inserting adds the one entry and loses none. */
  lemma {:induction false} InsertPermutes(m: Measurement, s: seq<Measurement>)
    ensures multiset(InsertByDate(m, s)) == multiset(s) + multiset{m}
  {
    if s != [] && m.date > s[0].date {
      InsertPermutes(m, s[1..]);
      assert s == [s[0]] + s[1..];
    }
  }

  /** An entry dated no later than a sorted history, put in front, keeps it sorted. */
  lemma SortedCons(x: Measurement, s: seq<Measurement>)
    requires SortedByDate(s) && forall i :: 0 <= i < |s| ==> x.date <= s[i].date
    ensures SortedByDate([x] + s)
  {
    var r := [x] + s;
    forall i, j | 0 <= i < j < |r|
      ensures r[i].date <= r[j].date
    {
      assert r[j] == s[j - 1];
      if i > 0 {
        assert r[i] == s[i - 1];
      }
    }
  }

  /** Inserting an entry dated no earlier than `lo` into entries dated no earlier than `lo`
      gives entries dated no earlier than `lo`. */
  lemma {:induction false} InsertAbove(m: Measurement, s: seq<Measurement>, lo: Date)
    requires lo <= m.date && forall i :: 0 <= i < |s| ==> lo <= s[i].date
    ensures forall i :: 0 <= i < |InsertByDate(m, s)| ==> lo <= InsertByDate(m, s)[i].date
  {
    if s != [] && m.date > s[0].date {
      InsertAbove(m, s[1..], lo);
      var rest := InsertByDate(m, s[1..]);
      var r := [s[0]] + rest;
      assert r == InsertByDate(m, s);
      forall i | 0 < i < |r|
        ensures lo <= r[i].date
      {
        assert r[i] == rest[i - 1];
      }
    }
  }

  /** Inserting into a date-sorted history keeps it sorted. */
  lemma {:induction false} InsertKeepsSorted(m: Measurement, s: seq<Measurement>)
    requires SortedByDate(s)
    ensures SortedByDate(InsertByDate(m, s))
  {
    if s != [] && m.date > s[0].date {
      InsertKeepsSorted(m, s[1..]);
      InsertAbove(m, s[1..], s[0].date);
      SortedCons(s[0], InsertByDate(m, s[1..]));
    }
  }

  /** `[...history].sort((a, b) => a.date - b.date)`: ordered by date, and a rearrangement of
      the input. */
  function SortByDate(s: seq<Measurement>): (r: seq<Measurement>)
    ensures SortedByDate(r)
    ensures |r| == |s|
  {
    if s == [] then []
    else
      InsertKeepsSorted(s[0], SortByDate(s[1..]));
      InsertByDate(s[0], SortByDate(s[1..]))
  }

  /** Sorting rearranges the history: every entry stays, as often as it occurs. */
  lemma {:induction false} SortPermutes(s: seq<Measurement>)
    ensures multiset(SortByDate(s)) == multiset(s)
  {
    if s != [] {
      SortPermutes(s[1..]);
      InsertPermutes(s[0], SortByDate(s[1..]));
      assert s == [s[0]] + s[1..];
    }
  }

  /** Sorting keeps exactly the entries it was given. */
  lemma SortedSameEntries(s: seq<Measurement>, x: Measurement)
    ensures x in SortByDate(s) <==> x in s
  {
    SortPermutes(s);
    assert x in multiset(SortByDate(s)) <==> x in multiset(s);
  }

  /** The first sorted entry is dated no later than any entry, and is one of them. */
  lemma SortedFirstIsEarliest(s: seq<Measurement>)
    requires |s| > 0
    ensures SortByDate(s)[0] in s
    ensures forall i :: 0 <= i < |s| ==> SortByDate(s)[0].date <= s[i].date
  {
    var sorted := SortByDate(s);
    SortedSameEntries(s, sorted[0]);
    forall i | 0 <= i < |s|
      ensures sorted[0].date <= s[i].date
    {
      SortedSameEntries(s, s[i]);
      var j :| 0 <= j < |sorted| && sorted[j] == s[i];
    }
  }

  /** The last sorted entry is dated no earlier than any entry, and is one of them. */
  lemma SortedLastIsLatest(s: seq<Measurement>)
    requires |s| > 0
    ensures SortByDate(s)[|s| - 1] in s
    ensures forall i :: 0 <= i < |s| ==> s[i].date <= SortByDate(s)[|s| - 1].date
  {
    var sorted := SortByDate(s);
    SortedSameEntries(s, sorted[|s| - 1]);
    forall i | 0 <= i < |s|
      ensures s[i].date <= sorted[|s| - 1].date
    {
      SortedSameEntries(s, s[i]);
      var j :| 0 <= j < |sorted| && sorted[j] == s[i];
    }
  }

  /** The list shown on screen: the sorted history reversed, newest first. */
  function NewestFirst(s: seq<Measurement>): (r: seq<Measurement>)
    ensures |r| == |s|
    ensures forall i :: 0 <= i < |s| ==> r[i] == s[|s| - 1 - i]
  {
    if s == [] then [] else NewestFirst(s[1..]) + [s[0]]
  }

  /** Reversing a date-sorted history lists the dates in non-increasing order. */
  lemma NewestFirstDescending(s: seq<Measurement>)
    requires SortedByDate(s)
    ensures forall i, j :: 0 <= i < j < |s| ==> NewestFirst(s)[i].date >= NewestFirst(s)[j].date
  {
  }

  datatype Direction = Up | Down | Stable

  datatype Trend = Trend(difference: real, direction: Direction)

  /** The signed change a trend stands for. */
  function Signed(t: Trend): real {
    match t.direction
    case Up => t.difference
    case Down => -t.difference
    case Stable => 0.0
  }

  /** `getWeightTrend` / `getWaistTrend` over the sorted history: nothing for fewer than two
      entries, else the size and direction of the change from the second-to-last entry to
      the last. */
  function TrendOf(sorted: seq<Measurement>): (r: Option<Trend>)
    ensures r.None? <==> |sorted| < 2
    ensures r.Some? ==> r.value.difference >= 0.0
    ensures r.Some? ==>
      var latest, previous := sorted[|sorted| - 1].value, sorted[|sorted| - 2].value;
      && (r.value.direction == Up <==> latest > previous)
      && (r.value.direction == Down <==> latest < previous)
      && previous + Signed(r.value) == latest
  {
    if |sorted| < 2 then None
    else
      var difference := sorted[|sorted| - 1].value - sorted[|sorted| - 2].value;
      Some(Trend(Abs(difference), if difference > 0.0 then Up else if difference < 0.0 then Down else Stable))
  }

  datatype Stats = Stats(max: real, min: real, avg: real, range: real)

  function Values(s: seq<Measurement>): (r: seq<real>)
    ensures |r| == |s|
    ensures forall i :: 0 <= i < |s| ==> r[i] == s[i].value
  {
    if s == [] then [] else [s[0].value] + Values(s[1..])
  }

  /** `Math.max(...xs)`. */
  function MaxOf(xs: seq<real>): (r: real)
    requires |xs| > 0
    ensures r in xs
    ensures forall i :: 0 <= i < |xs| ==> xs[i] <= r
  {
    if |xs| == 1 then xs[0] else Max(xs[0], MaxOf(xs[1..]))
  }

  /** `Math.min(...xs)`. */
  function MinOf(xs: seq<real>): (r: real)
    requires |xs| > 0
    ensures r in xs
    ensures forall i :: 0 <= i < |xs| ==> r <= xs[i]
  {
    if |xs| == 1 then xs[0] else Min(xs[0], MinOf(xs[1..]))
  }

  function SumOf(xs: seq<real>): real {
    if xs == [] then 0.0 else xs[0] + SumOf(xs[1..])
  }

  /** A sum of values in `[lo, hi]` lies between `n·lo` and `n·hi`. */
  lemma {:induction false} SumBetween(xs: seq<real>, lo: real, hi: real)
    requires forall i :: 0 <= i < |xs| ==> lo <= xs[i] <= hi
    ensures |xs| as real * lo <= SumOf(xs) <= |xs| as real * hi
  {
    if xs != [] {
      SumBetween(xs[1..], lo, hi);
    }
  }

  /** The mean of a non-empty list of values in `[lo, hi]` lies in `[lo, hi]`. */
  lemma MeanBetween(xs: seq<real>, lo: real, hi: real)
    requires |xs| > 0
    requires forall i :: 0 <= i < |xs| ==> lo <= xs[i] <= hi
    ensures lo <= SumOf(xs) / |xs| as real <= hi
  {
    SumBetween(xs, lo, hi);
    DivideBounds(SumOf(xs), |xs| as real, lo, hi);
  }

  lemma DivideBounds(sum: real, n: real, lo: real, hi: real)
    requires n > 0.0 && n * lo <= sum <= n * hi
    ensures lo <= sum / n <= hi
  {
  }

  /** `getWeightStats` / `getWaistStats`: nothing for an empty history; otherwise the largest
      and smallest values (both taken from the history), their difference, and the mean to
      one decimal, which lies between them up to the rounding. */
  function StatsOf(sorted: seq<Measurement>): (r: Option<Stats>)
    ensures r.None? <==> sorted == []
    ensures r.Some? ==> r.value.max in Values(sorted) && r.value.min in Values(sorted)
    ensures r.Some? ==> forall i :: 0 <= i < |sorted| ==>
      r.value.min <= sorted[i].value <= r.value.max
    ensures r.Some? ==> r.value.range == r.value.max - r.value.min && r.value.range >= 0.0
    ensures r.Some? ==> r.value.min - 0.05 < r.value.avg <= r.value.max + 0.05
  {
    if sorted == [] then None
    else
      var xs := Values(sorted);
      MeanBetween(xs, MinOf(xs), MaxOf(xs));
      Some(Stats(MaxOf(xs), MinOf(xs), RoundTenth(SumOf(xs) / |xs| as real), MaxOf(xs) - MinOf(xs)))
  }

  /** The statistics of the sorted copy bound every entry of the history as stored:
      sorting loses no value. */
  lemma StatsIgnoreOrder(s: seq<Measurement>)
    requires s != []
    ensures forall i :: 0 <= i < |s| ==>
      StatsOf(SortByDate(s)).value.min <= s[i].value <= StatsOf(SortByDate(s)).value.max
  {
    var sorted := SortByDate(s);
    forall i | 0 <= i < |s|
      ensures StatsOf(sorted).value.min <= s[i].value <= StatsOf(sorted).value.max
    {
      SortedSameEntries(s, s[i]);
      var j :| 0 <= j < |sorted| && sorted[j] == s[i];
    }
  }

  /** `handleAddWeight`'s test: the input must be non-empty and parse to a number above 0. */
  function AcceptedValue(input: Text): (r: Option<real>)
    ensures r.Some? <==> input.Num? && input.value > 0.0
    ensures r.Some? ==> r.value == input.value
  {
    match ParseFloat(input)
    case Some(v) => if v > 0.0 then Some(v) else None
    case None => None
  }

  /** `handleAddWeight`: logs the weight and clears the field when the input is accepted;
      otherwise nothing changes. Returns the field's new text. */
  method HandleAddWeight(tracker: Tracker.CalorieTracker, input: Text, id: int) returns (field: Text)
    modifies tracker
    ensures AcceptedValue(input).Some? ==>
      tracker.data == Tracker.AddWeightOn(old(tracker.data), old(tracker.currentDate), input.value, id)
      && field == Blank
    ensures AcceptedValue(input).None? ==> tracker.data == old(tracker.data) && field == input
    ensures tracker.currentDate == old(tracker.currentDate) && tracker.cache == old(tracker.cache)
    ensures tracker.viewedDate == old(tracker.viewedDate)
  {
    var accepted := AcceptedValue(input);
    if accepted.None? {
      return input;
    }
    tracker.AddWeightEntry(accepted.value, id);
    field := Blank;
  }

  /** `handleAddWaist`: the same test, and also refused when no waist handler was passed in. */
  method HandleAddWaist(tracker: Tracker.CalorieTracker, canAddWaist: bool, input: Text, id: int)
      returns (field: Text)
    modifies tracker
    ensures AcceptedValue(input).Some? && canAddWaist ==>
      tracker.data == Tracker.AddWaistOn(old(tracker.data), old(tracker.currentDate), input.value, id)
      && field == Blank
    ensures AcceptedValue(input).None? || !canAddWaist ==> tracker.data == old(tracker.data) && field == input
    ensures tracker.currentDate == old(tracker.currentDate) && tracker.cache == old(tracker.cache)
    ensures tracker.viewedDate == old(tracker.viewedDate)
  {
    var accepted := AcceptedValue(input);
    if accepted.None? {
      return input;
    }
    if !canAddWaist {
      return input;
    }
    tracker.AddWaistEntry(accepted.value, id);
    field := Blank;
  }

  /** Every entry the tab can add is accepted by the safe filter again: ids from the clock
      are non-zero and the date is set. */
  lemma AddedEntryIsUsable(id: int, value: real, date: Date)
    requires id != 0
    ensures Usable(Entry(id, Some(value), Some(date)))
  {
  }
}
