/** Browser history collection (src/collectors/browser.py): merging entries by URL, and the
    search for a two-hour concentration of visits to one domain.

    URLs are numbers; times are microseconds. */
module Browser {
  import opened Common
  import opened Sorting

  type Url = nat
  type Time = int

  datatype Entry = Entry(url: Url, title: string, visitTime: Time, visitCount: int, browser: string, domain: string)

  /* ---- _deduplicate ---- */

  /** A dict in insertion order. */
  datatype Seen = Seen(order: seq<Url>, entries: map<Url, Entry>)

  function Merged(existing: Entry, e: Entry): Entry {
    existing.(visitCount := existing.visitCount + e.visitCount, visitTime := Max(existing.visitTime, e.visitTime))
  }

  function Merge(seen: Seen, e: Entry): Seen {
    if e.url in seen.entries then seen.(entries := seen.entries[e.url := Merged(seen.entries[e.url], e)])
    else Seen(seen.order + [e.url], seen.entries[e.url := e])
  }

  function MergeAll(entries: seq<Entry>): Seen {
    if entries == [] then Seen([], map[]) else Merge(MergeAll(entries[..|entries| - 1]), entries[|entries| - 1])
  }

  ghost predicate ValidSeen(seen: Seen) { multiset(seen.order) == multiset(seen.entries.Keys) }

  lemma OrderIsKeys(seen: Seen)
    requires ValidSeen(seen)
    ensures forall u :: u in seen.order <==> u in seen.entries
  {
    forall u
      ensures u in seen.order <==> u in seen.entries
    {
      assert u in seen.order <==> u in multiset(seen.order);
    }
  }

  lemma MergeValid(seen: Seen, e: Entry)
    requires ValidSeen(seen)
    ensures ValidSeen(Merge(seen, e))
  {
    if e.url in seen.entries {
      assert seen.entries[e.url := Merged(seen.entries[e.url], e)].Keys == seen.entries.Keys;
    } else {
      assert seen.entries[e.url := e].Keys == seen.entries.Keys + {e.url};
    }
  }

  function ValuesOf(order: seq<Url>, entries: map<Url, Entry>): seq<Entry>
    requires forall u :: u in order ==> u in entries
  {
    seq(|order|, i requires 0 <= i < |order| => entries[order[i]])
  }

  method Deduplicate(entries: seq<Entry>) returns (r: seq<Entry>)
    ensures r == Deduplicated(entries)
  {
    var order: seq<Url> := [];
    var seen: map<Url, Entry> := map[];
    for n := 0 to |entries|
      invariant Seen(order, seen) == MergeAll(entries[..n])
    {
      assert entries[..n + 1][..n] == entries[..n];
      var e := entries[n];
      if e.url in seen {
        var existing := seen[e.url];
        existing := existing.(visitCount := existing.visitCount + e.visitCount);
        if e.visitTime > existing.visitTime {
          existing := existing.(visitTime := e.visitTime);
        }
        seen := seen[e.url := existing];
      } else {
        order := order + [e.url];
        seen := seen[e.url := e];
      }
    }
    assert entries[..|entries|] == entries;
    AllValid(entries);
    OrderIsKeys(MergeAll(entries));
    r := ValuesOf(order, seen);
  }

  lemma {:induction false} AllValid(entries: seq<Entry>)
    ensures ValidSeen(MergeAll(entries))
  {
    if entries != [] {
      AllValid(entries[..|entries| - 1]);
      MergeValid(MergeAll(entries[..|entries| - 1]), entries[|entries| - 1]);
    }
  }

  function Deduplicated(entries: seq<Entry>): seq<Entry> {
    AllValid(entries);
    OrderIsKeys(MergeAll(entries));
    ValuesOf(MergeAll(entries).order, MergeAll(entries).entries)
  }

  /* ---- what the merged entries are ---- */

  /** The URLs in the order of their first occurrence. */
  function FirstSeen(entries: seq<Entry>): seq<Url> {
    if entries == [] then []
    else
      var before, url := FirstSeen(entries[..|entries| - 1]), entries[|entries| - 1].url;
      if url in before then before else before + [url]
  }

  function VisitsTo(entries: seq<Entry>, url: Url): int {
    if entries == [] then 0
    else
      var last := entries[|entries| - 1];
      VisitsTo(entries[..|entries| - 1], url) + if last.url == url then last.visitCount else 0
  }

  function TotalVisits(entries: seq<Entry>): int {
    if entries == [] then 0 else TotalVisits(entries[..|entries| - 1]) + entries[|entries| - 1].visitCount
  }

  ghost predicate IsFirst(entries: seq<Entry>, n: nat) {
    n < |entries| && forall m :: 0 <= m < n ==> entries[m].url != entries[n].url
  }

  /** `time` is the latest visit to the URL. */
  ghost predicate IsLatest(entries: seq<Entry>, url: Url, time: Time) {
    && (forall e :: e in entries && e.url == url ==> e.visitTime <= time)
    && (exists e :: e in entries && e.url == url && e.visitTime == time)
  }

  lemma {:induction false} OrderIsFirstSeen(entries: seq<Entry>)
    ensures MergeAll(entries).order == FirstSeen(entries)
  {
    if entries != [] {
      var front := entries[..|entries| - 1];
      OrderIsFirstSeen(front);
      AllValid(front);
      OrderIsKeys(MergeAll(front));
    }
  }

  /** The record of a URL sums its visits and keeps its latest visit time. */
  lemma {:induction false} RecordMeans(entries: seq<Entry>, url: Url)
    ensures var seen := MergeAll(entries).entries;
            && (url in seen <==> exists e :: e in entries && e.url == url)
            && (url in seen ==> seen[url].url == url && seen[url].visitCount == VisitsTo(entries, url))
            && (url in seen ==> IsLatest(entries, url, seen[url].visitTime))
            && (url !in seen ==> VisitsTo(entries, url) == 0)
  {
    if entries != [] {
      var front, last := entries[..|entries| - 1], entries[|entries| - 1];
      assert entries == front + [last];
      RecordMeans(front, url);
      LatestAppend(front, last, url);
    }
  }

  lemma LatestAppend(entries: seq<Entry>, last: Entry, url: Url)
    ensures last.url != url ==> forall t :: IsLatest(entries + [last], url, t) <==> IsLatest(entries, url, t)
    ensures last.url == url
            ==> forall t :: IsLatest(entries, url, t) ==> IsLatest(entries + [last], url, Max(t, last.visitTime))
    ensures last.url == url && (forall e :: e in entries ==> e.url != url)
            ==> IsLatest(entries + [last], url, last.visitTime)
  {
    forall e ensures e in entries + [last] <==> e in entries || e == last {
    }
  }

  /** The other fields of a record come from the URL's first entry. */
  lemma {:induction false} FieldsOfFirst(entries: seq<Entry>, n: nat)
    requires IsFirst(entries, n)
    ensures var seen := MergeAll(entries).entries; var first := entries[n];
            first.url in seen && seen[first.url].(visitTime := first.visitTime, visitCount := first.visitCount) == first
  {
    var front, last := entries[..|entries| - 1], entries[|entries| - 1];
    if n < |front| {
      assert IsFirst(front, n);
      FieldsOfFirst(front, n);
    } else {
      RecordMeans(front, last.url);
    }
  }

  lemma TotalAppend(entries: seq<Entry>, e: Entry)
    ensures TotalVisits(entries + [e]) == TotalVisits(entries) + e.visitCount
  {
    assert (entries + [e])[..|entries|] == entries;
  }

  /** Changing one record changes the total by the difference of its counts. */
  lemma {:induction false} TotalOfUpdate(order: seq<Url>, seen: map<Url, Entry>, url: Url, e: Entry)
    requires (forall u :: u in order ==> u in seen) && url in seen && multiset(order)[url] <= 1
    ensures TotalVisits(ValuesOf(order, seen[url := e]))
         == TotalVisits(ValuesOf(order, seen)) + if url in order then e.visitCount - seen[url].visitCount else 0
  {
    if order != [] {
      var front, last := order[..|order| - 1], order[|order| - 1];
      assert order == front + [last];
      TotalOfUpdate(front, seen, url, e);
      assert ValuesOf(order, seen) == ValuesOf(front, seen) + [seen[last]];
      assert ValuesOf(order, seen[url := e]) == ValuesOf(front, seen[url := e]) + [seen[url := e][last]];
      TotalAppend(ValuesOf(front, seen), seen[last]);
      TotalAppend(ValuesOf(front, seen[url := e]), seen[url := e][last]);
      if last == url {
        assert url in front <==> url in multiset(front);
      }
    }
  }

  lemma MergeTotal(seen: Seen, e: Entry)
    requires ValidSeen(seen) && ValidSeen(Merge(seen, e))
    requires forall u :: u in seen.order <==> u in seen.entries
    requires forall u :: u in Merge(seen, e).order <==> u in Merge(seen, e).entries
    ensures TotalVisits(ValuesOf(Merge(seen, e).order, Merge(seen, e).entries))
         == TotalVisits(ValuesOf(seen.order, seen.entries)) + e.visitCount
  {
    if e.url in seen.entries {
      TotalOfUpdate(seen.order, seen.entries, e.url, Merged(seen.entries[e.url], e));
    } else {
      var values := ValuesOf(seen.order, seen.entries);
      assert ValuesOf(seen.order + [e.url], seen.entries[e.url := e]) == values + [e];
      TotalAppend(values, e);
    }
  }

  /** No visit is lost or counted twice. */
  lemma {:induction false} VisitsAreConserved(entries: seq<Entry>)
    ensures TotalVisits(Deduplicated(entries)) == TotalVisits(entries)
  {
    if entries != [] {
      var front, last := entries[..|entries| - 1], entries[|entries| - 1];
      VisitsAreConserved(front);
      AllValid(front);
      AllValid(entries);
      OrderIsKeys(MergeAll(front));
      OrderIsKeys(MergeAll(entries));
      MergeTotal(MergeAll(front), last);
    }
  }

  lemma RecordAt(entries: seq<Entry>, k: nat)
    requires k < |Deduplicated(entries)|
    ensures |Deduplicated(entries)| == |FirstSeen(entries)|
    ensures var url := FirstSeen(entries)[k];
            url in MergeAll(entries).entries && Deduplicated(entries)[k] == MergeAll(entries).entries[url]
  {
    AllValid(entries);
    OrderIsKeys(MergeAll(entries));
    OrderIsFirstSeen(entries);
    assert FirstSeen(entries)[k] in MergeAll(entries).order;
  }

  /** One record per URL, in first-seen order, with the URL's visits summed and its latest
      visit time. */
  lemma DeduplicationMeans(entries: seq<Entry>, k: nat)
    requires k < |Deduplicated(entries)|
    ensures |Deduplicated(entries)| == |FirstSeen(entries)|
    ensures var r := Deduplicated(entries)[k];
            && r.url == FirstSeen(entries)[k]
            && r.visitCount == VisitsTo(entries, r.url)
            && IsLatest(entries, r.url, r.visitTime)
  {
    RecordAt(entries, k);
    RecordMeans(entries, FirstSeen(entries)[k]);
  }

  /** Its remaining fields are those of the URL's first entry. */
  lemma DeduplicationKeepsFirst(entries: seq<Entry>, k: nat, n: nat)
    requires k < |Deduplicated(entries)| && IsFirst(entries, n) && entries[n].url == Deduplicated(entries)[k].url
    ensures var r := Deduplicated(entries)[k];
            r.(visitTime := entries[n].visitTime, visitCount := entries[n].visitCount) == entries[n]
  {
    RecordAt(entries, k);
    RecordMeans(entries, FirstSeen(entries)[k]);
    FieldsOfFirst(entries, n);
  }

  /** Every URL occurs in the result, and only once. */
  lemma {:induction false} FirstSeenMeans(entries: seq<Entry>)
    ensures Distinct(FirstSeen(entries))
    ensures forall u :: u in FirstSeen(entries) <==> exists e :: e in entries && e.url == u
  {
    if entries != [] {
      var front, last := entries[..|entries| - 1], entries[|entries| - 1];
      FirstSeenMeans(front);
      assert entries == front + [last];
    }
  }

  /* ---- _find_domain_concentration ---- */

  const WINDOW: Time := 7_200_000_000
  const THRESHOLD: nat := 3

  function TimeOf(): Entry -> Time { (e: Entry) => e.visitTime }

  /** The visits of the window that starts at `anchor`, both ends included. */
  function InWindow(anchor: Time): Entry -> bool {
    (e: Entry) => anchor <= e.visitTime <= anchor + 7_200_000_000
  }

  function WindowCount(entries: seq<Entry>, anchor: Time): nat { Count(entries, InWindow(anchor)) }

  /** The reported window: its count, its anchor and its last visit. */
  datatype Window = Window(count: nat, anchor: Time, last: Time)

  /** `w` is the window of the earliest visit that has enough visits in its window. */
  ghost predicate IsFirstWindow(entries: seq<Entry>, w: Window) {
    && (exists a :: a in entries && a.visitTime == w.anchor)
    && w.count == WindowCount(entries, w.anchor) >= 3
    && (forall b :: b in entries && b.visitTime < w.anchor ==> WindowCount(entries, b.visitTime) < 3)
    && (exists z :: z in entries && z.visitTime == w.last && InWindow(w.anchor)(z))
    && (forall z :: z in entries && InWindow(w.anchor)(z) ==> z.visitTime <= w.last)
  }

  lemma {:induction false} CountSplit<T>(s: seq<T>, n: nat, p: T -> bool)
    requires n <= |s|
    ensures Count(s, p) == Count(s[..n], p) + Count(s[n..], p)
    decreases |s|
  {
    if n < |s| {
      var front := s[..|s| - 1];
      CountSplit(front, n, p);
      assert front[..n] == s[..n];
      assert s[n..][..|s| - n - 1] == front[n..];
    } else {
      assert s[..n] == s;
    }
  }

  lemma {:induction false} CountNone<T>(s: seq<T>, p: T -> bool)
    requires forall i :: 0 <= i < |s| ==> !p(s[i])
    ensures Count(s, p) == 0
  {
    if s != [] {
      CountNone(s[..|s| - 1], p);
    }
  }

  /** [start, end) are the sorted visits from `start` on that the window of `start` reaches. */
  ghost predicate IsSpan(s: seq<Entry>, start: nat, end: nat) {
    && start < end <= |s|
    && s[end - 1].visitTime - s[start].visitTime <= WINDOW
    && (end < |s| ==> s[end].visitTime - s[start].visitTime > WINDOW)
  }

  lemma CountBlock<T>(s: seq<T>, a: nat, b: nat, p: T -> bool)
    requires a <= b <= |s|
    requires forall k :: a <= k < b ==> p(s[k])
    requires forall k :: b <= k < |s| ==> !p(s[k])
    ensures Count(s, p) == Count(s[..a], p) + (b - a)
  {
    CountSplit(s, b, p);
    CountNone(s[b..], p);
    CountSplit(s[..b], a, p);
    assert s[..b][..a] == s[..a];
    CountAll(s[..b][a..], p);
  }

  ghost predicate InTimeOrder(s: seq<Entry>) {
    forall i, j :: 0 <= i <= j < |s| ==> s[i].visitTime <= s[j].visitTime
  }

  lemma SortedByTime(entries: seq<Entry>)
    ensures InTimeOrder(Sorted(entries, TimeOf()))
  {
    var s := Sorted(entries, TimeOf());
    SortedIsOrderedPermutation(entries, TimeOf());
    forall i, j | 0 <= i <= j < |s|
      ensures s[i].visitTime <= s[j].visitTime
    {
      assert TimeOf()(s[i]) <= TimeOf()(s[j]);
    }
  }

  /** A span holds the visits of its window, except for equal times before its start. */
  lemma SpanCount(s: seq<Entry>, start: nat, end: nat)
    requires InTimeOrder(s) && IsSpan(s, start, end)
    ensures start == 0 || s[start - 1].visitTime < s[start].visitTime
            ==> WindowCount(s, s[start].visitTime) == end - start
  {
    var p := InWindow(s[start].visitTime);
    CountBlock(s, start, end, p);
    if start == 0 || s[start - 1].visitTime < s[start].visitTime {
      forall k | 0 <= k < start
        ensures !p(s[..start][k])
      {
        assert s[k].visitTime <= s[start - 1].visitTime;
      }
      CountNone(s[..start], p);
    }
  }

  /** No visit before index `n` anchors a full window. */
  ghost predicate NoneBefore(s: seq<Entry>, n: nat) {
    n <= |s| && forall i :: 0 <= i < n ==> WindowCount(s, s[i].visitTime) < THRESHOLD
  }

  /** The span of a later visit of several at the same time is shorter than their window,
      which did not qualify at the first of them. */
  lemma SpanIsWindow(s: seq<Entry>, start: nat, end: nat)
    requires InTimeOrder(s) && IsSpan(s, start, end) && NoneBefore(s, start)
    ensures var count := WindowCount(s, s[start].visitTime);
            (count >= THRESHOLD <==> end - start >= THRESHOLD) && (count >= THRESHOLD ==> count == end - start)
  {
    SpanCount(s, start, end);
    CountBlock(s, start, end, InWindow(s[start].visitTime));
    if start > 0 && s[start - 1].visitTime == s[start].visitTime {
      assert WindowCount(s, s[start - 1].visitTime) < THRESHOLD;
    }
  }

  lemma NotHere(entries: seq<Entry>, start: nat, end: nat)
    requires var s := Sorted(entries, TimeOf());
             NoneBefore(s, start) && IsSpan(s, start, end) && end - start < THRESHOLD
    ensures NoneBefore(Sorted(entries, TimeOf()), start + 1)
  {
    SortedByTime(entries);
    SpanIsWindow(Sorted(entries, TimeOf()), start, end);
  }

  lemma FirstWindowFound(s: seq<Entry>, start: nat, end: nat)
    requires InTimeOrder(s) && IsSpan(s, start, end) && end - start >= THRESHOLD
    requires NoneBefore(s, start)
    ensures IsFirstWindow(s, Window(end - start, s[start].visitTime, s[end - 1].visitTime))
  {
    SpanIsWindow(s, start, end);
    assert s[start] in s && s[end - 1] in s;
  }

  lemma SameMembers<T>(a: seq<T>, b: seq<T>)
    requires multiset(a) == multiset(b)
    ensures forall x :: x in a <==> x in b
  {
    forall x
      ensures x in a <==> x in b
    {
      assert x in a <==> x in multiset(a);
    }
  }

  lemma SameWindows(entries: seq<Entry>, s: seq<Entry>, w: Window)
    requires s == Sorted(entries, TimeOf()) && IsFirstWindow(s, w)
    ensures IsFirstWindow(entries, w)
  {
    SortedIsOrderedPermutation(entries, TimeOf());
    SameMembers(entries, s);
    forall t: Time
      ensures WindowCount(entries, t) == WindowCount(s, t)
    {
      SortedCount(entries, TimeOf(), InWindow(t));
    }
  }

  /* ---- three visits within two hours ---- */

  ghost predicate Near(a: Entry, b: Entry) { -7_200_000_000 <= a.visitTime - b.visitTime <= 7_200_000_000 }

  /** Three different visits, every two of them at most two hours apart. */
  ghost predicate Cluster(entries: seq<Entry>, i: nat, j: nat, k: nat) {
    i < j < k < |entries|
    && Near(entries[i], entries[j]) && Near(entries[i], entries[k]) && Near(entries[j], entries[k])
  }

  /** An element that satisfies `p` adds one to the count before it. */
  lemma CountUpTo<T>(s: seq<T>, n: nat, i: nat, p: T -> bool)
    requires i < n <= |s| && p(s[i])
    ensures Count(s[..n], p) >= Count(s[..i], p) + 1
  {
    CountSplit(s[..n], i + 1, p);
    assert s[..n][..i + 1] == s[..i] + [s[i]];
    CountAppend(s[..i], s[i], p);
  }

  lemma CountOfThree<T>(s: seq<T>, i: nat, j: nat, k: nat, p: T -> bool)
    requires i < j < k < |s| && p(s[i]) && p(s[j]) && p(s[k])
    ensures Count(s, p) >= 3
  {
    CountUpTo(s, j, i, p);
    CountUpTo(s, k, j, p);
    CountUpTo(s, |s|, k, p);
    assert s[..|s|] == s;
  }

  /** The last element a count counts. */
  lemma {:induction false} LastCounted<T>(s: seq<T>, p: T -> bool) returns (k: nat)
    requires Count(s, p) > 0
    ensures k < |s| && p(s[k]) && Count(s[..k], p) == Count(s, p) - 1
  {
    k := |s| - 1;
    if !p(s[k]) {
      var n := k;
      k := LastCounted(s[..n], p);
      assert s[..n][..k] == s[..k];
    }
  }

  /** Some window is full if and only if three visits lie within two hours of each other. */
  lemma FullWindowIffCluster(entries: seq<Entry>)
    ensures (exists a :: a in entries && WindowCount(entries, a.visitTime) >= THRESHOLD)
       <==> (exists i: nat, j: nat, k: nat :: Cluster(entries, i, j, k))
  {
    if i: nat, j: nat, k: nat :| Cluster(entries, i, j, k) {
      var a := if entries[i].visitTime <= entries[j].visitTime then entries[i] else entries[j];
      a := if a.visitTime <= entries[k].visitTime then a else entries[k];
      CountOfThree(entries, i, j, k, InWindow(a.visitTime));
      assert a in entries;
    }
    if a :| a in entries && WindowCount(entries, a.visitTime) >= THRESHOLD {
      var p := InWindow(a.visitTime);
      var k := LastCounted(entries, p);
      var j := LastCounted(entries[..k], p);
      var i := LastCounted(entries[..k][..j], p);
      assert Cluster(entries, i, j, k);
    }
  }

  lemma WindowFound(entries: seq<Entry>, start: nat, end: nat)
    requires var s := Sorted(entries, TimeOf());
             NoneBefore(s, start) && IsSpan(s, start, end) && end - start >= THRESHOLD
    ensures var s := Sorted(entries, TimeOf());
            IsFirstWindow(entries, Window(end - start, s[start].visitTime, s[end - 1].visitTime))
    ensures exists i: nat, j: nat, k: nat :: Cluster(entries, i, j, k)
  {
    var s := Sorted(entries, TimeOf());
    SortedByTime(entries);
    FirstWindowFound(s, start, end);
    SameWindows(entries, s, Window(end - start, s[start].visitTime, s[end - 1].visitTime));
    FullWindowIffCluster(entries);
  }

  lemma NoWindows(entries: seq<Entry>)
    requires NoneBefore(Sorted(entries, TimeOf()), |Sorted(entries, TimeOf())|)
    ensures forall i: nat, j: nat, k: nat :: !Cluster(entries, i, j, k)
  {
    var s := Sorted(entries, TimeOf());
    SortedIsOrderedPermutation(entries, TimeOf());
    SameMembers(entries, s);
    forall a | a in entries
      ensures WindowCount(entries, a.visitTime) < THRESHOLD
    {
      SortedCount(entries, TimeOf(), InWindow(a.visitTime));
    }
    FullWindowIffCluster(entries);
  }

  /** The scan reports a window if and only if three visits lie within two hours of each
      other, and then it is the first one. */
  method FindDomainConcentration(entries: seq<Entry>, hour: Time -> int) returns (r: Option<Window>, hours: (int, int))
    ensures r.Some? <==> exists i: nat, j: nat, k: nat :: Cluster(entries, i, j, k)
    ensures r.Some? ==> IsFirstWindow(entries, r.value)
    ensures r.Some? ==> hours == (hour(r.value.anchor), hour(r.value.last) + 1)
  {
    hours := (0, 0);
    var s := Sorted(entries, TimeOf());
    for start := 0 to |s|
      invariant NoneBefore(s, start)
    {
      var anchor := s[start].visitTime;
      var end := start;
      while end < |s| && s[end].visitTime - anchor <= WINDOW
        invariant start <= end <= |s|
        invariant start < end ==> s[end - 1].visitTime - anchor <= WINDOW
      {
        end := end + 1;
      }
      assert IsSpan(s, start, end);
      if end - start >= THRESHOLD {
        WindowFound(entries, start, end);
        return Some(Window(end - start, anchor, s[end - 1].visitTime)), (hour(anchor), hour(s[end - 1].visitTime) + 1);
      }
      NotHere(entries, start, end);
    }
    NoWindows(entries);
    r := None;
  }
}
