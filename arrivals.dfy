/**
 * Arrival selection, `get_arrivals` (src/main.py:256-322): from the prediction records of the
 * arrivals endpoint to the entries the board shows. The steps are kept apart so that each can be
 * stated on its own: filter (Candidates), stable sort (StableSort), the slice `[:n]` (Take), and
 * the conversion to entries, which drops records whose timestamp does not parse (ToEntries).
 */
module Arrivals {
  import opened Outcomes
  import Text
  import Query

  /** One record of the arrivals endpoint; every field may be absent from the JSON object. */
  datatype Prediction = Prediction(
    lineId: Option<string>,
    lineName: Option<string>,
    platformName: Option<string>,
    towards: Option<string>,
    destinationName: Option<string>,
    timeToStation: Option<int>,
    expectedArrival: Option<string>)

  /** A display-ready arrival: destination, parsed arrival time (seconds since the epoch), the
      record's `timeToStation` and `lineName` as they came. */
  datatype Entry = Entry(destination: string, arrivalTime: int, timeToStation: Option<int>, lineName: Option<string>)

  /** The `(line id, direction substring)` pairs of one profile. */
  type LineFilter = set<(string, string)>

  /** The JSON body of the arrivals endpoint: a list of records, or any other JSON value. */
  datatype Body = JsonList(items: seq<Prediction>) | JsonOther(isFalsy: bool)

  /** Python truthiness of a body. */
  predicate BodyFalsy(b: Body) {
    match b
    case JsonList(items) => items == []
    case JsonOther(f) => f
  }

  /** `p.get(key, "")` for a string field. */
  function TextOr(o: Option<string>): string {
    if o.Some? then o.value else ""
  }

  /** A string field that is present and non-empty (truthy). */
  predicate Truthy(o: Option<string>) {
    o.Some? && o.value != ""
  }

  /** `timeToStation` order with a missing value as +infinity. */
  predicate KeyLe(a: Option<int>, b: Option<int>) {
    b.None? || (a.Some? && a.value <= b.value)
  }

  /** `p.get("timeToStation", inf) >= earliest_arrival * 60`. */
  predicate PassesThreshold(p: Prediction, earliest: int) {
    p.timeToStation.None? || p.timeToStation.value >= earliest * 60
  }

  /** Some filter pair names the record's lower-cased line and occurs in its lower-cased platform. */
  predicate MatchesFilter(p: Prediction, filter: LineFilter) {
    exists pair :: pair in filter && pair.0 == Text.Lower(TextOr(p.lineId))
      && Text.IsSubstring(pair.1, Text.Lower(TextOr(p.platformName)))
  }

  /** The condition of the list comprehension at src/main.py:278-290. */
  predicate Keep(p: Prediction, filter: LineFilter, earliest: int) {
    && Text.Lower(TextOr(p.lineId)) != ""
    && Text.Lower(TextOr(p.platformName)) != ""
    && PassesThreshold(p, earliest)
    && MatchesFilter(p, filter)
  }

  /** The records that pass the filter, in API order. */
  function Candidates(ps: seq<Prediction>, filter: LineFilter, earliest: int): (r: seq<Prediction>)
    ensures forall p :: p in r <==> p in ps && Keep(p, filter, earliest)
    ensures forall p :: multiset(r)[p] == if Keep(p, filter, earliest) then multiset(ps)[p] else 0
    ensures |r| <= |ps|
  {
    if ps == [] then []
    else
      assert ps == [ps[0]] + ps[1..];
      (if Keep(ps[0], filter, earliest) then [ps[0]] else []) + Candidates(ps[1..], filter, earliest)
  }

  predicate SortedByTime(s: seq<Prediction>) {
    forall i, j :: 0 <= i < j < |s| ==> KeyLe(s[i].timeToStation, s[j].timeToStation)
  }

  /** Inserts `p` before the first element it does not come after; equal keys keep `p` in front. */
  function Insert(p: Prediction, s: seq<Prediction>): (r: seq<Prediction>)
    ensures multiset(r) == multiset(s) + multiset{p}
  {
    if s == [] || KeyLe(p.timeToStation, s[0].timeToStation) then [p] + s
    else assert s == [s[0]] + s[1..]; [s[0]] + Insert(p, s[1..])
  }

  /** `sorted(s, key=lambda p: p.get("timeToStation", math.inf))`, as an insertion sort. */
  function StableSort(s: seq<Prediction>): (r: seq<Prediction>)
    ensures multiset(r) == multiset(s)
  {
    if s == [] then [] else assert s == [s[0]] + s[1..]; Insert(s[0], StableSort(s[1..]))
  }

  lemma InsertSorted(p: Prediction, s: seq<Prediction>)
    requires SortedByTime(s)
    ensures SortedByTime(Insert(p, s))
    decreases |s|
  {
    if s != [] && !KeyLe(p.timeToStation, s[0].timeToStation) {
      var t := Insert(p, s[1..]);
      InsertSorted(p, s[1..]);
      forall x | x in t ensures KeyLe(s[0].timeToStation, x.timeToStation) {
        assert x in multiset(t);
        if x != p {
          assert x in s[1..];
        }
      }
    }
  }

  /** The sort orders by `timeToStation`, missing values last. */
  lemma {:induction false} StableSortSorted(s: seq<Prediction>)
    ensures SortedByTime(StableSort(s))
  {
    if s != [] {
      StableSortSorted(s[1..]);
      InsertSorted(s[0], StableSort(s[1..]));
    }
  }

  /** The records of `s` whose `timeToStation` is `k`, in order. */
  function WithTime(s: seq<Prediction>, k: Option<int>): seq<Prediction> {
    if s == [] then [] else (if s[0].timeToStation == k then [s[0]] else []) + WithTime(s[1..], k)
  }

  /** Picking the records with one key distributes over concatenation. */
  lemma {:induction false} WithTimeAppend(a: seq<Prediction>, b: seq<Prediction>, k: Option<int>)
    ensures WithTime(a + b, k) == WithTime(a, k) + WithTime(b, k)
  {
    if a == [] {
      assert a + b == b;
    } else {
      var h: seq<Prediction> := if a[0].timeToStation == k then [a[0]] else [];
      assert (a + b)[0] == a[0];
      assert (a + b)[1..] == a[1..] + b;
      WithTimeAppend(a[1..], b, k);
      calc {
        WithTime(a + b, k);
        h + WithTime(a[1..] + b, k);
        h + (WithTime(a[1..], k) + WithTime(b, k));
        (h + WithTime(a[1..], k)) + WithTime(b, k);
      }
    }
  }

  /** Filtering keeps the API order of the records with each key: the records with key `k` among
      the candidates are the candidates among the records with key `k`. */
  lemma {:induction false} CandidatesWithTime(ps: seq<Prediction>, filter: LineFilter, earliest: int, k: Option<int>)
    ensures WithTime(Candidates(ps, filter, earliest), k) == Candidates(WithTime(ps, k), filter, earliest)
  {
    if ps != [] {
      var x, t := ps[0], ps[1..];
      var both: seq<Prediction> := if Keep(x, filter, earliest) && x.timeToStation == k then [x] else [];
      CandidatesWithTime(t, filter, earliest, k);
      var c := Candidates(ps, filter, earliest);
      if Keep(x, filter, earliest) {
        assert c == [x] + Candidates(t, filter, earliest);
        assert c[0] == x && c[1..] == Candidates(t, filter, earliest);
      } else {
        assert c == Candidates(t, filter, earliest);
      }
      assert WithTime(c, k) == both + Candidates(WithTime(t, k), filter, earliest);
      var w := WithTime(ps, k);
      if x.timeToStation == k {
        assert w == [x] + WithTime(t, k);
        assert w[0] == x && w[1..] == WithTime(t, k);
      } else {
        assert w == WithTime(t, k);
      }
    }
  }

  /** The records of `[x] + t` with key `k`. */
  lemma WithTimeCons(x: Prediction, t: seq<Prediction>, k: Option<int>)
    ensures WithTime([x] + t, k) == (if x.timeToStation == k then [x] else []) + WithTime(t, k)
  {
  }

  lemma {:induction false} InsertWithTime(p: Prediction, s: seq<Prediction>, k: Option<int>)
    requires SortedByTime(s)
    ensures WithTime(Insert(p, s), k) == (if p.timeToStation == k then [p] else []) + WithTime(s, k)
    decreases |s|
  {
    if s == [] || KeyLe(p.timeToStation, s[0].timeToStation) {
      WithTimeCons(p, s, k);
    } else {
      var x, t := s[0], s[1..];
      assert s == [x] + t;
      assert SortedByTime(t);
      assert x.timeToStation != p.timeToStation;
      InsertWithTime(p, t, k);
      WithTimeCons(x, Insert(p, t), k);
      WithTimeCons(x, t, k);
      var cp: seq<Prediction> := if p.timeToStation == k then [p] else [];
      var cx: seq<Prediction> := if x.timeToStation == k then [x] else [];
      assert cp == [] || cx == [];
      calc {
        WithTime(Insert(p, s), k);
        cx + WithTime(Insert(p, t), k);
        cx + (cp + WithTime(t, k));
        { assert cx + cp == cp + cx; }
        cp + (cx + WithTime(t, k));
        cp + WithTime(s, k);
      }
    }
  }

  /** The sort is stable: for every key, the records with that key keep their API order. */
  lemma {:induction false} StableSortStable(s: seq<Prediction>, k: Option<int>)
    ensures WithTime(StableSort(s), k) == WithTime(s, k)
  {
    if s != [] {
      StableSortSorted(s[1..]);
      InsertWithTime(s[0], StableSort(s[1..]), k);
      StableSortStable(s[1..], k);
    }
  }

  /** Python's `s[:n]`, negative `n` included. */
  function Take<T>(s: seq<T>, n: int): (r: seq<T>)
    ensures |r| <= |s| && r == s[..|r|]
    ensures n >= 0 ==> |r| == if n <= |s| then n else |s|
    ensures n < 0 ==> |r| == if |s| + n > 0 then |s| + n else 0
  {
    if n >= 0 then (if n <= |s| then s[..n] else s)
    else if |s| + n > 0 then s[..|s| + n]
    else []
  }

  /** `arrival.get("towards") or arrival.get("destinationName")`, else the placeholder. */
  function Destination(p: Prediction): (d: string)
    ensures d != ""
  {
    if Truthy(p.towards) then p.towards.value
    else if Truthy(p.destinationName) then p.destinationName.value
    else "Unknown Destination"
  }

  /** The entry for one selected record, or None when `expectedArrival` is missing, empty or does
      not parse. `parse` stands for `strptime(..., "%Y-%m-%dT%H:%M:%SZ")` read as UTC. */
  function ToEntry(p: Prediction, parse: string -> Option<int>): Option<Entry> {
    if Truthy(p.expectedArrival) && parse(p.expectedArrival.value).Some? then
      Some(Entry(Destination(p), parse(p.expectedArrival.value).value, p.timeToStation, p.lineName))
    else None
  }

  function ToEntries(s: seq<Prediction>, parse: string -> Option<int>): seq<Entry> {
    if s == [] then []
    else (match ToEntry(s[0], parse) case Some(e) => [e] case None => []) + ToEntries(s[1..], parse)
  }

  /** The selection of `get_arrivals` for a list body. */
  function Select(ps: seq<Prediction>, filter: LineFilter, earliest: int, n: int, parse: string -> Option<int>): seq<Entry> {
    ToEntries(Take(StableSort(Candidates(ps, filter, earliest)), n), parse)
  }

  /** `get_arrivals`: a raised fetch or a body that is not a list gives the empty list. */
  function GetArrivals(reply: Query.Reply<Body>, filter: LineFilter, earliest: int, n: int, parse: string -> Option<int>): seq<Entry> {
    match reply
    case Raised => []
    case Returned(JsonList(items)) => Select(items, filter, earliest, n, parse)
    case Returned(JsonOther(_)) => []
  }

  /** The entries are exactly those of the records whose timestamp parses. */
  lemma {:induction false} ToEntriesMembers(s: seq<Prediction>, parse: string -> Option<int>)
    ensures forall e :: e in ToEntries(s, parse) <==> exists p :: p in s && ToEntry(p, parse) == Some(e)
  {
    if s != [] {
      ToEntriesMembers(s[1..], parse);
      assert forall p :: p in s <==> p == s[0] || p in s[1..];
    }
  }

  /**
   * The selected entries are exactly the entries of the records in the slice `[:n]` of the sorted
   * candidates whose timestamps parse. Each of them comes from a record that passed the filter: a
   * non-empty line id equal to a filter line, a non-empty platform containing that pair's
   * direction, and a `timeToStation` that is missing or at least the threshold.
   */
  lemma SelectFromKept(ps: seq<Prediction>, filter: LineFilter, earliest: int, n: int, parse: string -> Option<int>)
    ensures forall e :: e in Select(ps, filter, earliest, n, parse) <==>
      exists p :: p in Take(StableSort(Candidates(ps, filter, earliest)), n) && ToEntry(p, parse) == Some(e)
    ensures forall e :: e in Select(ps, filter, earliest, n, parse) ==>
      exists p :: p in ps && Keep(p, filter, earliest) && ToEntry(p, parse) == Some(e)
  {
    var c := Candidates(ps, filter, earliest);
    var t := Take(StableSort(c), n);
    ToEntriesMembers(t, parse);
    forall p | p in t ensures p in c {
      assert p in StableSort(c);
      assert p in multiset(StableSort(c));
    }
  }

  /** The entries with key `k`, in order. */
  function EntriesWithTime(s: seq<Entry>, k: Option<int>): seq<Entry> {
    if s == [] then [] else (if s[0].timeToStation == k then [s[0]] else []) + EntriesWithTime(s[1..], k)
  }

  lemma {:induction false} EntriesWithTimeAppend(a: seq<Entry>, b: seq<Entry>, k: Option<int>)
    ensures EntriesWithTime(a + b, k) == EntriesWithTime(a, k) + EntriesWithTime(b, k)
  {
    if a == [] {
      assert a + b == b;
    } else {
      var h: seq<Entry> := if a[0].timeToStation == k then [a[0]] else [];
      assert (a + b)[0] == a[0];
      assert (a + b)[1..] == a[1..] + b;
      EntriesWithTimeAppend(a[1..], b, k);
      calc {
        EntriesWithTime(a + b, k);
        h + EntriesWithTime(a[1..] + b, k);
        h + (EntriesWithTime(a[1..], k) + EntriesWithTime(b, k));
        (h + EntriesWithTime(a[1..], k)) + EntriesWithTime(b, k);
      }
    }
  }

  /** An entry keeps its record's `timeToStation`, so converting commutes with picking one key. */
  lemma {:induction false} ToEntriesWithTime(s: seq<Prediction>, k: Option<int>, parse: string -> Option<int>)
    ensures EntriesWithTime(ToEntries(s, parse), k) == ToEntries(WithTime(s, k), parse)
  {
    if s != [] {
      var x, t := s[0], s[1..];
      var hd: seq<Entry> := match ToEntry(x, parse) case Some(e) => [e] case None => [];
      assert ToEntries(s, parse) == hd + ToEntries(t, parse);
      ToEntriesWithTime(t, k, parse);
      EntriesWithTimeAppend(hd, ToEntries(t, parse), k);
      if x.timeToStation == k {
        assert EntriesWithTime(hd, k) == hd;
        var w := WithTime(s, k);
        assert w == [x] + WithTime(t, k);
        assert w[0] == x && w[1..] == WithTime(t, k);
        assert ToEntries(w, parse) == hd + ToEntries(WithTime(t, k), parse);
      } else {
        assert EntriesWithTime(hd, k) == [];
        assert WithTime(s, k) == WithTime(t, k);
      }
    }
  }

  /** The records with key `k` in a slice `[:n]` are a prefix of the records with key `k`. */
  lemma TakeWithTime(s: seq<Prediction>, n: int, k: Option<int>)
    ensures var w, wt := WithTime(s, k), WithTime(Take(s, n), k);
      |wt| <= |w| && wt == w[..|wt|]
  {
    var t := Take(s, n);
    assert s == t + s[|t|..];
    WithTimeAppend(t, s[|t|..], k);
  }

  /**
   * The selection is stable in API order: for every key `k`, the selected entries with key `k`
   * are, in order, the entries of a prefix of the filtered records with key `k` as the API
   * listed them.
   */
  lemma SelectStable(ps: seq<Prediction>, filter: LineFilter, earliest: int, n: int, parse: string -> Option<int>, k: Option<int>)
    ensures var api := Candidates(WithTime(ps, k), filter, earliest);
      exists m :: 0 <= m <= |api| && EntriesWithTime(Select(ps, filter, earliest, n, parse), k) == ToEntries(api[..m], parse)
  {
    var c := Candidates(ps, filter, earliest);
    var t := Take(StableSort(c), n);
    var api := Candidates(WithTime(ps, k), filter, earliest);
    ToEntriesWithTime(t, k, parse);
    TakeWithTime(StableSort(c), n, k);
    StableSortStable(c, k);
    CandidatesWithTime(ps, filter, earliest, k);
    var m := |WithTime(t, k)|;
    assert WithTime(t, k) == api[..m];
    assert EntriesWithTime(Select(ps, filter, earliest, n, parse), k) == ToEntries(api[..m], parse);
  }

  /** No selected entry is below the earliest-arrival threshold. */
  lemma SelectAboveThreshold(ps: seq<Prediction>, filter: LineFilter, earliest: int, n: int, parse: string -> Option<int>)
    ensures forall e :: e in Select(ps, filter, earliest, n, parse) ==>
      e.timeToStation.None? || e.timeToStation.value >= earliest * 60
  {
    SelectFromKept(ps, filter, earliest, n, parse);
  }

  predicate EntriesSorted(s: seq<Entry>) {
    forall i, j :: 0 <= i < j < |s| ==> KeyLe(s[i].timeToStation, s[j].timeToStation)
  }

  lemma {:induction false} ToEntriesSorted(s: seq<Prediction>, parse: string -> Option<int>)
    requires SortedByTime(s)
    ensures EntriesSorted(ToEntries(s, parse))
    ensures forall e :: e in ToEntries(s, parse) ==> s != [] && KeyLe(s[0].timeToStation, e.timeToStation)
  {
    if s != [] {
      assert SortedByTime(s[1..]);
      ToEntriesSorted(s[1..], parse);
      var rest := ToEntries(s[1..], parse);
      forall e | e in rest ensures KeyLe(s[0].timeToStation, e.timeToStation) {
        assert KeyLe(s[1].timeToStation, e.timeToStation);
      }
    }
  }

  /** The selection is in ascending `timeToStation` order, missing values last. */
  lemma SelectSorted(ps: seq<Prediction>, filter: LineFilter, earliest: int, n: int, parse: string -> Option<int>)
    ensures EntriesSorted(Select(ps, filter, earliest, n, parse))
  {
    var s := StableSort(Candidates(ps, filter, earliest));
    StableSortSorted(Candidates(ps, filter, earliest));
    var t := Take(s, n);
    assert SortedByTime(t);
    ToEntriesSorted(t, parse);
  }

  lemma {:induction false} ToEntriesLength(s: seq<Prediction>, parse: string -> Option<int>)
    ensures |ToEntries(s, parse)| <= |s|
    ensures |ToEntries(s, parse)| == |s| <==> forall p :: p in s ==> ToEntry(p, parse).Some?
  {
    if s != [] {
      ToEntriesLength(s[1..], parse);
      assert forall p :: p in s <==> p == s[0] || p in s[1..];
    }
  }

  /** At most `n` entries are selected, and the slice comes before the timestamp check: the
      selection is shorter than the slice exactly when a sliced record has a bad timestamp,
      and later records are not moved up to fill its place. */
  lemma SelectLength(ps: seq<Prediction>, filter: LineFilter, earliest: int, n: int, parse: string -> Option<int>)
    ensures n >= 0 ==> |Select(ps, filter, earliest, n, parse)| <= n
    ensures var t := Take(StableSort(Candidates(ps, filter, earliest)), n);
      |Select(ps, filter, earliest, n, parse)| == |t| <==> forall p :: p in t ==> ToEntry(p, parse).Some?
  {
    ToEntriesLength(Take(StableSort(Candidates(ps, filter, earliest)), n), parse);
  }

  /** A failed fetch and a non-list body both give the empty selection. */
  lemma FailedFetchEmpty(reply: Query.Reply<Body>, filter: LineFilter, earliest: int, n: int, parse: string -> Option<int>)
    requires reply.Raised? || reply.body.JsonOther?
    ensures GetArrivals(reply, filter, earliest, n, parse) == []
  {
  }
}
