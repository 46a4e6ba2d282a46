/**
 * What a table of metrics adds up to.
 *
 * A book maps each bucket to the sum, count, extremes, last epoch and estimated flag of what fell
 * into it. Two books are told apart by their totals over selections of buckets, so a step that moves
 * or merges buckets is described by what it does to every total.
 */
module MetricBooks {
  import opened Prelude

  /** Quotas and events are neither summed nor averaged. */
  datatype Instrument = Counter | Gauge | Other

  datatype Series = Series(metric: string, instrument: Instrument, unit: string, source: string,
                           resource: string, dimensions: map<string, string>)

  datatype Key = Key(epoch: int, resolution: int, series: Series)

  /** `total` is the sum of a counter, the sample-weighted sum of a gauge, and 0 for the rest. */
  datatype Summary =
    | Empty
    | Summary(total: real, count: nat, low: real, high: real, last: int, estimated: bool)

  function MinReal(a: real, b: real): real {
    if b < a then b else a
  }

  function MaxReal(a: real, b: real): real {
    if b > a then b else a
  }

  function Merge(a: Summary, b: Summary): Summary {
    if a.Empty? then b
    else if b.Empty? then a
    else Summary(a.total + b.total, a.count + b.count, MinReal(a.low, b.low), MaxReal(a.high, b.high),
                 Max(a.last, b.last), a.estimated || b.estimated)
  }

  lemma MergeIsCommutativeMonoid(a: Summary, b: Summary, c: Summary)
    ensures Merge(a, Empty) == a && Merge(Empty, a) == a
    ensures Merge(a, b) == Merge(b, a)
    ensures Merge(Merge(a, b), c) == Merge(a, Merge(b, c))
  {
  }

  type Book<!K> = book: map<K, Summary> | forall k :: k in book ==> book[k] != Empty witness map[]

  type Selector<!K> = K -> bool

  function Picked<K>(pick: Selector<K>, k: K, s: Summary): Summary {
    if pick(k) then s else Empty
  }

  /** The merged contents of the buckets a selector picks. */
  ghost function Total<K>(book: Book<K>, pick: Selector<K>): Summary
    decreases |book|
  {
    if book == map[] then Empty else
    var k :| k in book;
    Merge(Total(book - {k}, pick), Picked(pick, k, book[k]))
  }

  lemma {:induction false} TotalWithout<K>(book: Book<K>, k: K, pick: Selector<K>)
    requires k in book
    ensures Total(book, pick) == Merge(Total(book - {k}, pick), Picked(pick, k, book[k]))
    decreases |book|
  {
    var j :| j in book && Total(book, pick) == Merge(Total(book - {j}, pick), Picked(pick, j, book[j]));
    if j != k {
      TotalWithout(book - {j}, k, pick);
      TotalWithout(book - {k}, j, pick);
      assert book - {j} - {k} == book - {k} - {j};
      var rest, x, y := Total(book - {j} - {k}, pick), Picked(pick, k, book[k]), Picked(pick, j, book[j]);
      MergeIsCommutativeMonoid(rest, x, y);
      MergeIsCommutativeMonoid(rest, y, x);
      MergeIsCommutativeMonoid(x, y, rest);
    }
  }

  lemma {:induction false} SameSelectionSameTotal<K>(book: Book<K>, p: Selector<K>, q: Selector<K>)
    requires forall k :: k in book ==> p(k) == q(k)
    ensures Total(book, p) == Total(book, q)
    decreases |book|
  {
    if book != map[] {
      var k :| k in book;
      TotalWithout(book, k, p);
      TotalWithout(book, k, q);
      SameSelectionSameTotal(book - {k}, p, q);
    }
  }

  lemma {:induction false} NothingSelected<K>(book: Book<K>, pick: Selector<K>)
    requires forall k :: k in book ==> !pick(k)
    ensures Total(book, pick) == Empty
    decreases |book|
  {
    if book != map[] {
      var k :| k in book;
      TotalWithout(book, k, pick);
      NothingSelected(book - {k}, pick);
    }
  }

  function At<K>(book: Book<K>, k: K): Summary {
    if k in book then book[k] else Empty
  }

  function Only<K(==)>(k: K): Selector<K> {
    j => j == k
  }

  lemma TotalOfOne<K>(book: Book<K>, k: K)
    ensures Total(book, Only(k)) == At(book, k)
  {
    if k in book {
      TotalWithout(book, k, Only(k));
      NothingSelected(book - {k}, Only(k));
    } else {
      NothingSelected(book, Only(k));
    }
  }

  /** Totals determine a book. */
  lemma SameTotalsSameBook<K>(a: Book<K>, b: Book<K>)
    requires forall pick :: Total(a, pick) == Total(b, pick)
    ensures a == b
  {
    forall k | k in a || k in b
      ensures k in a && k in b && a[k] == b[k]
    {
      TotalOfOne(a, k);
      TotalOfOne(b, k);
      assert Total(a, Only(k)) == Total(b, Only(k));
    }
  }

  /** Merging one summary into a bucket. */
  function Add<K>(book: Book<K>, k: K, s: Summary): Book<K>
    requires s != Empty
  {
    book[k := Merge(At(book, k), s)]
  }

  lemma TotalAdd<K>(book: Book<K>, k: K, s: Summary, pick: Selector<K>)
    requires s != Empty
    ensures Total(Add(book, k, s), pick) == Merge(Total(book, pick), Picked(pick, k, s))
  {
    var after := Add(book, k, s);
    TotalWithout(after, k, pick);
    assert after - {k} == book - {k};
    if k in book {
      TotalWithout(book, k, pick);
      MergeIsCommutativeMonoid(Total(book - {k}, pick), Picked(pick, k, book[k]), Picked(pick, k, s));
    } else {
      assert book - {k} == book;
    }
  }

  function Both<K>(p: Selector<K>, q: Selector<K>): Selector<K> {
    k => p(k) && q(k)
  }

  function Without<K>(p: Selector<K>, q: Selector<K>): Selector<K> {
    k => p(k) && !q(k)
  }

  /** A total splits into what a second selector picks and what it does not. */
  lemma {:induction false} TotalSplit<K>(book: Book<K>, p: Selector<K>, q: Selector<K>)
    ensures Total(book, p) == Merge(Total(book, Without(p, q)), Total(book, Both(p, q)))
    decreases |book|
  {
    if book != map[] {
      var k :| k in book;
      var out, both := Without(p, q), Both(p, q);
      TotalWithout(book, k, p);
      TotalWithout(book, k, out);
      TotalWithout(book, k, both);
      TotalSplit(book - {k}, p, q);
      var x, a, b := Picked(p, k, book[k]), Total(book - {k}, out), Total(book - {k}, both);
      SplitOne(a, b, x);
    }
  }

  lemma SplitOne(a: Summary, b: Summary, x: Summary)
    ensures Merge(Merge(a, b), x) == Merge(Merge(a, x), b) == Merge(a, Merge(b, x))
    ensures Merge(Merge(a, Empty), Merge(b, x)) == Merge(Merge(a, b), x)
    ensures Merge(Merge(a, x), Merge(b, Empty)) == Merge(Merge(a, b), x)
  {
    MergeIsCommutativeMonoid(a, b, x);
    MergeIsCommutativeMonoid(a, x, b);
    MergeIsCommutativeMonoid(b, x, a);
  }

  function Kept<K>(book: Book<K>, keep: Selector<K>): Book<K> {
    map k | k in book && keep(k) :: book[k]
  }

  /** Deleting buckets is the same as not selecting them. */
  lemma {:induction false} TotalKept<K>(book: Book<K>, keep: Selector<K>, pick: Selector<K>)
    ensures Total(Kept(book, keep), pick) == Total(book, Both(keep, pick))
    decreases |book|
  {
    var both := Both(keep, pick);
    if book == map[] {
      assert Kept(book, keep) == map[];
    } else {
      var k :| k in book;
      TotalWithout(book, k, both);
      TotalKept(book - {k}, keep, pick);
      KeptWithout(book, keep, k);
      if keep(k) {
        TotalWithout(Kept(book, keep), k, pick);
      }
    }
  }

  lemma KeptWithout<K>(book: Book<K>, keep: Selector<K>, k: K)
    requires k in book
    ensures Kept(book - {k}, keep) == Kept(book, keep) - {k}
    ensures !keep(k) ==> Kept(book - {k}, keep) == Kept(book, keep)
  {
  }

  /** A summary on its way into a book. */
  datatype Entry<K> = Entry(key: K, summary: Summary)

  ghost function EntriesTotal<K>(entries: seq<Entry<K>>, pick: Selector<K>): Summary {
    if entries == [] then Empty else
    var n := |entries| - 1;
    Merge(EntriesTotal(entries[..n], pick), Picked(pick, entries[n].key, entries[n].summary))
  }

  function Posted<K>(book: Book<K>, entries: seq<Entry<K>>): Book<K>
    requires forall e :: e in entries ==> e.summary != Empty
  {
    if entries == [] then book else
    var n := |entries| - 1;
    Add(Posted(book, entries[..n]), entries[n].key, entries[n].summary)
  }

  lemma {:induction false} EntriesTotalConcat<K>(a: seq<Entry<K>>, b: seq<Entry<K>>, pick: Selector<K>)
    ensures EntriesTotal(a + b, pick) == Merge(EntriesTotal(a, pick), EntriesTotal(b, pick))
  {
    if b == [] {
      assert a + b == a;
    } else {
      var n := |b| - 1;
      assert (a + b)[..|a| + n] == a + b[..n];
      EntriesTotalConcat(a, b[..n], pick);
      MergeIsCommutativeMonoid(EntriesTotal(a, pick), EntriesTotal(b[..n], pick), Picked(pick, b[n].key, b[n].summary));
    }
  }

  lemma {:induction false} SameSelectionSameEntries<K>(entries: seq<Entry<K>>, p: Selector<K>, q: Selector<K>)
    requires forall e :: e in entries ==> p(e.key) == q(e.key)
    ensures EntriesTotal(entries, p) == EntriesTotal(entries, q)
  {
    if entries != [] {
      SameSelectionSameEntries(entries[..|entries| - 1], p, q);
    }
  }

  lemma PostedNext<K>(book: Book<K>, entries: seq<Entry<K>>, i: nat)
    requires i < |entries|
    requires forall e :: e in entries ==> e.summary != Empty
    ensures Posted(book, entries[..i + 1]) == Add(Posted(book, entries[..i]), entries[i].key, entries[i].summary)
  {
    assert entries[..i + 1][..i] == entries[..i];
  }

  /** What holds of the buckets of a book and of what is posted to it holds of all its buckets afterwards. */
  lemma {:induction false} PostedHolds<K>(book: Book<K>, entries: seq<Entry<K>>, holds: Selector<K>)
    requires forall e :: e in entries ==> e.summary != Empty && holds(e.key)
    requires forall k :: k in book ==> holds(k)
    ensures forall k :: k in Posted(book, entries) ==> holds(k)
  {
    if entries != [] {
      PostedHolds(book, entries[..|entries| - 1], holds);
    }
  }

  lemma PostedAppend<K>(book: Book<K>, entries: seq<Entry<K>>, e: Entry<K>)
    requires e.summary != Empty && forall e :: e in entries ==> e.summary != Empty
    ensures Posted(book, entries + [e]) == Add(Posted(book, entries), e.key, e.summary)
  {
    assert (entries + [e])[..|entries|] == entries;
  }

  lemma MovedAppend<K, J>(entries: seq<Entry<K>>, e: Entry<K>, move: K -> J)
    ensures Moved(entries + [e], move) == Moved(entries, move) + [Entry(move(e.key), e.summary)]
  {
    assert (entries + [e])[..|entries|] == entries;
  }

  lemma KeptOneMore<K>(entries: seq<Entry<K>>, i: nat, keep: Selector<K>)
    requires i < |entries|
    ensures KeptEntries(entries[..i + 1], keep)
         == if keep(entries[i].key) then KeptEntries(entries[..i], keep) + [entries[i]]
            else KeptEntries(entries[..i], keep)
  {
    assert entries[..i + 1][..i] == entries[..i];
  }

  lemma {:induction false} TotalPosted<K>(book: Book<K>, entries: seq<Entry<K>>, pick: Selector<K>)
    requires forall e :: e in entries ==> e.summary != Empty
    ensures Total(Posted(book, entries), pick) == Merge(Total(book, pick), EntriesTotal(entries, pick))
  {
    if entries == [] {
    } else {
      var n := |entries| - 1;
      var e := entries[n];
      assert entries[..n] + [e] == entries;
      TotalPosted(book, entries[..n], pick);
      TotalAdd(Posted(book, entries[..n]), e.key, e.summary, pick);
      MergeIsCommutativeMonoid(Total(book, pick), EntriesTotal(entries[..n], pick), Picked(pick, e.key, e.summary));
    }
  }

  /** The entries name each bucket of the book once, with its contents. */
  ghost predicate Lists<K>(entries: seq<Entry<K>>, book: Book<K>) {
    && (forall i :: 0 <= i < |entries| ==> entries[i].key in book && entries[i].summary == book[entries[i].key])
    && (forall i, j :: 0 <= i < j < |entries| ==> entries[i].key != entries[j].key)
    && (forall k :: k in book ==> exists i :: 0 <= i < |entries| && entries[i].key == k)
  }

  lemma ListingLength<K>(entries: seq<Entry<K>>, book: Book<K>)
    requires Lists(entries, book)
    ensures |entries| == |book|
    decreases |entries|
  {
    if entries == [] {
      assert book == map[];
    } else {
      ListingWithoutLast(entries, book);
      ListingLength(entries[..|entries| - 1], book - {entries[|entries| - 1].key});
    }
  }

  lemma ListingWithoutLast<K>(entries: seq<Entry<K>>, book: Book<K>)
    requires entries != [] && Lists(entries, book)
    ensures Lists(entries[..|entries| - 1], book - {entries[|entries| - 1].key})
  {
    var n := |entries| - 1;
    forall j | j in book - {entries[n].key}
      ensures exists i :: 0 <= i < |entries[..n]| && entries[..n][i].key == j
    {
      var i :| 0 <= i < |entries| && entries[i].key == j;
      assert entries[..n][i].key == j;
    }
  }

  lemma {:induction false} ListingTotal<K>(entries: seq<Entry<K>>, book: Book<K>, pick: Selector<K>)
    requires Lists(entries, book)
    ensures EntriesTotal(entries, pick) == Total(book, pick)
  {
    if entries == [] {
      assert book == map[];
    } else {
      var n := |entries| - 1;
      var k := entries[n].key;
      ListingWithoutLast(entries, book);
      ListingTotal(entries[..n], book - {k}, pick);
      TotalWithout(book, k, pick);
    }
  }

  /** Moving entries to other buckets is undone on the side of the selector. */
  function Moved<K, J>(entries: seq<Entry<K>>, move: K -> J): (r: seq<Entry<J>>)
    ensures |r| == |entries|
    ensures forall i :: 0 <= i < |r| ==> r[i] == Entry(move(entries[i].key), entries[i].summary)
  {
    if entries == [] then [] else
    var n := |entries| - 1;
    Moved(entries[..n], move) + [Entry(move(entries[n].key), entries[n].summary)]
  }

  function Through<K, J>(move: K -> J, pick: Selector<J>): Selector<K> {
    k => pick(move(k))
  }

  /** A move that a selector does not notice. */
  lemma ShiftUnseen<K>(book: Book<K>, move: K -> K, pick: Selector<K>)
    requires forall k :: pick(move(k)) == pick(k)
    ensures Total(Shift(book, move), pick) == Total(book, pick)
  {
    TotalShift(book, move, pick);
    forall k | k in book
      ensures Through(move, pick)(k) == pick(k)
    {
      assert pick(move(k)) == pick(k);
    }
    SameSelectionSameTotal(book, Through(move, pick), pick);
  }

  /** Merging into one set of buckets and moving those on is merging into the final buckets at once. */
  lemma ShiftPosted<K, J, L>(entries: seq<Entry<K>>, first: K -> J, second: J -> L, whole: K -> L)
    requires forall e :: e in entries ==> e.summary != Empty && second(first(e.key)) == whole(e.key)
    ensures Shift(Posted(map[], Moved(entries, first)), second) == Posted(map[], Moved(entries, whole))
  {
    var middle: Book<J> := Posted(map[], Moved(entries, first));
    forall pick: Selector<L>
      ensures Total(Shift(middle, second), pick) == Total(Posted(map[], Moved(entries, whole)), pick)
    {
      var on := Through(second, pick);
      TotalShift(middle, second, pick);
      TotalPosted(map[], Moved(entries, first), on);
      MovedTotal(entries, first, on);
      TotalPosted(map[], Moved(entries, whole), pick);
      MovedTotal(entries, whole, pick);
      forall e | e in entries
        ensures Through(first, on)(e.key) == Through(whole, pick)(e.key)
      {
        assert on(first(e.key)) == pick(second(first(e.key)));
      }
      SameSelectionSameEntries(entries, Through(first, on), Through(whole, pick));
    }
    SameTotalsSameBook(Shift(middle, second), Posted(map[], Moved(entries, whole)));
  }

  /** A book cut in two, one part laid over another book, still adds up. */
  lemma PlusKept<K>(a: Book<K>, b: Book<K>, p: Selector<K>, q: Selector<K>)
    requires forall k :: k in b ==> p(k) != q(k)
    ensures Plus(Plus(a, Kept(b, p)), Kept(b, q)) == Plus(a, b)
  {
    var left := Plus(Plus(a, Kept(b, p)), Kept(b, q));
    forall k
      ensures At(left, k) == At(Plus(a, b), k)
    {
      if k in b {
        assert At(Kept(b, p), k) == if p(k) then b[k] else Empty;
        assert At(Kept(b, q), k) == if q(k) then b[k] else Empty;
      }
      MergeIsCommutativeMonoid(At(a, k), At(b, k), Empty);
    }
    SameContentsSameBook(left, Plus(a, b));
  }

  function KeptEntries<K>(entries: seq<Entry<K>>, keep: Selector<K>): (r: seq<Entry<K>>)
    ensures forall e :: e in r ==> e in entries && keep(e.key)
  {
    if entries == [] then [] else
    var n := |entries| - 1;
    KeptEntries(entries[..n], keep) + if keep(entries[n].key) then [entries[n]] else []
  }

  /** A first move that neither decides what is kept nor where it goes in the end can be left out. */
  lemma {:induction false} FirstMoveIsLeftOut<K, J>(entries: seq<Entry<K>>, first: K -> K, keep: Selector<K>,
                                                    last: K -> J)
    requires forall e :: e in entries ==> keep(first(e.key)) == keep(e.key)
    requires forall e :: e in entries && keep(e.key) ==> last(first(e.key)) == last(e.key)
    ensures Moved(KeptEntries(Moved(entries, first), keep), last) == Moved(KeptEntries(entries, keep), last)
  {
    if entries != [] {
      var n := |entries| - 1;
      var less, e := entries[..n], entries[n];
      assert entries == less + [e];
      FirstMoveIsLeftOut(less, first, keep, last);
      var moved := Entry(first(e.key), e.summary);
      MovedAppend(less, e, first);
      KeptAppend(Moved(less, first), moved, keep);
      KeptAppend(less, e, keep);
      if keep(e.key) {
        MovedAppend(KeptEntries(Moved(less, first), keep), moved, last);
        MovedAppend(KeptEntries(less, keep), e, last);
      }
    }
  }

  lemma KeptAppend<K>(entries: seq<Entry<K>>, e: Entry<K>, keep: Selector<K>)
    ensures KeptEntries(entries + [e], keep)
         == if keep(e.key) then KeptEntries(entries, keep) + [e] else KeptEntries(entries, keep)
  {
    assert (entries + [e])[..|entries|] == entries;
  }

  lemma {:induction false} KeptEntriesTotal<K>(entries: seq<Entry<K>>, keep: Selector<K>, pick: Selector<K>)
    ensures EntriesTotal(KeptEntries(entries, keep), pick) == EntriesTotal(entries, Both(keep, pick))
  {
    if entries != [] {
      var n := |entries| - 1;
      KeptEntriesTotal(entries[..n], keep, pick);
      if keep(entries[n].key) {
        assert KeptEntries(entries, keep)[..|KeptEntries(entries, keep)| - 1] == KeptEntries(entries[..n], keep);
      } else {
        assert KeptEntries(entries, keep) == KeptEntries(entries[..n], keep);
      }
    }
  }

  /** Two books laid over each other. */
  function Plus<K>(a: Book<K>, b: Book<K>): Book<K> {
    map k | k in a.Keys + b.Keys :: Merge(At(a, k), At(b, k))
  }

  lemma PlusWithout<K>(a: Book<K>, b: Book<K>, k: K)
    requires k in b
    ensures Plus(a, b) == Add(Plus(a, b - {k}), k, b[k])
  {
    var less := Plus(a, b - {k});
    forall j
      ensures At(Plus(a, b), j) == At(Add(less, k, b[k]), j)
    {
      AtAdd(less, k, b[k], j);
      MergeIsCommutativeMonoid(At(a, j), At(b, j), Empty);
    }
    SameContentsSameBook(Plus(a, b), Add(less, k, b[k]));
  }

  lemma AtAdd<K>(book: Book<K>, k: K, s: Summary, j: K)
    requires s != Empty
    ensures At(Add(book, k, s), j) == if j == k then Merge(At(book, k), s) else At(book, j)
  {
  }

  lemma {:induction false} TotalPlus<K>(a: Book<K>, b: Book<K>, pick: Selector<K>)
    ensures Total(Plus(a, b), pick) == Merge(Total(a, pick), Total(b, pick))
    decreases |b|
  {
    if b == map[] {
      assert Plus(a, b) == a;
    } else {
      var k :| k in b;
      TotalPlus(a, b - {k}, pick);
      PlusWithout(a, b, k);
      TotalAdd(Plus(a, b - {k}), k, b[k], pick);
      TotalWithout(b, k, pick);
      MergeIsCommutativeMonoid(Total(a, pick), Total(b - {k}, pick), Picked(pick, k, b[k]));
    }
  }

  lemma SomethingSelected<K>(book: Book<K>, k: K, pick: Selector<K>)
    requires k in book && pick(k)
    ensures Total(book, pick) != Empty
  {
    TotalWithout(book, k, pick);
  }

  /** The book after every bucket has moved, those that meet merged. */
  ghost function Shift<K, J>(book: Book<K>, move: K -> J): Book<J> {
    var shifted := map g | g in set k | k in book :: move(k) :: Total(book, Through(move, Only(g)));
    assert forall g :: g in shifted ==> shifted[g] != Empty by {
      forall k | k in book
        ensures Total(book, Through(move, Only(move(k)))) != Empty
      {
        SomethingSelected(book, k, Through(move, Only(move(k))));
      }
    }
    shifted
  }

  lemma ShiftWithout<K, J>(book: Book<K>, k: K, move: K -> J)
    requires k in book
    ensures Shift(book, move) == Add(Shift(book - {k}, move), move(k), book[k])
  {
    var left, right := Shift(book, move), Add(Shift(book - {k}, move), move(k), book[k]);
    forall g
      ensures At(left, g) == At(right, g)
    {
      TotalWithout(book, k, Through(move, Only(g)));
      ShiftAt(book, move, g);
      ShiftAt(book - {k}, move, g);
      AtAdd(Shift(book - {k}, move), move(k), book[k], g);
    }
    SameContentsSameBook(left, right);
  }

  lemma ShiftOne<K, J>(k: K, s: Summary, move: K -> J)
    requires s != Empty
    ensures var one: Book<K> := map[k := s]; Shift(one, move) == map[move(k) := s]
  {
    var one: Book<K> := map[k := s];
    ShiftWithout(one, k, move);
    assert one - {k} == map[];
  }

  lemma ShiftAt<K, J>(book: Book<K>, move: K -> J, g: J)
    ensures At(Shift(book, move), g) == Total(book, Through(move, Only(g)))
  {
    if g !in Shift(book, move) {
      NothingSelected(book, Through(move, Only(g)));
    }
  }

  lemma SameContentsSameBook<K>(a: Book<K>, b: Book<K>)
    requires forall k :: At(a, k) == At(b, k)
    ensures a == b
  {
    forall k
      ensures k in a <==> k in b
    {
      assert At(a, k) == At(b, k);
    }
    forall k | k in a
      ensures a[k] == b[k]
    {
      assert At(a, k) == At(b, k);
    }
  }

  /** Moving buckets is undone on the side of the selector. */
  lemma {:induction false} TotalShift<K, J>(book: Book<K>, move: K -> J, pick: Selector<J>)
    ensures Total(Shift(book, move), pick) == Total(book, Through(move, pick))
    decreases |book|
  {
    if book == map[] {
    } else {
      var k :| k in book;
      ShiftWithout(book, k, move);
      TotalShift(book - {k}, move, pick);
      TotalAdd(Shift(book - {k}, move), move(k), book[k], pick);
      TotalWithout(book, k, Through(move, pick));
    }
  }

  lemma SameMoveSameTotal<K, J>(book: Book<K>, sel: Selector<K>, m: K -> J, n: K -> J, pick: Selector<J>)
    requires forall k :: k in book && sel(k) ==> m(k) == n(k)
    ensures Total(book, Both(sel, Through(m, pick))) == Total(book, Both(sel, Through(n, pick)))
  {
    var p, q := Both(sel, Through(m, pick)), Both(sel, Through(n, pick));
    forall k | k in book
      ensures p(k) == q(k)
    {
    }
    SameSelectionSameTotal(book, p, q);
  }

  lemma PlusEmpty<K>(book: Book<K>)
    ensures Plus(map[], book) == book && Plus(book, map[]) == book
  {
  }

  /** Posting a listing lays the listed book over the other. */
  lemma PostedListing<K>(book: Book<K>, entries: seq<Entry<K>>, more: Book<K>)
    requires Lists(entries, more)
    ensures Posted(book, entries) == Plus(book, more)
  {
    forall pick: Selector<K>
      ensures Total(Posted(book, entries), pick) == Total(Plus(book, more), pick)
    {
      TotalPosted(book, entries, pick);
      ListingTotal(entries, more, pick);
      TotalPlus(book, more, pick);
    }
    SameTotalsSameBook(Posted(book, entries), Plus(book, more));
  }

  /** Buckets taken out and put back. */
  lemma RefiledKept<K>(book: Book<K>, p: Selector<K>, q: Selector<K>, entries: seq<Entry<K>>)
    requires forall k :: k in book ==> p(k) != q(k)
    requires Lists(entries, Kept(book, p))
    ensures Posted(Kept(book, q), entries) == book
  {
    PostedListing(Kept(book, q), entries, Kept(book, p));
    PlusKept(map[], book, q, p);
    PlusEmpty(Kept(book, q));
    PlusEmpty(book);
  }

  lemma PostedAlone<K>(entries: seq<Entry<K>>, book: Book<K>)
    requires Lists(entries, book)
    ensures Posted(map[], entries) == book
  {
    PostedListing(map[], entries, book);
    PlusEmpty(book);
  }

  lemma PostedTwiceIs<K>(a: seq<Entry<K>>, b: seq<Entry<K>>, book: Book<K>)
    requires forall e :: e in a ==> e.summary != Empty
    requires forall e :: e in b ==> e.summary != Empty
    requires forall pick :: Total(book, pick) == Merge(EntriesTotal(a, pick), EntriesTotal(b, pick))
    ensures Posted(Posted(map[], a), b) == book
  {
    forall pick: Selector<K>
      ensures Total(Posted(Posted(map[], a), b), pick) == Total(book, pick)
    {
      TotalPosted(Posted(map[], a), b, pick);
      TotalPosted(map[], a, pick);
    }
    SameTotalsSameBook(Posted(Posted(map[], a), b), book);
  }

  function Negated<K>(p: Selector<K>): Selector<K> {
    k => !p(k)
  }

  /** Selected buckets are placed anew and laid over the book, then the originals are deleted. */
  lemma RolledUp<K>(book: Book<K>, sel: Selector<K>, place: K -> K, roll: K -> K, entries: seq<Entry<K>>)
    requires Lists(entries, Kept(book, sel))
    requires forall k {:trigger place(k)} :: !sel(place(k))
    requires forall k {:trigger roll(k)} :: roll(k) == if sel(k) then place(k) else k
    ensures Kept(Plus(book, Posted(map[], Moved(entries, place))), Negated(sel)) == Shift(book, roll)
  {
    var left := Kept(Plus(book, Posted(map[], Moved(entries, place))), Negated(sel));
    forall pick: Selector<K>
      ensures Total(left, pick) == Total(Shift(book, roll), pick)
    {
      RolledUpTotal(book, sel, place, roll, entries, pick);
    }
    SameTotalsSameBook(left, Shift(book, roll));
  }

  /** The same when what is laid over is written from a listing. */
  lemma RolledUpFrom<K>(book: Book<K>, sel: Selector<K>, place: K -> K, roll: K -> K, entries: seq<Entry<K>>,
                        written: seq<Entry<K>>)
    requires Lists(entries, Kept(book, sel))
    requires forall k {:trigger place(k)} :: !sel(place(k))
    requires forall k {:trigger roll(k)} :: roll(k) == if sel(k) then place(k) else k
    requires Lists(written, Posted(map[], Moved(entries, place)))
    ensures Kept(Posted(book, written), Negated(sel)) == Shift(book, roll)
  {
    PostedListing(book, written, Posted(map[], Moved(entries, place)));
    RolledUp(book, sel, place, roll, entries);
  }

  lemma RolledUpTotal<K>(book: Book<K>, sel: Selector<K>, place: K -> K, roll: K -> K, entries: seq<Entry<K>>,
                         pick: Selector<K>)
    requires Lists(entries, Kept(book, sel))
    requires forall k {:trigger place(k)} :: !sel(place(k))
    requires forall k {:trigger roll(k)} :: roll(k) == if sel(k) then place(k) else k
    ensures Total(Kept(Plus(book, Posted(map[], Moved(entries, place))), Negated(sel)), pick)
         == Total(Shift(book, roll), pick)
  {
    var added: Book<K> := Posted(map[], Moved(entries, place));
    var rest := Both(Negated(sel), pick);
    TotalKept(Plus(book, added), Negated(sel), pick);
    TotalPlus(book, added, rest);
    TotalPosted(map[], Moved(entries, place), rest);
    MovedTotal(entries, place, rest);
    ListingTotal(entries, Kept(book, sel), Through(place, rest));
    TotalKept(book, sel, Through(place, rest));
    RollSplits(book, sel, place, roll, pick);
    TotalShift(book, roll, pick);
  }

  function WhenPlaced<K>(sel: Selector<K>, place: K -> K, pick: Selector<K>): Selector<K> {
    k => sel(k) && pick(place(k))
  }

  lemma RollOut<K>(book: Book<K>, sel: Selector<K>, place: K -> K, roll: K -> K, pick: Selector<K>)
    requires forall k {:trigger roll(k)} :: roll(k) == if sel(k) then place(k) else k
    ensures Total(book, Without(Through(roll, pick), sel)) == Total(book, Both(Negated(sel), pick))
  {
    var p, q := Without(Through(roll, pick), sel), Both(Negated(sel), pick);
    forall k | k in book
      ensures p(k) == q(k)
    {
      assert Through(roll, pick)(k) == pick(roll(k));
    }
    SameSelectionSameTotal(book, p, q);
  }

  lemma RollIn<K>(book: Book<K>, sel: Selector<K>, place: K -> K, roll: K -> K, pick: Selector<K>)
    requires forall k {:trigger roll(k)} :: roll(k) == if sel(k) then place(k) else k
    ensures Total(book, Both(Through(roll, pick), sel)) == Total(book, WhenPlaced(sel, place, pick))
  {
    var p, q := Both(Through(roll, pick), sel), WhenPlaced(sel, place, pick);
    forall k | k in book
      ensures p(k) == q(k)
    {
      assert Through(roll, pick)(k) == pick(roll(k));
    }
    SameSelectionSameTotal(book, p, q);
  }

  lemma PlacedIn<K>(book: Book<K>, sel: Selector<K>, place: K -> K, pick: Selector<K>)
    requires forall k {:trigger place(k)} :: !sel(place(k))
    ensures Total(book, Both(sel, Through(place, Both(Negated(sel), pick))))
         == Total(book, WhenPlaced(sel, place, pick))
  {
    var rest := Both(Negated(sel), pick);
    var p, q := Both(sel, Through(place, rest)), WhenPlaced(sel, place, pick);
    forall k | k in book
      ensures p(k) == q(k)
    {
      assert Through(place, rest)(k) == rest(place(k));
      assert rest(place(k)) == pick(place(k));
    }
    SameSelectionSameTotal(book, p, q);
  }

  lemma RollSplits<K>(book: Book<K>, sel: Selector<K>, place: K -> K, roll: K -> K, pick: Selector<K>)
    requires forall k {:trigger place(k)} :: !sel(place(k))
    requires forall k {:trigger roll(k)} :: roll(k) == if sel(k) then place(k) else k
    ensures Total(book, Through(roll, pick))
         == Merge(Total(book, Both(Negated(sel), pick)),
                  Total(book, Both(sel, Through(place, Both(Negated(sel), pick)))))
  {
    TotalSplit(book, Through(roll, pick), sel);
    RollOut(book, sel, place, roll, pick);
    RollIn(book, sel, place, roll, pick);
    PlacedIn(book, sel, place, pick);
  }

  /** Moving one after the other is moving once. */
  lemma ShiftTwice<K, J, L>(book: Book<K>, first: K -> J, second: J -> L, whole: K -> L)
    requires forall k :: k in book ==> second(first(k)) == whole(k)
    ensures Shift(Shift(book, first), second) == Shift(book, whole)
  {
    forall pick: Selector<L>
      ensures Total(Shift(Shift(book, first), second), pick) == Total(Shift(book, whole), pick)
    {
      TotalShift(Shift(book, first), second, pick);
      TotalShift(book, first, Through(second, pick));
      TotalShift(book, whole, pick);
      forall k | k in book
        ensures Through(first, Through(second, pick))(k) == Through(whole, pick)(k)
      {
        assert Through(second, pick)(first(k)) == pick(second(first(k)));
      }
      SameSelectionSameTotal(book, Through(first, Through(second, pick)), Through(whole, pick));
    }
    SameTotalsSameBook(Shift(Shift(book, first), second), Shift(book, whole));
  }

  /** A move that moves nothing present. */
  lemma ShiftNothing<K>(book: Book<K>, move: K -> K)
    requires forall k :: k in book ==> move(k) == k
    ensures Shift(book, move) == book
  {
    forall pick: Selector<K>
      ensures Total(Shift(book, move), pick) == Total(book, pick)
    {
      TotalShift(book, move, pick);
      forall k | k in book
        ensures Through(move, pick)(k) == pick(k)
      {
        assert pick(move(k)) == pick(k);
      }
      SameSelectionSameTotal(book, Through(move, pick), pick);
    }
    SameTotalsSameBook(Shift(book, move), book);
  }

  /** Moving in two steps is moving once. */
  lemma ThroughTwice<K, J, L>(book: Book<K>, sel: Selector<K>, first: K -> J, second: J -> L, whole: K -> L,
                              pick: Selector<L>)
    requires forall k :: k in book ==> second(first(k)) == whole(k)
    ensures Total(book, Both(sel, Through(first, Through(second, pick))))
         == Total(book, Both(sel, Through(whole, pick)))
  {
    var p, q := Both(sel, Through(first, Through(second, pick))), Both(sel, Through(whole, pick));
    forall k | k in book
      ensures p(k) == q(k)
    {
      assert Through(second, pick)(first(k)) == pick(second(first(k)));
    }
    SameSelectionSameTotal(book, p, q);
  }

  lemma {:induction false} MovedTotal<K, J>(entries: seq<Entry<K>>, move: K -> J, pick: Selector<J>)
    ensures EntriesTotal(Moved(entries, move), pick) == EntriesTotal(entries, Through(move, pick))
  {
    if entries != [] {
      var n := |entries| - 1;
      MovedTotal(entries[..n], move, pick);
      assert Moved(entries, move)[..n] == Moved(entries[..n], move);
    }
  }

  function EntriesAt<K>(book: Book<K>, ks: seq<K>): (r: seq<Entry<K>>)
    requires forall i :: 0 <= i < |ks| ==> ks[i] in book
    ensures |r| == |ks| && forall i :: 0 <= i < |r| ==> r[i] == Entry(ks[i], book[ks[i]])
  {
    seq(|ks|, i requires 0 <= i < |ks| => Entry(ks[i], book[ks[i]]))
  }

  lemma EntriesAtList<K>(book: Book<K>, ks: seq<K>)
    requires forall i :: 0 <= i < |ks| ==> ks[i] in book
    requires forall i, j :: 0 <= i < j < |ks| ==> ks[i] != ks[j]
    requires forall k :: k in book ==> k in ks
    ensures Lists(EntriesAt(book, ks), book)
  {
    var entries := EntriesAt(book, ks);
    forall k | k in book
      ensures exists i :: 0 <= i < |entries| && entries[i].key == k
    {
      var i :| 0 <= i < |ks| && ks[i] == k;
      assert entries[i].key == k;
    }
  }
}
