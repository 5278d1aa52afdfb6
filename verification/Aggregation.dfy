/** How table numbers add up to a catalog's, and catalogs to the totals: saturating, in any order. */
module Aggregation {
  import opened Decimal
  import opened Text
  import opened Wrappers

  const U32_MAX: nat := 0xffff_ffff
  const MAX_TABLES_PER_CATALOG: nat := 200

  function Capped(n: nat, max: nat): (c: nat)
    ensures c <= n && c <= max && (c == n || c == max)
  {
    if n < max then n else max
  }

  /** `saturating_add` on numbers of at most `max`. */
  function SaturatingAdd(a: nat, b: nat, max: nat): nat {
    Capped(a + b, max)
  }

  datatype TableStats = TableStats(records: nat, sizeBytes: nat, lastCommit: Option<int>)

  datatype CatalogStats = CatalogStats(
    name: string, schemas: nat, tables: nat, records: nat, sizeBytes: nat, lastCommit: Option<int>, truncated: bool)

  function Empty(name: string): CatalogStats {
    CatalogStats(name, 0, 0, 0, 0, None, false)
  }

  function Later(a: Option<int>, b: Option<int>): Option<int> {
    if a.Some? && b.Some? then Some(if a.value >= b.value then a.value else b.value)
    else if a.Some? then a else b
  }

  function Add(stats: CatalogStats, t: TableStats): CatalogStats {
    stats.(records := SaturatingAdd(stats.records, t.records, U64_MAX),
           sizeBytes := SaturatingAdd(stats.sizeBytes, t.sizeBytes, U64_MAX),
           lastCommit := Later(stats.lastCommit, t.lastCommit))
  }

  // ----- the true numbers -----

  function Sum<T>(s: seq<T>, f: T -> nat): nat {
    if s == [] then 0 else f(s[0]) + Sum(s[1..], f)
  }

  lemma {:induction false} SumConcat<T>(a: seq<T>, b: seq<T>, f: T -> nat)
    ensures Sum(a + b, f) == Sum(a, f) + Sum(b, f)
  {
    if a == [] {
      assert a + b == b;
    } else {
      assert (a + b)[1..] == a[1..] + b;
      SumConcat(a[1..], b, f);
    }
  }

  lemma RemoveAt<T>(b: seq<T>, i: nat)
    requires i < |b|
    ensures multiset(b[..i] + b[i + 1..]) == multiset(b) - multiset{b[i]}
  {
    assert b == b[..i] + [b[i]] + b[i + 1..];
  }

  lemma SumCons<T>(x: T, s: seq<T>, f: T -> nat)
    ensures Sum([x] + s, f) == f(x) + Sum(s, f)
  {
    assert ([x] + s)[1..] == s;
  }

  lemma SumTakeOut<T>(b: seq<T>, i: nat, f: T -> nat)
    requires i < |b|
    ensures Sum(b, f) == f(b[i]) + Sum(b[..i] + b[i + 1..], f)
  {
    var front, back := b[..i], b[i + 1..];
    SumConcat(front, [b[i]] + back, f);
    SumConcat(front, back, f);
    SumCons(b[i], back, f);
    assert b == front + ([b[i]] + back);
  }

  lemma RestsAgree<T>(a: seq<T>, b: seq<T>, i: nat)
    requires multiset(a) == multiset(b) && a != [] && i < |b| && b[i] == a[0]
    ensures multiset(a[1..]) == multiset(b[..i] + b[i + 1..])
  {
    RemoveAt(b, i);
    RemoveAt(a, 0);
    assert a[..0] + a[1..] == a[1..];
  }

  lemma {:induction false} SumIgnoresOrder<T>(a: seq<T>, b: seq<T>, f: T -> nat)
    requires multiset(a) == multiset(b)
    ensures Sum(a, f) == Sum(b, f)
    decreases |a|
  {
    if a == [] {
      assert |multiset(b)| == 0;
    } else {
      assert a[0] in multiset(b);
      var i :| 0 <= i < |b| && b[i] == a[0];
      var rest := b[..i] + b[i + 1..];
      RestsAgree(a, b, i);
      SumIgnoresOrder(a[1..], rest, f);
      SumTakeOut(b, i, f);
    }
  }

  ghost predicate IsLatest(latest: Option<int>, loads: seq<Option<TableStats>>) {
    && (latest.Some? <==> exists i :: 0 <= i < |loads| && loads[i].Some? && loads[i].value.lastCommit.Some?)
    && (latest.Some? ==>
          && (exists i :: 0 <= i < |loads| && loads[i].Some? && loads[i].value.lastCommit == latest)
          && forall i :: 0 <= i < |loads| && loads[i].Some? && loads[i].value.lastCommit.Some? ==>
               loads[i].value.lastCommit.value <= latest.value)
  }

  function RecordsOf(load: Option<TableStats>): nat {
    if load.Some? then load.value.records else 0
  }

  function BytesOf(load: Option<TableStats>): nat {
    if load.Some? then load.value.sizeBytes else 0
  }

  // ----- one catalog -----

  /** Fold the loads in the order they arrive; a table that could not be read adds nothing. */
  method FoldLoads(start: CatalogStats, arrivals: seq<Option<TableStats>>) returns (stats: CatalogStats)
    requires start.records == start.sizeBytes == 0 && start.lastCommit == None
    ensures stats.records == Capped(Sum(arrivals, RecordsOf), U64_MAX)
    ensures stats.sizeBytes == Capped(Sum(arrivals, BytesOf), U64_MAX)
    ensures IsLatest(stats.lastCommit, arrivals)
    ensures stats == start.(records := stats.records, sizeBytes := stats.sizeBytes, lastCommit := stats.lastCommit)
  {
    stats := start;
    for i := 0 to |arrivals|
      invariant stats.records == Capped(Sum(arrivals[..i], RecordsOf), U64_MAX)
      invariant stats.sizeBytes == Capped(Sum(arrivals[..i], BytesOf), U64_MAX)
      invariant IsLatest(stats.lastCommit, arrivals[..i])
      invariant stats == start.(records := stats.records, sizeBytes := stats.sizeBytes, lastCommit := stats.lastCommit)
    {
      ghost var before := arrivals[..i];
      SumConcat(before, [arrivals[i]], RecordsOf);
      SumConcat(before, [arrivals[i]], BytesOf);
      assert arrivals[..i + 1] == before + [arrivals[i]];
      LatestGrows(stats.lastCommit, before, arrivals[i]);
      if arrivals[i].Some? {
        stats := Add(stats, arrivals[i].value);
      }
    }
    assert arrivals[..|arrivals|] == arrivals;
  }

  lemma LatestGrows(latest: Option<int>, loads: seq<Option<TableStats>>, next: Option<TableStats>)
    requires IsLatest(latest, loads)
    ensures IsLatest(if next.Some? then Later(latest, next.value.lastCommit) else latest, loads + [next])
  {
    var all := loads + [next];
    assert forall i :: 0 <= i < |loads| ==> all[i] == loads[i];
    assert all[|loads|] == next;
  }

  lemma LatestIsUnique(a: Option<int>, b: Option<int>, loads: seq<Option<TableStats>>, other: seq<Option<TableStats>>)
    requires multiset(loads) == multiset(other)
    requires IsLatest(a, loads) && IsLatest(b, other)
    ensures a == b
  {
    forall i | 0 <= i < |loads| ensures loads[i] in other {
      assert loads[i] in multiset(other);
    }
    forall i | 0 <= i < |other| ensures other[i] in loads {
      assert other[i] in multiset(loads);
    }
  }

  /** What a fold of loads answers; `FoldLoads` meets it. */
  ghost predicate FoldAnswer(stats: CatalogStats, loads: seq<Option<TableStats>>) {
    && stats.records == Capped(Sum(loads, RecordsOf), U64_MAX)
    && stats.sizeBytes == Capped(Sum(loads, BytesOf), U64_MAX)
    && IsLatest(stats.lastCommit, loads)
  }

  /** The arrival order of the loads does not show in the numbers, even when they saturate. */
  lemma FoldIgnoresOrder(x: CatalogStats, y: CatalogStats, loads: seq<Option<TableStats>>, other: seq<Option<TableStats>>)
    requires multiset(loads) == multiset(other)
    requires FoldAnswer(x, loads) && FoldAnswer(y, other)
    ensures x.records == y.records && x.sizeBytes == y.sizeBytes && x.lastCommit == y.lastCommit
  {
    SumIgnoresOrder(loads, other, RecordsOf);
    SumIgnoresOrder(loads, other, BytesOf);
    LatestIsUnique(x.lastCommit, y.lastCommit, loads, other);
  }

  // ----- the whole scan -----

  /** Why a catalog could not be read: its id is not found or makes no path, there is no token, or a list
      could not be had. */
  type ScanError = string

  /** A namespace's table list, each table with what its load will answer; an error when the namespace's name
      makes no path or its list fails. */
  type Listing = Result<seq<Option<TableStats>>, ScanError>

  /** All tables of all namespaces, in order; the first error when there is one. */
  function AllTables(listings: seq<Listing>): Listing {
    if listings == [] then Ok([])
    else
      match listings[0]
      case Err(e) => Err(e)
      case Ok(tables) =>
        match AllTables(listings[1..])
        case Err(e) => Err(e)
        case Ok(rest) => Ok(tables + rest)
  }

  lemma {:induction false} ListingsBefore(listings: seq<Listing>, i: nat)
    requires i < |listings| && listings[i].Err? && forall j :: 0 <= j < i ==> listings[j].Ok?
    ensures AllTables(listings) == Err(listings[i].error)
    decreases i
  {
    if i > 0 {
      ListingsBefore(listings[1..], i - 1);
    }
  }

  /** Where the tables of the first `i` namespaces end. */
  ghost function EndOf(listings: seq<Listing>, i: nat): nat
    requires i <= |listings|
  {
    Sum(listings[..i], LengthOf)
  }

  function LengthOf(l: Listing): nat {
    if l.Ok? then |l.value| else 0
  }

  /** The tables of one namespace stand, whole and in order, where those of the namespaces before it end. */
  ghost predicate InPlace(listings: seq<Listing>, tables: seq<Option<TableStats>>, i: nat)
    requires i < |listings|
  {
    && listings[i].Ok? && EndOf(listings, i) <= EndOf(listings, i + 1) <= |tables|
    && tables[EndOf(listings, i)..EndOf(listings, i + 1)] == listings[i].value
  }

  lemma EndOfTail(listings: seq<Listing>, i: nat)
    requires 0 < i <= |listings| && listings[0].Ok?
    ensures EndOf(listings, i) == |listings[0].value| + EndOf(listings[1..], i - 1)
  {
    assert listings[..i][1..] == listings[1..][..i - 1];
  }

  lemma Shifted<T>(a: seq<T>, b: seq<T>, from: nat, to: nat)
    requires from <= to <= |b|
    ensures (a + b)[|a| + from..|a| + to] == b[from..to]
  {
  }

  lemma {:induction false} ListingInPlace(listings: seq<Listing>, i: nat)
    requires i < |listings| && forall j :: 0 <= j < |listings| ==> listings[j].Ok?
    ensures AllTables(listings).Ok? && |AllTables(listings).value| == EndOf(listings, |listings|)
    ensures InPlace(listings, AllTables(listings).value, i)
    decreases |listings|
  {
    var rest, first := listings[1..], listings[0].value;
    EndOfTail(listings, i + 1);
    EndOfTail(listings, |listings|);
    if rest == [] {
      assert listings == [listings[0]] && AllTables(rest) == Ok([]);
    } else {
      ListingInPlace(rest, if i == 0 then 0 else i - 1);
    }
    var all := AllTables(rest).value;
    assert AllTables(listings).value == first + all;
    assert EndOf(listings, 0) == EndOf(rest, 0) == 0;
    if i > 0 {
      EndOfTail(listings, i);
      assert rest[i - 1] == listings[i];
      Shifted(first, all, EndOf(rest, i - 1), EndOf(rest, i));
    }
    hide AllTables, EndOf;
  }

  /** The tables collected: none when a list fails, with the error of the first one that does; otherwise those of
      every namespace, each in its place, and no other ones. */
  lemma AllTablesExactly(listings: seq<Listing>)
    ensures AllTables(listings).Ok? <==> forall j :: 0 <= j < |listings| ==> listings[j].Ok?
    ensures AllTables(listings).Err? ==>
      exists i :: 0 <= i < |listings| && listings[i] == AllTables(listings) && forall j :: 0 <= j < i ==> listings[j].Ok?
    ensures AllTables(listings).Ok? ==>
      && |AllTables(listings).value| == EndOf(listings, |listings|)
      && forall i :: 0 <= i < |listings| ==> InPlace(listings, AllTables(listings).value, i)
  {
    if i :| 0 <= i < |listings| && listings[i].Err? {
      var first := FirstErr(listings);
      ListingsBefore(listings, first);
    } else if listings == [] {
      assert EndOf(listings, 0) == 0;
    } else {
      ListingInPlace(listings, 0);
      forall i | 0 <= i < |listings|
        ensures InPlace(listings, AllTables(listings).value, i)
      {
        ListingInPlace(listings, i);
      }
    }
  }

  lemma {:induction false} FirstErr(listings: seq<Listing>) returns (i: nat)
    requires exists i :: 0 <= i < |listings| && listings[i].Err?
    ensures i < |listings| && listings[i].Err? && forall j :: 0 <= j < i ==> listings[j].Ok?
  {
    i := 0;
    while listings[i].Ok?
      invariant i < |listings| && forall j :: 0 <= j < i ==> listings[j].Ok?
      decreases |listings| - i
    {
      i := i + 1;
    }
  }

  function FirstTables(tables: seq<Option<TableStats>>): seq<Option<TableStats>> {
    if |tables| > MAX_TABLES_PER_CATALOG then tables[..MAX_TABLES_PER_CATALOG] else tables
  }

  /** One namespace after the other; what was collected and what is left are always all of it. */
  method ListTables(listings: seq<Listing>) returns (r: Listing)
    ensures r == AllTables(listings)
  {
    var tables: seq<Option<TableStats>> := [];
    assert listings[0..] == listings;
    assert AllTables(listings).Ok? ==> tables + AllTables(listings).value == AllTables(listings).value;
    for i := 0 to |listings|
      invariant AllTables(listings) == Prefixed(tables, AllTables(listings[i..]))
    {
      assert listings[i..][1..] == listings[i + 1..];
      match listings[i] {
        case Err(e) => return Err(e);
        case Ok(more) =>
          if AllTables(listings[i + 1..]).Ok? {
            Glue(tables, more, AllTables(listings[i + 1..]).value);
          }
          tables := tables + more;
      }
    }
    assert tables + [] == tables;
    return Ok(tables);
  }

  function Prefixed(tables: seq<Option<TableStats>>, rest: Listing): Listing {
    match rest case Err(e) => Err(e) case Ok(more) => Ok(tables + more)
  }

  /** The namespaces with their table lists, or why there are none. */
  function TablesOf(namespaces: Result<seq<Listing>, ScanError>): Listing {
    match namespaces case Err(e) => Err(e) case Ok(listings) => AllTables(listings)
  }

  /** `arrive` is the order in which the loads in flight happen to finish. */
  method ScanCatalog(name: string, namespaces: Result<seq<Listing>, ScanError>,
                     arrive: seq<Option<TableStats>> -> seq<Option<TableStats>>)
    returns (result: Result<CatalogStats, ScanError>)
    requires forall loads :: multiset(arrive(loads)) == multiset(loads)
    ensures TablesOf(namespaces).Err? ==> result == Err(TablesOf(namespaces).error)
    ensures TablesOf(namespaces).Ok? ==>
      var all := TablesOf(namespaces).value;
      && result.Ok? && result.value.name == name
      && result.value.schemas == Capped(|namespaces.value|, U32_MAX)
      && result.value.tables == Capped(|all|, U32_MAX)
      && (result.value.truncated <==> |all| > MAX_TABLES_PER_CATALOG)
      && FoldAnswer(result.value, if |all| > 200 then all[..200] else all)
  {
    if namespaces.Err? {
      return Err(namespaces.error);
    }
    var listed := ListTables(namespaces.value);
    if listed.Err? {
      return Err(listed.error);
    }
    var tables := listed.value;
    var start := CatalogStats(name, Capped(|namespaces.value|, U32_MAX), Capped(|tables|, U32_MAX), 0, 0, None,
                              |tables| > MAX_TABLES_PER_CATALOG);
    var loads := FirstTables(tables);
    var stats := FoldLoads(start, arrive(loads));
    SumIgnoresOrder(arrive(loads), loads, RecordsOf);
    SumIgnoresOrder(arrive(loads), loads, BytesOf);
    LatestMoves(stats.lastCommit, arrive(loads), loads);
    return Ok(stats);
  }

  lemma LatestMoves(latest: Option<int>, loads: seq<Option<TableStats>>, other: seq<Option<TableStats>>)
    requires multiset(loads) == multiset(other) && IsLatest(latest, loads)
    ensures IsLatest(latest, other)
  {
    forall i | 0 <= i < |loads| ensures loads[i] in other {
      assert loads[i] in multiset(other);
    }
    forall i | 0 <= i < |other| ensures other[i] in loads {
      assert other[i] in multiset(loads);
    }
  }

  // ----- the totals over the catalogs of an answer -----

  datatype CatalogView = CatalogView(stats: CatalogStats, pending: bool)

  datatype Totals = Totals(catalogs: nat, schemas: nat, tables: nat, records: nat, sizeBytes: nat)

  function Counted(v: CatalogView, f: CatalogStats -> nat): nat {
    if v.pending then 0 else f(v.stats)
  }

  function Counting(f: CatalogStats -> nat): CatalogView -> nat {
    v => Counted(v, f)
  }

  /** The sum over exactly the catalogs that are not pending. */
  function SumCounted(views: seq<CatalogView>, f: CatalogStats -> nat): nat {
    Sum(views, Counting(f))
  }

  function One(s: CatalogStats): nat { 1 }

  function Schemas(s: CatalogStats): nat { s.schemas }

  function Tables(s: CatalogStats): nat { s.tables }

  function Records(s: CatalogStats): nat { s.records }

  function Bytes(s: CatalogStats): nat { s.sizeBytes }

  lemma SumCountedStep(views: seq<CatalogView>, i: nat, f: CatalogStats -> nat)
    requires i < |views|
    ensures SumCounted(views[..i + 1], f) == SumCounted(views[..i], f) + Counted(views[i], f)
  {
    assert views[..i + 1] == views[..i] + [views[i]];
    SumConcat(views[..i], [views[i]], Counting(f));
  }

  /** Pending catalogs leave no trace; every sum is the true one, capped. */
  method AddTotals(views: seq<CatalogView>) returns (t: Totals)
    ensures t.catalogs == Capped(SumCounted(views, One), U32_MAX)
    ensures t.schemas == Capped(SumCounted(views, Schemas), U64_MAX)
    ensures t.tables == Capped(SumCounted(views, Tables), U64_MAX)
    ensures t.records == Capped(SumCounted(views, Records), U64_MAX)
    ensures t.sizeBytes == Capped(SumCounted(views, Bytes), U64_MAX)
  {
    t := Totals(0, 0, 0, 0, 0);
    for i := 0 to |views|
      invariant t.catalogs == Capped(SumCounted(views[..i], One), U32_MAX)
      invariant t.schemas == Capped(SumCounted(views[..i], Schemas), U64_MAX)
      invariant t.tables == Capped(SumCounted(views[..i], Tables), U64_MAX)
      invariant t.records == Capped(SumCounted(views[..i], Records), U64_MAX)
      invariant t.sizeBytes == Capped(SumCounted(views[..i], Bytes), U64_MAX)
    {
      SumCountedStep(views, i, One);
      SumCountedStep(views, i, Schemas);
      SumCountedStep(views, i, Tables);
      SumCountedStep(views, i, Records);
      SumCountedStep(views, i, Bytes);
      if !views[i].pending {
        var s := views[i].stats;
        t := Totals(SaturatingAdd(t.catalogs, 1, U32_MAX), SaturatingAdd(t.schemas, s.schemas, U64_MAX),
                    SaturatingAdd(t.tables, s.tables, U64_MAX), SaturatingAdd(t.records, s.records, U64_MAX),
                    SaturatingAdd(t.sizeBytes, s.sizeBytes, U64_MAX));
      }
    }
    assert views[..|views|] == views;
  }

  /** The order of the rows does not show in the totals. */
  lemma TotalsIgnoreOrder(views: seq<CatalogView>, other: seq<CatalogView>, f: CatalogStats -> nat)
    requires multiset(views) == multiset(other)
    ensures SumCounted(views, f) == SumCounted(other, f)
  {
    SumIgnoresOrder(views, other, Counting(f));
  }
}
