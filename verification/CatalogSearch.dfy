/** The bounded search for tables by name: two nested loops and an early way out of both. */
module CatalogSearch {
  import opened Sorting
  import opened Text
  import opened Wrappers

  const MAX_NAMESPACES: nat := 100

  datatype Match = Match(ns: string, table: string)

  datatype Answer = Found(matches: seq<Match>, truncated: bool) | ListingFailed

  /** What the catalog lists. `lower` is Unicode lower-casing; a table list may fail. */
  datatype Catalog = Catalog(namespaces: seq<seq<string>>, tables: string -> Option<seq<string>>, lower: string -> string)

  /** The single-level namespaces. */
  function SingleLevel(levels: seq<seq<string>>): seq<string> {
    if levels == [] then []
    else (if |levels[0]| == 1 then [levels[0][0]] else []) + SingleLevel(levels[1..])
  }

  function Namespaces(c: Catalog): seq<string> {
    Sort(SingleLevel(c.namespaces))
  }

  predicate MatchesWords(c: Catalog, words: seq<string>, m: Match) {
    forall i :: 0 <= i < |words| ==> Contains(c.lower(m.ns + "." + m.table), words[i])
  }

  /** A name that makes a path segment. */
  predicate Usable(ns: string) {
    ns != "" && ns != "." && ns != ".."
  }

  // ----- the specification: all matches, in order -----

  function MatchesIn(c: Catalog, words: seq<string>, ns: string, tables: seq<string>): seq<Match> {
    if tables == [] then []
    else
      var m := Match(ns, tables[0]);
      (if MatchesWords(c, words, m) then [m] else []) + MatchesIn(c, words, ns, tables[1..])
  }

  predicate Fails(c: Catalog, ns: string) {
    Usable(ns) && c.tables(ns).None?
  }

  function MatchesOf(c: Catalog, words: seq<string>, ns: string): seq<Match> {
    if Usable(ns) && c.tables(ns).Some? then MatchesIn(c, words, ns, Sort(c.tables(ns).value)) else []
  }

  /** Every match of the given namespaces, namespace by namespace. */
  function AllMatches(c: Catalog, words: seq<string>, namespaces: seq<string>): seq<Match> {
    if namespaces == [] then [] else MatchesOf(c, words, namespaces[0]) + AllMatches(c, words, namespaces[1..])
  }

  /** The namespaces in front of the first one whose table list fails. */
  function BeforeFailure(c: Catalog, namespaces: seq<string>): seq<string> {
    if namespaces == [] || Fails(c, namespaces[0]) then [] else [namespaces[0]] + BeforeFailure(c, namespaces[1..])
  }

  function FirstNamespaces(namespaces: seq<string>): seq<string> {
    if |namespaces| > MAX_NAMESPACES then namespaces[..MAX_NAMESPACES] else namespaces
  }

  predicate AllListed(c: Catalog, namespaces: seq<string>) {
    forall i :: 0 <= i < |namespaces| ==> !Fails(c, namespaces[i])
  }

  /** Every match in front of the first failing table list. */
  function Reachable(c: Catalog, words: seq<string>, namespaces: seq<string>): seq<Match> {
    AllMatches(c, words, BeforeFailure(c, namespaces))
  }

  /** The exact answer: the first matches up to the limit. A failing table list counts only when the limit
      was not exceeded in front of it. */
  function Expected(c: Catalog, words: seq<string>, limit: nat): Answer {
    var read := FirstNamespaces(Namespaces(c));
    var all := Reachable(c, words, read);
    if |all| > limit then Found(all[..limit], true)
    else if !AllListed(c, read) then ListingFailed
    else Found(all, |Namespaces(c)| > MAX_NAMESPACES)
  }

  lemma ReachableStep(c: Catalog, words: seq<string>, namespaces: seq<string>, i: nat)
    requires i < |namespaces|
    ensures Reachable(c, words, namespaces[i..])
         == if Fails(c, namespaces[i]) then []
            else MatchesOf(c, words, namespaces[i]) + Reachable(c, words, namespaces[i + 1..])
  {
    assert namespaces[i..][1..] == namespaces[i + 1..];
    if !Fails(c, namespaces[i]) {
      var later := BeforeFailure(c, namespaces[i + 1..]);
      assert ([namespaces[i]] + later)[1..] == later;
    }
  }

  lemma MatchesInStep(c: Catalog, words: seq<string>, ns: string, tables: seq<string>, j: nat, found: seq<Match>, later: seq<Match>)
    requires j < |tables|
    ensures var m := Match(ns, tables[j]);
      var rest := MatchesIn(c, words, ns, tables[j + 1..]) + later;
      if MatchesWords(c, words, m) then
        && found + (MatchesIn(c, words, ns, tables[j..]) + later) == found + ([m] + rest)
        && found + ([m] + rest) == (found + [m]) + rest
      else
        found + (MatchesIn(c, words, ns, tables[j..]) + later) == found + rest
  {
    assert tables[j..][1..] == tables[j + 1..];
    var m, rest := Match(ns, tables[j]), MatchesIn(c, words, ns, tables[j + 1..]);
    if MatchesWords(c, words, m) {
      Glue([m], rest, later);
      Glue(found, [m], rest + later);
    } else {
      assert [] + rest == rest;
    }
  }

  lemma CutAnswer(c: Catalog, words: seq<string>, limit: nat, found: seq<Match>, next: Match, later: seq<Match>)
    requires Reachable(c, words, FirstNamespaces(Namespaces(c))) == found + ([next] + later) && |found| == limit
    ensures Expected(c, words, limit) == Found(found, true)
  {
  }

  lemma FailedAnswer(c: Catalog, words: seq<string>, limit: nat, found: seq<Match>, i: nat)
    requires |found| <= limit && Reachable(c, words, FirstNamespaces(Namespaces(c))) == found + []
    requires i < |FirstNamespaces(Namespaces(c))| && Fails(c, FirstNamespaces(Namespaces(c))[i])
    ensures Expected(c, words, limit) == ListingFailed
  {
  }

  lemma WholeAnswer(c: Catalog, words: seq<string>, limit: nat, found: seq<Match>)
    requires Reachable(c, words, FirstNamespaces(Namespaces(c))) == found && |found| <= limit
    requires AllListed(c, FirstNamespaces(Namespaces(c)))
    ensures Expected(c, words, limit) == Found(found, |Namespaces(c)| > MAX_NAMESPACES)
  {
  }

  lemma NothingLeft(c: Catalog, words: seq<string>, ns: string, s: seq<string>, found: seq<Match>)
    ensures s[0..] == s && found + [] == found && [] + found == found
    ensures Reachable(c, words, s[|s|..]) == [] && MatchesIn(c, words, ns, s[|s|..]) == []
  {
  }

  /** The nested loops: what is left to look at, appended to what was found, is always everything. */
  method Search(c: Catalog, words: seq<string>, limit: nat) returns (answer: Answer)
    ensures answer == Expected(c, words, limit)
  {
    hide Reachable, MatchesIn, MatchesWords, Expected, Namespaces, FirstNamespaces;
    var namespaces := Namespaces(c);
    var truncated := |namespaces| > MAX_NAMESPACES;
    var read := FirstNamespaces(namespaces);
    ghost var all := Reachable(c, words, read);
    var matches: seq<Match> := [];
    var i := 0;
    ghost var cut := false;
    NothingLeft(c, words, "", read, all);
    label scan:
    while i < |read|
      invariant i <= |read| && |matches| <= limit && !cut
      invariant all == matches + Reachable(c, words, read[i..])
      invariant forall k :: 0 <= k < i ==> !Fails(c, read[k])
      invariant truncated == (|namespaces| > MAX_NAMESPACES)
    {
      ReachableStep(c, words, read, i);
      var ns := read[i];
      i := i + 1;
      ghost var later := Reachable(c, words, read[i..]);
      if !Usable(ns) {
        assert [] + later == later;
        continue;
      }
      if c.tables(ns).None? {
        FailedAnswer(c, words, limit, matches, i - 1);
        return ListingFailed;
      }
      var tables := Sort(c.tables(ns).value);
      var j := 0;
      NothingLeft(c, words, ns, tables, later);
      while j < |tables|
        invariant j <= |tables| && |matches| <= limit && !cut
        invariant all == matches + (MatchesIn(c, words, ns, tables[j..]) + later)
        invariant truncated == (|namespaces| > MAX_NAMESPACES)
      {
        var m := Match(ns, tables[j]);
        MatchesInStep(c, words, ns, tables, j, matches, later);
        if MatchesWords(c, words, m) {
          if |matches| == limit {
            CutAnswer(c, words, limit, matches, m, MatchesIn(c, words, ns, tables[j + 1..]) + later);
            truncated, cut := true, true;
            break scan;
          }
          matches := matches + [m];
        }
        j := j + 1;
      }
    }
    NothingLeft(c, words, "", read, matches);
    if !cut {
      WholeAnswer(c, words, limit, matches);
    }
    return Found(matches, truncated);
  }


  // ----- what the answer means -----

  /** A table the caller asks for, in one of the given namespaces. */
  ghost predicate Wanted(c: Catalog, words: seq<string>, namespaces: seq<string>, m: Match) {
    && m.ns in namespaces && Usable(m.ns) && c.tables(m.ns).Some?
    && m.table in c.tables(m.ns).value && MatchesWords(c, words, m)
  }

  lemma {:induction false} MatchesInExactly(c: Catalog, words: seq<string>, ns: string, tables: seq<string>, m: Match)
    ensures m in MatchesIn(c, words, ns, tables) <==> m.ns == ns && m.table in tables && MatchesWords(c, words, m)
  {
    if tables != [] {
      MatchesInExactly(c, words, ns, tables[1..], m);
      Uncons(tables);
    }
  }

  lemma MatchesOfExactly(c: Catalog, words: seq<string>, ns: string, m: Match)
    ensures m in MatchesOf(c, words, ns) <==> Wanted(c, words, [ns], m)
  {
    if Usable(ns) && c.tables(ns).Some? {
      var tables := c.tables(ns).value;
      SortSorts(tables);
      MatchesInExactly(c, words, ns, Sort(tables), m);
      assert m.table in tables <==> m.table in multiset(tables);
      assert m.table in Sort(tables) <==> m.table in multiset(Sort(tables));
    }
  }

  /** Every table asked for is found, and nothing else. */
  lemma {:induction false} AllMatchesExactly(c: Catalog, words: seq<string>, namespaces: seq<string>, m: Match)
    ensures m in AllMatches(c, words, namespaces) <==> Wanted(c, words, namespaces, m)
  {
    if namespaces != [] {
      AllMatchesExactly(c, words, namespaces[1..], m);
      MatchesOfExactly(c, words, namespaces[0], m);
      Uncons(namespaces);
    }
  }

  predicate Before(a: Match, b: Match) {
    Le(a.ns, b.ns) && (a.ns == b.ns ==> Le(a.table, b.table))
  }

  ghost predicate InOrder(s: seq<Match>) {
    forall i, j :: 0 <= i < j < |s| ==> Before(s[i], s[j])
  }

  lemma InOrderConcat(a: seq<Match>, b: seq<Match>)
    requires InOrder(a) && InOrder(b)
    requires forall x, y :: x in a && y in b ==> Before(x, y)
    ensures InOrder(a + b)
  {
  }

  lemma {:induction false} MatchesInOrder(c: Catalog, words: seq<string>, ns: string, tables: seq<string>)
    requires SortedStrings(tables)
    ensures InOrder(MatchesIn(c, words, ns, tables))
  {
    if tables != [] {
      var later := MatchesIn(c, words, ns, tables[1..]);
      MatchesInOrder(c, words, ns, tables[1..]);
      LeTotal(ns, ns);
      forall m | m in later ensures Before(Match(ns, tables[0]), m) {
        MatchesInExactly(c, words, ns, tables[1..], m);
      }
      InOrderConcat(if MatchesWords(c, words, Match(ns, tables[0])) then [Match(ns, tables[0])] else [], later);
    }
  }

  /** All of them are the same match, repeated. */
  ghost predicate Same(s: seq<Match>) {
    forall x, y :: x in s && y in s ==> x == y
  }

  /** No namespace with two different matches is listed twice. */
  ghost predicate NoRepeats(c: Catalog, words: seq<string>, namespaces: seq<string>) {
    forall i, j :: 0 <= i < j < |namespaces| && namespaces[i] == namespaces[j] ==> Same(MatchesOf(c, words, namespaces[i]))
  }

  lemma MatchesOfInOrder(c: Catalog, words: seq<string>, ns: string)
    ensures InOrder(MatchesOf(c, words, ns))
    ensures forall m :: m in MatchesOf(c, words, ns) ==> m.ns == ns
  {
    if Usable(ns) && c.tables(ns).Some? {
      SortSorts(c.tables(ns).value);
      MatchesInOrder(c, words, ns, Sort(c.tables(ns).value));
    }
    forall m | m in MatchesOf(c, words, ns) ensures m.ns == ns {
      MatchesOfExactly(c, words, ns, m);
    }
  }

  lemma InOrderParts(a: seq<Match>, b: seq<Match>)
    requires InOrder(a + b)
    ensures InOrder(b) && forall x, y :: x in a && y in b ==> Before(x, y)
  {
    var all := a + b;
    forall i, j | 0 <= i < j < |b| ensures Before(b[i], b[j]) {
      assert all[|a| + i] == b[i] && all[|a| + j] == b[j];
    }
    forall x, y | x in a && y in b ensures Before(x, y) {
      var i :| 0 <= i < |a| && a[i] == x;
      var j :| 0 <= j < |b| && b[j] == y;
      assert all[i] == x && all[|a| + j] == y;
    }
  }

  /** A namespace listed again further on is in the way exactly when it has two different matches. */
  lemma RepeatsInTheWay(c: Catalog, words: seq<string>, ns: string, later: seq<string>)
    requires ns in later
    requires forall x, y :: x in MatchesOf(c, words, ns) && y in AllMatches(c, words, later) ==> Before(x, y)
    ensures Same(MatchesOf(c, words, ns))
  {
    MatchesOfInOrder(c, words, ns);
    forall x, y | x in MatchesOf(c, words, ns) && y in MatchesOf(c, words, ns) ensures x == y {
      forall m | m in MatchesOf(c, words, ns) ensures m in AllMatches(c, words, later) {
        MatchesOfExactly(c, words, ns, m);
        AllMatchesExactly(c, words, later, m);
      }
      assert Before(x, y) && Before(y, x);
      LeAntisymmetric(x.table, y.table);
    }
  }

  lemma LaterIsAfter(c: Catalog, words: seq<string>, namespaces: seq<string>, x: Match, y: Match)
    requires namespaces != [] && SortedStrings(namespaces) && NoRepeats(c, words, namespaces)
    requires x in MatchesOf(c, words, namespaces[0]) && y in AllMatches(c, words, namespaces[1..])
    ensures Before(x, y)
  {
    MatchesOfExactly(c, words, namespaces[0], x);
    AllMatchesExactly(c, words, namespaces[1..], y);
    LeTotal(x.table, x.table);
    if x.ns == y.ns {
      MatchesOfExactly(c, words, namespaces[0], y);
      assert Same(MatchesOf(c, words, namespaces[0]));
    }
  }

  /** The matches come namespace by namespace and, inside one, table by table, exactly when no namespace with
      two different matches is listed twice. */
  lemma {:induction false} AllMatchesInOrder(c: Catalog, words: seq<string>, namespaces: seq<string>)
    requires SortedStrings(namespaces)
    ensures InOrder(AllMatches(c, words, namespaces)) <==> NoRepeats(c, words, namespaces)
  {
    if namespaces != [] {
      var ns, here, later := namespaces[0], MatchesOf(c, words, namespaces[0]), AllMatches(c, words, namespaces[1..]);
      AllMatchesInOrder(c, words, namespaces[1..]);
      MatchesOfInOrder(c, words, ns);
      if InOrder(here + later) {
        InOrderParts(here, later);
        forall j | 0 < j < |namespaces| && namespaces[j] == ns ensures Same(here) {
          assert namespaces[j] == namespaces[1..][j - 1];
          RepeatsInTheWay(c, words, ns, namespaces[1..]);
        }
        forall i, j | 0 < i < j < |namespaces| && namespaces[i] == namespaces[j]
          ensures Same(MatchesOf(c, words, namespaces[i]))
        {
          assert namespaces[1..][i - 1] == namespaces[i] && namespaces[1..][j - 1] == namespaces[j];
        }
      }
      if NoRepeats(c, words, namespaces) {
        forall x, y | x in here && y in later ensures Before(x, y) {
          LaterIsAfter(c, words, namespaces, x, y);
        }
        NoRepeatsLater(c, words, namespaces);
        InOrderConcat(here, later);
      }
    }
  }

  lemma NoRepeatsLater(c: Catalog, words: seq<string>, namespaces: seq<string>)
    requires namespaces != [] && NoRepeats(c, words, namespaces)
    ensures NoRepeats(c, words, namespaces[1..])
  {
    var rest := namespaces[1..];
    forall i, j | 0 <= i < j < |rest| && rest[i] == rest[j] ensures Same(MatchesOf(c, words, rest[i])) {
      assert namespaces[i + 1] == rest[i] && namespaces[j + 1] == rest[j];
    }
  }

  lemma {:induction false} NothingBeforeFailure(c: Catalog, namespaces: seq<string>)
    requires AllListed(c, namespaces)
    ensures BeforeFailure(c, namespaces) == namespaces
  {
    if namespaces != [] {
      NothingBeforeFailure(c, namespaces[1..]);
      Uncons(namespaces);
    }
  }

  /** An answer that does not say it is cut holds exactly the tables asked for, of all namespaces. */
  lemma UncutAnswerIsComplete(c: Catalog, words: seq<string>, limit: nat, m: Match)
    requires Expected(c, words, limit).Found? && !Expected(c, words, limit).truncated
    ensures m in Expected(c, words, limit).matches <==> Wanted(c, words, Namespaces(c), m)
  {
    NothingBeforeFailure(c, Namespaces(c));
    AllMatchesExactly(c, words, Namespaces(c), m);
  }

  /** What an answer that is not cut holds: exactly the tables listed in a namespace that is listed as a single
      level and makes a path, whose name in lower case is, for every word, some text, the word, and some text. */
  lemma UncutAnswerExactly(c: Catalog, words: seq<string>, limit: nat, ns: string, table: string)
    requires Expected(c, words, limit).Found? && !Expected(c, words, limit).truncated
    ensures Match(ns, table) in Expected(c, words, limit).matches <==>
      && [ns] in c.namespaces && ns != "" && ns != "." && ns != ".."
      && c.tables(ns).Some? && table in c.tables(ns).value
      && forall i :: 0 <= i < |words| ==> Includes(c.lower(ns + "." + table), words[i])
  {
    UncutAnswerIsComplete(c, words, limit, Match(ns, table));
    NamespacesExactly(c, ns);
    MatchesExactly(c, words, Match(ns, table));
  }

  /** What any answer holds, cut or not, is so. */
  lemma AnswerOnlyMatches(c: Catalog, words: seq<string>, limit: nat, ns: string, table: string)
    requires Expected(c, words, limit).Found? && Match(ns, table) in Expected(c, words, limit).matches
    ensures [ns] in c.namespaces && ns != "" && ns != "." && ns != ".."
    ensures c.tables(ns).Some? && table in c.tables(ns).value
    ensures forall i :: 0 <= i < |words| ==> Includes(c.lower(ns + "." + table), words[i])
  {
    AnswerIsWantedAndInOrder(c, words, limit);
    NamespacesExactly(c, ns);
    MatchesExactly(c, words, Match(ns, table));
  }

  /** Why an answer says that it is cut: it is full, or there are more than 100 namespaces and it holds exactly
      what the first 100 of them hold. */
  lemma CutAnswerExactly(c: Catalog, words: seq<string>, limit: nat, m: Match)
    requires Expected(c, words, limit).Found? && Expected(c, words, limit).truncated
    ensures |Expected(c, words, limit).matches| < limit ==>
      && |Namespaces(c)| > 100
      && (m in Expected(c, words, limit).matches <==> Wanted(c, words, Namespaces(c)[..100], m))
  {
    var read := FirstNamespaces(Namespaces(c));
    if |Expected(c, words, limit).matches| < limit {
      NothingBeforeFailure(c, read);
      AllMatchesExactly(c, words, read, m);
    }
  }

  /** A catalog whose usable namespaces all list their tables gets an answer. */
  lemma ListedCatalogIsAnswered(c: Catalog, words: seq<string>, limit: nat)
    requires forall ns :: [ns] in c.namespaces && ns != "" && ns != "." && ns != ".." ==> c.tables(ns).Some?
    ensures Expected(c, words, limit).Found?
    ensures !Expected(c, words, limit).truncated ==> |Namespaces(c)| <= 100
  {
    var read := FirstNamespaces(Namespaces(c));
    forall i | 0 <= i < |read| ensures !Fails(c, read[i]) {
      assert read[i] == Namespaces(c)[i];
      NamespacesExactly(c, read[i]);
    }
  }

  lemma MatchesExactly(c: Catalog, words: seq<string>, m: Match)
    ensures MatchesWords(c, words, m) <==> forall i :: 0 <= i < |words| ==> Includes(c.lower(m.ns + "." + m.table), words[i])
  {
    var text := c.lower(m.ns + "." + m.table);
    forall word ensures Contains(text, word) <==> Includes(text, word) {
      ContainsExactly(text, word);
    }
  }

  lemma {:induction false} SingleLevelExactly(levels: seq<seq<string>>, ns: string)
    ensures ns in SingleLevel(levels) <==> [ns] in levels
  {
    if levels != [] {
      SingleLevelExactly(levels[1..], ns);
      Uncons(levels);
      assert |levels[0]| == 1 ==> levels[0] == [levels[0][0]];
    }
  }

  lemma NamespacesExactly(c: Catalog, ns: string)
    ensures ns in Namespaces(c) <==> [ns] in c.namespaces
  {
    var listed := SingleLevel(c.namespaces);
    SingleLevelExactly(c.namespaces, ns);
    SortSorts(listed);
    assert ns in listed <==> ns in multiset(listed);
    assert ns in Sort(listed) <==> ns in multiset(Sort(listed));
  }

  lemma {:induction false} BeforeFailureIsPrefix(c: Catalog, namespaces: seq<string>)
    ensures BeforeFailure(c, namespaces) <= namespaces
  {
    if namespaces != [] && !Fails(c, namespaces[0]) {
      BeforeFailureIsPrefix(c, namespaces[1..]);
    }
  }

  /** Whatever answer the search gives, cut or not: it holds only tables the caller asked for, of the first
      namespaces, never more than the limit, and in order unless a namespace with two different matches is listed twice. */
  lemma AnswerIsWantedAndInOrder(c: Catalog, words: seq<string>, limit: nat)
    requires Expected(c, words, limit).Found?
    ensures var answer := Expected(c, words, limit);
      && |answer.matches| <= limit
      && (forall m :: m in answer.matches ==> Wanted(c, words, FirstNamespaces(Namespaces(c)), m))
      && (NoRepeats(c, words, Namespaces(c)) ==> InOrder(answer.matches))
  {
    var matches := Expected(c, words, limit).matches;
    var read := FirstNamespaces(Namespaces(c));
    var listed := BeforeFailure(c, read);
    var all := AllMatches(c, words, listed);
    BeforeFailureIsPrefix(c, read);
    SortSorts(SingleLevel(c.namespaces));
    forall m | m in matches ensures Wanted(c, words, read, m) {
      assert m in all;
      AllMatchesExactly(c, words, listed, m);
      assert forall ns :: ns in listed ==> ns in read;
    }
    assert listed <= Namespaces(c);
    if NoRepeats(c, words, Namespaces(c)) {
      PrefixIsSorted(c, words, Namespaces(c), |listed|);
      AllMatchesInOrder(c, words, listed);
      assert matches <= all;
    }
  }

  lemma PrefixIsSorted(c: Catalog, words: seq<string>, namespaces: seq<string>, n: nat)
    requires n <= |namespaces| && SortedStrings(namespaces) && NoRepeats(c, words, namespaces)
    ensures SortedStrings(namespaces[..n]) && NoRepeats(c, words, namespaces[..n])
  {
    var front := namespaces[..n];
    forall i, j | 0 <= i < j < |front| && front[i] == front[j] ensures Same(MatchesOf(c, words, front[i])) {
      assert namespaces[i] == front[i] && namespaces[j] == front[j];
    }
  }

  /** An answer that is not cut is in order exactly when no namespace with two different matches is listed twice. */
  lemma UncutAnswerInOrderExactly(c: Catalog, words: seq<string>, limit: nat)
    requires Expected(c, words, limit).Found? && !Expected(c, words, limit).truncated
    ensures InOrder(Expected(c, words, limit).matches) <==> NoRepeats(c, words, Namespaces(c))
  {
    SortSorts(SingleLevel(c.namespaces));
    NothingBeforeFailure(c, Namespaces(c));
    AllMatchesInOrder(c, words, Namespaces(c));
  }

  /** A catalog that lists the namespace "a" twice, with two tables. */
  function Twice(lower: string -> string): Catalog {
    Catalog([["a"], ["a"]], _ => Some(["x", "y"]), lower)
  }

  lemma TwiceMatches(lower: string -> string, words: seq<string>)
    requires MatchesWords(Twice(lower), words, Match("a", "x")) && MatchesWords(Twice(lower), words, Match("a", "y"))
    ensures var c, x, y := Twice(lower), Match("a", "x"), Match("a", "y");
      Namespaces(c) == ["a", "a"] && AllListed(c, Namespaces(c)) && AllMatches(c, words, Namespaces(c)) == [x, y, x, y]
  {
    var c, x, y := Twice(lower), Match("a", "x"), Match("a", "y");
    assert SingleLevel([["a"]]) == ["a"] by {
      assert [["a"]][1..] == [];
    }
    assert [["a"], ["a"]][1..] == [["a"]];
    LeTotal("a", "a");
    assert ["a", "a"][1..] == ["a"] && ["a"][1..] == [];
    assert Sort(["a"]) == ["a"] && Sort(["a", "a"]) == ["a", "a"];
    assert ["x", "y"][1..] == ["y"] && ["y"][1..] == [];
    assert Sort(["y"]) == ["y"] && Le("x", "y") && Sort(["x", "y"]) == ["x", "y"];
    assert MatchesIn(c, words, "a", ["y"]) == [y];
    assert MatchesIn(c, words, "a", ["x", "y"]) == [x, y];
    assert MatchesOf(c, words, "a") == [x, y];
    assert AllMatches(c, words, ["a"]) == [x, y] + AllMatches(c, words, []);
    assert AllMatches(c, words, ["a", "a"]) == [x, y] + AllMatches(c, words, ["a"]);
  }

  /** When both tables are asked for, the uncut answer is out of order. Cut after one match it is in order all
      the same, so for a cut answer the condition is sufficient and not necessary. */
  lemma RepeatedNamespaceIsOutOfOrder(lower: string -> string, words: seq<string>)
    requires MatchesWords(Twice(lower), words, Match("a", "x")) && MatchesWords(Twice(lower), words, Match("a", "y"))
    ensures var c := Twice(lower);
      && Expected(c, words, 4).Found? && !InOrder(Expected(c, words, 4).matches)
      && Expected(c, words, 1).Found? && InOrder(Expected(c, words, 1).matches)
      && !NoRepeats(c, words, Namespaces(c))
  {
    var c, x, y := Twice(lower), Match("a", "x"), Match("a", "y");
    TwiceMatches(lower, words);
    NothingBeforeFailure(c, Namespaces(c));
    var answer := Expected(c, words, 4).matches;
    assert answer == [x, y, x, y];
    assert !Le("y", "x");
    assert !Before(answer[1], answer[2]);
    UncutAnswerInOrderExactly(c, words, 4);
  }
}
