/**
 * The OEM candidate filter and ranker (`_has_priority_term`,
 * `_filter_oem_candidates`, podzamenu_lookup_service.py:73-88, 298-318).
 */
module Candidates {
  import opened Text

  /** One `(oem, name)` row of a parts table. */
  datatype Candidate = Candidate(oem: string, name: string)

  /** OEM_INCLUDE_PATTERNS: a kept candidate's name mentions the gearbox. */
  const OemIncludePatterns: seq<string> := [
    "кпп", "акпп", "коробк", "коробка передач", "коробка передач в сборе",
    "мкп", "акп", "вариатор", "вариатор в сборе", "cvt",
    "трансмиссия", "transmission", "gearbox", "gear box",
    "at transmission", "mt transmission",
    "автоматическая коробка", "механическая коробка"
  ]

  /** OEM_EXCLUDE_PATTERNS: consumables and fasteners, never kept. */
  const OemExcludePatterns: seq<string> := [
    "масло", "шайб", "фиксатор", "шумоизоляц", "болт", "гайк", "уплотн",
    "прокладк", "сальник", "фильтр", "датчик", "крепеж"
  ]

  /** OEM_PRIORITY_TERMS: names with one of these rank first. */
  const OemPriorityTerms: seq<string> := ["в сборе", "трансмиссия", "коробка передач"]

  /** The filter's test on a name: no exclude term and some include term, case-insensitively. */
  predicate Relevant(name: string) {
    !ContainsAny(Lower(name), OemExcludePatterns) && ContainsAny(Lower(name), OemIncludePatterns)
  }

  /** `_has_priority_term`. */
  predicate HasPriorityTerm(name: string) {
    ContainsAny(Lower(name), OemPriorityTerms)
  }

  /** The relevance and priority tests ignore letter case. */
  lemma TestsIgnoreCase(name: string)
    ensures Relevant(Lower(name)) == Relevant(name)
    ensures HasPriorityTerm(Lower(name)) == HasPriorityTerm(name)
  {
    LowerIdempotent(name);
  }

  /** A relevant name mentions an include term, so it is never empty. */
  lemma RelevantNameNonEmpty(name: string)
    requires Relevant(name)
    ensures name != []
  {
    if name == [] {
      assert Lower(name) == [];
      NothingInEmpty(OemIncludePatterns);
    }
  }

  // ---------------------------------------------------------------------------
  // Filtering
  // ---------------------------------------------------------------------------

  /** The relevant candidates, in input order. */
  function Filtered(cs: seq<Candidate>): seq<Candidate>
  {
    if cs == [] then []
    else Filtered(cs[..|cs| - 1]) + (if Relevant(cs[|cs| - 1].name) then [cs[|cs| - 1]] else [])
  }

  /** Filtering distributes over concatenation, so it keeps the input order. */
  lemma {:induction false} FilteredAppend(a: seq<Candidate>, b: seq<Candidate>)
    ensures Filtered(a + b) == Filtered(a) + Filtered(b)
    decreases |b|
  {
    if b == [] {
      assert a + b == a;
    } else {
      assert (a + b)[..|a + b| - 1] == a + b[..|b| - 1];
      FilteredAppend(a, b[..|b| - 1]);
    }
  }

  /** Each candidate occurs in the filtered list as often as in the input if relevant, else never. */
  lemma {:induction false} FilteredCount(cs: seq<Candidate>, c: Candidate)
    ensures multiset(Filtered(cs))[c] == if Relevant(c.name) then multiset(cs)[c] else 0
    decreases |cs|
  {
    if cs != [] {
      var init := cs[..|cs| - 1];
      FilteredCount(init, c);
      assert cs == init + [cs[|cs| - 1]];
    }
  }

  /** A candidate is kept exactly when it is in the input and relevant. */
  lemma FilteredMember(cs: seq<Candidate>, c: Candidate)
    ensures c in Filtered(cs) <==> c in cs && Relevant(c.name)
  {
    FilteredCount(cs, c);
    assert c in Filtered(cs) <==> multiset(Filtered(cs))[c] > 0;
    assert c in cs <==> multiset(cs)[c] > 0;
  }

  /** The filter keeps nothing exactly when no input name is relevant. */
  lemma {:induction false} FilteredEmpty(cs: seq<Candidate>)
    ensures Filtered(cs) == [] <==> forall k :: 0 <= k < |cs| ==> !Relevant(cs[k].name)
  {
    if Filtered(cs) != [] {
      FilteredMember(cs, Filtered(cs)[0]);
    }
    if k :| 0 <= k < |cs| && Relevant(cs[k].name) {
      FilteredMember(cs, cs[k]);
    }
  }

  /** The first kept candidate is the first relevant one in the input. */
  lemma {:induction false} FilteredHead(cs: seq<Candidate>, k: nat)
    requires k < |cs| && Relevant(cs[k].name)
    requires forall j :: 0 <= j < k ==> !Relevant(cs[j].name)
    ensures Filtered(cs) != [] && Filtered(cs)[0] == cs[k]
  {
    assert cs == cs[..k] + cs[k..];
    FilteredAppend(cs[..k], cs[k..]);
    FilteredEmpty(cs[..k]);
    assert cs[k..] == [cs[k]] + cs[k + 1..];
    FilteredAppend([cs[k]], cs[k + 1..]);
    assert [cs[k]][..0] == [];
  }

  /** A list that is already relevant throughout passes the filter unchanged. */
  lemma {:induction false} FilteredKeepsRelevant(cs: seq<Candidate>)
    requires forall k :: 0 <= k < |cs| ==> Relevant(cs[k].name)
    ensures Filtered(cs) == cs
    decreases |cs|
  {
    if cs != [] {
      var init, last := cs[..|cs| - 1], cs[|cs| - 1];
      assert forall k :: 0 <= k < |init| ==> Relevant(init[k].name) by {
        forall k | 0 <= k < |init| ensures Relevant(init[k].name) {
          assert init[k] == cs[k];
        }
      }
      FilteredKeepsRelevant(init);
      assert Relevant(last.name);
      assert Filtered(cs) == Filtered(init) + [last];
      assert init + [last] == cs;
    }
  }

  // ---------------------------------------------------------------------------
  // Ranking: `result.sort(key=lambda x: (0 if _has_priority_term(x[1]) else 1, x[1]))`
  // ---------------------------------------------------------------------------

  function Rank(c: Candidate): nat {
    if HasPriorityTerm(c.name) then 0 else 1
  }

  /** The sort key `(rank, name)` of `a` is at most that of `b`. */
  predicate KeyLe(a: Candidate, b: Candidate) {
    Rank(a) < Rank(b) || (Rank(a) == Rank(b) && StrLe(a.name, b.name))
  }

  predicate SortedByKey(s: seq<Candidate>) {
    forall i, j :: 0 <= i < j < |s| ==> KeyLe(s[i], s[j])
  }

  /** Inserts `c` before the first element whose key is not smaller, so that ties keep input order. */
  function Insert(c: Candidate, s: seq<Candidate>): seq<Candidate> {
    if s == [] then [c]
    else if KeyLe(c, s[0]) then [c] + s
    else [s[0]] + Insert(c, s[1..])
  }

  /** Python's stable `list.sort` on the key `(rank, name)`, as an insertion sort. */
  function PrioritySort(s: seq<Candidate>): seq<Candidate> {
    if s == [] then [] else Insert(s[0], PrioritySort(s[1..]))
  }

  lemma KeyLeTotal(a: Candidate, b: Candidate)
    ensures KeyLe(a, b) || KeyLe(b, a)
  {
    StrLeTotal(a.name, b.name);
  }

  lemma KeyLeTransitive(a: Candidate, b: Candidate, c: Candidate)
    requires KeyLe(a, b) && KeyLe(b, c)
    ensures KeyLe(a, c)
  {
    if Rank(a) == Rank(b) == Rank(c) {
      StrLeTransitive(a.name, b.name, c.name);
    }
  }

  lemma {:induction false} InsertPermutes(c: Candidate, s: seq<Candidate>)
    ensures multiset(Insert(c, s)) == multiset(s) + multiset{c}
    decreases |s|
  {
    if s != [] && !KeyLe(c, s[0]) {
      InsertPermutes(c, s[1..]);
      assert s == [s[0]] + s[1..];
    }
  }

  /** No element of `s` has a smaller key than `x`. */
  predicate KeyBelowAll(x: Candidate, s: seq<Candidate>) {
    forall j :: 0 <= j < |s| ==> KeyLe(x, s[j])
  }

  lemma ConsSorted(x: Candidate, s: seq<Candidate>)
    requires SortedByKey(s) && KeyBelowAll(x, s)
    ensures SortedByKey([x] + s)
  {
    var r := [x] + s;
    forall i, j | 0 <= i < j < |r| ensures KeyLe(r[i], r[j]) {
      if i == 0 {
        assert r[j] == s[j - 1];
      } else {
        assert r[i] == s[i - 1] && r[j] == s[j - 1];
      }
    }
  }

  lemma {:induction false} InsertKeepsBound(x: Candidate, c: Candidate, s: seq<Candidate>)
    requires KeyLe(x, c) && KeyBelowAll(x, s)
    ensures KeyBelowAll(x, Insert(c, s))
    decreases |s|
  {
    if s != [] && !KeyLe(c, s[0]) {
      InsertKeepsBound(x, c, s[1..]);
      assert KeyBelowAll(x, s[1..]) by {
        forall j | 0 <= j < |s[1..]| ensures KeyLe(x, s[1..][j]) {
          assert s[1..][j] == s[j + 1];
        }
      }
    }
  }

  lemma {:induction false} InsertSorted(c: Candidate, s: seq<Candidate>)
    requires SortedByKey(s)
    ensures SortedByKey(Insert(c, s))
    decreases |s|
  {
    if s == [] {
    } else if KeyLe(c, s[0]) {
      forall j | 0 <= j < |s| ensures KeyLe(c, s[j]) {
        if j > 0 {
          KeyLeTransitive(c, s[0], s[j]);
        }
      }
      ConsSorted(c, s);
    } else {
      var rest := s[1..];
      assert SortedByKey(rest) by {
        forall i, j | 0 <= i < j < |rest| ensures KeyLe(rest[i], rest[j]) {
          assert rest[i] == s[i + 1] && rest[j] == s[j + 1];
        }
      }
      assert KeyBelowAll(s[0], rest) by {
        forall j | 0 <= j < |rest| ensures KeyLe(s[0], rest[j]) {
          assert rest[j] == s[j + 1];
        }
      }
      InsertSorted(c, rest);
      KeyLeTotal(c, s[0]);
      InsertKeepsBound(s[0], c, rest);
      ConsSorted(s[0], Insert(c, rest));
    }
  }

  /** The ranked list is a permutation of its input. */
  lemma {:induction false} PrioritySortPermutes(s: seq<Candidate>)
    ensures multiset(PrioritySort(s)) == multiset(s)
    decreases |s|
  {
    if s != [] {
      var rest := s[1..];
      PrioritySortPermutes(rest);
      InsertPermutes(s[0], PrioritySort(rest));
      assert s == [s[0]] + rest;
      calc {
        multiset(PrioritySort(s));
        multiset(Insert(s[0], PrioritySort(rest)));
        multiset(PrioritySort(rest)) + multiset{s[0]};
        multiset(rest) + multiset{s[0]};
        multiset([s[0]] + rest);
      }
    }
  }

  /**
   * The ranked list is ordered by key: every name with a priority term comes
   * before every name without one, and names of equal rank ascend.
   */
  lemma {:induction false} PrioritySortOrders(s: seq<Candidate>)
    ensures SortedByKey(PrioritySort(s))
    ensures forall i, j :: 0 <= i < j < |PrioritySort(s)| && HasPriorityTerm(PrioritySort(s)[j].name) ==>
              HasPriorityTerm(PrioritySort(s)[i].name)
    ensures forall i, j :: 0 <= i < j < |PrioritySort(s)| && Rank(PrioritySort(s)[i]) == Rank(PrioritySort(s)[j]) ==>
              StrLe(PrioritySort(s)[i].name, PrioritySort(s)[j].name)
    decreases |s|
  {
    if s != [] {
      PrioritySortOrders(s[1..]);
      InsertSorted(s[0], PrioritySort(s[1..]));
    }
  }

  /**
   * `_filter_oem_candidates`: keeps the relevant candidates in input order
   * and, when asked, ranks them by `(priority, name)`.
   */
  method FilterOemCandidates(candidates: seq<Candidate>, sortByPriority: bool) returns (result: seq<Candidate>)
    ensures !sortByPriority ==> result == Filtered(candidates)
    ensures sortByPriority ==> result == PrioritySort(Filtered(candidates))
    ensures multiset(result) == multiset(Filtered(candidates))
    ensures sortByPriority ==> SortedByKey(result)
  {
    result := [];
    var i := 0;
    while i < |candidates|
      invariant 0 <= i <= |candidates|
      invariant result == Filtered(candidates[..i])
    {
      var c := candidates[i];
      assert candidates[..i + 1][..i] == candidates[..i];
      if ContainsAny(Lower(c.name), OemExcludePatterns) {
        i := i + 1;
        continue;
      }
      if ContainsAny(Lower(c.name), OemIncludePatterns) {
        result := result + [c];
      }
      i := i + 1;
    }
    assert candidates[..i] == candidates;
    if sortByPriority {
      PrioritySortPermutes(result);
      PrioritySortOrders(result);
      result := PrioritySort(result);
    }
  }
}
