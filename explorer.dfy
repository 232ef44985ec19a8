/** The catalogue view of App.tsx: the search filter over the crystal list,
    and the view state that the click, sync and close handlers update. */
module Explorer {
  import opened Wrappers
  import opened Text
  import opened Catalogue
  import opened Enrichment

  // ---------------------------------------------------------------------
  // The filter

  /** `properties.some(p => p.toLowerCase().includes(lowered))`. */
  function SomePropertyIncludes(properties: seq<string>, lowered: string): (r: bool)
    ensures r <==> exists i :: 0 <= i < |properties| && Includes(Lower(properties[i]), lowered)
  {
    if properties == [] then false
    else
      var rest := SomePropertyIncludes(properties[1..], lowered);
      assert forall i :: 1 <= i < |properties| ==> properties[i] == properties[1..][i - 1];
      Includes(Lower(properties[0]), lowered) || rest
  }

  /** The filter's test for one entry: the lowered name or some lowered
      healing property includes the lowered query. */
  predicate Matches(c: Crystal, query: string) {
    Includes(Lower(c.name), Lower(query)) || SomePropertyIncludes(c.healingProperties, Lower(query))
  }

  /** `crystals.filter(...)`: the entries that match, in catalogue order. */
  function Filter(cs: seq<Crystal>, query: string): (r: seq<Crystal>)
    ensures |r| <= |cs|
    ensures forall c :: c in r ==> c in cs && Matches(c, query)
  {
    if cs == [] then []
    else
      var rest := Filter(cs[1..], query);
      if Matches(cs[0], query) then [cs[0]] + rest else rest
  }

  /** The one-entry result of the filter's test. */
  function Kept(c: Crystal, query: string): seq<Crystal> {
    if Matches(c, query) then [c] else []
  }

  /** a is obtained from b by deleting elements; the order of the rest is kept. */
  ghost predicate IsSubsequence<T>(a: seq<T>, b: seq<T>)
    decreases |b|
  {
    a == [] || (b != [] && ((a[0] == b[0] && IsSubsequence(a[1..], b[1..])) || IsSubsequence(a, b[1..])))
  }

  /** Reference meaning of the filter's test, on slices of strings. */
  ghost predicate MatchesBySlices(c: Crystal, query: string) {
    || IsSubstring(Lower(query), Lower(c.name))
    || exists p :: p in c.healingProperties && IsSubstring(Lower(query), Lower(p))
  }

  /** The test searches the name and the healing properties and nothing else:
      colours, chakras and the description never take part. */
  lemma MatchesMeaning(c: Crystal, query: string)
    ensures Matches(c, query) <==> MatchesBySlices(c, query)
  {
    IncludesIff(Lower(c.name), Lower(query));
    forall p | p in c.healingProperties
      ensures Includes(Lower(p), Lower(query)) <==> IsSubstring(Lower(query), Lower(p))
    {
      IncludesIff(Lower(p), Lower(query));
    }
    if SomePropertyIncludes(c.healingProperties, Lower(query)) {
      var i :| 0 <= i < |c.healingProperties| && Includes(Lower(c.healingProperties[i]), Lower(query));
      assert c.healingProperties[i] in c.healingProperties;
    }
    if exists p :: p in c.healingProperties && IsSubstring(Lower(query), Lower(p)) {
      var p :| p in c.healingProperties && IsSubstring(Lower(query), Lower(p));
      var i :| 0 <= i < |c.healingProperties| && c.healingProperties[i] == p;
    }
  }

  /** An entry is kept exactly when it is in the list and matches. */
  lemma {:induction false} FilterKeepsExactlyMatches(cs: seq<Crystal>, query: string, c: Crystal)
    ensures c in Filter(cs, query) <==> c in cs && Matches(c, query)
  {
    if cs != [] {
      FilterKeepsExactlyMatches(cs[1..], query, c);
      assert c in cs <==> c == cs[0] || c in cs[1..];
    }
  }

  /** The result keeps the catalogue order: it is a subsequence of it. */
  lemma {:induction false} FilterIsSubsequence(cs: seq<Crystal>, query: string)
    ensures IsSubsequence(Filter(cs, query), cs)
  {
    if cs != [] {
      FilterIsSubsequence(cs[1..], query);
      var rest := Filter(cs[1..], query);
      if !Matches(cs[0], query) && rest != [] {
        assert IsSubsequence(rest, cs[1..]);
      }
    }
  }

  /** The empty query keeps every entry, since every string includes "". */
  lemma {:induction false} EmptyQueryKeepsAll(cs: seq<Crystal>)
    ensures Filter(cs, "") == cs
  {
    if cs != [] {
      IncludesEmpty(Lower(cs[0].name));
      assert Lower("") == "";
      EmptyQueryKeepsAll(cs[1..]);
    }
  }

  /** Queries that agree after lowering select the same entries. */
  lemma {:induction false} FilterIgnoresCase(cs: seq<Crystal>, q1: string, q2: string)
    requires Lower(q1) == Lower(q2)
    ensures Filter(cs, q1) == Filter(cs, q2)
  {
    if cs != [] {
      FilterIgnoresCase(cs[1..], q1, q2);
    }
  }

  /** A query that includes q1 is at least as selective: every entry kept for
      q2 is kept for q1, and the q2 result is a subsequence of the q1 result. */
  lemma MatchesNarrowing(c: Crystal, q1: string, q2: string)
    requires Includes(q2, q1) && Matches(c, q2)
    ensures Matches(c, q1)
  {
    LowerKeepsIncludes(q2, q1);
    if Includes(Lower(c.name), Lower(q2)) {
      IncludesTransitive(Lower(c.name), Lower(q2), Lower(q1));
    } else {
      var i :| 0 <= i < |c.healingProperties| && Includes(Lower(c.healingProperties[i]), Lower(q2));
      IncludesTransitive(Lower(c.healingProperties[i]), Lower(q2), Lower(q1));
    }
  }

  lemma {:induction false} FilterNarrowing(cs: seq<Crystal>, q1: string, q2: string)
    requires Includes(q2, q1)
    ensures IsSubsequence(Filter(cs, q2), Filter(cs, q1))
    ensures forall c :: c in Filter(cs, q2) ==> c in Filter(cs, q1)
  {
    if cs != [] {
      FilterNarrowing(cs[1..], q1, q2);
      if Matches(cs[0], q2) {
        MatchesNarrowing(cs[0], q1, q2);
      } else if Filter(cs[1..], q2) != [] && Matches(cs[0], q1) {
        var r1 := Filter(cs, q1);
        assert r1[1..] == Filter(cs[1..], q1);
      }
    }
  }

  // ---------------------------------------------------------------------
  // The filter on the fixed catalogue

  /** Neither the name nor any property contains c or its upper-case form u. */
  predicate Lacks(name: string, properties: seq<string>, c: char, u: char) {
    && Free(name, c) && Free(name, u)
    && forall i :: 0 <= i < |properties| ==> Free(properties[i], c) && Free(properties[i], u)
  }

  /** An entry none of whose searched strings includes a lower-case query is not kept. */
  lemma RejectedByStrings(e: Crystal, query: string)
    requires Lower(query) == query && !Includes(Lower(e.name), query)
    requires forall i :: 0 <= i < |e.healingProperties| ==> !Includes(Lower(e.healingProperties[i]), query)
    ensures !Matches(e, query)
  {
  }

  /** An entry lacking a letter of a lower-case query, in both cases, is not kept. */
  lemma RejectedByLetter(e: Crystal, query: string, c: char, u: char)
    requires c in query && 'a' <= c <= 'z' && u as int == c as int - 32 && Lower(query) == query
    requires Lacks(e.name, e.healingProperties, c, u)
    ensures !Matches(e, query)
  {
    LowerExcludesByLetter(e.name, query, c, u);
    forall i | 0 <= i < |e.healingProperties|
      ensures !Includes(Lower(e.healingProperties[i]), query)
    {
      LowerExcludesByLetter(e.healingProperties[i], query, c, u);
    }
    RejectedByStrings(e, query);
  }

  /** Filter on a list with a first entry. */
  lemma FilterCons(c: Crystal, cs: seq<Crystal>, q: string)
    ensures Filter([c] + cs, q) == Kept(c, q) + Filter(cs, q)
  {
    assert ([c] + cs)[1..] == cs;
  }

  /** The filter distributes over concatenation. */
  lemma {:induction false} FilterAppend(xs: seq<Crystal>, ys: seq<Crystal>, q: string)
    ensures Filter(xs + ys, q) == Filter(xs, q) + Filter(ys, q)
  {
    if xs == [] {
      assert xs + ys == ys;
    } else {
      assert (xs + ys)[1..] == xs[1..] + ys;
      FilterAppend(xs[1..], ys, q);
    }
  }

  lemma FilterThree(q: string, a: Crystal, b: Crystal, c: Crystal)
    ensures Filter([a, b, c], q) == Kept(a, q) + (Kept(b, q) + Kept(c, q))
  {
    FilterCons(c, [], q);
    assert [c] + [] == [c];
    FilterCons(b, [c], q);
    assert [b] + [c] == [b, c];
    FilterCons(a, [b, c], q);
    assert [a] + [b, c] == [a, b, c];
  }

  /** The filtered catalogue is the entries kept one by one, in order. */
  lemma FilterCatalogue(q: string)
    ensures Filter(InitialCrystals, q)
         == (Kept(Amethyst, q) + (Kept(RoseQuartz, q) + Kept(Citrine, q)))
          + (Kept(ClearQuartz, q) + (Kept(BlackTourmaline, q) + Kept(LapisLazuli, q)))
  {
    var xs, ys := [Amethyst, RoseQuartz, Citrine], [ClearQuartz, BlackTourmaline, LapisLazuli];
    assert InitialCrystals == xs + ys;
    FilterAppend(xs, ys, q);
    FilterThree(q, Amethyst, RoseQuartz, Citrine);
    FilterThree(q, ClearQuartz, BlackTourmaline, LapisLazuli);
  }

  // Letters missing from each entry, used to rule entries out for the
  // concrete queries below.
  lemma AmethystLetters()
    ensures Lacks(AmethystName, AmethystHealing, 'v', 'V') && Lacks(AmethystName, AmethystHealing, 'z', 'Z')
  {
    assert Free(AmethystName, 'v') && Free(AmethystName, 'V') && Free(AmethystName, 'z') && Free(AmethystName, 'Z');
    assert Free(AmethystHealing[0], 'v') && Free(AmethystHealing[0], 'V') && Free(AmethystHealing[0], 'z') && Free(AmethystHealing[0], 'Z');
    assert Free(AmethystHealing[1], 'v') && Free(AmethystHealing[1], 'V') && Free(AmethystHealing[1], 'z') && Free(AmethystHealing[1], 'Z');
    assert Free(AmethystHealing[2], 'v') && Free(AmethystHealing[2], 'V') && Free(AmethystHealing[2], 'z') && Free(AmethystHealing[2], 'Z');
  }

  lemma RoseQuartzLetters()
    ensures Lacks(RoseQuartzName, RoseQuartzHealing, 'x', 'X')
  {
    assert Free(RoseQuartzName, 'x') && Free(RoseQuartzName, 'X');
    assert Free(RoseQuartzHealing[0], 'x') && Free(RoseQuartzHealing[0], 'X');
    assert Free(RoseQuartzHealing[1], 'x') && Free(RoseQuartzHealing[1], 'X');
    assert Free(RoseQuartzHealing[2], 'x') && Free(RoseQuartzHealing[2], 'X');
  }

  lemma CitrineLetters()
    ensures Lacks(CitrineName, CitrineHealing, 'v', 'V') && Lacks(CitrineName, CitrineHealing, 'z', 'Z') && Lacks(CitrineName, CitrineHealing, 'p', 'P')
  {
    assert Free(CitrineName, 'v') && Free(CitrineName, 'V') && Free(CitrineName, 'z') && Free(CitrineName, 'Z') && Free(CitrineName, 'p') && Free(CitrineName, 'P');
    assert Free(CitrineHealing[0], 'v') && Free(CitrineHealing[0], 'V') && Free(CitrineHealing[0], 'z') && Free(CitrineHealing[0], 'Z') && Free(CitrineHealing[0], 'p') && Free(CitrineHealing[0], 'P');
    assert Free(CitrineHealing[1], 'v') && Free(CitrineHealing[1], 'V') && Free(CitrineHealing[1], 'z') && Free(CitrineHealing[1], 'Z') && Free(CitrineHealing[1], 'p') && Free(CitrineHealing[1], 'P');
    assert Free(CitrineHealing[2], 'v') && Free(CitrineHealing[2], 'V') && Free(CitrineHealing[2], 'z') && Free(CitrineHealing[2], 'Z') && Free(CitrineHealing[2], 'p') && Free(CitrineHealing[2], 'P');
  }

  lemma ClearQuartzLetters()
    ensures Lacks(ClearQuartzName, ClearQuartzHealing, 'v', 'V') && Lacks(ClearQuartzName, ClearQuartzHealing, 'x', 'X')
  {
    assert Free(ClearQuartzName, 'v') && Free(ClearQuartzName, 'V') && Free(ClearQuartzName, 'x') && Free(ClearQuartzName, 'X');
    assert Free(ClearQuartzHealing[0], 'v') && Free(ClearQuartzHealing[0], 'V') && Free(ClearQuartzHealing[0], 'x') && Free(ClearQuartzHealing[0], 'X');
    assert Free(ClearQuartzHealing[1], 'v') && Free(ClearQuartzHealing[1], 'V') && Free(ClearQuartzHealing[1], 'x') && Free(ClearQuartzHealing[1], 'X');
  }

  lemma BlackTourmalineLetters()
    ensures Lacks(BlackTourmalineName, BlackTourmalineHealing, 'v', 'V') && Lacks(BlackTourmalineName, BlackTourmalineHealing, 'z', 'Z')
  {
    assert Free(BlackTourmalineName, 'v') && Free(BlackTourmalineName, 'V') && Free(BlackTourmalineName, 'z') && Free(BlackTourmalineName, 'Z');
    assert Free(BlackTourmalineHealing[0], 'v') && Free(BlackTourmalineHealing[0], 'V') && Free(BlackTourmalineHealing[0], 'z') && Free(BlackTourmalineHealing[0], 'Z');
    assert Free(BlackTourmalineHealing[1], 'v') && Free(BlackTourmalineHealing[1], 'V') && Free(BlackTourmalineHealing[1], 'z') && Free(BlackTourmalineHealing[1], 'Z');
    assert Free(BlackTourmalineHealing[2], 'v') && Free(BlackTourmalineHealing[2], 'V') && Free(BlackTourmalineHealing[2], 'z') && Free(BlackTourmalineHealing[2], 'Z');
  }

  lemma LapisLazuliLetters()
    ensures Lacks(LapisLazuliName, LapisLazuliHealing, 'v', 'V') && Lacks(LapisLazuliName, LapisLazuliHealing, 'q', 'Q') && Lacks(LapisLazuliName, LapisLazuliHealing, 'x', 'X')
  {
    assert Free(LapisLazuliName, 'v') && Free(LapisLazuliName, 'V') && Free(LapisLazuliName, 'q') && Free(LapisLazuliName, 'Q') && Free(LapisLazuliName, 'x') && Free(LapisLazuliName, 'X');
    assert Free(LapisLazuliHealing[0], 'v') && Free(LapisLazuliHealing[0], 'V') && Free(LapisLazuliHealing[0], 'q') && Free(LapisLazuliHealing[0], 'Q') && Free(LapisLazuliHealing[0], 'x') && Free(LapisLazuliHealing[0], 'X');
    assert Free(LapisLazuliHealing[1], 'v') && Free(LapisLazuliHealing[1], 'V') && Free(LapisLazuliHealing[1], 'q') && Free(LapisLazuliHealing[1], 'Q') && Free(LapisLazuliHealing[1], 'x') && Free(LapisLazuliHealing[1], 'X');
    assert Free(LapisLazuliHealing[2], 'v') && Free(LapisLazuliHealing[2], 'V') && Free(LapisLazuliHealing[2], 'q') && Free(LapisLazuliHealing[2], 'Q') && Free(LapisLazuliHealing[2], 'x') && Free(LapisLazuliHealing[2], 'X');
  }

  lemma LoveRejects(q: string)
    requires 'v' in q && Lower(q) == q
    ensures !Matches(Amethyst, q) && !Matches(Citrine, q) && !Matches(ClearQuartz, q)
    ensures !Matches(BlackTourmaline, q) && !Matches(LapisLazuli, q)
  {
    AmethystLetters();
    RejectedByLetter(Amethyst, q, 'v', 'V');
    CitrineLetters();
    RejectedByLetter(Citrine, q, 'v', 'V');
    ClearQuartzLetters();
    RejectedByLetter(ClearQuartz, q, 'v', 'V');
    BlackTourmalineLetters();
    RejectedByLetter(BlackTourmaline, q, 'v', 'V');
    LapisLazuliLetters();
    RejectedByLetter(LapisLazuli, q, 'v', 'V');
  }

  lemma LoveInRoseQuartz(q: string)
    requires q == "love"
    ensures Lower(q) == q && Includes(Lower(RoseQuartzHealing[0]), q)
  {
    assert Lower(q) == q;
    assert Lower(RoseQuartzHealing[0]) == q;
    IncludesSelf(q);
  }

  /** "love" finds only Rose Quartz, through its "Love" property. */
  lemma FilterLove(q: string)
    requires q == "love"
    ensures Filter(InitialCrystals, q) == [RoseQuartz]
  {
    LoveInRoseQuartz(q);
    LoveRejects(q);
    FilterCatalogue(q);
  }

  lemma QuartzRejects(q: string)
    requires 'q' in q && 'z' in q && Lower(q) == q
    ensures !Matches(Amethyst, q) && !Matches(Citrine, q)
    ensures !Matches(BlackTourmaline, q) && !Matches(LapisLazuli, q)
  {
    AmethystLetters();
    RejectedByLetter(Amethyst, q, 'z', 'Z');
    CitrineLetters();
    RejectedByLetter(Citrine, q, 'z', 'Z');
    BlackTourmalineLetters();
    RejectedByLetter(BlackTourmaline, q, 'z', 'Z');
    LapisLazuliLetters();
    RejectedByLetter(LapisLazuli, q, 'q', 'Q');
  }

  lemma QuartzInQuartzNames(q: string)
    requires q == "quartz"
    ensures Lower(q) == q
    ensures Includes(Lower(RoseQuartzName), q) && Includes(Lower(ClearQuartzName), q)
  {
    assert Lower(q) == q;
    var suffix := "Quartz";
    assert Lower(suffix) == q;
    assert RoseQuartzName == "Rose " + suffix;
    LowerIncludesSuffix("Rose ", suffix, q);
    assert ClearQuartzName == "Clear " + suffix;
    LowerIncludesSuffix("Clear ", suffix, q);
  }

  /** "quartz" finds the two quartzes, by name. */
  lemma FilterQuartz(q: string)
    requires q == "quartz"
    ensures Filter(InitialCrystals, q) == [RoseQuartz, ClearQuartz]
  {
    QuartzInQuartzNames(q);
    QuartzRejects(q);
    FilterCatalogue(q);
  }

  lemma NoMatchRejects(q: string)
    requires 'x' in q && 'z' in q && Lower(q) == q
    ensures !Matches(Amethyst, q) && !Matches(RoseQuartz, q) && !Matches(Citrine, q)
    ensures !Matches(ClearQuartz, q) && !Matches(BlackTourmaline, q) && !Matches(LapisLazuli, q)
  {
    AmethystLetters();
    RejectedByLetter(Amethyst, q, 'z', 'Z');
    RoseQuartzLetters();
    RejectedByLetter(RoseQuartz, q, 'x', 'X');
    CitrineLetters();
    RejectedByLetter(Citrine, q, 'z', 'Z');
    ClearQuartzLetters();
    RejectedByLetter(ClearQuartz, q, 'x', 'X');
    BlackTourmalineLetters();
    RejectedByLetter(BlackTourmaline, q, 'z', 'Z');
    LapisLazuliLetters();
    RejectedByLetter(LapisLazuli, q, 'x', 'X');
  }

  /** A query found nowhere yields the empty list. */
  lemma FilterNoMatch(q: string)
    requires q == "xyz"
    ensures Filter(InitialCrystals, q) == []
  {
    assert Lower(q) == q;
    NoMatchRejects(q);
    FilterCatalogue(q);
  }

  lemma ProtectionRejectsRoseQuartz(q: string)
    requires 'p' in q && 'r' in q && Lower(q) == q
    ensures !Matches(RoseQuartz, q)
  {
    var hp := RoseQuartzHealing;
    assert Free(RoseQuartzName, 'p') && Free(RoseQuartzName, 'P');
    LowerExcludesByLetter(RoseQuartzName, q, 'p', 'P');
    assert Free(hp[0], 'p') && Free(hp[0], 'P');
    LowerExcludesByLetter(hp[0], q, 'p', 'P');
    assert Free(hp[1], 'r') && Free(hp[1], 'R');
    LowerExcludesByLetter(hp[1], q, 'r', 'R');
    assert Free(hp[2], 'p') && Free(hp[2], 'P');
    LowerExcludesByLetter(hp[2], q, 'p', 'P');
    RejectedByStrings(RoseQuartz, q);
  }

  /** "Energy Amplification" has every letter of "protection", but its one
      'p' is followed by 'l'. */
  lemma ProtectionRejectsClearQuartz(q: string)
    requires |q| >= 2 && q[0] == 'p' && q[1] == 'r' && Lower(q) == q
    ensures !Matches(ClearQuartz, q)
  {
    var hp := ClearQuartzHealing;
    assert Free(ClearQuartzName, 'p') && Free(ClearQuartzName, 'P');
    LowerExcludesByLetter(ClearQuartzName, q, 'p', 'P');
    assert Free(hp[0], 'p') && Free(hp[0], 'P');
    LowerExcludesByLetter(hp[0], q, 'p', 'P');
    var s1, s2 := "Energy Am", "lification";
    assert hp[1] == s1 + ['p'] + s2;
    assert Free(s1, 'p') && Free(s1, 'P') && Free(s2, 'p') && Free(s2, 'P');
    LowerExcludedBySplit(s1, 'p', s2, q, 'P');
    RejectedByStrings(ClearQuartz, q);
  }

  lemma ProtectionRejectsLapisLazuli(q: string)
    requires 'p' in q && 'r' in q && Lower(q) == q
    ensures !Matches(LapisLazuli, q)
  {
    var hp := LapisLazuliHealing;
    assert Free(LapisLazuliName, 'r') && Free(LapisLazuliName, 'R');
    LowerExcludesByLetter(LapisLazuliName, q, 'r', 'R');
    assert Free(hp[0], 'p') && Free(hp[0], 'P');
    LowerExcludesByLetter(hp[0], q, 'p', 'P');
    assert Free(hp[1], 'p') && Free(hp[1], 'P');
    LowerExcludesByLetter(hp[1], q, 'p', 'P');
    assert Free(hp[2], 'p') && Free(hp[2], 'P');
    LowerExcludesByLetter(hp[2], q, 'p', 'P');
    RejectedByStrings(LapisLazuli, q);
  }

  lemma ProtectionInProtectors(q: string)
    requires q == "protection"
    ensures Lower(q) == q
    ensures Includes(Lower(AmethystHealing[2]), q) && Includes(Lower(BlackTourmalineHealing[0]), q)
  {
    assert Lower(q) == q;
    assert AmethystHealing[2] == "Protection";
    assert BlackTourmalineHealing[0] == "Protection";
    assert Lower("Protection") == q;
    IncludesSelf(q);
  }

  /** "protection" finds Amethyst and Black Tourmaline, in catalogue order,
      through their "Protection" property. */
  lemma FilterProtection(q: string)
    requires q == "protection"
    ensures Filter(InitialCrystals, q) == [Amethyst, BlackTourmaline]
  {
    ProtectionInProtectors(q);
    ProtectionRejectsRoseQuartz(q);
    CitrineLetters();
    RejectedByLetter(Citrine, q, 'p', 'P');
    ProtectionRejectsClearQuartz(q);
    ProtectionRejectsLapisLazuli(q);
    FilterCatalogue(q);
  }

  // ---------------------------------------------------------------------
  // The view state of the catalogue page

  /** The state hooks of the `App` component. Each asynchronous handler is
      split into the part before its `await` and the part after it. */
  class CatalogueView {
    const crystals: seq<Crystal>
    var selectedCrystal: Option<Crystal>
    var aiData: Option<CrystalSearchResponse>
    var loading: bool
    var searchQuery: string
    var crawlingResult: Option<CrystalSearchResponse>
    var isCrawling: bool

    constructor ()
      ensures crystals == InitialCrystals && searchQuery == ""
      ensures selectedCrystal == None && aiData == None && !loading
      ensures crawlingResult == None && !isCrawling
    {
      crystals := InitialCrystals;
      selectedCrystal := None;
      aiData := None;
      loading := false;
      searchQuery := "";
      crawlingResult := None;
      isCrawling := false;
    }

    /** `filteredCrystals`: exactly the entries matching the current query, in order. */
    function Filtered(): (r: seq<Crystal>)
      reads this
      ensures forall c :: c in r <==> c in crystals && Matches(c, searchQuery)
      ensures IsSubsequence(r, crystals)
      ensures searchQuery == "" ==> r == crystals
    {
      FilterIsSubsequence(crystals, searchQuery);
      assert forall c :: c in Filter(crystals, searchQuery) <==> c in crystals && Matches(c, searchQuery) by {
        forall c { FilterKeepsExactlyMatches(crystals, searchQuery, c); }
      }
      if searchQuery == "" then EmptyQueryKeepsAll(crystals); Filter(crystals, searchQuery)
      else Filter(crystals, searchQuery)
    }

    /** The search box's `onChange`. */
    method SetSearchQuery(query: string)
      modifies this
      ensures searchQuery == query
      ensures selectedCrystal == old(selectedCrystal) && aiData == old(aiData) && loading == old(loading)
      ensures crawlingResult == old(crawlingResult) && isCrawling == old(isCrawling)
    {
      searchQuery := query;
    }

    /** "Clear search": the query becomes empty and the whole catalogue shows again. */
    method ClearSearch()
      modifies this
      ensures searchQuery == "" && Filtered() == crystals
      ensures selectedCrystal == old(selectedCrystal) && aiData == old(aiData) && loading == old(loading)
      ensures crawlingResult == old(crawlingResult) && isCrawling == old(isCrawling)
    {
      searchQuery := "";
    }

    /** `handleCrystalClick` up to its `await`: the modal opens on the entry and
        shows the loading state; the previous enrichment is not cleared. */
    method BeginCrystalClick(crystal: Crystal)
      modifies this
      ensures selectedCrystal == Some(crystal) && loading
      ensures aiData == old(aiData) && searchQuery == old(searchQuery)
      ensures crawlingResult == old(crawlingResult) && isCrawling == old(isCrawling)
    {
      selectedCrystal := Some(crystal);
      loading := true;
    }

    /** `handleCrystalClick` after its `await`: a result replaces the enrichment,
        a failure keeps the old one; loading ends either way. */
    method CompleteCrystalClick(result: Result<CrystalSearchResponse, string>)
      modifies this
      ensures !loading
      ensures aiData == if result.Success? then Some(result.value) else old(aiData)
      ensures selectedCrystal == old(selectedCrystal) && searchQuery == old(searchQuery)
      ensures crawlingResult == old(crawlingResult) && isCrawling == old(isCrawling)
    {
      if result.Success? {
        aiData := Some(result.value);
      }
      loading := false;
    }

    /** `handleCrystalClick` as a whole, when no other handler runs during its `await`. */
    method HandleCrystalClick(crystal: Crystal, call: ProviderCall)
      modifies this
      ensures selectedCrystal == Some(crystal) && !loading
      ensures call.Threw? ==> aiData == old(aiData)
      ensures call.Replied? ==> aiData == Some(Normalize(call.response, NoInformationFound))
      ensures searchQuery == old(searchQuery)
      ensures crawlingResult == old(crawlingResult) && isCrawling == old(isCrawling)
    {
      BeginCrystalClick(crystal);
      CompleteCrystalClick(SearchCrystalInfo(call));
    }

    /** `handleSyncSite` up to its `await`. */
    method BeginSync()
      modifies this
      ensures isCrawling && crawlingResult == old(crawlingResult)
      ensures selectedCrystal == old(selectedCrystal) && aiData == old(aiData) && loading == old(loading)
      ensures searchQuery == old(searchQuery)
    {
      isCrawling := true;
    }

    /** `handleSyncSite` after its `await`: a result is stored, a failure keeps
        the previous one; crawling ends either way. */
    method CompleteSync(result: Result<CrystalSearchResponse, string>)
      modifies this
      ensures !isCrawling
      ensures crawlingResult == if result.Success? then Some(result.value) else old(crawlingResult)
      ensures selectedCrystal == old(selectedCrystal) && aiData == old(aiData) && loading == old(loading)
      ensures searchQuery == old(searchQuery)
    {
      if result.Success? {
        crawlingResult := Some(result.value);
      }
      isCrawling := false;
    }

    /** `handleSyncSite` as a whole. */
    method HandleSyncSite(call: ProviderCall)
      modifies this
      ensures !isCrawling
      ensures call.Threw? ==> crawlingResult == old(crawlingResult)
      ensures call.Replied? ==> crawlingResult == Some(Normalize(call.response, NoSiteDataAvailable))
      ensures selectedCrystal == old(selectedCrystal) && aiData == old(aiData) && loading == old(loading)
      ensures searchQuery == old(searchQuery)
    {
      BeginSync();
      CompleteSync(CrawlSpecificSite(call));
    }

    /** The modal's `onClose`: selection and enrichment are dropped, nothing else changes. */
    method CloseModal()
      modifies this
      ensures selectedCrystal == None && aiData == None
      ensures loading == old(loading) && searchQuery == old(searchQuery)
      ensures crawlingResult == old(crawlingResult) && isCrawling == old(isCrawling)
    {
      selectedCrystal := None;
      aiData := None;
    }

    /** The sync panel's "Close" button. */
    method DismissSyncResult()
      modifies this
      ensures crawlingResult == None
      ensures selectedCrystal == old(selectedCrystal) && aiData == old(aiData) && loading == old(loading)
      ensures searchQuery == old(searchQuery) && isCrawling == old(isCrawling)
    {
      crawlingResult := None;
    }
  }

  /** Typing "love" into a fresh page shows Rose Quartz alone; clearing the
      search shows the whole catalogue again. */
  method SearchThenClear() returns (shownForLove: seq<Crystal>, shownAfterClear: seq<Crystal>)
    ensures shownForLove == [RoseQuartz]
    ensures shownAfterClear == InitialCrystals
  {
    var view := new CatalogueView();
    view.SetSearchQuery("love");
    FilterLove(view.searchQuery);
    shownForLove := view.Filtered();
    view.ClearSearch();
    shownAfterClear := view.Filtered();
  }

  /** A failed lookup keeps the enrichment shown before it, even for another entry. */
  method ClickSucceedThenFail(first: Crystal, second: Crystal, response: ProviderResponse)
    returns (shown: Option<CrystalSearchResponse>, selected: Option<Crystal>)
    ensures shown == Some(Normalize(response, NoInformationFound))
    ensures selected == Some(second)
  {
    var view := new CatalogueView();
    view.HandleCrystalClick(first, Replied(response));
    view.HandleCrystalClick(second, Threw);
    shown, selected := view.aiData, view.selectedCrystal;
  }

  /** Opening an entry whose lookup fails and then closing the modal leaves no
      selection, no enrichment and no loading state. */
  method ClickFailThenClose(crystal: Crystal) returns (selected: Option<Crystal>, shown: Option<CrystalSearchResponse>, busy: bool)
    ensures selected == None && shown == None && !busy
  {
    var view := new CatalogueView();
    view.HandleCrystalClick(crystal, Threw);
    view.CloseModal();
    selected, shown, busy := view.selectedCrystal, view.aiData, view.loading;
  }
}
