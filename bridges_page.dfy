/**
 * The bridge listing page, app/page.tsx: the sorted list of chain names
 * offered in the two chain drop-downs, the three-part bridge filter, the
 * number of paused bridges and the plural of the result count.
 */
module BridgesPage {
  import opened Types
  import opened Seqs
  import opened Text
  import opened Sorting

  /** Chain `c` is named in the `fromChains` or the `toChains` of some bridge. */
  predicate Mentions(bridges: seq<Bridge>, c: string) {
    exists k :: 0 <= k < |bridges| && (c in bridges[k].fromChains || c in bridges[k].toChains)
  }

  /**
   * `chains.add(c)` on a JavaScript `Set<string>`, represented by its
   * members in insertion order (the order `Array.from` lists them in).
   */
  function SetAdd(members: seq<string>, c: string): (r: seq<string>)
    requires NoDup(members)
    ensures NoDup(r)
    ensures forall x :: x in r <==> x in members || x == c
    ensures |members| <= |r| <= |members| + 1
  {
    if c in members then members else members + [c]
  }

  /**
   * `allChains`: every chain named by some bridge, once each, in ascending
   * order. The set is built by adding the `fromChains` and then the
   * `toChains` of each bridge in turn, and then sorted.
   */
  method AllChains(bridges: seq<Bridge>) returns (r: seq<string>)
    ensures StrictlySorted(r)
    ensures NoDup(r)
    ensures forall c :: c in r <==> Mentions(bridges, c)
    ensures bridges == [] ==> r == []
  {
    var chains: seq<string> := [];
    for i := 0 to |bridges|
      invariant NoDup(chains)
      invariant forall c :: c in chains <==> Mentions(bridges[..i], c)
    {
      var bridge := bridges[i];
      for j := 0 to |bridge.fromChains|
        invariant NoDup(chains)
        invariant forall c :: c in chains <==> Mentions(bridges[..i], c) || c in bridge.fromChains[..j]
      {
        assert bridge.fromChains[..j + 1] == bridge.fromChains[..j] + [bridge.fromChains[j]];
        chains := SetAdd(chains, bridge.fromChains[j]);
      }
      assert bridge.fromChains[..|bridge.fromChains|] == bridge.fromChains;
      for j := 0 to |bridge.toChains|
        invariant NoDup(chains)
        invariant forall c :: c in chains <==>
          Mentions(bridges[..i], c) || c in bridge.fromChains || c in bridge.toChains[..j]
      {
        assert bridge.toChains[..j + 1] == bridge.toChains[..j] + [bridge.toChains[j]];
        chains := SetAdd(chains, bridge.toChains[j]);
      }
      assert bridge.toChains[..|bridge.toChains|] == bridge.toChains;
      MentionsExtend(bridges, i);
    }
    assert bridges[..|bridges|] == bridges;
    SortDistinct(chains);
    r := Sort(chains);
    StrictlySortedNoDup(r);
    if chains != [] {
      assert chains[0] in chains;
    }
  }

  /** The chains named by the first `i + 1` bridges are those named by the first `i` and by bridge `i`. */
  lemma MentionsExtend(bridges: seq<Bridge>, i: nat)
    requires i < |bridges|
    ensures forall c :: Mentions(bridges[..i + 1], c) <==>
      Mentions(bridges[..i], c) || c in bridges[i].fromChains || c in bridges[i].toChains
  {
    forall c ensures Mentions(bridges[..i + 1], c) <==>
      Mentions(bridges[..i], c) || c in bridges[i].fromChains || c in bridges[i].toChains
    {
      if Mentions(bridges[..i + 1], c) {
        var k :| 0 <= k < i + 1 && (c in bridges[..i + 1][k].fromChains || c in bridges[..i + 1][k].toChains);
        if k < i {
          assert bridges[..i][k] == bridges[k];
        }
      }
      if Mentions(bridges[..i], c) {
        var k :| 0 <= k < i && (c in bridges[..i][k].fromChains || c in bridges[..i][k].toChains);
        assert bridges[..i + 1][k] == bridges[k];
      }
      if c in bridges[i].fromChains || c in bridges[i].toChains {
        assert bridges[..i + 1][i] == bridges[i];
      }
    }
  }

  /**
   * The chain lists of the example in which one bridge goes from B to A and
   * another from A to C: the drop-down offers A, B and C.
   */
  method AllChainsExample(b1: Bridge, b2: Bridge) returns (r: seq<string>)
    requires b1.fromChains == ["B"] && b1.toChains == ["A"]
    requires b2.fromChains == ["A"] && b2.toChains == ["C"]
    ensures r == ["A", "B", "C"]
  {
    r := AllChains([b1, b2]);
    var expected := ["A", "B", "C"];
    assert Mentions([b1, b2], "A") && Mentions([b1, b2], "B") && Mentions([b1, b2], "C") by {
      assert [b1, b2][0] == b1 && [b1, b2][1] == b2;
    }
    forall c ensures c in r <==> c in expected {
      if Mentions([b1, b2], c) {
        var k :| 0 <= k < 2 && (c in [b1, b2][k].fromChains || c in [b1, b2][k].toChains);
      }
    }
    assert Less("A", "B") && Less("B", "C") && Less("A", "C");
    StrictlySortedUnique(r, expected);
  }

  /** The search box: an empty term, or the term inside the name or inside one of the tokens, ignoring case. */
  predicate MatchesSearch(b: Bridge, searchTerm: string) {
    || searchTerm == ""
    || Includes(Lower(b.name), Lower(searchTerm))
    || exists k :: 0 <= k < |b.supportedTokens| && Includes(Lower(b.supportedTokens[k]), Lower(searchTerm))
  }

  /** The "From" drop-down: "all", or the chain on either side of the bridge. */
  predicate MatchesSourceChain(b: Bridge, sourceChain: string) {
    sourceChain == "all" || sourceChain in b.fromChains || sourceChain in b.toChains
  }

  /** The "To" drop-down: "all", or the chain on either side of the bridge. */
  predicate MatchesDestinationChain(b: Bridge, destinationChain: string) {
    destinationChain == "all" || destinationChain in b.toChains || destinationChain in b.fromChains
  }

  predicate Matches(b: Bridge, searchTerm: string, sourceChain: string, destinationChain: string) {
    MatchesSearch(b, searchTerm) && MatchesSourceChain(b, sourceChain) && MatchesDestinationChain(b, destinationChain)
  }

  /** `filteredBridges`: the bridges that pass all three criteria, in their original order. */
  function FilteredBridges(bridges: seq<Bridge>, searchTerm: string, sourceChain: string, destinationChain: string)
    : (r: seq<Bridge>)
    ensures IsSubsequence(r, bridges)
    ensures forall i :: 0 <= i < |r| ==> Matches(r[i], searchTerm, sourceChain, destinationChain)
    ensures forall b {:trigger multiset(r)[b]} ::
      multiset(r)[b] == (if Matches(b, searchTerm, sourceChain, destinationChain) then multiset(bridges)[b] else 0)
  {
    Filter(bridges, b => Matches(b, searchTerm, sourceChain, destinationChain))
  }

  /** With no search term and both drop-downs on "all", every bridge is shown. */
  lemma NoCriteriaKeepsAll(bridges: seq<Bridge>)
    ensures FilteredBridges(bridges, "", "all", "all") == bridges
  {
    FilterAll(bridges, b => Matches(b, "", "all", "all"));
  }

  /**
   * The empty-term test is redundant: a bridge passes the search exactly when
   * the lower-cased term occurs in its lower-cased name or in one of its
   * lower-cased tokens.
   */
  lemma SearchIff(b: Bridge, searchTerm: string)
    ensures MatchesSearch(b, searchTerm) <==>
      || Includes(Lower(b.name), Lower(searchTerm))
      || exists k :: 0 <= k < |b.supportedTokens| && Includes(Lower(b.supportedTokens[k]), Lower(searchTerm))
  {
    if searchTerm == "" {
      assert Lower(searchTerm) == "";
      IncludesEmpty(Lower(b.name));
    }
  }

  /** The search ignores the case of the term. */
  lemma SearchIgnoresCase(b: Bridge, searchTerm: string)
    ensures MatchesSearch(b, searchTerm) <==> MatchesSearch(b, Lower(searchTerm))
  {
    LowerIdempotent(searchTerm);
    SearchIff(b, searchTerm);
    SearchIff(b, Lower(searchTerm));
  }

  /** A bridge named "Across" is found by "across", "ACROSS" and "cro". */
  lemma SearchExample(b: Bridge)
    requires b.name == "Across"
    ensures MatchesSearch(b, "across") && MatchesSearch(b, "ACROSS") && MatchesSearch(b, "cro")
  {
    assert Lower("Across") == "across";
    assert Lower("ACROSS") == "across";
    assert Lower("cro") == "cro";
    assert StartsWith("across", "across");
    assert StartsWith("across"[1..], "cro");
  }

  /** Both drop-downs test the same thing: the chain is on either side of the bridge. */
  lemma ChainCriteriaSymmetric(b: Bridge, c: string)
    ensures MatchesSourceChain(b, c) == MatchesDestinationChain(b, c)
    ensures MatchesSourceChain(b, c) <==> c == "all" || c in b.fromChains || c in b.toChains
  {
  }

  /** Exchanging the "From" and "To" selections does not change the result. */
  lemma SwapChainsSameResult(bridges: seq<Bridge>, searchTerm: string, sourceChain: string, destinationChain: string)
    ensures FilteredBridges(bridges, searchTerm, sourceChain, destinationChain)
         == FilteredBridges(bridges, searchTerm, destinationChain, sourceChain)
  {
    FilterCongruent(bridges,
      b => Matches(b, searchTerm, sourceChain, destinationChain),
      b => Matches(b, searchTerm, destinationChain, sourceChain));
  }

  /** `b.status === "paused"` */
  predicate IsPaused(b: Bridge) {
    BridgeStatusLiteral(b.status) == "paused"
  }

  /** The "N paused" figure: the number of bridges whose status is paused. */
  function PausedCount(bridges: seq<Bridge>): (n: nat)
    ensures n == Count(bridges, IsPaused)
    ensures n <= |bridges|
    ensures n == 0 <==> forall i :: 0 <= i < |bridges| ==> bridges[i].status != Paused
  {
    FilterLength(bridges, IsPaused);
    |Filter(bridges, IsPaused)|
  }

  /** The noun after the result count: singular for exactly one bridge. */
  function BridgeNoun(count: nat): (r: string)
    ensures r == "bridge" <==> count == 1
    ensures r == "bridge" || r == "bridges"
  {
    "bridge" + (if count != 1 then "s" else "")
  }
}
