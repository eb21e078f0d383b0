/**
 * The chain listing page, app/chains/page.tsx: the name search, the combined
 * TVL and the number of active chains.
 *
 * The combined TVL adds up the `totalTVL` strings of all chains: each has its
 * `$`, `B` and `M` characters removed, is parsed as a number, and is
 * multiplied by 1000 when it contained a `B`, so the sum is in millions. The
 * page shows that sum followed by "B" without dividing by 1000; only the sum
 * is modelled here. `Number.parseFloat` is the parameter `parse`.
 */
module ChainsPage {
  import opened Types
  import opened Seqs
  import opened Text

  /** The search box: the term occurs in the chain's name, ignoring case. */
  predicate NameMatches(c: ChainData, searchTerm: string) {
    Includes(Lower(c.name), Lower(searchTerm))
  }

  /** `filteredChains`: the chains whose name contains the search term, in their original order. */
  function FilteredChains(chains: seq<ChainData>, searchTerm: string): (r: seq<ChainData>)
    ensures IsSubsequence(r, chains)
    ensures forall i :: 0 <= i < |r| ==> Includes(Lower(r[i].name), Lower(searchTerm))
    ensures forall c {:trigger multiset(r)[c]} ::
      multiset(r)[c] == (if Includes(Lower(c.name), Lower(searchTerm)) then multiset(chains)[c] else 0)
  {
    Filter(chains, c => NameMatches(c, searchTerm))
  }

  /** An empty search term shows every chain: the empty string occurs in every name. */
  lemma EmptySearchKeepsAll(chains: seq<ChainData>)
    ensures FilteredChains(chains, "") == chains
  {
    assert Lower("") == "";
    forall i | 0 <= i < |chains| ensures NameMatches(chains[i], "") {
      IncludesEmpty(Lower(chains[i].name));
    }
    FilterAll(chains, c => NameMatches(c, ""));
  }

  /** The chain search ignores the case of the term. */
  lemma ChainSearchIgnoresCase(chains: seq<ChainData>, searchTerm: string)
    ensures FilteredChains(chains, searchTerm) == FilteredChains(chains, Lower(searchTerm))
  {
    LowerIdempotent(searchTerm);
    FilterCongruent(chains, c => NameMatches(c, searchTerm), c => NameMatches(c, Lower(searchTerm)));
  }

  /** The characters the regular expression `/[$BM]/g` removes. */
  predicate IsUnitMark(ch: char) {
    ch == '$' || ch == 'B' || ch == 'M'
  }

  /**
   * `totalTVL.replace(/[$BM]/g, "")`: every `$`, `B` and `M` removed, every
   * other character kept, in order and as often as it occurs.
   */
  function StripUnits(s: string): (r: string)
    ensures IsSubsequence(r, s)
    ensures forall i :: 0 <= i < |r| ==> !IsUnitMark(r[i])
    ensures forall ch {:trigger multiset(r)[ch]} :: multiset(r)[ch] == (if IsUnitMark(ch) then 0 else multiset(s)[ch])
  {
    Filter(s, ch => !IsUnitMark(ch))
  }

  /** Stripping a stripped string changes nothing. */
  lemma StripIdempotent(s: string)
    ensures StripUnits(StripUnits(s)) == StripUnits(s)
  {
    FilterIdempotent(s, ch => !IsUnitMark(ch));
  }

  /** `totalTVL.includes("B") ? 1000 : 1`: billions are converted to millions. */
  function Multiplier(s: string): (m: int)
    ensures m == 1000 <==> 'B' in s
    ensures m == 1 <==> 'B' !in s
  {
    IncludesChar(s, 'B');
    if Includes(s, "B") then 1000 else 1
  }

  /** One chain's TVL in millions: the parsed digits, times 1000 when they were billions. */
  function ChainTvl(c: ChainData, parse: string -> real): (v: real)
    ensures 'B' in c.totalTVL ==> v == 1000.0 * parse(StripUnits(c.totalTVL))
    ensures 'B' !in c.totalTVL ==> v == parse(StripUnits(c.totalTVL))
  {
    parse(StripUnits(c.totalTVL)) * Multiplier(c.totalTVL) as real
  }

  /** `chains.reduce((sum, chain) => sum + ..., 0)`: a left fold from 0. */
  function TotalTvl(chains: seq<ChainData>, parse: string -> real): (sum: real)
    ensures chains == [] ==> sum == 0.0
    ensures (forall i :: 0 <= i < |chains| ==> ChainTvl(chains[i], parse) >= 0.0) ==> sum >= 0.0
    decreases |chains|
  {
    if chains == [] then 0.0
    else TotalTvl(chains[..|chains| - 1], parse) + ChainTvl(chains[|chains| - 1], parse)
  }

  /** The fold over two lists one after the other is the sum of the two folds. */
  lemma {:induction false} TotalTvlAppend(a: seq<ChainData>, b: seq<ChainData>, parse: string -> real)
    ensures TotalTvl(a + b, parse) == TotalTvl(a, parse) + TotalTvl(b, parse)
    decreases |b|
  {
    if b == [] {
      assert a + b == a;
    } else {
      assert (a + b)[..|a + b| - 1] == a + b[..|b| - 1];
      assert (a + b)[|a + b| - 1] == b[|b| - 1];
      TotalTvlAppend(a, b[..|b| - 1], parse);
    }
  }

  /**
   * The left fold agrees with adding from the front: the first chain's TVL
   * plus the total of the others.
   */
  lemma TotalTvlFirst(chains: seq<ChainData>, parse: string -> real)
    requires chains != []
    ensures TotalTvl(chains, parse) == ChainTvl(chains[0], parse) + TotalTvl(chains[1..], parse)
  {
    assert chains == [chains[0]] + chains[1..];
    TotalTvlAppend([chains[0]], chains[1..], parse);
    TotalTvlSmall(chains[0], parse);
  }

  /** The fold over no chains is 0, over one chain is that chain's TVL. */
  lemma TotalTvlSmall(c: ChainData, parse: string -> real)
    ensures TotalTvl([], parse) == 0.0
    ensures TotalTvl([c], parse) == ChainTvl(c, parse)
  {
    assert [c][..0] == [];
  }

  /**
   * "$1B" and "$500M" are brought to the same unit before they are added:
   * when the parser reads "1" as 1 and "500" as 500, the sum is 1500 (millions).
   */
  lemma TotalTvlExample(x: ChainData, y: ChainData, parse: string -> real)
    requires x.totalTVL == "$1B" && y.totalTVL == "$500M"
    requires parse("1") == 1.0 && parse("500") == 500.0
    ensures TotalTvl([x, y], parse) == 1500.0
  {
    assert StripUnits("$1B") == "1" by {
      assert "$1B"[1..] == "1B" && "1B"[1..] == "B" && "B"[1..] == "";
    }
    assert StripUnits("$500M") == "500" by {
      assert "$500M"[1..] == "500M" && "500M"[1..] == "00M" && "00M"[1..] == "0M" && "0M"[1..] == "M";
    }
    assert 'B' in "$1B" && 'B' !in "$500M";
    TotalTvlAppend([x], [y], parse);
    TotalTvlSmall(x, parse);
    TotalTvlSmall(y, parse);
    assert [x] + [y] == [x, y];
  }

  /** `c.status === "active"` */
  predicate IsActive(c: ChainData) {
    ChainStatusLiteral(c.status) == "active"
  }

  /** The "Active Chains" figure: the number of chains whose status is active. */
  function ActiveCount(chains: seq<ChainData>): (n: nat)
    ensures n == Count(chains, IsActive)
    ensures n <= |chains|
    ensures n == |chains| <==> forall i :: 0 <= i < |chains| ==> chains[i].status == ChainActive
  {
    FilterLength(chains, IsActive);
    |Filter(chains, IsActive)|
  }

  /** Every chain is either active or limited, so the active and limited counts add up to "Total Chains". */
  lemma ActivePlusLimited(chains: seq<ChainData>)
    ensures ActiveCount(chains) + Count(chains, (c: ChainData) => c.status == Limited) == |chains|
  {
    CountPartition(chains, IsActive);
    CountCongruent(chains, c => !IsActive(c), (c: ChainData) => c.status == Limited);
  }
}
