/** Prize allocation for Excellence certificates (main.py, main): three
    multiselects, each offered the roster minus the earlier winners, fill one
    name-to-rank dictionary in order First, Second, Third. */
module Prizes {
  import opened Wrappers
  import opened Wording

  /** The names of the roster offered to a later category: those not already
      taken, in roster order, duplicates kept. */
  function Pool(roster: seq<string>, taken: seq<string>): (r: seq<string>)
    ensures forall n :: n in r <==> n in roster && n !in taken
    ensures |r| <= |roster|
  {
    if roster == [] then []
    else (if roster[0] in taken then [] else [roster[0]]) + Pool(roster[1..], taken)
  }

  /** `dict.get`: the rank of `name`, or None when it has none. */
  function Get(prizes: map<string, Rank>, name: string): Option<Rank>
  {
    if name in prizes then Some(prizes[name]) else None
  }

  /** The rank a name ends up with when the three selections are written
      into one dictionary in turn: a later category overwrites an earlier one. */
  function Awarded(name: string, first: seq<string>, second: seq<string>, third: seq<string>): Option<Rank>
  {
    if name in third then Some(Third)
    else if name in second then Some(Second)
    else if name in first then Some(First)
    else None
  }

  /** Fills the assignments dictionary from the three selections, one loop
      per category. */
  method AssignPrizes(first: seq<string>, second: seq<string>, third: seq<string>) returns (prizes: map<string, Rank>)
    ensures forall n :: Get(prizes, n) == Awarded(n, first, second, third)
  {
    prizes := map[];
    for i := 0 to |first|
      invariant forall n :: Get(prizes, n) == (if n in first[..i] then Some(First) else None)
    {
      prizes := prizes[first[i] := First];
      assert first[..i + 1] == first[..i] + [first[i]];
    }
    assert first[..|first|] == first;
    for i := 0 to |second|
      invariant forall n :: Get(prizes, n) == (if n in second[..i] then Some(Second) else if n in first then Some(First) else None)
    {
      prizes := prizes[second[i] := Second];
      assert second[..i + 1] == second[..i] + [second[i]];
    }
    assert second[..|second|] == second;
    for i := 0 to |third|
      invariant forall n :: Get(prizes, n) == (if n in third[..i] then Some(Third)
                                             else if n in second then Some(Second)
                                             else if n in first then Some(First) else None)
    {
      prizes := prizes[third[i] := Third];
      assert third[..i + 1] == third[..i] + [third[i]];
    }
    assert third[..|third|] == third;
  }

  /** Selections drawn from the pools the widgets offer: the second-prize
      winners from the roster minus the first, the third-prize winners from
      the roster minus the first and second. */
  predicate FromPools(roster: seq<string>, first: seq<string>, second: seq<string>, third: seq<string>)
  {
    && (forall n :: n in first ==> n in roster)
    && (forall n :: n in second ==> n in Pool(roster, first))
    && (forall n :: n in third ==> n in Pool(roster, first + second))
  }

  /** With selections drawn from their pools, the categories are disjoint, so
      every selected name keeps exactly the rank it was selected for and
      every name of the dictionary is a roster name. */
  lemma OneRankPerWinner(roster: seq<string>, first: seq<string>, second: seq<string>, third: seq<string>, n: string)
    requires FromPools(roster, first, second, third)
    ensures n in first ==> n !in second && n !in third && Awarded(n, first, second, third) == Some(First)
    ensures n in second ==> n !in third && Awarded(n, first, second, third) == Some(Second)
    ensures n in third ==> Awarded(n, first, second, third) == Some(Third)
    ensures Awarded(n, first, second, third).Some? ==> n in roster
  {
    if n in third {
      assert n in Pool(roster, first + second);
    }
    if n in second {
      assert n in Pool(roster, first);
    }
  }
}
