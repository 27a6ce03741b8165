/** `generateColorOptions`: a Set seeded with the target absorbs random draws
    until it holds four colours; its elements, in insertion order, are then
    put in a random order by a sort with a random comparator. */
module Options {
  import opened Colors

  /** Number of options shown in a round. */
  const OptionCount := 4

  predicate Distinct(s: seq<Color>) {
    forall p, q :: 0 <= p < q < |s| ==> s[p] != s[q]
  }

  /** The option invariant: four pairwise distinct colours, one of them the target. */
  predicate OptionsOk(target: Color, options: seq<Color>) {
    |options| == OptionCount && Distinct(options) && target in options
  }

  predicate AllUnit(draws: seq<Sample>) {
    forall k :: 0 <= k < |draws| ==> UnitSample(draws[k])
  }

  function Elems(s: seq<Color>): set<Color> {
    set x | x in s
  }

  /** The colours a sequence of draws would produce. */
  function ColorSet(draws: seq<Sample>): set<Color>
    requires AllUnit(draws)
  {
    if draws == [] then {} else {RandomColor(draws[0])} + ColorSet(draws[1..])
  }

  /** The randomness supply is rich enough: together with the target, the
      draws hold at least four distinct colours, so the loop ends. */
  predicate EnoughDraws(target: Color, draws: seq<Sample>)
    requires AllUnit(draws)
  {
    |{target} + ColorSet(draws)| >= OptionCount
  }

  /** The contents of the Set, in insertion order, after `add` has been
      applied to each draw while fewer than four colours are present. */
  function Collect(seen: seq<Color>, draws: seq<Sample>): seq<Color>
    requires AllUnit(draws)
    decreases |draws|
  {
    if |seen| >= OptionCount || draws == [] then seen
    else
      var c := RandomColor(draws[0]);
      Collect(if c in seen then seen else seen + [c], draws[1..])
  }

  lemma {:induction false} DistinctCard(s: seq<Color>)
    requires Distinct(s)
    ensures |Elems(s)| == |s|
  {
    if s != [] {
      var init := s[..|s| - 1];
      DistinctCard(init);
      assert Elems(s) == Elems(init) + {s[|s| - 1]};
      assert s[|s| - 1] !in Elems(init);
    }
  }

  /** In a sequence without duplicates, each member occurs exactly once. */
  lemma {:induction false} DistinctOnce(s: seq<Color>, x: Color)
    requires Distinct(s) && x in s
    ensures multiset(s)[x] == 1
  {
    if s[0] == x {
      assert x !in s[1..];
    } else {
      DistinctOnce(s[1..], x);
    }
    assert s == [s[0]] + s[1..];
  }

  /** A duplicate draw is absorbed: the Set never holds a colour twice, keeps
      what it had, and gains only drawn colours. */
  lemma {:induction false} CollectDistinct(seen: seq<Color>, draws: seq<Sample>)
    requires AllUnit(draws) && Distinct(seen)
    ensures Distinct(Collect(seen, draws))
    ensures seen <= Collect(seen, draws)
    ensures forall c :: c in Collect(seen, draws) ==> c in seen || c in ColorSet(draws)
    decreases |draws|
  {
    if |seen| < OptionCount && draws != [] {
      var c := RandomColor(draws[0]);
      var next := if c in seen then seen else seen + [c];
      CollectDistinct(next, draws[1..]);
    }
  }

  /** With enough distinct colours on offer, the Set reaches exactly four. */
  lemma {:induction false} CollectFull(seen: seq<Color>, draws: seq<Sample>)
    requires AllUnit(draws) && Distinct(seen) && |seen| <= OptionCount
    requires |Elems(seen) + ColorSet(draws)| >= OptionCount
    ensures |Collect(seen, draws)| == OptionCount
    decreases |draws|
  {
    DistinctCard(seen);
    if |seen| < OptionCount {
      assert draws != [];
      var c := RandomColor(draws[0]);
      var next := if c in seen then seen else seen + [c];
      assert Elems(next) + ColorSet(draws[1..]) == Elems(seen) + ColorSet(draws);
      CollectFull(next, draws[1..]);
    }
  }

  // ---------------------------------------------------------------------
  // The shuffle: the exchanges a sort performs on the array
  // ---------------------------------------------------------------------

  /** One exchange of the elements at positions i and j. */
  datatype Swap = Swap(i: nat, j: nat)

  predicate SwapsWithin(swaps: seq<Swap>, n: nat) {
    forall k :: 0 <= k < |swaps| ==> swaps[k].i < n && swaps[k].j < n
  }

  function SwapAt(s: seq<Color>, w: Swap): seq<Color>
    requires w.i < |s| && w.j < |s|
  {
    s[w.i := s[w.j]][w.j := s[w.i]]
  }

  /** The sequence after the exchanges, applied first to last. */
  function ApplySwaps(s: seq<Color>, swaps: seq<Swap>): seq<Color>
    requires SwapsWithin(swaps, |s|)
    decreases |swaps|
  {
    if swaps == [] then s
    else ApplySwaps(SwapAt(s, swaps[0]), swaps[1..])
  }

  /** No colour is added or dropped by the shuffle. */
  lemma {:induction false} ApplySwapsPermutes(s: seq<Color>, swaps: seq<Swap>)
    requires SwapsWithin(swaps, |s|)
    ensures |ApplySwaps(s, swaps)| == |s|
    ensures multiset(ApplySwaps(s, swaps)) == multiset(s)
    decreases |swaps|
  {
    if swaps != [] {
      var t := SwapAt(s, swaps[0]);
      assert multiset(t) == multiset(s);
      ApplySwapsPermutes(t, swaps[1..]);
    }
  }

  /** The shuffle keeps distinct colours distinct. */
  lemma {:induction false} ApplySwapsDistinct(s: seq<Color>, swaps: seq<Swap>)
    requires SwapsWithin(swaps, |s|) && Distinct(s)
    ensures Distinct(ApplySwaps(s, swaps))
    decreases |swaps|
  {
    if swaps != [] {
      var t := SwapAt(s, swaps[0]);
      ApplySwapsDistinct(t, swaps[1..]);
    }
  }

  /** `Array.prototype.sort` rearranges the array in place. */
  method Shuffle(a: array<Color>, swaps: seq<Swap>)
    requires SwapsWithin(swaps, a.Length)
    modifies a
    ensures a[..] == ApplySwaps(old(a[..]), swaps)
  {
    var k := 0;
    while k < |swaps|
      invariant 0 <= k <= |swaps|
      invariant ApplySwaps(a[..], swaps[k..]) == ApplySwaps(old(a[..]), swaps)
    {
      var w := swaps[k];
      assert swaps[k..][1..] == swaps[k + 1..];
      a[w.i], a[w.j] := a[w.j], a[w.i];
      k := k + 1;
    }
  }

  /** What `generateColorOptions` returns for the given randomness. */
  function OptionsFor(target: Color, draws: seq<Sample>, swaps: seq<Swap>): seq<Color>
    requires AllUnit(draws) && SwapsWithin(swaps, OptionCount) && EnoughDraws(target, draws)
  {
    assert Elems([target]) == {target};
    CollectFull([target], draws);
    ApplySwaps(Collect([target], draws), swaps)
  }

  /** The `while (options.size < 4)` loop: each draw is added to the Set,
      which ignores a colour it already holds. */
  method FillSet(target: Color, draws: seq<Sample>) returns (seen: seq<Color>)
    requires AllUnit(draws) && EnoughDraws(target, draws)
    ensures seen == Collect([target], draws)
    ensures |seen| == OptionCount && Distinct(seen) && seen[0] == target
  {
    seen := [target];
    var i := 0;
    assert Elems(seen) == {target} && draws[i..] == draws;
    while |seen| < OptionCount
      invariant 0 <= i <= |draws|
      invariant Distinct(seen) && 0 < |seen| <= OptionCount && seen[0] == target
      invariant |Elems(seen) + ColorSet(draws[i..])| >= OptionCount
      invariant Collect(seen, draws[i..]) == Collect([target], draws)
      decreases |draws| - i
    {
      DistinctCard(seen);
      var rest := draws[i..];
      assert rest != [];
      var c := RandomColor(draws[i]);
      assert rest[0] == draws[i] && rest[1..] == draws[i + 1..];
      var next := if c in seen then seen else seen + [c];
      assert Elems(next) + ColorSet(draws[i + 1..]) == Elems(seen) + ColorSet(rest);
      seen := next;
      i := i + 1;
    }
  }

  /** `generateColorOptions(correctColor)`: four distinct colours, the target
      exactly once, every other one a draw, in the order the shuffle leaves. */
  method GenerateOptions(target: Color, draws: seq<Sample>, swaps: seq<Swap>)
    returns (options: seq<Color>)
    requires AllUnit(draws) && EnoughDraws(target, draws)
    requires SwapsWithin(swaps, OptionCount)
    ensures OptionsOk(target, options)
    ensures multiset(options)[target] == 1
    ensures forall c :: c in options ==> c == target || c in ColorSet(draws)
    ensures multiset(options) == multiset(Collect([target], draws))
    ensures options == OptionsFor(target, draws, swaps)
  {
    var seen := FillSet(target, draws);
    CollectDistinct([target], draws);
    var a := new Color[OptionCount](k => if 0 <= k < |seen| then seen[k] else target);
    assert a[..] == seen;
    Shuffle(a, swaps);
    options := a[..];
    ApplySwapsPermutes(seen, swaps);
    ApplySwapsDistinct(seen, swaps);
    assert target in multiset(options);
    DistinctOnce(options, target);
    forall c | c in options ensures c == target || c in ColorSet(draws) {
      assert c in multiset(seen);
    }
  }
}
