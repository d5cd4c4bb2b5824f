/** One attempt's selection: the random subsets, the combo filter and the greedy dish-disjoint pick. */
module Selection {
  import opened MenuTypes
  import opened Seqs
  import opened ComboExpander

  /** The items of `items` in category `category`, in catalogue order. */
  function OfCategory(items: seq<Item>, category: string): (r: seq<Item>)
    ensures forall k :: 0 <= k < |r| ==> r[k] in items && r[k].category == category
    ensures forall k :: 0 <= k < |items| && items[k].category == category ==> items[k] in r
    ensures IsSublist(r, items)
  {
    Filter(items, (x: Item) => x.category == category)
  }

  /** A catalogue row of the category occurs in its list as often as in the catalogue, so duplicate
      rows stay duplicated; a row of another category does not occur at all. */
  lemma OfCategoryCounts(items: seq<Item>, category: string)
    ensures forall x ::
              multiset(OfCategory(items, category))[x] == if x.category == category then multiset(items)[x] else 0
  {
    FilterCounts(items, (x: Item) => x.category == category);
  }

  lemma MultisetPrefix<T>(s: seq<T>, n: nat)
    requires n <= |s|
    ensures multiset(s[..n]) <= multiset(s)
  {
    assert s == s[..n] + s[n..];
  }

  /** getRandomSubset(array, count): the first `count` items of a shuffled copy of `items`. The shuffle
      is the parameter `shuffled`; the subset is its prefix of length `count`, or all of it when it is
      shorter. `items` mirrors the source's `array` argument: only `RandomSubsetOfReordering` relates
      the shuffle to it. */
  function RandomSubset(items: seq<Item>, shuffled: seq<Item>, count: nat): (r: seq<Item>)
    ensures r <= shuffled
    ensures |r| == if count <= |shuffled| then count else |shuffled|
  {
    shuffled[..if count <= |shuffled| then count else |shuffled|]
  }

  /** When the shuffle is a reordering of `items`, as the source's sort of a copy is, the subset has
      min(count, |items|) items, is a sub-multiset of `items`, and is all of it once `count` reaches
      its length. */
  lemma RandomSubsetOfReordering(items: seq<Item>, shuffled: seq<Item>, count: nat)
    requires multiset(shuffled) == multiset(items)
    ensures var r := RandomSubset(items, shuffled, count);
      && |r| == (if count <= |items| then count else |items|)
      && multiset(r) <= multiset(items)
      && (forall k :: 0 <= k < |r| ==> r[k] in items)
      && (count >= |items| ==> multiset(r) == multiset(items))
  {
    var n := if count <= |shuffled| then count else |shuffled|;
    var r := shuffled[..n];
    MultisetPrefix(shuffled, n);
    assert n == |shuffled| ==> r == shuffled;
    assert |shuffled| == |multiset(shuffled)| == |items|;
    forall k | 0 <= k < |r| ensures r[k] in items {
      assert r[k] in multiset(r);
    }
  }

  /** The calorie window of the filter, both ends inclusive. */
  predicate InBand(c: Combo)
  {
    MinCalories <= c.totalCalories <= MaxCalories
  }

  /** The filter's test: in the calorie window, at least one taste match, and no earlier day used
      the same main, side and drink. */
  predicate Keep(c: Combo, used: seq<Combo>)
  {
    InBand(c) && c.tasteMatches >= 1 && !IsComboRepeated(c, used)
  }

  /** The filtered combos, in expansion order. */
  function FilterCombos(all: seq<Combo>, used: seq<Combo>): (r: seq<Combo>)
    ensures forall k :: 0 <= k < |r| ==> r[k] in all && InBand(r[k])
    ensures forall k, u :: 0 <= k < |r| && 0 <= u < |used| ==> !SameTriple(used[u], r[k])
    ensures forall k :: 0 <= k < |all| && Keep(all[k], used) ==> all[k] in r
    ensures IsSublist(r, all)
  {
    Filter(all, (c: Combo) => Keep(c, used))
  }

  /** Every dish name of a list of combos. */
  function DishesOf(cs: seq<Combo>): set<string>
    decreases |cs|
  {
    if cs == [] then {} else DishesOf(cs[..|cs| - 1]) + cs[|cs| - 1].Dishes()
  }

  lemma DishesOfAppend(cs: seq<Combo>, c: Combo)
    ensures DishesOf(cs + [c]) == DishesOf(cs) + c.Dishes()
  {
    assert (cs + [c])[..|cs|] == cs;
  }

  /** Each combo's dishes are among the dishes of the list. */
  lemma {:induction false} DishesOfMember(cs: seq<Combo>, k: nat)
    requires k < |cs|
    ensures cs[k].Dishes() <= DishesOf(cs)
    decreases |cs|
  {
    if k < |cs| - 1 {
      var before := cs[..|cs| - 1];
      DishesOfMember(before, k);
      assert before[k] == cs[k];
    }
  }

  /** No dish appears in two of the combos. */
  predicate DishDisjoint(cs: seq<Combo>)
  {
    forall a, b :: 0 <= a < b < |cs| ==> cs[a].Dishes() !! cs[b].Dishes()
  }

  /** A combo none of whose dishes is taken keeps a dish-disjoint list dish-disjoint. */
  lemma DisjointAppend(cs: seq<Combo>, c: Combo)
    requires DishDisjoint(cs) && c.Dishes() !! DishesOf(cs)
    ensures DishDisjoint(cs + [c])
  {
    var r := cs + [c];
    forall a, b | 0 <= a < b < |r| ensures r[a].Dishes() !! r[b].Dishes() {
      if b == |cs| {
        DishesOfMember(cs, a);
      }
    }
  }

  /** A list with one more element at the end is a sublist of one more element at the end. */
  lemma SublistSnoc<T>(s: seq<T>, t: seq<T>, x: T)
    requires IsSublist(s, t)
    ensures IsSublist(s + [x], t + [x])
  {
    assert (s + [x])[..|s|] == s;
    assert (t + [x])[..|t|] == t;
  }

  lemma SublistExtend<T>(s: seq<T>, t: seq<T>, x: T)
    requires IsSublist(s, t)
    ensures IsSublist(s, t + [x])
  {
    assert (t + [x])[..|t|] == t;
  }

  /** The greedy pass over the filtered combos: take a combo when fewer than three are taken and none
      of its dishes is taken yet. */
  function Select(cs: seq<Combo>): (r: seq<Combo>)
    ensures |r| <= CombosPerDay
    ensures IsSublist(r, cs)
    ensures DishDisjoint(r)
    decreases |cs|
  {
    if cs == [] then []
    else
      var before := cs[..|cs| - 1];
      var prev := Select(before);
      var c := cs[|cs| - 1];
      assert cs == before + [c];
      if |prev| < CombosPerDay && c.Dishes() !! DishesOf(prev) then
        SublistSnoc(prev, before, c);
        DisjointAppend(prev, c);
        prev + [c]
      else
        SublistExtend(prev, before, c);
        prev
  }

  /** Selected combos are combos of the input. */
  lemma SelectMembers(cs: seq<Combo>)
    ensures forall c :: c in Select(cs) ==> c in cs
  {
    SublistMembers(Select(cs), cs);
  }

  /** Once three combos are taken from a prefix, the rest of the list changes nothing. */
  lemma {:induction false} SelectSaturated(cs: seq<Combo>, n: nat)
    requires n <= |cs| && |Select(cs[..n])| == CombosPerDay
    ensures Select(cs) == Select(cs[..n])
    decreases |cs| - n
  {
    if n < |cs| {
      var longer := cs[..n + 1];
      assert longer[..n] == cs[..n];
      assert Select(longer) == Select(cs[..n]);
      SelectSaturated(cs, n + 1);
    } else {
      assert cs[..n] == cs;
    }
  }

  /** The pass is greedy: when it ends with fewer than three combos, every combo it skipped shares a
      dish with the ones it took. */
  lemma {:induction false} SelectMaximal(cs: seq<Combo>)
    requires |Select(cs)| < CombosPerDay
    ensures forall k :: 0 <= k < |cs| ==> cs[k] in Select(cs) || !(cs[k].Dishes() !! DishesOf(Select(cs)))
    decreases |cs|
  {
    if cs != [] {
      var before := cs[..|cs| - 1];
      var prev := Select(before);
      var c := cs[|cs| - 1];
      var r := Select(cs);
      assert r == prev || r == prev + [c];
      assert |prev| < CombosPerDay;
      SelectMaximal(before);
      assert DishesOf(prev) <= DishesOf(r) by {
        if r != prev {
          DishesOfAppend(prev, c);
        }
      }
      forall k | 0 <= k < |cs| ensures cs[k] in r || !(cs[k].Dishes() !! DishesOf(r)) {
        if k < |before| {
          assert cs[k] == before[k];
          if cs[k] in prev {
            var t :| 0 <= t < |prev| && prev[t] == cs[k];
            assert r[t] == prev[t];
          }
        } else {
          assert cs[k] == c;
          if r == prev {
            assert !(c.Dishes() !! DishesOf(prev));
          } else {
            assert r[|prev|] == c;
          }
        }
      }
    }
  }

  /** Each selection of a prefix is a prefix of the selection of the whole list: a combo, once taken,
      keeps its place whatever follows it. */
  lemma {:induction false} SelectPrefix(cs: seq<Combo>, k: nat)
    requires k <= |cs|
    ensures Select(cs[..k]) <= Select(cs)
    decreases |cs|
  {
    if k < |cs| {
      var before := cs[..|cs| - 1];
      assert before[..k] == cs[..k];
      SelectPrefix(before, k);
      assert Select(before) <= Select(cs);
    } else {
      assert cs[..k] == cs;
    }
  }

  /** The pass is first-fit: with `taken` the combos chosen from the combos before position k, the
      combo `cs[k]` is taken next, right after them, when fewer than three are taken and it shares no
      dish with them; otherwise it is skipped and the selection up to and including it is `taken`. */
  lemma SelectFirstFit(cs: seq<Combo>, k: nat)
    requires k < |cs|
    ensures var taken := Select(cs[..k]);
      && (|taken| < CombosPerDay && cs[k].Dishes() !! DishesOf(taken) ==> taken + [cs[k]] <= Select(cs))
      && (!(|taken| < CombosPerDay && cs[k].Dishes() !! DishesOf(taken)) ==> Select(cs[..k + 1]) == taken)
  {
    var longer := cs[..k + 1];
    assert longer[..k] == cs[..k];
    assert longer[k] == cs[k];
    SelectPrefix(cs, k + 1);
  }

  /** The greedy loop of one attempt: walks the filtered combos with a set of taken dishes and stops
      at the third pick. */
  method PickDisjoint(filtered: seq<Combo>) returns (picked: seq<Combo>)
    ensures picked == Select(filtered)
  {
    picked := [];
    var usedDishes: set<string> := {};
    var n := 0;
    while n < |filtered|
      invariant n <= |filtered|
      invariant picked == Select(filtered[..n])
      invariant usedDishes == DishesOf(picked)
      invariant |picked| < CombosPerDay
    {
      var combo := filtered[n];
      assert filtered[..n + 1][..n] == filtered[..n];
      if combo.Dishes() !! usedDishes {
        DishesOfAppend(picked, combo);
        picked := picked + [combo];
        usedDishes := usedDishes + combo.Dishes();
      }
      n := n + 1;
      if |picked| == CombosPerDay {
        SelectSaturated(filtered, n);
        break;
      }
    }
    if |picked| < CombosPerDay {
      assert filtered[..n] == filtered;
    }
  }
}
