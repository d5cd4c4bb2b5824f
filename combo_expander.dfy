/** The combo expander: every main x side x drink triple, in nested-loop order, and the repeat check. */
module ComboExpander {
  import opened MenuTypes

  /** 1 when `item` has taste profile `taste`, else 0. */
  function TasteHit(item: Item, taste: string): nat
  {
    if item.tasteProfile == taste then 1 else 0
  }

  /** The combo's taste match count: how many of its three items share the main's taste profile. */
  function TasteMatches(m: Item, s: Item, d: Item): (n: nat)
    ensures 1 <= n <= 3
    ensures n == 3 <==> s.tasteProfile == m.tasteProfile && d.tasteProfile == m.tasteProfile
    ensures n == 1 <==> s.tasteProfile != m.tasteProfile && d.tasteProfile != m.tasteProfile
  {
    TasteHit(m, m.tasteProfile) + TasteHit(s, m.tasteProfile) + TasteHit(d, m.tasteProfile)
  }

  /** The combo's explanation, built from the main's taste profile. */
  function Reasoning(taste: string): string
  {
    "Includes items with '" + taste + "' taste, calorie-controlled"
  }

  /** The combo of one loop step, with identifier `id`. */
  function MakeCombo(id: nat, m: Item, s: Item, d: Item): Combo
  {
    Combo(
      id, m.name, s.name, d.name,
      m.calories + s.calories + d.calories,
      TasteMatches(m, s, d),
      Reasoning(m.tasteProfile))
  }

  /** A combo whose names come from the three lists and whose taste match count is between 1 and 3. */
  predicate BuiltFrom(c: Combo, mains: seq<Item>, sides: seq<Item>, drinks: seq<Item>)
  {
    c.main in NamesOf(mains) && c.side in NamesOf(sides) && c.drink in NamesOf(drinks)
    && 1 <= c.tasteMatches <= 3
  }

  lemma MulSucc(a: nat, width: nat)
    ensures (a + 1) * width == a * width + width
  {
  }

  lemma MulCongr(a: nat, b: nat, width: nat)
    requires a == b
    ensures a * width == b * width
  {
  }

  lemma MulMono(a: nat, b: nat, width: nat)
    requires a <= b
    ensures a * width <= b * width
  {
  }

  lemma MulZero(a: nat, b: nat, c: nat)
    ensures a * b * c == 0 <==> a == 0 || b == 0 || c == 0
  {
    if a != 0 && b != 0 && c != 0 {
      MulMono(1, a, b);
      MulMono(1, a * b, c);
    }
  }

  /** Row-major indices stay below the last row: j * width + k < n * width. */
  lemma IndexBound(j: nat, k: nat, n: nat, width: nat)
    requires j < n && k < width
    ensures j * width + k < n * width
  {
    MulSucc(j, width);
    MulMono(j + 1, n, width);
  }

  /** Euclidean division has one quotient and one remainder. */
  lemma DivModUnique(p: nat, q: nat, r: nat, d: nat)
    requires r < d && p == q * d + r
    ensures p / d == q && p % d == r
  {
    var q', r' := p / d, p % d;
    assert p == q' * d + r';
    if q' > q {
      MulSucc(q, d);
      MulMono(q + 1, q', d);
    } else if q' < q {
      MulSucc(q', d);
      MulMono(q' + 1, q, d);
    }
  }

  /** A position below a * d has a quotient by d below a. */
  lemma DivBound(p: nat, a: nat, d: nat)
    requires p < a * d
    ensures d > 0 && p / d < a
  {
    if p / d >= a {
      MulMono(a, p / d, d);
    }
  }

  /** Positions of the expansion decode into loop indices that are in range. */
  lemma PositionBound(p: nat, m: nat, s: nat, d: nat)
    requires p < m * s * d
    ensures s > 0 && d > 0 && p / d / s < m && p % d < d
  {
    DivBound(p, m * s, d);
    DivBound(p / d, m, s);
  }

  /** The outer-loop index of position `p` in an expansion of m * s * d combos. */
  function MainAt(p: nat, m: nat, s: nat, d: nat): (i: nat)
    requires p < m * s * d
    ensures i < m
  {
    PositionBound(p, m, s, d);
    p / d / s
  }

  /** The middle-loop index of position `p`. */
  function SideAt(p: nat, m: nat, s: nat, d: nat): (j: nat)
    requires p < m * s * d
    ensures j < s
  {
    PositionBound(p, m, s, d);
    p / d % s
  }

  /** The inner-loop index of position `p`. */
  function DrinkAt(p: nat, m: nat, s: nat, d: nat): (k: nat)
    requires p < m * s * d
    ensures k < d
  {
    PositionBound(p, m, s, d);
    p % d
  }

  /** Position `p` of the expansion: the combo of the loop step that position decodes to,
      with identifier p + 1. */
  function Cell(mains: seq<Item>, sides: seq<Item>, drinks: seq<Item>, p: nat): Combo
    requires p < |mains| * |sides| * |drinks|
  {
    var m, s, d := |mains|, |sides|, |drinks|;
    MakeCombo(p + 1, mains[MainAt(p, m, s, d)], sides[SideAt(p, m, s, d)], drinks[DrinkAt(p, m, s, d)])
  }

  /** The first `n` positions of the expansion. */
  function Cells(mains: seq<Item>, sides: seq<Item>, drinks: seq<Item>, n: nat): (r: seq<Combo>)
    requires n <= |mains| * |sides| * |drinks|
    ensures |r| == n
    decreases n
  {
    if n == 0 then [] else Cells(mains, sides, drinks, n - 1) + [Cell(mains, sides, drinks, n - 1)]
  }

  lemma {:induction false} CellsAt(mains: seq<Item>, sides: seq<Item>, drinks: seq<Item>, n: nat, p: nat)
    requires n <= |mains| * |sides| * |drinks| && p < n
    ensures Cells(mains, sides, drinks, n)[p] == Cell(mains, sides, drinks, p)
    decreases n
  {
    if p < n - 1 {
      CellsAt(mains, sides, drinks, n - 1, p);
    }
  }

  /** The full expansion of one attempt, in main-major, then side, then drink order. */
  function Expand(mains: seq<Item>, sides: seq<Item>, drinks: seq<Item>): seq<Combo>
  {
    Cells(mains, sides, drinks, |mains| * |sides| * |drinks|)
  }

  /** The position loop step (i, j, k) fills when there are s sides and d drinks. */
  function Position(i: nat, j: nat, k: nat, s: nat, d: nat): nat
  {
    (i * s + j) * d + k
  }

  /** The loop step (i, j, k) fills position (i * |sides| + j) * |drinks| + k. */
  lemma CellAt(mains: seq<Item>, sides: seq<Item>, drinks: seq<Item>, i: nat, j: nat, k: nat)
    requires i < |mains| && j < |sides| && k < |drinks|
    ensures var p := Position(i, j, k, |sides|, |drinks|);
      p < |mains| * |sides| * |drinks|
      && Cell(mains, sides, drinks, p) == MakeCombo(p + 1, mains[i], sides[j], drinks[k])
  {
    var p := Position(i, j, k, |sides|, |drinks|);
    IndexBound(i, j, |mains|, |sides|);
    IndexBound(i * |sides| + j, k, |mains| * |sides|, |drinks|);
    DivModUnique(p, i * |sides| + j, k, |drinks|);
    DivModUnique(i * |sides| + j, i, j, |sides|);
  }

  /** Expansion order and fields: the combo at position (i*|sides| + j)*|drinks| + k is built from
      mains[i], sides[j] and drinks[k], its identifier is its position plus one, and its calories
      are the sum of the three items'. */
  lemma ExpandAt(mains: seq<Item>, sides: seq<Item>, drinks: seq<Item>, i: nat, j: nat, k: nat)
    requires i < |mains| && j < |sides| && k < |drinks|
    ensures var r := Expand(mains, sides, drinks);
      var p := Position(i, j, k, |sides|, |drinks|);
      p < |r|
      && var c := r[p];
         && c.comboId == p + 1
         && c.main == mains[i].name && c.side == sides[j].name && c.drink == drinks[k].name
         && c.totalCalories == mains[i].calories + sides[j].calories + drinks[k].calories
         && c.Dishes() == {mains[i].name, sides[j].name, drinks[k].name}
         && c.tasteMatches == TasteMatches(mains[i], sides[j], drinks[k])
  {
    CellAt(mains, sides, drinks, i, j, k);
    CellsAt(mains, sides, drinks, |mains| * |sides| * |drinks|, Position(i, j, k, |sides|, |drinks|));
  }

  /** Conversely, every combo of the expansion comes from one loop step (i, j, k). */
  lemma ExpandOnly(mains: seq<Item>, sides: seq<Item>, drinks: seq<Item>, p: nat)
    requires p < |Expand(mains, sides, drinks)|
    ensures exists i, j, k ::
              && 0 <= i < |mains| && 0 <= j < |sides| && 0 <= k < |drinks|
              && p == Position(i, j, k, |sides|, |drinks|)
              && Expand(mains, sides, drinks)[p] == MakeCombo(p + 1, mains[i], sides[j], drinks[k])
  {
    var m, s, d := |mains|, |sides|, |drinks|;
    PositionBound(p, m, s, d);
    var i, j, k := MainAt(p, m, s, d), SideAt(p, m, s, d), DrinkAt(p, m, s, d);
    assert p / d == i * s + j;
    assert p == (i * s + j) * d + k;
    CellsAt(mains, sides, drinks, m * s * d, p);
    assert Expand(mains, sides, drinks)[p] == MakeCombo(p + 1, mains[i], sides[j], drinks[k]);
  }

  /** The expansion has |mains| * |sides| * |drinks| combos, so none when a list is empty. */
  lemma ExpandSize(mains: seq<Item>, sides: seq<Item>, drinks: seq<Item>)
    ensures |Expand(mains, sides, drinks)| == |mains| * |sides| * |drinks|
    ensures Expand(mains, sides, drinks) == [] <==> mains == [] || sides == [] || drinks == []
  {
    MulZero(|mains|, |sides|, |drinks|);
  }

  lemma NameIn(items: seq<Item>, t: nat)
    requires t < |items|
    ensures items[t].name in NamesOf(items)
  {
    assert items[t] in items;
  }

  lemma CellBuiltFrom(mains: seq<Item>, sides: seq<Item>, drinks: seq<Item>, p: nat)
    requires p < |mains| * |sides| * |drinks|
    ensures BuiltFrom(Cell(mains, sides, drinks, p), mains, sides, drinks)
  {
    var m, s, d := |mains|, |sides|, |drinks|;
    NameIn(mains, MainAt(p, m, s, d));
    NameIn(sides, SideAt(p, m, s, d));
    NameIn(drinks, DrinkAt(p, m, s, d));
  }

  /** Every combo of the expansion names items of the three lists and has a taste match count
      between 1 and 3. */
  lemma ExpandBuiltFrom(mains: seq<Item>, sides: seq<Item>, drinks: seq<Item>)
    ensures forall c :: c in Expand(mains, sides, drinks) ==> BuiltFrom(c, mains, sides, drinks)
  {
    var r := Expand(mains, sides, drinks);
    forall c | c in r ensures BuiltFrom(c, mains, sides, drinks) {
      var p :| 0 <= p < |r| && r[p] == c;
      CellsAt(mains, sides, drinks, |r|, p);
      CellBuiltFrom(mains, sides, drinks, p);
    }
  }

  /** `combos` holds the first |combos| positions of the expansion. */
  ghost predicate ExpandPrefix(combos: seq<Combo>, mains: seq<Item>, sides: seq<Item>, drinks: seq<Item>)
  {
    |combos| <= |mains| * |sides| * |drinks| && combos == Cells(mains, sides, drinks, |combos|)
  }

  /** The last drink of a side is followed by the first drink of the next side. */
  lemma SideStep(i: nat, j: nat, s: nat, d: nat)
    ensures Position(i, j, d, s, d) == Position(i, j + 1, 0, s, d)
  {
    MulSucc(i * s + j, d);
  }

  /** The last side of a main is followed by the first side of the next main. */
  lemma MainStep(i: nat, s: nat, d: nat)
    ensures Position(i, s, 0, s, d) == Position(i + 1, 0, 0, s, d)
  {
    MulSucc(i, s);
    MulCongr(i * s + s, (i + 1) * s, d);
  }

  lemma PositionEnd(m: nat, s: nat, d: nat)
    ensures Position(m, 0, 0, s, d) == m * s * d
  {
  }

  /** generateCombos: three nested loops that push one combo per (main, side, drink) and count `id` up from 1. */
  method GenerateCombos(mains: seq<Item>, sides: seq<Item>, drinks: seq<Item>) returns (combos: seq<Combo>)
    ensures combos == Expand(mains, sides, drinks)
  {
    combos := [];
    var id: nat := 1;
    for i := 0 to |mains|
      invariant |combos| == Position(i, 0, 0, |sides|, |drinks|)
      invariant id == |combos| + 1
      invariant ExpandPrefix(combos, mains, sides, drinks)
    {
      var m := mains[i];
      for j := 0 to |sides|
        invariant |combos| == Position(i, j, 0, |sides|, |drinks|)
        invariant id == |combos| + 1
        invariant ExpandPrefix(combos, mains, sides, drinks)
      {
        var s := sides[j];
        for k := 0 to |drinks|
          invariant |combos| == Position(i, j, k, |sides|, |drinks|)
          invariant id == |combos| + 1
          invariant ExpandPrefix(combos, mains, sides, drinks)
        {
          var combo := MakeCombo(id, m, s, drinks[k]);
          CellAt(mains, sides, drinks, i, j, k);
          combos := combos + [combo];
          id := id + 1;
        }
        SideStep(i, j, |sides|, |drinks|);
      }
      MainStep(i, |sides|, |drinks|);
    }
    PositionEnd(|mains|, |sides|, |drinks|);
  }

  /** isComboRepeated: some earlier combo has the same main, side and drink. */
  function IsComboRepeated(combo: Combo, previous: seq<Combo>): (b: bool)
    ensures b <==> exists k :: 0 <= k < |previous| && SameTriple(previous[k], combo)
    decreases |previous|
  {
    if previous == [] then false
    else
      assert forall k :: 1 <= k < |previous| ==> previous[k] == previous[1..][k - 1];
      SameTriple(previous[0], combo) || IsComboRepeated(combo, previous[1..])
  }
}
