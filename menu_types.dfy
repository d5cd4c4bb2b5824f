/** The entities of the weekly combo planner and its fixed constants. */
module MenuTypes {

  /** One catalogue entry, already parsed. The popularity score, a float, is not modelled. */
  datatype Item = Item(name: string, category: string, calories: int, tasteProfile: string)

  /** A candidate (main, side, drink) triple with the fields derived from its three items. */
  datatype Combo = Combo(
    comboId: nat,
    main: string,
    side: string,
    drink: string,
    totalCalories: int,
    tasteMatches: nat,
    reasoning: string)
  {
    /** The combo's dish set: the names of its three items. */
    function Dishes(): set<string>
    {
      {main, side, drink}
    }
  }

  /** The public view of an accepted combo, as written into a day record. */
  datatype MenuEntry = MenuEntry(
    comboId: nat,
    main: string,
    side: string,
    drink: string,
    totalCalories: int,
    reasoning: string)

  /** One weekday of the plan. */
  datatype DayPlan = DayPlan(day: string, tasteProfile: string, combos: seq<MenuEntry>)

  /** The orders a shuffle chose in one attempt, one per category list. */
  datatype Draw = Draw(mains: seq<Item>, sides: seq<Item>, drinks: seq<Item>)

  /** What one day's retry loop ends with: the accepted combos and the number of failed attempts. */
  datatype DayOutcome = DayOutcome(combos: seq<Combo>, attempts: nat)

  const Days: seq<string> := ["Monday", "Tuesday", "Wednesday", "Thursday", "Friday", "Saturday", "Sunday"]
  const TasteProfiles: seq<string> := ["Sweet", "Spicy", "Savoury", "Sweet", "Spicy", "Savoury", "Sweet"]

  const DaysPerWeek: nat := 7
  const MaxAttempts: nat := 7
  const CombosPerDay: nat := 3
  const MainsPerDraw: nat := 5
  const SidesPerDraw: nat := 4
  const DrinksPerDraw: nat := 4
  const MinCalories: int := 550
  const MaxCalories: int := 800

  const MainCategory: string := "main"
  const SideCategory: string := "side"
  const DrinkCategory: string := "drink"

  /** The names of the items of a list. */
  function NamesOf(items: seq<Item>): set<string>
  {
    set x | x in items :: x.name
  }

  /** Two combos name the same main, side and drink. */
  predicate SameTriple(a: Combo, b: Combo)
  {
    a.main == b.main && a.side == b.side && a.drink == b.drink
  }

  /** The combo fields a day record keeps. */
  function Entry(c: Combo): MenuEntry
  {
    MenuEntry(c.comboId, c.main, c.side, c.drink, c.totalCalories, c.reasoning)
  }

  /** The day record's view of a list of accepted combos, in order. */
  function Project(cs: seq<Combo>): (r: seq<MenuEntry>)
    ensures |r| == |cs|
    decreases |cs|
  {
    if cs == [] then [] else Project(cs[..|cs| - 1]) + [Entry(cs[|cs| - 1])]
  }

  /** Entry `k` of the view is the entry of combo `k`. */
  lemma {:induction false} ProjectAt(cs: seq<Combo>, k: nat)
    requires k < |cs|
    ensures Project(cs)[k] == Entry(cs[k])
    decreases |cs|
  {
    if k < |cs| - 1 {
      ProjectAt(cs[..|cs| - 1], k);
    }
  }

  /** The view of two lists one after the other is the two views one after the other. */
  lemma {:induction false} ProjectAppend(a: seq<Combo>, b: seq<Combo>)
    ensures Project(a + b) == Project(a) + Project(b)
    decreases |b|
  {
    if b == [] {
      assert a + b == a;
    } else {
      var b' := b[..|b| - 1];
      assert (a + b)[..|a + b| - 1] == a + b';
      ProjectAppend(a, b');
    }
  }

  /** The dish names of a day-record entry. */
  function EntryDishes(e: MenuEntry): set<string>
  {
    {e.main, e.side, e.drink}
  }
}
