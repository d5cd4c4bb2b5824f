/** The weekly planner: up to seven attempts per day, seven days, and the combos used so far. */
module WeeklyPlanner {
  import opened MenuTypes
  import opened Seqs
  import opened ComboExpander
  import opened Selection

  /** Every shuffled item of a draw comes from its category list. */
  predicate DrawnFrom(draw: Draw, mains: seq<Item>, sides: seq<Item>, drinks: seq<Item>)
  {
    (forall k :: 0 <= k < |draw.mains| ==> draw.mains[k] in mains)
    && (forall k :: 0 <= k < |draw.sides| ==> draw.sides[k] in sides)
    && (forall k :: 0 <= k < |draw.drinks| ==> draw.drinks[k] in drinks)
  }

  /** A draw whose shuffles reorder the category lists, as the source's shuffles do, draws from them. */
  lemma ReorderingDrawnFrom(draw: Draw, mains: seq<Item>, sides: seq<Item>, drinks: seq<Item>)
    requires multiset(draw.mains) == multiset(mains)
    requires multiset(draw.sides) == multiset(sides)
    requires multiset(draw.drinks) == multiset(drinks)
    ensures DrawnFrom(draw, mains, sides, drinks)
  {
    forall k | 0 <= k < |draw.mains| ensures draw.mains[k] in mains {
      assert draw.mains[k] in multiset(draw.mains);
    }
    forall k | 0 <= k < |draw.sides| ensures draw.sides[k] in sides {
      assert draw.sides[k] in multiset(draw.sides);
    }
    forall k | 0 <= k < |draw.drinks| ensures draw.drinks[k] in drinks {
      assert draw.drinks[k] in multiset(draw.drinks);
    }
  }

  /** Every draw of a day draws from the category lists. */
  predicate DayDrawnFrom(draws: seq<Draw>, mains: seq<Item>, sides: seq<Item>, drinks: seq<Item>)
  {
    forall t :: 0 <= t < |draws| ==> DrawnFrom(draws[t], mains, sides, drinks)
  }

  /** Every draw of the week draws from the category lists. */
  predicate WeekDrawnFrom(draws: seq<seq<Draw>>, mains: seq<Item>, sides: seq<Item>, drinks: seq<Item>)
  {
    forall i :: 0 <= i < |draws| ==> DayDrawnFrom(draws[i], mains, sides, drinks)
  }

  /** One draw per attempt, seven attempts per day, seven days. */
  predicate WellShaped(draws: seq<seq<Draw>>)
  {
    |draws| == DaysPerWeek && forall i :: 0 <= i < |draws| ==> |draws[i]| == MaxAttempts
  }

  /** A combo an attempt may keep: in the calorie window, no earlier day used its main, side and
      drink, and its identifier is a position in an expansion of at most 5 * 4 * 4 combos. */
  predicate Acceptable(c: Combo, used: seq<Combo>)
  {
    InBand(c)
    && (forall u :: 0 <= u < |used| ==> !SameTriple(used[u], c))
    && 1 <= c.comboId <= MainsPerDraw * SidesPerDraw * DrinksPerDraw
  }

  lemma ExpandCount(dm: seq<Item>, ds: seq<Item>, dd: seq<Item>)
    requires |dm| <= MainsPerDraw && |ds| <= SidesPerDraw && |dd| <= DrinksPerDraw
    ensures |dm| * |ds| * |dd| <= MainsPerDraw * SidesPerDraw * DrinksPerDraw
  {
    MulMono(|dm|, MainsPerDraw, |ds|);
    MulMono(|ds|, SidesPerDraw, MainsPerDraw);
    MulMono(|dm| * |ds|, MainsPerDraw * SidesPerDraw, |dd|);
    MulMono(|dd|, DrinksPerDraw, MainsPerDraw * SidesPerDraw);
  }

  /** The combos one attempt picks from subsets of at most 5, 4 and 4 items are acceptable. */
  lemma PickAcceptable(dm: seq<Item>, ds: seq<Item>, dd: seq<Item>, used: seq<Combo>)
    requires |dm| <= MainsPerDraw && |ds| <= SidesPerDraw && |dd| <= DrinksPerDraw
    ensures forall c :: c in Select(FilterCombos(Expand(dm, ds, dd), used)) ==> Acceptable(c, used)
  {
    var all := Expand(dm, ds, dd);
    var filtered := FilterCombos(all, used);
    SelectMembers(filtered);
    ExpandCount(dm, ds, dd);
    forall c | c in Select(filtered) ensures Acceptable(c, used) {
      var t :| 0 <= t < |filtered| && filtered[t] == c;
      var p :| 0 <= p < |all| && all[p] == c;
      ExpandOnly(dm, ds, dd, p);
    }
  }

  /** One attempt of the day loop: three random subsets, their expansion, the filter against the
      combos of earlier days, and the greedy dish-disjoint pick. */
  function Attempt(mains: seq<Item>, sides: seq<Item>, drinks: seq<Item>, draw: Draw, used: seq<Combo>): (r: seq<Combo>)
    ensures |r| <= CombosPerDay
  {
    var dm := RandomSubset(mains, draw.mains, MainsPerDraw);
    var ds := RandomSubset(sides, draw.sides, SidesPerDraw);
    var dd := RandomSubset(drinks, draw.drinks, DrinksPerDraw);
    Select(FilterCombos(Expand(dm, ds, dd), used))
  }

  /** An attempt's picks share no dish and each is acceptable against the combos of earlier days. */
  lemma AttemptValid(mains: seq<Item>, sides: seq<Item>, drinks: seq<Item>, draw: Draw, used: seq<Combo>)
    ensures var r := Attempt(mains, sides, drinks, draw, used);
      DishDisjoint(r) && forall k :: 0 <= k < |r| ==> Acceptable(r[k], used)
  {
    var dm := RandomSubset(mains, draw.mains, MainsPerDraw);
    var ds := RandomSubset(sides, draw.sides, SidesPerDraw);
    var dd := RandomSubset(drinks, draw.drinks, DrinksPerDraw);
    PickAcceptable(dm, ds, dd, used);
  }

  lemma PrefixFrom(r: seq<Item>, shuffled: seq<Item>, items: seq<Item>)
    requires r <= shuffled && forall k :: 0 <= k < |shuffled| ==> shuffled[k] in items
    ensures forall k :: 0 <= k < |r| ==> r[k] in items
  {
    assert forall k :: 0 <= k < |r| ==> r[k] == shuffled[k];
  }

  lemma PickNames(dm: seq<Item>, ds: seq<Item>, dd: seq<Item>, used: seq<Combo>,
                  mains: seq<Item>, sides: seq<Item>, drinks: seq<Item>)
    requires forall k :: 0 <= k < |dm| ==> dm[k] in mains
    requires forall k :: 0 <= k < |ds| ==> ds[k] in sides
    requires forall k :: 0 <= k < |dd| ==> dd[k] in drinks
    ensures forall c :: c in Select(FilterCombos(Expand(dm, ds, dd), used)) ==> BuiltFrom(c, mains, sides, drinks)
  {
    var filtered := FilterCombos(Expand(dm, ds, dd), used);
    SelectMembers(filtered);
    ExpandBuiltFrom(dm, ds, dd);
    assert NamesOf(dm) <= NamesOf(mains) && NamesOf(ds) <= NamesOf(sides) && NamesOf(dd) <= NamesOf(drinks);
    forall c | c in Select(filtered) ensures BuiltFrom(c, mains, sides, drinks) {
      var t :| 0 <= t < |filtered| && filtered[t] == c;
    }
  }

  /** Every combo of the list names items of the three lists. */
  predicate AllBuiltFrom(cs: seq<Combo>, mains: seq<Item>, sides: seq<Item>, drinks: seq<Item>)
  {
    forall k :: 0 <= k < |cs| ==> BuiltFrom(cs[k], mains, sides, drinks)
  }

  /** An attempt whose draw comes from the category lists picks combos of items of those lists. */
  lemma AttemptNames(mains: seq<Item>, sides: seq<Item>, drinks: seq<Item>, draw: Draw, used: seq<Combo>)
    requires DrawnFrom(draw, mains, sides, drinks)
    ensures var r := Attempt(mains, sides, drinks, draw, used);
      AllBuiltFrom(r, mains, sides, drinks)
  {
    var dm := RandomSubset(mains, draw.mains, MainsPerDraw);
    var ds := RandomSubset(sides, draw.sides, SidesPerDraw);
    var dd := RandomSubset(drinks, draw.drinks, DrinksPerDraw);
    PrefixFrom(dm, draw.mains, mains);
    PrefixFrom(ds, draw.sides, sides);
    PrefixFrom(dd, draw.drinks, drinks);
    PickNames(dm, ds, dd, used, mains, sides, drinks);
  }

  /** The attempt with this draw picks fewer than three combos. */
  predicate Fails(mains: seq<Item>, sides: seq<Item>, drinks: seq<Item>, draw: Draw, used: seq<Combo>)
  {
    |Attempt(mains, sides, drinks, draw, used)| < CombosPerDay
  }

  /** What a day may end with: its combos share no dish and each is acceptable against `used`. */
  predicate DayValid(combos: seq<Combo>, used: seq<Combo>)
  {
    DishDisjoint(combos) && forall k :: 0 <= k < |combos| ==> Acceptable(combos[k], used)
  }

  /** The retry loop of one day from attempt `attempts` on: the first attempt that picks three
      combos wins; after seven failed attempts the day has no combos. A day so ends with no combos
      or exactly three, which share no dish and pass the filter against the earlier days. */
  function DaySearch(mains: seq<Item>, sides: seq<Item>, drinks: seq<Item>, draws: seq<Draw>,
                     used: seq<Combo>, attempts: nat): (o: DayOutcome)
    requires |draws| == MaxAttempts && attempts <= MaxAttempts
    ensures attempts <= o.attempts <= MaxAttempts
    ensures o.combos == [] <==> o.attempts == MaxAttempts
    ensures o.combos == [] || |o.combos| == CombosPerDay
    decreases MaxAttempts - attempts
  {
    if attempts == MaxAttempts then DayOutcome([], attempts)
    else if Fails(mains, sides, drinks, draws[attempts], used) then DaySearch(mains, sides, drinks, draws, used, attempts + 1)
    else DayOutcome(Attempt(mains, sides, drinks, draws[attempts], used), attempts)
  }

  /** The attempt a day ends with is the one whose picks the day keeps. */
  lemma {:induction false} DaySearchWinner(mains: seq<Item>, sides: seq<Item>, drinks: seq<Item>, draws: seq<Draw>,
                                           used: seq<Combo>, attempts: nat)
    requires |draws| == MaxAttempts && attempts <= MaxAttempts
    ensures var o := DaySearch(mains, sides, drinks, draws, used, attempts);
      o.attempts < MaxAttempts ==> o.combos == Attempt(mains, sides, drinks, draws[o.attempts], used)
    decreases MaxAttempts - attempts
  {
    if attempts < MaxAttempts && Fails(mains, sides, drinks, draws[attempts], used) {
      DaySearchWinner(mains, sides, drinks, draws, used, attempts + 1);
    }
  }

  /** The day's search takes the first attempt that succeeds: every attempt before the one it ends
      with picked fewer than three combos. */
  lemma {:induction false} DaySearchFirst(mains: seq<Item>, sides: seq<Item>, drinks: seq<Item>, draws: seq<Draw>,
                                          used: seq<Combo>, attempts: nat, t: nat)
    requires |draws| == MaxAttempts && attempts <= MaxAttempts
    requires attempts <= t < DaySearch(mains, sides, drinks, draws, used, attempts).attempts
    ensures Fails(mains, sides, drinks, draws[t], used)
    decreases MaxAttempts - attempts
  {
    assert Fails(mains, sides, drinks, draws[attempts], used);
    if t > attempts {
      assert DaySearch(mains, sides, drinks, draws, used, attempts) == DaySearch(mains, sides, drinks, draws, used, attempts + 1);
      DaySearchFirst(mains, sides, drinks, draws, used, attempts + 1, t);
    }
  }

  /** A day ends with combos that share no dish and pass the filter against the earlier days. */
  lemma DaySearchValid(mains: seq<Item>, sides: seq<Item>, drinks: seq<Item>, draws: seq<Draw>, used: seq<Combo>)
    requires |draws| == MaxAttempts
    ensures DayValid(DaySearch(mains, sides, drinks, draws, used, 0).combos, used)
  {
    var o := DaySearch(mains, sides, drinks, draws, used, 0);
    DaySearchWinner(mains, sides, drinks, draws, used, 0);
    if o.attempts < MaxAttempts {
      AttemptValid(mains, sides, drinks, draws[o.attempts], used);
    }
  }

  /** When every draw of the day comes from the category lists, so do the day's combos. */
  lemma DaySearchNames(mains: seq<Item>, sides: seq<Item>, drinks: seq<Item>, draws: seq<Draw>, used: seq<Combo>)
    requires |draws| == MaxAttempts && DayDrawnFrom(draws, mains, sides, drinks)
    ensures var o := DaySearch(mains, sides, drinks, draws, used, 0);
      AllBuiltFrom(o.combos, mains, sides, drinks)
  {
    var o := DaySearch(mains, sides, drinks, draws, used, 0);
    DaySearchWinner(mains, sides, drinks, draws, used, 0);
    if o.attempts < MaxAttempts {
      AttemptNames(mains, sides, drinks, draws[o.attempts], used);
    }
  }

  /** The retry loop of generateWeeklyMenu for one day. */
  method PlanDay(mains: seq<Item>, sides: seq<Item>, drinks: seq<Item>, draws: seq<Draw>, used: seq<Combo>)
    returns (validCombos: seq<Combo>, attempts: nat)
    requires |draws| == MaxAttempts
    ensures DayOutcome(validCombos, attempts) == DaySearch(mains, sides, drinks, draws, used, 0)
  {
    validCombos := [];
    attempts := 0;
    while |validCombos| < CombosPerDay && attempts < MaxAttempts
      invariant attempts <= MaxAttempts && validCombos == []
      invariant DaySearch(mains, sides, drinks, draws, used, attempts) == DaySearch(mains, sides, drinks, draws, used, 0)
      decreases MaxAttempts - attempts
    {
      var draw := draws[attempts];
      var dailyMains := RandomSubset(mains, draw.mains, MainsPerDraw);
      var dailySides := RandomSubset(sides, draw.sides, SidesPerDraw);
      var dailyDrinks := RandomSubset(drinks, draw.drinks, DrinksPerDraw);
      var allCombos := GenerateCombos(dailyMains, dailySides, dailyDrinks);
      var filtered := FilterCombos(allCombos, used);
      var uniqueDishCombos := PickDisjoint(filtered);
      if |uniqueDishCombos| >= CombosPerDay {
        validCombos := uniqueDishCombos;
        break;
      }
      attempts := attempts + 1;
    }
  }

  /** The day record of day `i`. */
  function DayRecord(i: nat, combos: seq<Combo>): DayPlan
    requires i < DaysPerWeek
  {
    DayPlan(Days[i], TasteProfiles[i], Project(combos))
  }

  /** The combos day `i` accepts given the combos used so far: the retry loop with that day's draws. */
  function DayPlanner(mains: seq<Item>, sides: seq<Item>, drinks: seq<Item>, draws: seq<seq<Draw>>): (nat, seq<Combo>) -> seq<Combo>
    requires WellShaped(draws)
  {
    (i: nat, used: seq<Combo>) =>
      if i < DaysPerWeek then DaySearch(mains, sides, drinks, draws[i], used, 0).combos else []
  }

  /** The days i..6 of the week, given the day planner and the combos the earlier days used. */
  function WeekFrom(plan: (nat, seq<Combo>) -> seq<Combo>, i: nat, used: seq<Combo>): seq<DayPlan>
    requires i <= DaysPerWeek
    decreases DaysPerWeek - i
  {
    if i == DaysPerWeek then []
    else [DayRecord(i, plan(i, used))] + WeekFrom(plan, i + 1, used + plan(i, used))
  }

  /** One step of the week: day `i`'s record, then the later days with its combos marked used. */
  lemma WeekFromStep(plan: (nat, seq<Combo>) -> seq<Combo>, i: nat, used: seq<Combo>)
    requires i < DaysPerWeek
    ensures WeekFrom(plan, i, used) == [DayRecord(i, plan(i, used))] + WeekFrom(plan, i + 1, used + plan(i, used))
  {
  }

  /** The category lists the planner draws from. */
  function Mains(catalog: seq<Item>): seq<Item> { OfCategory(catalog, MainCategory) }
  function Sides(catalog: seq<Item>): seq<Item> { OfCategory(catalog, SideCategory) }
  function Drinks(catalog: seq<Item>): seq<Item> { OfCategory(catalog, DrinkCategory) }

  /** The planner of a catalogue and the shuffles of its attempts. */
  function CatalogPlanner(catalog: seq<Item>, draws: seq<seq<Draw>>): (nat, seq<Combo>) -> seq<Combo>
    requires WellShaped(draws)
  {
    DayPlanner(Mains(catalog), Sides(catalog), Drinks(catalog), draws)
  }

  /** The week the planner writes out for a catalogue and the shuffles of its attempts. */
  function WeeklyMenu(catalog: seq<Item>, draws: seq<seq<Draw>>): seq<DayPlan>
    requires WellShaped(draws)
  {
    WeekFrom(CatalogPlanner(catalog, draws), 0, [])
  }

  /** generateWeeklyMenu without the file reading and writing: seven days, each appended to the
      week, and the day's combos appended to the used list. */
  method GenerateWeeklyMenu(catalog: seq<Item>, draws: seq<seq<Draw>>) returns (weeklyMenu: seq<DayPlan>)
    requires WellShaped(draws)
    ensures weeklyMenu == WeeklyMenu(catalog, draws)
  {
    var mains := OfCategory(catalog, MainCategory);
    var sides := OfCategory(catalog, SideCategory);
    var drinks := OfCategory(catalog, DrinkCategory);
    ghost var plan := CatalogPlanner(catalog, draws);
    weeklyMenu := [];
    var usedCombos: seq<Combo> := [];
    for i := 0 to DaysPerWeek
      invariant weeklyMenu + WeekFrom(plan, i, usedCombos) == WeeklyMenu(catalog, draws)
    {
      var validCombos, attempts := PlanDay(mains, sides, drinks, draws[i], usedCombos);
      assert validCombos == plan(i, usedCombos);
      var record := DayPlan(Days[i], TasteProfiles[i], Project(validCombos));
      WeekFromStep(plan, i, usedCombos);
      AppendAssoc(weeklyMenu, [record], WeekFrom(plan, i + 1, usedCombos + validCombos));
      usedCombos := usedCombos + validCombos;
      weeklyMenu := weeklyMenu + [record];
    }
  }

  /** A day planner whose every day ends with no combos or three that share no dish and pass the
      filter against the combos used before. */
  ghost predicate PlansValid(plan: (nat, seq<Combo>) -> seq<Combo>)
  {
    forall i: nat, used: seq<Combo> :: i < DaysPerWeek ==>
      (plan(i, used) == [] || |plan(i, used)| == CombosPerDay) && DayValid(plan(i, used), used)
  }

  /** The retry loop is such a planner. */
  lemma DayPlannerValid(mains: seq<Item>, sides: seq<Item>, drinks: seq<Item>, draws: seq<seq<Draw>>)
    requires WellShaped(draws)
    ensures PlansValid(DayPlanner(mains, sides, drinks, draws))
  {
    var plan := DayPlanner(mains, sides, drinks, draws);
    forall i: nat, used: seq<Combo> | i < DaysPerWeek
      ensures (plan(i, used) == [] || |plan(i, used)| == CombosPerDay) && DayValid(plan(i, used), used)
    {
      DaySearchValid(mains, sides, drinks, draws[i], used);
    }
  }

  /** The combos the days i..6 accept, in order: what they append to the used list. */
  function WeekCombos(plan: (nat, seq<Combo>) -> seq<Combo>, i: nat, used: seq<Combo>): seq<Combo>
    requires i <= DaysPerWeek
    decreases DaysPerWeek - i
  {
    if i == DaysPerWeek then []
    else plan(i, used) + WeekCombos(plan, i + 1, used + plan(i, used))
  }

  /** Every entry of the week, day after day. */
  function Served(week: seq<DayPlan>): seq<MenuEntry>
  {
    if week == [] then [] else week[0].combos + Served(week[1..])
  }

  /** No two combos name the same main, side and drink. */
  predicate DistinctTriples(cs: seq<Combo>)
  {
    forall a, b :: 0 <= a < b < |cs| ==> !SameTriple(cs[a], cs[b])
  }

  /** No two entries name the same main, side and drink. */
  predicate DistinctEntries(es: seq<MenuEntry>)
  {
    forall a, b :: 0 <= a < b < |es| ==>
      !(es[a].main == es[b].main && es[a].side == es[b].side && es[a].drink == es[b].drink)
  }

  lemma DistinctProject(cs: seq<Combo>)
    requires DistinctTriples(cs)
    ensures DistinctEntries(Project(cs))
  {
    var es := Project(cs);
    forall a, b | 0 <= a < b < |es|
      ensures !(es[a].main == es[b].main && es[a].side == es[b].side && es[a].drink == es[b].drink)
    {
      ProjectAt(cs, a);
      ProjectAt(cs, b);
      assert !SameTriple(cs[a], cs[b]);
    }
  }

  /** The week's entries are the day records' view of the combos the days accept. */
  lemma {:induction false} WeekServed(plan: (nat, seq<Combo>) -> seq<Combo>, i: nat, used: seq<Combo>)
    requires i <= DaysPerWeek
    ensures Served(WeekFrom(plan, i, used)) == Project(WeekCombos(plan, i, used))
    decreases DaysPerWeek - i
  {
    if i < DaysPerWeek {
      var c := plan(i, used);
      var w := WeekFrom(plan, i, used);
      assert w[1..] == WeekFrom(plan, i + 1, used + c);
      WeekServed(plan, i + 1, used + c);
      ProjectAppend(c, WeekCombos(plan, i + 1, used + c));
    }
  }

  /** Dish-disjoint combos never repeat a triple: each has at least one dish. */
  lemma DisjointDistinct(cs: seq<Combo>)
    requires DishDisjoint(cs)
    ensures DistinctTriples(cs)
  {
    forall a, b | 0 <= a < b < |cs| ensures !SameTriple(cs[a], cs[b]) {
      assert cs[a].main in cs[a].Dishes();
    }
  }

  /** Appending a day's combos keeps the used list free of repeats. */
  lemma AppendDistinct(used: seq<Combo>, combos: seq<Combo>)
    requires DistinctTriples(used) && DayValid(combos, used)
    ensures DistinctTriples(used + combos)
  {
    DisjointDistinct(combos);
    var all := used + combos;
    forall a, b | 0 <= a < b < |all| ensures !SameTriple(all[a], all[b]) {
      if a < |used| && b >= |used| {
        assert Acceptable(combos[b - |used|], used);
      } else if a >= |used| {
        assert all[a] == combos[a - |used|] && all[b] == combos[b - |used|];
      }
    }
  }

  /** usedCombos never holds the same main, side and drink twice. */
  lemma {:induction false} WeekDistinct(plan: (nat, seq<Combo>) -> seq<Combo>, i: nat, used: seq<Combo>)
    requires PlansValid(plan) && i <= DaysPerWeek && DistinctTriples(used)
    ensures DistinctTriples(used + WeekCombos(plan, i, used))
    decreases DaysPerWeek - i
  {
    if i < DaysPerWeek {
      var c := plan(i, used);
      var rest := WeekCombos(plan, i + 1, used + c);
      AppendAssoc(used, c, rest);
      AppendDistinct(used, c);
      WeekDistinct(plan, i + 1, used + c);
    } else {
      assert used + WeekCombos(plan, i, used) == used;
    }
  }

  /** An entry a day record may hold: in the calorie window, with an identifier between 1 and
      5 * 4 * 4. */
  predicate EntryOk(e: MenuEntry)
  {
    MinCalories <= e.totalCalories <= MaxCalories
    && 1 <= e.comboId <= MainsPerDraw * SidesPerDraw * DrinksPerDraw
  }

  /** The record of day `i`: its weekday and taste label, no combos or three, acceptable entries,
      and no dish twice. */
  predicate DayOk(p: DayPlan, i: nat)
  {
    i < DaysPerWeek
    && p.day == Days[i] && p.tasteProfile == TasteProfiles[i]
    && (|p.combos| == 0 || |p.combos| == CombosPerDay)
    && (forall k :: 0 <= k < |p.combos| ==> EntryOk(p.combos[k]))
    && (forall a, b :: 0 <= a < b < |p.combos| ==> EntryDishes(p.combos[a]) !! EntryDishes(p.combos[b]))
  }

  /** Every record of `week`, read as days i, i + 1, ..., is a valid day record. */
  predicate DaysOk(week: seq<DayPlan>, i: nat)
    decreases |week|
  {
    week == [] || (DayOk(week[0], i) && DaysOk(week[1..], i + 1))
  }

  lemma {:induction false} DaysOkAt(week: seq<DayPlan>, i: nat, d: nat)
    requires DaysOk(week, i) && d < |week|
    ensures DayOk(week[d], i + d)
    decreases d
  {
    if d > 0 {
      DaysOkAt(week[1..], i + 1, d - 1);
    }
  }

  lemma DayRecordOk(i: nat, combos: seq<Combo>, used: seq<Combo>)
    requires i < DaysPerWeek && (combos == [] || |combos| == CombosPerDay) && DayValid(combos, used)
    ensures DayOk(DayRecord(i, combos), i)
  {
    var es := Project(combos);
    forall k | 0 <= k < |es| ensures EntryOk(es[k]) {
      ProjectAt(combos, k);
      assert Acceptable(combos[k], used);
    }
    forall a, b | 0 <= a < b < |es| ensures EntryDishes(es[a]) !! EntryDishes(es[b]) {
      ProjectAt(combos, a);
      ProjectAt(combos, b);
      assert EntryDishes(es[a]) == combos[a].Dishes();
      assert EntryDishes(es[b]) == combos[b].Dishes();
    }
  }

  /** The days i..6: one record per weekday in order, each a valid day record. */
  lemma {:induction false} WeekDays(plan: (nat, seq<Combo>) -> seq<Combo>, i: nat, used: seq<Combo>)
    requires PlansValid(plan) && i <= DaysPerWeek
    ensures |WeekFrom(plan, i, used)| == DaysPerWeek - i && DaysOk(WeekFrom(plan, i, used), i)
    decreases DaysPerWeek - i
  {
    if i < DaysPerWeek {
      var c := plan(i, used);
      var w := WeekFrom(plan, i, used);
      assert w[0] == DayRecord(i, c) && w[1..] == WeekFrom(plan, i + 1, used + c);
      DayRecordOk(i, c, used);
      WeekDays(plan, i + 1, used + c);
    }
  }

  /** Every entry of a day record names items of the three category lists. */
  predicate RecordNamed(p: DayPlan, mains: seq<Item>, sides: seq<Item>, drinks: seq<Item>)
  {
    forall k :: 0 <= k < |p.combos| ==>
      p.combos[k].main in NamesOf(mains) && p.combos[k].side in NamesOf(sides) && p.combos[k].drink in NamesOf(drinks)
  }

  lemma DayRecordNamed(i: nat, combos: seq<Combo>, mains: seq<Item>, sides: seq<Item>, drinks: seq<Item>)
    requires i < DaysPerWeek && AllBuiltFrom(combos, mains, sides, drinks)
    ensures RecordNamed(DayRecord(i, combos), mains, sides, drinks)
  {
    forall k | 0 <= k < |combos| ensures Project(combos)[k] == Entry(combos[k]) {
      ProjectAt(combos, k);
    }
  }

  /** A day planner whose every day picks combos of items of the three category lists. */
  ghost predicate PlansNamed(plan: (nat, seq<Combo>) -> seq<Combo>, mains: seq<Item>, sides: seq<Item>, drinks: seq<Item>)
  {
    forall i: nat, used: seq<Combo> :: i < DaysPerWeek ==> AllBuiltFrom(plan(i, used), mains, sides, drinks)
  }

  /** When every draw comes from the category lists, the retry loop is such a planner. */
  lemma DayPlannerNamed(mains: seq<Item>, sides: seq<Item>, drinks: seq<Item>, draws: seq<seq<Draw>>)
    requires WellShaped(draws) && WeekDrawnFrom(draws, mains, sides, drinks)
    ensures PlansNamed(DayPlanner(mains, sides, drinks, draws), mains, sides, drinks)
  {
    var plan := DayPlanner(mains, sides, drinks, draws);
    forall i: nat, used: seq<Combo> | i < DaysPerWeek ensures AllBuiltFrom(plan(i, used), mains, sides, drinks) {
      DaySearchNames(mains, sides, drinks, draws[i], used);
    }
  }

  /** Every entry of `week` names items of the three category lists. */
  predicate DaysNamed(week: seq<DayPlan>, mains: seq<Item>, sides: seq<Item>, drinks: seq<Item>)
    decreases |week|
  {
    week == [] || (RecordNamed(week[0], mains, sides, drinks) && DaysNamed(week[1..], mains, sides, drinks))
  }

  lemma {:induction false} DaysNamedAt(week: seq<DayPlan>, mains: seq<Item>, sides: seq<Item>, drinks: seq<Item>, d: nat, k: nat)
    requires DaysNamed(week, mains, sides, drinks) && d < |week| && k < |week[d].combos|
    ensures week[d].combos[k].main in NamesOf(mains)
    ensures week[d].combos[k].side in NamesOf(sides)
    ensures week[d].combos[k].drink in NamesOf(drinks)
    decreases d
  {
    if d == 0 {
      assert RecordNamed(week[0], mains, sides, drinks);
    } else {
      DaysNamedAt(week[1..], mains, sides, drinks, d - 1, k);
    }
  }

  /** With such a planner, every entry of days i..6 names items of the category lists. */
  lemma {:induction false} WeekNames(plan: (nat, seq<Combo>) -> seq<Combo>, mains: seq<Item>, sides: seq<Item>, drinks: seq<Item>,
                                     i: nat, used: seq<Combo>)
    requires PlansNamed(plan, mains, sides, drinks) && i <= DaysPerWeek
    ensures DaysNamed(WeekFrom(plan, i, used), mains, sides, drinks)
    decreases DaysPerWeek - i
  {
    if i < DaysPerWeek {
      var c := plan(i, used);
      var w := WeekFrom(plan, i, used);
      assert w[0] == DayRecord(i, c) && w[1..] == WeekFrom(plan, i + 1, used + c);
      DayRecordNamed(i, c, mains, sides, drinks);
      WeekNames(plan, mains, sides, drinks, i + 1, used + c);
    }
  }

  /** With a valid planner the week has seven records, each a valid record of its weekday. */
  lemma PlannedDays(plan: (nat, seq<Combo>) -> seq<Combo>)
    requires PlansValid(plan)
    ensures var w := WeekFrom(plan, 0, []);
      |w| == DaysPerWeek && forall d :: 0 <= d < |w| ==> DayOk(w[d], d)
  {
    var w := WeekFrom(plan, 0, []);
    WeekDays(plan, 0, []);
    forall d | 0 <= d < |w| ensures DayOk(w[d], d) {
      DaysOkAt(w, 0, d);
    }
  }

  /** With a valid planner no triple is served twice in the week. */
  lemma PlannedDistinct(plan: (nat, seq<Combo>) -> seq<Combo>)
    requires PlansValid(plan)
    ensures DistinctEntries(Served(WeekFrom(plan, 0, [])))
  {
    var cs := WeekCombos(plan, 0, []);
    assert DistinctTriples(cs) by {
      WeekDistinct(plan, 0, []);
      assert [] + cs == cs;
    }
    DistinctProject(cs);
    WeekServed(plan, 0, []);
  }

  /** The weekly menu has seven records, Monday to Sunday with their taste labels; each day has no
      combos or three; its entries are in the calorie window and share no dish. */
  lemma WeeklyMenuDays(catalog: seq<Item>, draws: seq<seq<Draw>>)
    requires WellShaped(draws)
    ensures var w := WeeklyMenu(catalog, draws);
      |w| == DaysPerWeek && forall d :: 0 <= d < |w| ==> DayOk(w[d], d)
  {
    DayPlannerValid(Mains(catalog), Sides(catalog), Drinks(catalog), draws);
    PlannedDays(CatalogPlanner(catalog, draws));
  }

  /** No main, side and drink triple is served twice in the week, on one day or on two. */
  lemma WeeklyMenuDistinct(catalog: seq<Item>, draws: seq<seq<Draw>>)
    requires WellShaped(draws)
    ensures DistinctEntries(Served(WeeklyMenu(catalog, draws)))
  {
    DayPlannerValid(Mains(catalog), Sides(catalog), Drinks(catalog), draws);
    PlannedDistinct(CatalogPlanner(catalog, draws));
  }

  /** The item names of a category list are names of catalogue items of that category. */
  lemma CategoryNames(catalog: seq<Item>, category: string, n: string)
    requires n in NamesOf(OfCategory(catalog, category))
    ensures exists x :: x in catalog && x.category == category && x.name == n
  {
    var r := OfCategory(catalog, category);
    var x :| x in r && x.name == n;
    var k :| 0 <= k < |r| && r[k] == x;
  }

  /** When every shuffle draws from its category list, a main of the menu is the name of a catalogue
      item of category "main"; likewise sides and drinks. */
  lemma WeeklyMenuNames(catalog: seq<Item>, draws: seq<seq<Draw>>, d: nat, k: nat)
    requires WellShaped(draws) && WeekDrawnFrom(draws, Mains(catalog), Sides(catalog), Drinks(catalog))
    requires d < |WeeklyMenu(catalog, draws)| && k < |WeeklyMenu(catalog, draws)[d].combos|
    ensures var e := WeeklyMenu(catalog, draws)[d].combos[k];
      (exists x :: x in catalog && x.category == MainCategory && x.name == e.main)
      && (exists x :: x in catalog && x.category == SideCategory && x.name == e.side)
      && (exists x :: x in catalog && x.category == DrinkCategory && x.name == e.drink)
  {
    var w := WeeklyMenu(catalog, draws);
    var mains, sides, drinks := Mains(catalog), Sides(catalog), Drinks(catalog);
    DayPlannerNamed(mains, sides, drinks, draws);
    WeekNames(CatalogPlanner(catalog, draws), mains, sides, drinks, 0, []);
    DaysNamedAt(w, mains, sides, drinks, d, k);
    var e := w[d].combos[k];
    CategoryNames(catalog, MainCategory, e.main);
    CategoryNames(catalog, SideCategory, e.side);
    CategoryNames(catalog, DrinkCategory, e.drink);
  }
}
