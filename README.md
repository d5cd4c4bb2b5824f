# Weekly combo planner, modelled in Dafny

The repository plans a week of meal combos from a catalogue of items. Each item has a name, a
category (main, side or drink), a calorie count and a taste profile. For each of the seven weekdays
the planner makes up to seven attempts. An attempt:

- draws random subsets of 5 mains, 4 sides and 4 drinks;
- expands them into every main × side × drink combo;
- keeps the combos whose calories lie in the inclusive band 550 to 800, that have at least one taste
  match, and that no earlier day has used;
- walks the kept combos in order, taking a combo only when it shares no dish name with the combos
  already taken, and stops at three.

The first attempt that takes three combos wins the day. A day whose seven attempts all fail gets no
combos. The accepted combos are added to the week's used list, and each day record carries the
weekday, its taste label and the accepted combos.

This project models that planner, `backend/generateMenu.js`. It has these modules:

- `Seqs` (`seqs.dfy`): order-preserving sublists, and the array `filter` as a function with its
  membership and sublist contract.
- `MenuTypes` (`menu_types.dfy`): items, combos, menu entries, day records, the shuffles of one attempt
  (`Draw`) and the constants: weekdays, taste labels, 7 attempts, 3 combos, subsets of 5/4/4, and the
  550–800 band.
- `ComboExpander` (`combo_expander.dfy`):
  - the taste match count;
  - the expansion `Expand`, stated position by position, with the method `GenerateCombos` that runs
    the source's three nested loops and is proved equal to it;
  - `IsComboRepeated`.
- `Selection` (`selection.dfy`):
  - the category filters and `RandomSubset`, the prefix of a shuffle;
  - the combo filter;
  - the greedy dish-disjoint pass `Select`, with the method `PickDisjoint` that runs the source's loop
    with its set of used dishes and its early `break`.
- `WeeklyPlanner` (`weekly_planner.dfy`):
  - one attempt, and the seven-attempt retry loop of a day (`DaySearch`, run by the method `PlanDay`);
  - the week (`WeekFrom`, run by the method `GenerateWeeklyMenu`);
  - the properties of the whole week.

Randomness is a parameter. `Math.random` drives the comparator sort in `getRandomSubset`, and each
attempt receives a `Draw`: the three shuffled orders that sort produced for the mains, sides and
drinks. The week receives seven days of seven draws (`WellShaped`). Given the draws, the planner is
deterministic.

Facts about where items come from hold under one of two assumptions:

- each shuffle draws only from its category list (`DrawnFrom`);
- each shuffle is a reordering of its list (`ReorderingDrawnFrom`, `RandomSubsetOfReordering`).

`GenerateWeeklyMenu` takes the list of parsed catalogue items in place of the CSV file.

A day whose seven attempts all fail keeps its initial empty list, not the last partial selection:
`validCombos` starts empty and is assigned only when an attempt reaches three combos
(backend/generateMenu.js:92, 120-123). Every day therefore has zero combos or exactly three
(`DaySearch`, `WeeklyMenuDays`).

The week lemmas are stated for any day planner, a function from the day index and the combos used so
far to the day's combos, that meets `PlansValid` (or `PlansNamed`). `DayPlannerValid` and
`DayPlannerNamed` prove that the retry loop is such a planner.

## Model

| member | source | states |
|---|---|---|
| ComboExpander.TasteMatches | backend/generateMenu.js:61 | the count is between 1 and 3 (the main always matches itself); it is 3 exactly when side and drink both share the main's taste, and 1 exactly when neither does |
| ComboExpander.GenerateCombos | backend/generateMenu.js:44-69 | the nested main/side/drink loops with the `id++` counter build exactly the expansion `Expand` |
| ComboExpander.ExpandAt | backend/generateMenu.js:48-62 | with S sides and D drinks, the loop step (i, j, k) sits at position (i·S + j)·D + k; that combo has id position + 1, the names of mains[i], sides[j] and drinks[k], the summed calories, that dish set and the taste count |
| ComboExpander.ExpandOnly | backend/generateMenu.js:48-58 | conversely every position of the expansion is the combo of one in-range loop step (i, j, k) |
| ComboExpander.ExpandSize | backend/generateMenu.js:44-69 | the expansion has as many combos as the product of the three list lengths, and none exactly when one of the lists is empty |
| ComboExpander.ExpandBuiltFrom | backend/generateMenu.js:55-61 | every expanded combo names items of the three lists and has a taste count between 1 and 3 |
| ComboExpander.IsComboRepeated | backend/generateMenu.js:71-77 | true if and only if some earlier combo has the same main, side and drink |
| Seqs.Filter | backend/generateMenu.js:101-106 | every kept element passes the test, every element that passes is kept, and the kept list is an order-preserving sublist of the input |
| Seqs.FilterCounts | backend/generateMenu.js:101-106 | each value occurs in the result as often as in the input when it passes the test, and not at all when it fails (duplicates are kept) |
| Selection.OfCategory | backend/generateMenu.js:81-83 | the category list holds catalogue items of that category, holds every catalogue item of that category, and keeps catalogue order |
| Selection.OfCategoryCounts | backend/generateMenu.js:81-83 | a catalogue row of the category occurs in its list as often as in the catalogue; a row of another category does not occur |
| Selection.RandomSubset | backend/generateMenu.js:39-42 | the subset is a prefix of the shuffle, of length min(count, length of the shuffle) |
| Selection.RandomSubsetOfReordering | backend/generateMenu.js:39-42 | when the shuffle reorders the input, the subset has min(count, number of items) elements, all drawn from the input, with no element used more often than it occurs, and it is the whole input once count reaches its length |
| Selection.FilterCombos | backend/generateMenu.js:101-106 | every kept combo lies in 550..800 and repeats no used triple; every combo passing the test is kept; the kept list is an order-preserving sublist of the expansion |
| Selection.Select | backend/generateMenu.js:108-118 | the greedy pass takes at most 3 combos, as an order-preserving sublist, whose dish sets are pairwise disjoint |
| Selection.SelectSaturated | backend/generateMenu.js:117 | once three combos are taken from a prefix, the rest of the list changes nothing (the early `break` is safe) |
| Selection.SelectMaximal | backend/generateMenu.js:111-116 | when fewer than three are taken, every combo skipped shares a dish with the taken ones (the selection is maximal) |
| Selection.SelectPrefix | backend/generateMenu.js:111-117 | the selection from a prefix of the list is a prefix of the selection from the whole list, so a combo once taken keeps its place |
| Selection.SelectFirstFit | backend/generateMenu.js:111-117 | the pass is first-fit: after the combos taken from the ones before it, a combo is taken next when fewer than three are taken and it shares no dish with them, and otherwise is skipped |
| Selection.PickDisjoint | backend/generateMenu.js:108-118 | the loop with `usedDishes` and the `break` at 3 computes exactly `Select` |
| MenuTypes.ProjectAt | backend/generateMenu.js:137-145 | entry k of a day record is combo k's id, names, calories and reasoning |
| MenuTypes.ProjectAppend | backend/generateMenu.js:137-145 | the record view of two lists one after the other is their views one after the other |
| WeeklyPlanner.ReorderingDrawnFrom | backend/generateMenu.js:40 | a shuffle that reorders a list draws only from it |
| WeeklyPlanner.PickAcceptable | backend/generateMenu.js:96-118 | combos picked from subsets of at most 5, 4 and 4 items lie in 550..800, repeat no used triple and have ids 1..80 |
| WeeklyPlanner.Attempt | backend/generateMenu.js:96-118 | one attempt picks at most three combos |
| WeeklyPlanner.AttemptValid | backend/generateMenu.js:96-118 | an attempt's picks share no dish and each is acceptable against the used list |
| WeeklyPlanner.AttemptNames | backend/generateMenu.js:96-100 | with shuffles drawn from the category lists, every pick names items of those lists |
| WeeklyPlanner.DaySearch | backend/generateMenu.js:92-126 | a day stops after at most 7 attempts; it ends with no combos exactly when all 7 failed, and otherwise with exactly 3 |
| WeeklyPlanner.DaySearchWinner | backend/generateMenu.js:120-123 | a day that ends early keeps exactly the picks of the attempt it ended on |
| WeeklyPlanner.DaySearchFirst | backend/generateMenu.js:95-125 | every attempt before the one the day ends on picked fewer than three combos (the first success wins) |
| WeeklyPlanner.DaySearchValid | backend/generateMenu.js:92-126 | a day's combos share no dish, lie in 550..800 and repeat no combo of earlier days |
| WeeklyPlanner.DaySearchNames | backend/generateMenu.js:92-126 | with shuffles drawn from the category lists, the day's combos name items of those lists |
| WeeklyPlanner.PlanDay | backend/generateMenu.js:92-126 | the `while` loop with `attempts` and the `break` yields exactly the combos and attempt count of `DaySearch` |
| WeeklyPlanner.GenerateWeeklyMenu | backend/generateMenu.js:81-147 | the category filters, the 7-day loop, the `usedCombos` append and the record push build exactly `WeeklyMenu` |
| WeeklyPlanner.DayPlannerValid | backend/generateMenu.js:92-132 | the retry loop gives every day 0 or 3 combos that share no dish and are acceptable against the combos used before |
| WeeklyPlanner.DayPlannerNamed | backend/generateMenu.js:92-132 | with shuffles drawn from the category lists, the retry loop names only items of those lists |
| WeeklyPlanner.WeekServed | backend/generateMenu.js:132-146 | the entries of the week's records are, in order, the record view of the combos appended to `usedCombos` |
| WeeklyPlanner.AppendDistinct | backend/generateMenu.js:132 | appending a day's combos to a repeat-free used list keeps it repeat-free |
| WeeklyPlanner.DisjointDistinct | backend/generateMenu.js:111-116 | combos with pairwise disjoint dish sets never share a main/side/drink triple |
| WeeklyPlanner.WeekDistinct | backend/generateMenu.js:88-147 | the used list never holds the same main, side and drink twice |
| WeeklyPlanner.DayRecordOk | backend/generateMenu.js:134-146 | day i's record carries `days[i]` and `tasteProfileMap[i]`; its 0 or 3 entries lie in 550..800, have ids 1..80, and their dish sets are pairwise disjoint |
| WeeklyPlanner.WeekDays | backend/generateMenu.js:88-147 | days i..6 give 7 − i records, each a valid record of its weekday |
| WeeklyPlanner.WeekNames | backend/generateMenu.js:88-147 | with a planner that names only category items, every entry of days i..6 does |
| WeeklyPlanner.PlannedDays | backend/generateMenu.js:88-147 | with a valid planner the week has 7 records, record d being a valid record of weekday d |
| WeeklyPlanner.PlannedDistinct | backend/generateMenu.js:88-147 | with a valid planner no main/side/drink triple is served twice in the week |
| WeeklyPlanner.WeeklyMenuDays | backend/generateMenu.js:88-147 | the weekly menu has 7 records, Monday to Sunday with the labels Sweet, Spicy, Savoury, Sweet, Spicy, Savoury, Sweet; each day has 0 or 3 entries in 550..800 with no dish shared |
| WeeklyPlanner.WeeklyMenuDistinct | backend/generateMenu.js:88-147 | no main/side/drink triple appears twice in the week, within a day or across days |
| WeeklyPlanner.CategoryNames | backend/generateMenu.js:81-83 | a name of a category list is the name of a catalogue item of that category |
| WeeklyPlanner.WeeklyMenuNames | backend/generateMenu.js:81-100 | with shuffles drawn from the category lists, each entry's main, side and drink name catalogue items of categories "main", "side" and "drink" |

## Left out

- `parseCSV` and the `fs`, `path` and `csv-parser` setup (backend/generateMenu.js:1-6, 20-37): file and stream I/O through a foreign library. The planner takes the parsed items as input, so the lower-casing of category and taste and the `parseInt` of calories are not modelled.
- `popularity_score` (backend/generateMenu.js:31, 52, 59, 143): a floating-point sum rounded with `toFixed(2)`. The field is absent from items, combos and entries.
- `Math.random` and the comparator sort (backend/generateMenu.js:40): the shuffle is a parameter of each attempt. The comparator sort does not guarantee a uniform shuffle, so the model states nothing about the distribution.
- The console warning for a short day and the success message (backend/generateMenu.js:129, 150), the JSON file write (backend/generateMenu.js:149) and the top-level `.catch` (backend/generateMenu.js:153-155) are output plumbing. A short day is visible as an empty record.
- `tastePref` (backend/generateMenu.js:89) is computed and never used, so the model has no counterpart. The `taste_matches >= 1` test always passes, because a main shares its own taste profile; `TasteMatches` proves the count is at least 1.
- The `dishes` field (backend/generateMenu.js:60) is the derived function `Combo.Dishes`, the set of the three names, and not a stored field.
- The names lemmas (`AttemptNames`, `DaySearchNames`, `DayPlannerNamed`, `WeekNames`, `WeeklyMenuNames`) assume only that each shuffle draws from its category list, which is weaker than the permutation the source's sort produces. `ReorderingDrawnFrom` shows that a permutation meets it.
- backend/server.js and src/App.js are not part of this model: they are HTTP routing, process spawning and UI rendering.
