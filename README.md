# MekHQ pod spaces, repair-task classification and log entries

A Dafny model of three pieces of MekHQ, the campaign manager for BattleTech:

- **Pod spaces** (`PodSpace`). This is the repair action that covers all the
  pod-mounted equipment in one location of an omni unit.
  - Its children are the ids of the unit's omni-podded parts at its location.
    They are recomputed from the unit's part list.
  - `remove` and `fix` act on every child in turn.
  - It also has its own skill threshold, time budget, modifiers, team and
    overtime flags.
- **The repair task list** (`TaskTableModel`). This covers how a task is
  classified as available, not available, blocked or scheduled, which suffix
  that adds to the task's icon, and how the tasks of the selected rows are
  gathered.
- **Log entries** (`LogEntry`). An entry has an optional date, a description
  that is never null and an optional type. The model covers its setters, text
  form, clone, equality and hash, and the mapping of the old "med" type name
  to `MEDICAL`.

Modules:

- `Base`: `Option`, `Result` and `Uuid`.
- `JavaInt`: Java's 32-bit `int`, with an explicit wrap-around.
- `JavaHash`: the 31-polynomial hash of `String.hashCode` and `Objects.hash`.
- `TargetRolls`: the modifier list that `getAllMods` builds.
- `PartRegistry`: the campaign's part registry and the unit, both as classes.
  - It also holds the specification functions `Select`, `Picked`, `CallsOn`
    and `Repaired`.
  - It holds the assumed effects of the child calls (`Part.remove`,
    `Part.fix`, `reservePart`, `cancelReservation`).
- `ChildLoops`: the loops over a pod space's children.
- `PodSpaces`: the `PodSpace` class.
- `TaskTable`: the classifier, the icon suffix and `GetTasksAt`.
- `LogEntries`: the `LogEntry` class.

The child calls are foreign code. Their effects are stated as contracts:
- removing a part detaches it from the unit's part list;
- fixing a part clears its `needsFixing`;
- every child call is also appended to a ghost call trace on the campaign,
  so that the order and the selection of the calls are part of what is
  proved.

The unit's part ids are distinct and all registered (`Unit.Valid`).

Two rules of the code:
- `fail(rating)` sets the skill threshold to `rating + 1`. It is not "one
  more than before", and it need not be larger than before.
- `addTimeSpent` adds time without a clamp, so the time spent can exceed the
  base time.

## Model

| member | source | states |
|---|---|---|
| PodSpaces.PodSpace.constructor | MekHQ/src/mekhq/campaign/parts/PodSpace.java:52-72 | The campaign is the unit's; no child is known yet; the mode is REPLACE, there is no team, no time spent, the skill threshold is green and both modifiers are cleared |
| PodSpaces.PodSpace.UpdateConditionFromEntity | MekHQ/src/mekhq/campaign/parts/PodSpace.java:80-87 | Afterwards the children are exactly the unit's parts that are omni-podded at this location, in unit order, and distinct; nothing stale is left |
| PartRegistry.Select | MekHQ/src/mekhq/campaign/parts/PodSpace.java:82-85 | The filter over a part-id list never grows the list; `SelectMembers` states its membership |
| PartRegistry.SelectMembers | MekHQ/src/mekhq/campaign/parts/PodSpace.java:82-85 | An id is selected iff it is in the list and meets the criterion |
| PartRegistry.SelectSubset | MekHQ/src/mekhq/campaign/parts/PodSpace.java:82-85 | Every selected id is in the list and meets the criterion |
| PartRegistry.SelectSnoc | MekHQ/src/mekhq/campaign/parts/PodSpace.java:82-85 | Filtering a list extended by one id extends the result by that id exactly when it meets the criterion |
| PartRegistry.SelectPrefixStep | MekHQ/src/mekhq/campaign/parts/PodSpace.java:82-85 | One more loop step extends the selection, and the set of picked ids, by the next id exactly when it meets the criterion |
| PartRegistry.SelectDistinct | MekHQ/src/mekhq/campaign/parts/PodSpace.java:82-85 | Filtering a list of distinct ids yields distinct ids |
| PartRegistry.SelectSame | MekHQ/src/mekhq/campaign/parts/PodSpace.java:116-123 | Two criteria that agree on every id of the list select the same ids, so fixing children leaves the refreshed membership unchanged |
| PartRegistry.SelectAbsentTwice | MekHQ/src/mekhq/campaign/parts/PodSpace.java:97-102 | Removing one set of ids and then another is removing their union |
| PartRegistry.SelectAbsentNone | MekHQ/src/mekhq/campaign/parts/PodSpace.java:97-102 | Removing no id leaves the part list as it was |
| PartRegistry.PickedSnoc | MekHQ/src/mekhq/campaign/parts/PodSpace.java:97-102 | The set of removed ids grows by the next child exactly when that child meets the criterion |
| PartRegistry.CallsOn | MekHQ/src/mekhq/campaign/parts/PodSpace.java:97-102 | One call per id, in order |
| PartRegistry.CallsOnSnoc | MekHQ/src/mekhq/campaign/parts/PodSpace.java:97-102 | The calls on a list extended by one id are the calls on the list followed by the call on that id |
| PartRegistry.CallStep | MekHQ/src/mekhq/campaign/parts/PodSpace.java:97-102 | One loop step appends exactly one call when the child meets the criterion and none otherwise |
| PartRegistry.RemovalStep | MekHQ/src/mekhq/campaign/parts/PodSpace.java:97-102 | Removing the next child from a unit that already lost the earlier ones is removing all of them at once |
| PartRegistry.ElemsPrefixStep | MekHQ/src/mekhq/campaign/parts/PodSpace.java:117-122 | Over distinct ids, each loop step adds a new id to the set of ids visited |
| PartRegistry.Repaired | MekHQ/src/mekhq/campaign/parts/PodSpace.java:117-122 | After fixing a set of ids, the registry holds the same parts, in the same places, and a part needs fixing iff it did before and was not fixed |
| PartRegistry.RepairedUndamaged | MekHQ/src/mekhq/campaign/parts/PodSpace.java:117-122 | Fixing parts of which none needs fixing changes nothing |
| PartRegistry.RepairedStep | MekHQ/src/mekhq/campaign/parts/PodSpace.java:117-122 | Fixing one more id updates only that part, and does nothing to an undamaged one |
| PartRegistry.Campaign.constructor | MekHQ/src/mekhq/campaign/parts/PodSpace.java:52 | A campaign with the given registry and no calls yet |
| PartRegistry.Unit.constructor | MekHQ/src/mekhq/campaign/parts/PodSpace.java:53 | A unit with the given parts, entity, damaged locations and site modifier |
| PartRegistry.RemovePart | MekHQ/src/mekhq/campaign/parts/PodSpace.java:100 | The assumed effect of a child's `remove(salvage)`: the id leaves the unit's part list, and the call is recorded |
| PartRegistry.FixPart | MekHQ/src/mekhq/campaign/parts/PodSpace.java:120 | The assumed effect of a child's `fix()`: only that part changes, and it no longer needs fixing; the call is recorded |
| PartRegistry.ReservationCall | MekHQ/src/mekhq/campaign/parts/PodSpace.java:352-361 | The assumed effect of a child's `reservePart` / `cancelReservation`: the call is recorded |
| ChildLoops.RemoveIfMeets | MekHQ/src/mekhq/campaign/parts/PodSpace.java:97-102 | One iteration of the removal loop keeps the loop's invariant: the unit has lost exactly the children so far that meet the criterion, and the trace holds their calls |
| ChildLoops.RemoveEach | MekHQ/src/mekhq/campaign/parts/PodSpace.java:97-102 | The removal loop removes from the unit exactly the children that meet the criterion and calls `remove` on each of them, in child order |
| ChildLoops.FixIfDamaged | MekHQ/src/mekhq/campaign/parts/PodSpace.java:117-122 | One iteration of the fixing loop keeps the loop's invariant: the children visited so far are fixed, and the damaged ones among them are called, in order |
| ChildLoops.FixEach | MekHQ/src/mekhq/campaign/parts/PodSpace.java:117-122 | The fixing loop fixes every child and calls `fix` on exactly the children that needed it, in child order |
| ChildLoops.NotifyIfRegistered | MekHQ/src/mekhq/campaign/parts/PodSpace.java:352-361 | One iteration of a reservation loop keeps its invariant: every resolvable child so far has been called, in order |
| ChildLoops.NotifyEach | MekHQ/src/mekhq/campaign/parts/PodSpace.java:352-361 | Every child that resolves to a part is called once, in child order; unresolved ids are skipped |
| PodSpaces.PodSpace.RemoveChildren | MekHQ/src/mekhq/campaign/parts/PodSpace.java:97-103 | One removal pass followed by a refresh: the unit loses exactly the children that meet the criterion, and the membership is up to date |
| PodSpaces.PodSpace.FixChildren | MekHQ/src/mekhq/campaign/parts/PodSpace.java:117-123 | The fixing pass over up-to-date children: exactly the children are repaired, only damaged ones are called, and the refreshed membership is unchanged |
| PodSpaces.PodSpace.Remove | MekHQ/src/mekhq/campaign/parts/PodSpace.java:95-104 | `remove(salvage)` is passed to every resolvable child in order, unresolved ids are skipped, and the membership is refreshed; no former child is still a child |
| PodSpaces.FixOutcome | MekHQ/src/mekhq/campaign/parts/PodSpace.java:107-124 | After both passes, the new children are the remaining unit's pods here and none needs fixing; on a settled pod space, the unit, the registry and the children are unchanged |
| PodSpaces.PodSpace.Fix | MekHQ/src/mekhq/campaign/parts/PodSpace.java:107-124 | Resets the threshold to green and the shorthanded modifier to 0; removes every damaged child, refreshes, fixes the damaged children that remain, and refreshes again; afterwards nothing needs fixing; it is idempotent on a settled pod space |
| PodSpaces.PodSpace.CheckFixable | MekHQ/src/mekhq/campaign/parts/PodSpace.java:132-147 | No reason when salvaging or when there is no unit; otherwise "breached" wins over "destroyed", and neither means no reason |
| PodSpaces.AnyDamaged | MekHQ/src/mekhq/campaign/parts/PodSpace.java:150-153 | True iff some child id resolves to a registered part that needs fixing; false for no children |
| PodSpaces.PodSpace.NeedsFixing | MekHQ/src/mekhq/campaign/parts/PodSpace.java:150-153 | True iff some child id resolves to a registered part that needs fixing; false with no children |
| PodSpaces.PodSpace.IsSalvaging | MekHQ/src/mekhq/campaign/parts/PodSpace.java:342-349 | Salvaging (REMOVE) and reconfiguring exclude each other, and an action that is neither is a replacement |
| PodSpaces.PodSpace.IsReconfiguring | MekHQ/src/mekhq/campaign/parts/PodSpace.java:347-349 | A reconfiguring action is neither a removal nor a replacement |
| PodSpaces.PodSpace.GetAllMods | MekHQ/src/mekhq/campaign/parts/PodSpace.java:155-184 | Starts with difficulty −2 and appends the unit's site modifiers; then adds −1 for easy maintenance, or else +1 for difficult; at most one quirk applies; the total stays within one of −2 plus the site modifier |
| TargetRolls.TargetRoll.Append | MekHQ/src/mekhq/campaign/parts/PodSpace.java:175 | Appending keeps the existing modifiers, adds the other roll's modifiers after them, and adds up the values |
| TargetRolls.TargetRoll.AddModifier | MekHQ/src/mekhq/campaign/parts/PodSpace.java:177-180 | Adding one modifier puts it last and adds its value |
| TargetRolls.NewRoll | MekHQ/src/mekhq/campaign/parts/PodSpace.java:173 | A new roll's value is its base value |
| TargetRolls.TotalConcat | MekHQ/src/mekhq/campaign/parts/PodSpace.java:175 | The total of two modifier lists joined is the sum of their totals |
| PodSpaces.PodSpace.Succeed | MekHQ/src/mekhq/campaign/parts/PodSpace.java:186-200 | In every mode, has exactly the effects of `fix()`: the two modifiers reset, the damaged children removed and the rest fixed, with the same calls, the same new part list, registry and children, nothing needing fixing afterwards, and no change on a settled pod space. The mode is kept and the report names its outcome |
| PodSpaces.PodSpace.Fail | MekHQ/src/mekhq/campaign/parts/PodSpace.java:202-208 | The threshold becomes `rating + 1` as a Java `int`; time and the shorthanded modifier restart; the mode, team and children are kept; the action shows as impossible iff `rating` is at least elite and below `Integer.MAX_VALUE` |
| PodSpaces.PodSpace.TimeLeft | MekHQ/src/mekhq/campaign/parts/PodSpace.java:225-238 | The time left is 30 minus the time spent, modulo 2^32, and exactly so when the difference does not overflow |
| PodSpaces.PodSpace.AddTimeSpent | MekHQ/src/mekhq/campaign/parts/PodSpace.java:240-243 | The time spent grows by `time` without a clamp, so the time left drops by exactly `time` (both as Java `int`s) |
| PodSpaces.PodSpace.ResetTimeSpent | MekHQ/src/mekhq/campaign/parts/PodSpace.java:245-248 | No time spent, and the whole 30 minutes left |
| PodSpaces.PodSpace.IsRightTechType | MekHQ/src/mekhq/campaign/parts/PodSpace.java:255-265 | True for exactly the one tech skill of a Mech, Aero or Tank chassis, and false for any skill on other entities |
| PodSpaces.PodSpace.ReservePart | MekHQ/src/mekhq/campaign/parts/PodSpace.java:351-355 | Every resolvable child is asked to reserve, in child order |
| PodSpaces.PodSpace.CancelReservation | MekHQ/src/mekhq/campaign/parts/PodSpace.java:357-361 | Every resolvable child is asked to cancel its reservation, in child order |
| PodSpaces.PodSpace.SetTeamId | MekHQ/src/mekhq/campaign/parts/PodSpace.java:272-275 | The team is set, and the time spent is kept |
| PodSpaces.PodSpace.SetWorkedOvertime | MekHQ/src/mekhq/campaign/parts/PodSpace.java:282-285 | The overtime flag is set |
| PodSpaces.PodSpace.ResetOvertime | MekHQ/src/mekhq/campaign/parts/PodSpace.java:250-253 | The overtime flag is cleared |
| PodSpaces.PodSpace.SetShorthandedMod | MekHQ/src/mekhq/campaign/parts/PodSpace.java:292-295 | The shorthanded modifier is set |
| JavaInt.Wrap | MekHQ/src/mekhq/campaign/parts/PodSpace.java:240-243 | Java `int` arithmetic: exact within range, and always congruent modulo 2^32 |
| JavaInt.WrapSubWrapped | MekHQ/src/mekhq/campaign/parts/PodSpace.java:237 | Subtracting a wrapped value wraps to the same result as subtracting the exact one |
| JavaInt.WrapAddWrapped | MekHQ/src/mekhq/campaign/parts/PodSpace.java:242 | Adding to a wrapped value wraps to the same result as adding to the exact one |
| TaskTable.Code | MekHQ/src/mekhq/gui/model/TaskTableModel.java:27-33 | Each state has a code from 0 to 4, and `StateOf` maps it back to that state |
| TaskTable.StateOf | MekHQ/src/mekhq/gui/model/TaskTableModel.java:27-33 | Exactly the codes from 0 to 4 name a state |
| TaskTable.Classify | MekHQ/src/mekhq/gui/model/TaskTableModel.java:88-120 | Salvage means AVAILABLE. Otherwise it is SCHEDULED iff there is a team; NOT_AVAILABLE iff unscheduled and a missing part without a replacement; BLOCKED iff otherwise available and the selected tech's roll is IMPOSSIBLE, AUTOMATIC_FAIL or CHECK_FALSE. Without a tech it is never BLOCKED, and it is never IN_TRANSIT |
| TaskTable.IconSuffix | MekHQ/src/mekhq/gui/model/TaskTableModel.java:122-139 | The suffix is empty iff AVAILABLE or SCHEDULED; each other state has a suffix of its own, which `FlaggedState` maps back |
| TaskTable.FlaggedState | MekHQ/src/mekhq/gui/model/TaskTableModel.java:122-139 | A suffix flags only BLOCKED, IN_TRANSIT or NOT_AVAILABLE |
| TaskTable.BlockedIconIffHopeless | MekHQ/src/mekhq/gui/model/TaskTableModel.java:108-139 | For an unscheduled, non-salvage task with stock, the icon is the `_impossible` one iff the roll is hopeless |
| TaskTable.ClassifyShortCircuits | MekHQ/src/mekhq/gui/model/TaskTableModel.java:90-92 | Salvage and scheduling decide the state alone: the stock and the roll make no difference |
| TaskTable.GetTasksAt | MekHQ/src/mekhq/gui/model/TaskTableModel.java:50-57 | With every row in range, a new array of the same length holding `data[rows[i]]` at `i`; otherwise the failure names the first row out of range |
| LogEntries.LogEntry.constructor | MekHQ/src/mekhq/campaign/LogEntry.java:53-57 | Keeps the date and type, and stores a null description as "" |
| LogEntries.LogEntry.Untyped | MekHQ/src/mekhq/campaign/LogEntry.java:49-51 | The same with no type |
| LogEntries.LogEntry.SetDate | MekHQ/src/mekhq/campaign/LogEntry.java:67-69 | Only the date changes |
| LogEntries.LogEntry.SetDesc | MekHQ/src/mekhq/campaign/LogEntry.java:75-77 | Only the description changes, and null becomes "" |
| LogEntries.LogEntry.SetType | MekHQ/src/mekhq/campaign/LogEntry.java:83-85 | Only the type changes |
| LogEntries.LogEntry.ToString | MekHQ/src/mekhq/campaign/LogEntry.java:133-140 | The text is "[date] " only when there is a date, then the description, then " (type)" only when there is a type |
| LogEntries.ToStringDescInjective | MekHQ/src/mekhq/campaign/LogEntry.java:133-140 | For the same date and type, two entries print the same iff their descriptions are equal |
| LogEntries.LogEntry.Clone | MekHQ/src/mekhq/campaign/LogEntry.java:142-145 | A new entry with the same fields, equal to the original both ways |
| LogEntries.LogEntry.Equals | MekHQ/src/mekhq/campaign/LogEntry.java:152-161 | Reflexive; true iff the other entry is non-null and date, description and type are equal (null-safe) |
| LogEntries.EqualsIsEquivalence | MekHQ/src/mekhq/campaign/LogEntry.java:152-161 | Equality is symmetric and transitive |
| LogEntries.LogEntry.HashCode | MekHQ/src/mekhq/campaign/LogEntry.java:147-150 | `Objects.hash(date, desc, type)`: 31-polynomial over the three field hashes with seed 1, null counting 0, as a Java `int` |
| LogEntries.EqualEntriesHashEqually | MekHQ/src/mekhq/campaign/LogEntry.java:147-161 | Equal entries have equal hashes |
| JavaHash.PolyHash | MekHQ/src/mekhq/campaign/LogEntry.java:149 | The folded `31 * h + x` hash is the exact polynomial value, wrapped once to a Java `int` |
| JavaHash.StringHash | MekHQ/src/mekhq/campaign/LogEntry.java:149 | `String.hashCode`: the polynomial over the character codes; 0 for "" |
| JavaHash.Hash3 | MekHQ/src/mekhq/campaign/LogEntry.java:149 | The hash of three values is `31^3 + 31^2 a + 31 b + c`, wrapped |
| JavaHash.WeightedSumSnoc | MekHQ/src/mekhq/campaign/LogEntry.java:149 | Appending one value multiplies the polynomial by 31 and adds the value |
| JavaHash.ExactSnoc | MekHQ/src/mekhq/campaign/LogEntry.java:149 | The same with a seed |
| JavaInt.WrapMulAddWrapped | MekHQ/src/mekhq/campaign/LogEntry.java:149 | Wrapping between the steps of `31 * h + x` does not change the result |
| LogEntries.MedSpellings | MekHQ/src/mekhq/campaign/LogEntry.java:164 | `equalsIgnoreCase("med")` holds of exactly the eight spellings of "med" |
| LogEntries.EnsureBackwardCompatibility | MekHQ/src/mekhq/campaign/LogEntry.java:163-167 | "med" in any letter case becomes "MEDICAL"; every other name is returned unchanged |
| LogEntries.EnsureBackwardCompatibilityIdempotent | MekHQ/src/mekhq/campaign/LogEntry.java:163-167 | Mapping twice is mapping once |

## Left out

- `MekHQ/src/mekhq/campaign/log/ServiceLogger.java` is not part of this model. It is resource-bundle text and message formatting.
- The XML parts of `LogEntry` are not modelled: `writeToXml` and `generateInstanceFromXML`. They depend on DOM nodes, escaping, date parsing and a log controller. `ensureBackwardCompatibility`, which the XML reader uses, is modelled.
- Display text is not modelled:
  - `PodSpace.getDesc`, `getDetails`, `getPartName` and `getLocationName` are not modelled. Only the "Impossible" threshold (`skillMin > EXP_ELITE`) is kept, as `ShownImpossible`.
  - The location name in `checkFixable`'s message is left out. The reason is the `Blocker` value.
  - The Swing rendering of the task list is left out: text, borders and image loading.
- `getBaseTime`/`getActualTime` and `getDifficulty` are the constants `BASE_TIME` and `DIFFICULTY`, and the plain getters are fields. `getMassRepairOptionType`, `getRepairPartType`, `getMissingPart` (always null), `getAllModsForMaintenance` (always null) and `updateConditionFromPart` (empty) are not modelled: they return fixed values or do nothing, and nothing in the model uses them.
- The no-argument `PodSpace()` constructor is not modelled. It passes a null unit to the two-argument constructor, which dereferences it. The model's pod space always has a unit.
- PodSpaces.PodSpace.Fix: under the assumed child `remove`, which takes the id off the unit, the second pass of `fix()` repairs only damaged children that the first pass did not reach. These are parts the stale child list missed. When the child list was up to date, the second pass fixes nothing. In MekHQ, the second pass repairs the placeholder parts that the first pass leaves in place of the removed ones. That `fix()` leaves nothing needing fixing rests on the two assumed child effects. The same holds for `PodSpaces.PodSpace.Succeed`.
- Part.remove, Part.fix, Part.needsFixing, Part.reservePart and Part.cancelReservation are foreign code. Only their assumed effects are modelled:
  - remove detaches the id from the unit;
  - fix clears the damage flag;
  - every call is recorded.
  Anything else they do (a missing-part placeholder, inventory changes) is not captured.
- The unit's part list and the campaign registry are values inside the `Unit` and `Campaign` classes. The id lookup `campaign.getPart(id)` is a map lookup, and an id missing from the map stands for a null part.
- `getAllMods` ignores its `tech` argument in the source, so the model has no such parameter. `TargetRoll`'s sentinel behaviour (an impossible modifier absorbing the rest) is not modelled. A roll is its list of modifiers and their sum.
- `campaign.getTargetFor(part, tech)` is an input to the classifier, as the roll value when a tech is selected. The constants IMPOSSIBLE (`Integer.MAX_VALUE`), AUTOMATIC_FAIL (`Integer.MAX_VALUE - 1`) and CHECK_FALSE (`Integer.MIN_VALUE + 1`) come from MegaMek's `TargetRoll`, which is not part of this model. The same holds for `SkillType`'s levels (green 1, elite 4) and tech skill names.
- `LogEntries.LogEntry.Equals` does not model the `getClass()` comparison. The model has no subclasses of `LogEntry`.
- `LogEntries.LogEntry.HashCode` takes the identity hash of the type enum as a parameter.
- `LogEntries.DateHash` has no contract. The model does not state the bit-level `Date.hashCode` formula as a property.
- `LogEntries.LogEntry.ToString` takes the date format as a parameter.
- `LogEntries.EqualsIgnoreCase` folds only ASCII letters. Java's `equalsIgnoreCase` also folds other letters, but no other letter can match "med".
- Strings are sequences of Dafny characters, not of UTF-16 code units, so `String.hashCode` is modelled over character codes.
- The `mode` field is never changed by `PodSpace` itself: no method here sets it.
