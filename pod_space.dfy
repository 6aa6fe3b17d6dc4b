/** A pod space: all the pod-mounted equipment in one location of an omni
    unit, grouped as the recipient of a single tech action (replace, remove
    or reconfigure the pods). The pod space holds no part itself: its
    children are the ids of the unit's omni-podded parts at its location,
    recomputed from the unit's part list. */
module PodSpaces {
  import opened Base
  import opened JavaInt
  import opened TargetRolls
  import opened PartRegistry
  import opened ChildLoops

  datatype Mode = Replace | Remove | Reconfigure

  /** `SkillType.EXP_GREEN` and `SkillType.EXP_ELITE`, the experience levels. */
  const EXP_GREEN: int32 := 1
  const EXP_ELITE: int32 := 4

  /** `getBaseTime()`: minutes a pod-space action takes. */
  const BASE_TIME: int32 := 30
  /** `getDifficulty()`: the pod space's own difficulty, whatever its children. */
  const DIFFICULTY: int := -2

  /** The tech skills of `SkillType`. */
  const S_TECH_MECH: string := "Tech/Mech"
  const S_TECH_AERO: string := "Tech/Aero"
  const S_TECH_MECHANIC: string := "Tech/Mechanic"

  const EASY_MAINTAIN: string := "easy_maintain"
  const DIFFICULT_MAINTAIN: string := "difficult_maintain"

  /** Why `checkFixable` refuses the action; the message names the location
      and says it "is breached." or "is destroyed.". */
  datatype Blocker = LocationBreached | LocationDestroyed

  /** The stream `anyMatch` of `needsFixing`: does some id of `ids` resolve to
      a registered part that needs fixing? */
  function AnyDamaged(ids: seq<int>, parts: map<int, PartRec>): (b: bool)
    ensures b <==> exists id :: id in ids && id in parts && parts[id].needsFixing
    ensures ids == [] ==> !b
  {
    if ids == [] then false
    else
      assert forall id :: id in ids <==> id == ids[0] || id in ids[1..];
      (ids[0] in parts && parts[ids[0]].needsFixing) || AnyDamaged(ids[1..], parts)
  }

  /** The one tech skill that may work on a chassis, if any. */
  function RequiredTechSkill(chassis: Chassis): Option<string> {
    match chassis
    case MechChassis => Some(S_TECH_MECH)
    case AeroChassis => Some(S_TECH_AERO)
    case TankChassis => Some(S_TECH_MECHANIC)
    case OtherChassis => None
  }

  /** The report `succeed()` returns for each mode. */
  function SuccessMessage(mode: Mode): string {
    match mode
    case Replace => " <font color='green'><b> fixed.</b></font>"
    case Remove => " <font color='green'><b> removed.</b></font>"
    case Reconfigure => " <font color='green'><b> reconfigured.</b></font>"
  }

  const FAILURE_MESSAGE: string := " <font color='red'><b> failed.</b></font>"

  /** What `fix()` leaves behind, on values: with `ids` the unit's parts,
      `parts` the registry and `kids` the children before the call, the
      first pass leaves the unit `rest`, whose pod-mounted parts at `loc`
      are the new children; fixing those keeps them the children, and none
      of them needs fixing any more. A settled pod space (its children are
      up to date and none needs fixing) is left exactly as it was. */
  lemma FixOutcome(ids: seq<int>, parts: map<int, PartRec>, kids: seq<int>, loc: int)
    ensures var rest := Select(ids, parts, Absent(Picked(kids, parts, Damaged)));
            var kids' := Select(rest, parts, PodMountedAt(loc));
            var parts' := Repaired(parts, Elems(kids'));
            && Select(rest, parts', PodMountedAt(loc)) == kids'
            && !AnyDamaged(kids', parts')
            && (kids == Select(ids, parts, PodMountedAt(loc)) && !AnyDamaged(kids, parts) ==>
                  rest == ids && kids' == kids && parts' == parts)
  {
    var rest := Select(ids, parts, Absent(Picked(kids, parts, Damaged)));
    var kids' := Select(rest, parts, PodMountedAt(loc));
    var parts' := Repaired(parts, Elems(kids'));
    SelectSame(rest, parts', PodMountedAt(loc), parts, PodMountedAt(loc));
    assert forall id :: id in kids' ==> id in Elems(kids');
    if kids == Select(ids, parts, PodMountedAt(loc)) && !AnyDamaged(kids, parts) {
      assert Picked(kids, parts, Damaged) == {};
      SelectAbsentNone(ids, parts);
      RepairedUndamaged(parts, Elems(kids'));
    }
  }

  class PodSpace {
    const campaign: Campaign
    /** Possibly null, as in the source, whose `checkFixable` and
        `getAllMods` guard against a null unit. The one constructor modelled
        here always sets a unit, so those guards only matter to a pod space
        built otherwise (the no-argument constructor fails before that). */
    const unit: Unit?
    const location: int
    /** Ids of the pod-mounted parts in the location, as of the last refresh. */
    var childPartIds: seq<int>
    var mode: Mode
    var teamId: Option<Uuid>
    var timeSpent: int32
    var skillMin: int32
    var workingOvertime: bool
    var shorthandedMod: int32

    /** The pod space belongs to a unit of its campaign, whose parts are
        distinct registered parts. */
    ghost predicate Valid()
      reads unit, campaign
    {
      unit != null && unit.campaign == campaign && unit.Valid()
    }

    /** `PodSpace(location, unit)`: the campaign is the unit's; no child is
        known until the first refresh. */
    constructor (location: int, unit: Unit)
      requires unit.Valid()
      ensures Valid() && this.location == location && this.unit == unit && campaign == unit.campaign
      ensures childPartIds == [] && mode == Replace && teamId == None
      ensures timeSpent == 0 && skillMin == EXP_GREEN && !workingOvertime && shorthandedMod == 0
    {
      this.location := location;
      this.unit := unit;
      this.campaign := unit.campaign;
      childPartIds := [];
      mode := Replace;
      teamId := None;
      timeSpent := 0;
      skillMin := EXP_GREEN;
      workingOvertime := false;
      shorthandedMod := 0;
    }

    /** Membership refresh: the children become exactly the unit's parts
        that are omni-podded at this location, in the unit's order. */
    method UpdateConditionFromEntity(checkForDestruction: bool)
      requires Valid()
      modifies this`childPartIds
      ensures Valid()
      ensures childPartIds == Select(unit.partIds, campaign.parts, PodMountedAt(location))
      ensures Distinct(childPartIds)
    {
      childPartIds := [];
      var i := 0;
      while i < |unit.partIds|
        invariant 0 <= i <= |unit.partIds|
        invariant childPartIds == Select(unit.partIds[..i], campaign.parts, PodMountedAt(location))
      {
        var id := unit.partIds[i];
        var part := campaign.parts[id];
        SelectPrefixStep(unit.partIds, i, campaign.parts, PodMountedAt(location));
        if part.omniPodded && part.location == location {
          childPartIds := childPartIds + [id];
        }
        i := i + 1;
      }
      assert unit.partIds[..i] == unit.partIds;
      SelectDistinct(unit.partIds, campaign.parts, PodMountedAt(location));
    }

    /** A pass of `remove(salvage)` or the first pass of `fix()`: every
        child that meets `c` is removed from the unit (with `salvage` passed
        on), and the membership is refreshed. */
    method RemoveChildren(c: Criterion, salvage: bool)
      requires Valid() && (c == Registered || c == Damaged)
      modifies this`childPartIds, unit`partIds, campaign`trace
      ensures Valid()
      ensures unit.partIds == Select(old(unit.partIds), campaign.parts, Absent(Picked(old(childPartIds), campaign.parts, c)))
      ensures campaign.trace == old(campaign.trace) + CallsOn(RemoveOp(salvage), Select(old(childPartIds), campaign.parts, c))
      ensures childPartIds == Select(unit.partIds, campaign.parts, PodMountedAt(location))
    {
      RemoveEach(unit, childPartIds, c, salvage);
      UpdateConditionFromEntity(false);
    }

    /** The second pass of `fix()`: every up-to-date child that needs fixing
        is fixed, and the membership, refreshed, stays the same. */
    method FixChildren()
      requires Valid() && childPartIds == Select(unit.partIds, campaign.parts, PodMountedAt(location))
      modifies this`childPartIds, campaign`parts, campaign`trace
      ensures Valid()
      ensures campaign.parts == Repaired(old(campaign.parts), Elems(childPartIds))
      ensures campaign.trace == old(campaign.trace) + CallsOn(FixOp, Select(childPartIds, old(campaign.parts), Damaged))
      ensures childPartIds == old(childPartIds) == Select(unit.partIds, campaign.parts, PodMountedAt(location))
    {
      ghost var parts0 := campaign.parts;
      SelectSubset(unit.partIds, campaign.parts, PodMountedAt(location));
      SelectDistinct(unit.partIds, campaign.parts, PodMountedAt(location));
      FixEach(campaign, childPartIds);
      SelectSame(unit.partIds, campaign.parts, PodMountedAt(location), parts0, PodMountedAt(location));
      UpdateConditionFromEntity(false);
    }

    /** `remove(salvage)`: every child that resolves to a part is removed
        from the unit (with `salvage` passed on), unresolved ids are skipped,
        and the membership is refreshed; no former child is a child any
        more. */
    method Remove(salvage: bool)
      requires Valid()
      modifies this`childPartIds, unit`partIds, campaign`trace
      ensures Valid()
      ensures unit.partIds == Select(old(unit.partIds), campaign.parts, Absent(Picked(old(childPartIds), campaign.parts, Registered)))
      ensures campaign.trace == old(campaign.trace) + CallsOn(RemoveOp(salvage), Select(old(childPartIds), campaign.parts, Registered))
      ensures childPartIds == Select(unit.partIds, campaign.parts, PodMountedAt(location))
      ensures forall id :: id in old(childPartIds) ==> id !in childPartIds
    {
      var ids := childPartIds;
      RemoveChildren(Registered, salvage);
      SelectSubset(unit.partIds, campaign.parts, PodMountedAt(location));
      forall id | id in ids ensures id !in childPartIds {
        if id in campaign.parts {
          SelectMembers(old(unit.partIds), campaign.parts, Absent(Picked(ids, campaign.parts, Registered)), id);
        }
      }
    }

    /** `fix()`: resets the skill and shorthanded modifiers, removes (for
        salvage) every child that needs fixing, refreshes, fixes every
        remaining child that needs fixing, and refreshes again. Afterwards no
        child needs fixing; on a settled pod space (children up to date, none
        needing fixing) it changes nothing but the two modifiers. */
    method Fix()
      requires Valid()
      modifies this`skillMin, this`shorthandedMod, this`childPartIds, unit`partIds, campaign`parts, campaign`trace
      ensures Valid()
      ensures skillMin == EXP_GREEN && shorthandedMod == 0 && !ShownImpossible()
      ensures unit.partIds == Select(old(unit.partIds), old(campaign.parts), Absent(Picked(old(childPartIds), old(campaign.parts), Damaged)))
      ensures childPartIds == Select(unit.partIds, campaign.parts, PodMountedAt(location))
      ensures campaign.parts == Repaired(old(campaign.parts), Elems(childPartIds))
      ensures campaign.trace == old(campaign.trace)
                                + CallsOn(RemoveOp(true), Select(old(childPartIds), old(campaign.parts), Damaged))
                                + CallsOn(FixOp, Select(childPartIds, old(campaign.parts), Damaged))
      ensures !NeedsFixing()
      ensures old(childPartIds == Select(unit.partIds, campaign.parts, PodMountedAt(location)) && !NeedsFixing()) ==>
                unit.partIds == old(unit.partIds) && campaign.parts == old(campaign.parts) && childPartIds == old(childPartIds)
    {
      skillMin := EXP_GREEN;
      shorthandedMod := 0;
      FixOutcome(unit.partIds, campaign.parts, childPartIds, location);
      RemoveChildren(Damaged, true);
      FixChildren();
    }

    /** `checkFixable()`: salvaging (REMOVE) is never blocked; otherwise a
        breached location blocks before a destroyed one, and a missing unit
        blocks nothing. */
    function CheckFixable(): (r: Option<Blocker>)
      reads this, unit
      ensures mode == Mode.Remove ==> r == None
      ensures unit == null ==> r == None
      ensures r == Some(LocationBreached) <==> mode != Mode.Remove && unit != null && location in unit.breached
      ensures r == Some(LocationDestroyed) <==>
                mode != Mode.Remove && unit != null && location !in unit.breached && location in unit.destroyed
    {
      if IsSalvaging() then None
      else if unit != null then
        if location in unit.breached then Some(LocationBreached)
        else if location in unit.destroyed then Some(LocationDestroyed)
        else None
      else None
    }

    /** `needsFixing()`: some child resolves to a part that needs fixing. */
    function NeedsFixing(): (b: bool)
      reads this, campaign
      ensures b <==> exists id :: id in childPartIds && id in campaign.parts && campaign.parts[id].needsFixing
      ensures childPartIds == [] ==> !b
    {
      AnyDamaged(childPartIds, campaign.parts)
    }

    /** `getAllMods(tech)`: the difficulty, then the unit's site modifier, then
        at most one maintenance quirk, "easy to maintain" winning over
        "difficult to maintain". The tech is not consulted. */
    function GetAllMods(): (roll: TargetRoll)
      reads this, unit
      ensures |roll.mods| >= 1 && roll.mods[0] == Modifier(DIFFICULTY, "difficulty")
      ensures unit == null ==> roll.mods == [Modifier(DIFFICULTY, "difficulty")]
      ensures unit != null ==>
                && |roll.mods| == 1 + |unit.siteMod.mods| + (if unit.entity.HasQuirk(EASY_MAINTAIN) || unit.entity.HasQuirk(DIFFICULT_MAINTAIN) then 1 else 0)
                && roll.mods[1..1 + |unit.siteMod.mods|] == unit.siteMod.mods
                && DIFFICULTY - 1 <= roll.Value() - unit.siteMod.Value() <= DIFFICULTY + 1
      ensures unit != null && unit.entity.HasQuirk(EASY_MAINTAIN) ==>
                roll.mods[|roll.mods| - 1] == Modifier(-1, "easy to maintain")
      ensures unit != null && !unit.entity.HasQuirk(EASY_MAINTAIN) && unit.entity.HasQuirk(DIFFICULT_MAINTAIN) ==>
                roll.mods[|roll.mods| - 1] == Modifier(1, "difficult to maintain")
    {
      var mods := NewRoll(DIFFICULTY, "difficulty");
      if unit == null then mods
      else
        var withSite := mods.Append(unit.siteMod);
        if unit.entity.HasQuirk(EASY_MAINTAIN) then withSite.AddModifier(-1, "easy to maintain")
        else if unit.entity.HasQuirk(DIFFICULT_MAINTAIN) then withSite.AddModifier(1, "difficult to maintain")
        else withSite
    }

    /** `succeed()`: in every mode, `fix()` with all its effects, then the
        report of the mode's outcome. */
    method Succeed() returns (msg: string)
      requires Valid()
      modifies this`skillMin, this`shorthandedMod, this`childPartIds, unit`partIds, campaign`parts, campaign`trace
      ensures Valid() && !NeedsFixing()
      ensures skillMin == EXP_GREEN && shorthandedMod == 0
      ensures unit.partIds == Select(old(unit.partIds), old(campaign.parts), Absent(Picked(old(childPartIds), old(campaign.parts), Damaged)))
      ensures childPartIds == Select(unit.partIds, campaign.parts, PodMountedAt(location))
      ensures campaign.parts == Repaired(old(campaign.parts), Elems(childPartIds))
      ensures campaign.trace == old(campaign.trace)
                                + CallsOn(RemoveOp(true), Select(old(childPartIds), old(campaign.parts), Damaged))
                                + CallsOn(FixOp, Select(childPartIds, old(campaign.parts), Damaged))
      ensures old(childPartIds == Select(unit.partIds, campaign.parts, PodMountedAt(location)) && !NeedsFixing()) ==>
                unit.partIds == old(unit.partIds) && campaign.parts == old(campaign.parts) && childPartIds == old(childPartIds)
      ensures mode == old(mode) && msg == SuccessMessage(mode)
    {
      // Every branch of the source's switch calls `fix()`; only the report differs.
      Fix();
      msg := SuccessMessage(mode);
    }

    /** `fail(rating)`: the next attempt needs experience `rating + 1` (a Java
        `int` increment), and time and the shorthanded modifier start over;
        mode, team and children are kept. */
    method Fail(rating: int32) returns (msg: string)
      modifies this`skillMin, this`timeSpent, this`shorthandedMod
      ensures skillMin == Wrap(rating as int + 1)
      ensures rating as int < MAX_INT ==> skillMin as int == rating as int + 1
      ensures ShownImpossible() <==> EXP_ELITE <= rating < MAX_INT as int32
      ensures timeSpent == 0 && shorthandedMod == 0 && TimeLeft() == BASE_TIME
      ensures mode == old(mode) && teamId == old(teamId) && childPartIds == old(childPartIds)
      ensures msg == FAILURE_MESSAGE
    {
      skillMin := Wrap(rating as int + 1);
      timeSpent := 0;
      shorthandedMod := 0;
      msg := FAILURE_MESSAGE;
    }

    /** `getTimeLeft()`: the actual time (the base time, 30) less the time
        spent, as a Java `int`: exact unless it overflows, and always equal
        modulo 2^32. */
    function TimeLeft(): (r: int32)
      reads this
      ensures (r as int + timeSpent as int - BASE_TIME as int) % TWO_32 == 0
      ensures BASE_TIME as int - MAX_INT <= timeSpent as int ==> r as int == BASE_TIME as int - timeSpent as int
    {
      var r := Wrap(BASE_TIME as int - timeSpent as int);
      var k := (BASE_TIME as int - timeSpent as int - r as int) / TWO_32;
      assert r as int + timeSpent as int - BASE_TIME as int == TWO_32 * -k;
      r
    }

    /** `addTimeSpent(time)`: adds without any clamp (a Java `int` sum), so
        the time left drops by exactly `time`. */
    method AddTimeSpent(time: int32)
      modifies this`timeSpent
      ensures timeSpent == Wrap(old(timeSpent) as int + time as int)
      ensures TimeLeft() == Wrap(old(TimeLeft()) as int - time as int)
    {
      var spent := timeSpent as int + time as int;
      WrapSubWrapped(BASE_TIME as int, spent);
      WrapAddWrapped(BASE_TIME as int - timeSpent as int, -(time as int));
      assert Wrap(old(TimeLeft()) as int - time as int) == Wrap(BASE_TIME as int - spent);
      timeSpent := Wrap(spent);
    }

    /** `resetTimeSpent()`. */
    method ResetTimeSpent()
      modifies this`timeSpent
      ensures timeSpent == 0 && TimeLeft() == BASE_TIME
    {
      timeSpent := 0;
    }

    /** `isRightTechType(skillType)`: exactly the one tech skill of the
        entity's chassis class qualifies; no skill does for other entities. */
    function IsRightTechType(skillType: string): (r: bool)
      requires unit != null
      reads this, unit
      ensures r <==> RequiredTechSkill(unit.entity.chassis) == Some(skillType)
    {
      match unit.entity.chassis
      case MechChassis => skillType == S_TECH_MECH
      case AeroChassis => skillType == S_TECH_AERO
      case TankChassis => skillType == S_TECH_MECHANIC
      case OtherChassis => false
    }

    /** The task list shows the action as "Impossible" once the experience
        it needs is above elite. */
    predicate ShownImpossible()
      reads this
    {
      skillMin > EXP_ELITE
    }

    /** `isSalvaging()`: the action removes the pods. */
    predicate IsSalvaging(): (r: bool)
      reads this
      ensures r ==> !IsReconfiguring()
      ensures !r && !IsReconfiguring() ==> mode == Replace
    {
      mode == Mode.Remove
    }

    /** `isReconfiguring()`. */
    predicate IsReconfiguring(): (r: bool)
      reads this
      ensures r ==> mode != Mode.Remove && mode != Replace
    {
      mode == Reconfigure
    }

    /** `reservePart()`: every child that resolves to a part is asked to
        reserve its replacement, in child order. */
    method ReservePart()
      modifies campaign`trace
      ensures campaign.trace == old(campaign.trace) + CallsOn(ReserveOp, Select(childPartIds, campaign.parts, Registered))
    {
      NotifyEach(campaign, childPartIds, ReserveOp);
    }

    /** `cancelReservation()`: the same, cancelling. */
    method CancelReservation()
      modifies campaign`trace
      ensures campaign.trace == old(campaign.trace) + CallsOn(CancelReservationOp, Select(childPartIds, campaign.parts, Registered))
    {
      NotifyEach(campaign, childPartIds, CancelReservationOp);
    }

    /** `setTeamId(id)`: schedules (or, with null, unschedules) the action;
        time spent is kept. */
    method SetTeamId(id: Option<Uuid>)
      modifies this`teamId
      ensures teamId == id && timeSpent == old(timeSpent)
    {
      teamId := id;
    }

    /** `setWorkedOvertime(b)`. */
    method SetWorkedOvertime(b: bool)
      modifies this`workingOvertime
      ensures workingOvertime == b
    {
      workingOvertime := b;
    }

    /** `resetOvertime()`. */
    method ResetOvertime()
      modifies this`workingOvertime
      ensures !workingOvertime
    {
      workingOvertime := false;
    }

    /** `setShorthandedMod(i)`. */
    method SetShorthandedMod(i: int32)
      modifies this`shorthandedMod
      ensures shorthandedMod == i
    {
      shorthandedMod := i;
    }
  }
}
