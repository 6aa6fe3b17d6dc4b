/** The world a pod space works in: the campaign's registry of parts (looked up
    by integer id, `Campaign.getPart`), the unit whose part list names those
    parts, and the operations on a single part that the pod space delegates
    to. `Part`, `Unit` and `Campaign` are foreign classes; this module keeps
    of them only what the pod space reads and writes. */
module PartRegistry {
  import opened TargetRolls

  /** What the pod space reads of one part: `isOmniPodded()`, `getLocation()`
      and `needsFixing()`. */
  datatype PartRec = PartRec(omniPodded: bool, location: int, needsFixing: bool)

  /** The operation a pod space asks of one child part. */
  datatype PartOp = RemoveOp(salvage: bool) | FixOp | ReserveOp | CancelReservationOp

  /** One call `part.<op>()` made on the part with id `id`. */
  datatype PartCall = PartCall(op: PartOp, id: int)

  /** The entity's chassis class, as `instanceof Mech / Aero / Tank` tells it. */
  datatype Chassis = MechChassis | AeroChassis | TankChassis | OtherChassis

  /** What the pod space reads of the unit's entity. */
  datatype Entity = Entity(chassis: Chassis, quirks: set<string>) {
    predicate HasQuirk(quirk: string) {
      quirk in quirks
    }
  }

  /** Which part ids a filter over a part list keeps. */
  datatype Criterion =
    | PodMountedAt(location: int)   // registered, omni-podded, mounted at `location`
    | Registered                    // `campaign.getPart(id) != null`
    | Damaged                       // registered and `needsFixing()`
    | Absent(gone: set<int>)        // not one of `gone`

  predicate Meets(c: Criterion, parts: map<int, PartRec>, id: int) {
    match c
    case PodMountedAt(loc) => id in parts && parts[id].omniPodded && parts[id].location == loc
    case Registered => id in parts
    case Damaged => id in parts && parts[id].needsFixing
    case Absent(gone) => id !in gone
  }

  /** The ids of `ids` that meet `c`, in their order in `ids`. */
  function Select(ids: seq<int>, parts: map<int, PartRec>, c: Criterion): (r: seq<int>)
    ensures |r| <= |ids|
  {
    if ids == [] then []
    else
      var last := ids[|ids| - 1];
      Select(ids[..|ids| - 1], parts, c) + (if Meets(c, parts, last) then [last] else [])
  }

  /** The calls `part.<op>()` made on each id of `ids`, in order. */
  function CallsOn(op: PartOp, ids: seq<int>): (r: seq<PartCall>)
    ensures |r| == |ids|
  {
    if ids == [] then [] else CallsOn(op, ids[..|ids| - 1]) + [PartCall(op, ids[|ids| - 1])]
  }

  /** One more id, one more call at the end. */
  lemma CallsOnSnoc(op: PartOp, ids: seq<int>, id: int)
    ensures CallsOn(op, ids + [id]) == CallsOn(op, ids) + [PartCall(op, id)]
  {
    assert (ids + [id])[..|ids|] == ids;
  }

  /** `parts` with `needsFixing` cleared on every id of `fixed`. */
  function Repaired(parts: map<int, PartRec>, fixed: set<int>): (r: map<int, PartRec>)
    ensures r.Keys == parts.Keys
    ensures forall id :: id in r ==> r[id].omniPodded == parts[id].omniPodded && r[id].location == parts[id].location
    ensures forall id :: id in r ==> r[id].needsFixing == (parts[id].needsFixing && id !in fixed)
  {
    map id | id in parts :: if id in fixed then parts[id].(needsFixing := false) else parts[id]
  }

  /** The ids of `ids`, as a set. */
  function Elems(ids: seq<int>): set<int> {
    set id | id in ids
  }

  /** The ids of `ids` that meet `c`, as a set. */
  function Picked(ids: seq<int>, parts: map<int, PartRec>, c: Criterion): set<int> {
    set id | id in ids && Meets(c, parts, id)
  }

  ghost predicate Distinct(s: seq<int>) {
    forall i, j :: 0 <= i < j < |s| ==> s[i] != s[j]
  }

  /** An id is selected exactly when it is in the list and meets the criterion. */
  lemma {:induction false} SelectMembers(ids: seq<int>, parts: map<int, PartRec>, c: Criterion, id: int)
    ensures id in Select(ids, parts, c) <==> id in ids && Meets(c, parts, id)
  {
    if ids != [] {
      var init := ids[..|ids| - 1];
      SelectMembers(init, parts, c, id);
      assert ids == init + [ids[|ids| - 1]];
    }
  }

  /** Every selected id comes from the list. */
  lemma SelectSubset(ids: seq<int>, parts: map<int, PartRec>, c: Criterion)
    ensures forall id :: id in Select(ids, parts, c) ==> id in ids && Meets(c, parts, id)
  {
    forall id | id in Select(ids, parts, c) ensures id in ids && Meets(c, parts, id) {
      SelectMembers(ids, parts, c, id);
    }
  }

  /** One more id at the end is selected or not by itself. */
  lemma SelectSnoc(ids: seq<int>, parts: map<int, PartRec>, c: Criterion, id: int)
    ensures Select(ids + [id], parts, c) == Select(ids, parts, c) + (if Meets(c, parts, id) then [id] else [])
  {
    assert (ids + [id])[..|ids|] == ids;
  }

  /** The same for the set of picked ids. */
  lemma PickedSnoc(ids: seq<int>, parts: map<int, PartRec>, c: Criterion, id: int)
    ensures Picked(ids + [id], parts, c) == Picked(ids, parts, c) + (if Meets(c, parts, id) then {id} else {})
  {
  }

  /** Extending a prefix of `ids` by its next id extends what is selected
      and what is picked by that id exactly when it meets `c`. */
  lemma SelectPrefixStep(ids: seq<int>, i: nat, parts: map<int, PartRec>, c: Criterion)
    requires i < |ids|
    ensures Select(ids[..i + 1], parts, c) == Select(ids[..i], parts, c) + (if Meets(c, parts, ids[i]) then [ids[i]] else [])
    ensures Picked(ids[..i + 1], parts, c) == Picked(ids[..i], parts, c) + (if Meets(c, parts, ids[i]) then {ids[i]} else {})
  {
    assert ids[..i + 1] == ids[..i] + [ids[i]];
    SelectSnoc(ids[..i], parts, c, ids[i]);
    PickedSnoc(ids[..i], parts, c, ids[i]);
  }

  /** In a list without repetitions, the next id is new to the prefix
      before it. */
  lemma ElemsPrefixStep(ids: seq<int>, i: nat)
    requires i < |ids| && Distinct(ids)
    ensures Elems(ids[..i + 1]) == Elems(ids[..i]) + {ids[i]}
    ensures ids[i] !in Elems(ids[..i])
  {
    assert ids[..i + 1] == ids[..i] + [ids[i]];
  }

  /** One step of a loop that makes the call `op` on each id of `ids`
      meeting `c`, after the calls `t0`: when `ids[i]` meets `c`, the ids
      selected and the calls made extend by it; otherwise neither changes. */
  lemma CallStep(ids: seq<int>, i: nat, parts: map<int, PartRec>, c: Criterion, op: PartOp, t0: seq<PartCall>, sel: seq<int>)
    requires i < |ids| && sel == Select(ids[..i], parts, c)
    ensures Meets(c, parts, ids[i]) ==>
              && Select(ids[..i + 1], parts, c) == sel + [ids[i]]
              && t0 + CallsOn(op, sel) + [PartCall(op, ids[i])] == t0 + CallsOn(op, sel + [ids[i]])
    ensures !Meets(c, parts, ids[i]) ==> Select(ids[..i + 1], parts, c) == sel
  {
    SelectPrefixStep(ids, i, parts, c);
    CallsOnSnoc(op, sel, ids[i]);
    assert sel + [] == sel;
  }

  /** One step of a loop that removes from `orig` the ids of `ids` meeting
      `c`: when `ids[i]` meets `c`, removing it after the ones removed so far
      (`gone`) removes the ids picked from `ids[..i + 1]`; otherwise nothing
      more is picked. */
  lemma RemovalStep(orig: seq<int>, parts: map<int, PartRec>, ids: seq<int>, i: nat, c: Criterion, gone: set<int>)
    requires i < |ids| && gone == Picked(ids[..i], parts, c)
    ensures Meets(c, parts, ids[i]) ==>
              && Picked(ids[..i + 1], parts, c) == gone + {ids[i]}
              && Select(Select(orig, parts, Absent(gone)), parts, Absent({ids[i]})) == Select(orig, parts, Absent(gone + {ids[i]}))
    ensures !Meets(c, parts, ids[i]) ==> Picked(ids[..i + 1], parts, c) == gone
  {
    SelectPrefixStep(ids, i, parts, c);
    SelectAbsentTwice(orig, parts, gone, {ids[i]});
  }

  /** A filter of a list without repetitions has none either. */
  lemma {:induction false} SelectDistinct(ids: seq<int>, parts: map<int, PartRec>, c: Criterion)
    requires Distinct(ids)
    ensures Distinct(Select(ids, parts, c))
  {
    if ids != [] {
      var init := ids[..|ids| - 1];
      var last := ids[|ids| - 1];
      assert Distinct(init);
      SelectDistinct(init, parts, c);
      SelectMembers(init, parts, c, last);
      assert last !in init;
    }
  }

  /** Two filters that agree on every member of the list select the same ids. */
  lemma {:induction false} SelectSame(ids: seq<int>, p1: map<int, PartRec>, c1: Criterion, p2: map<int, PartRec>, c2: Criterion)
    requires forall id :: id in ids ==> (Meets(c1, p1, id) <==> Meets(c2, p2, id))
    ensures Select(ids, p1, c1) == Select(ids, p2, c2)
  {
    if ids != [] {
      SelectSame(ids[..|ids| - 1], p1, c1, p2, c2);
    }
  }

  /** Filtering out `a` and then `b` is filtering out both at once. */
  lemma {:induction false} SelectAbsentTwice(ids: seq<int>, parts: map<int, PartRec>, a: set<int>, b: set<int>)
    ensures Select(Select(ids, parts, Absent(a)), parts, Absent(b)) == Select(ids, parts, Absent(a + b))
  {
    if ids != [] {
      var init := ids[..|ids| - 1];
      var last := ids[|ids| - 1];
      SelectAbsentTwice(init, parts, a, b);
      var once := Select(init, parts, Absent(a));
      if last !in a {
        assert Select(ids, parts, Absent(a)) == once + [last];
        assert (once + [last])[..|once + [last]| - 1] == once;
      } else {
        assert Select(ids, parts, Absent(a)) == once;
      }
    }
  }

  /** Filtering out nothing keeps the list. */
  lemma {:induction false} SelectAbsentNone(ids: seq<int>, parts: map<int, PartRec>)
    ensures Select(ids, parts, Absent({})) == ids
  {
    if ids != [] {
      SelectAbsentNone(ids[..|ids| - 1], parts);
    }
  }

  /** Repairing a set of parts none of which needs fixing changes nothing. */
  lemma RepairedUndamaged(parts: map<int, PartRec>, fixed: set<int>)
    requires forall id :: id in fixed && id in parts ==> !parts[id].needsFixing
    ensures Repaired(parts, fixed) == parts
  {
    var r := Repaired(parts, fixed);
    forall id | id in r ensures r[id] == parts[id] {
      if id in fixed {
        assert parts[id].(needsFixing := false) == parts[id];
      }
    }
  }

  /** Repairing one more part clears that part's flag and nothing else; a
      part that needs no fixing is left as it was. */
  lemma RepairedStep(parts: map<int, PartRec>, fixed: set<int>, id: int)
    requires id in parts
    ensures Repaired(parts, fixed + {id}) == Repaired(parts, fixed)[id := parts[id].(needsFixing := false)]
    ensures !parts[id].needsFixing ==> Repaired(parts, fixed + {id}) == Repaired(parts, fixed)
  {
    var before, after := Repaired(parts, fixed), Repaired(parts, fixed + {id});
    assert after == before[id := parts[id].(needsFixing := false)];
    if !parts[id].needsFixing {
      assert parts[id].(needsFixing := false) == parts[id] == before[id];
    }
  }

  /** The campaign: its part registry, and (for the model's bookkeeping) the
      calls the pod space has made on parts so far. */
  class Campaign {
    /** `getPart(id)`: an id missing from the map resolves to null. */
    var parts: map<int, PartRec>
    ghost var trace: seq<PartCall>

    constructor (parts: map<int, PartRec>)
      ensures this.parts == parts && trace == []
    {
      this.parts := parts;
      trace := [];
    }
  }

  /** A unit: its part list (by id), its entity and the location state and
      site modifier the repair rules read. */
  class Unit {
    const campaign: Campaign
    /** `getParts()`, by part id. */
    var partIds: seq<int>
    var entity: Entity
    /** Locations for which `isLocationBreached` / `isLocationDestroyed` hold. */
    var breached: set<int>
    var destroyed: set<int>
    /** `getSiteMod()`: the modifier for the site the unit is repaired at. */
    var siteMod: TargetRoll

    /** The unit's parts are distinct parts of its campaign. */
    ghost predicate Valid()
      reads this, campaign
    {
      Distinct(partIds) && forall id :: id in partIds ==> id in campaign.parts
    }

    constructor (campaign: Campaign, partIds: seq<int>, entity: Entity, breached: set<int>, destroyed: set<int>, siteMod: TargetRoll)
      ensures this.campaign == campaign && this.partIds == partIds && this.entity == entity
      ensures this.breached == breached && this.destroyed == destroyed && this.siteMod == siteMod
    {
      this.campaign := campaign;
      this.partIds := partIds;
      this.entity := entity;
      this.breached := breached;
      this.destroyed := destroyed;
      this.siteMod := siteMod;
    }
  }

  /** `part.remove(salvage)` on the unit's part `id`.
      ASSUMPTION (`Part.remove` is not part of this model): the part leaves
      the unit's part list and stays in the campaign's registry; nothing else
      the pod space reads changes. */
  method RemovePart(unit: Unit, id: int, salvage: bool)
    requires unit.Valid() && id in unit.campaign.parts
    modifies unit`partIds, unit.campaign`trace
    ensures unit.Valid()
    ensures unit.partIds == Select(old(unit.partIds), unit.campaign.parts, Absent({id}))
    ensures unit.campaign.trace == old(unit.campaign.trace) + [PartCall(RemoveOp(salvage), id)]
  {
    SelectDistinct(unit.partIds, unit.campaign.parts, Absent({id}));
    SelectSubset(unit.partIds, unit.campaign.parts, Absent({id}));
    unit.partIds := Select(unit.partIds, unit.campaign.parts, Absent({id}));
    unit.campaign.trace := unit.campaign.trace + [PartCall(RemoveOp(salvage), id)];
  }

  /** `part.fix()` on part `id`.
      ASSUMPTION (`Part.fix` is not part of this model): afterwards the part
      no longer needs fixing, keeps its id, pod mounting and location, and
      stays where it is. */
  method FixPart(campaign: Campaign, id: int)
    requires id in campaign.parts
    modifies campaign`parts, campaign`trace
    ensures campaign.parts == old(campaign.parts)[id := old(campaign.parts)[id].(needsFixing := false)]
    ensures campaign.trace == old(campaign.trace) + [PartCall(FixOp, id)]
  {
    campaign.parts := campaign.parts[id := campaign.parts[id].(needsFixing := false)];
    campaign.trace := campaign.trace + [PartCall(FixOp, id)];
  }

  /** `part.reservePart()` or `part.cancelReservation()` on part `id`.
      ASSUMPTION (the stock bookkeeping is not part of this model): nothing
      the pod space reads changes; the model records the call. */
  method ReservationCall(campaign: Campaign, op: PartOp, id: int)
    requires op == ReserveOp || op == CancelReservationOp
    modifies campaign`trace
    ensures campaign.trace == old(campaign.trace) + [PartCall(op, id)]
  {
    campaign.trace := campaign.trace + [PartCall(op, id)];
  }
}
