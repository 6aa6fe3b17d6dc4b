/** The task list of the repair screen: how a task is classified for its
    icon (available, not available, blocked, scheduled), the file-name
    suffix each class adds to the icon, and gathering the tasks of the
    selected rows. */
module TaskTable {
  import opened Base
  import opened JavaInt

  /** `REPAIR_STATE`. `InTransit` is declared but never assigned. */
  datatype RepairState = Available | NotAvailable | InTransit | Blocked | Scheduled

  /** The `int` code of each state in `REPAIR_STATE`. */
  function Code(s: RepairState): (c: int)
    ensures 0 <= c <= 4 && StateOf(c) == Some(s)
  {
    match s
    case Available => 0
    case NotAvailable => 1
    case InTransit => 2
    case Blocked => 3
    case Scheduled => 4
  }

  /** The state with a given code, the inverse of `Code`. */
  function StateOf(c: int): (r: Option<RepairState>)
    ensures r.Some? <==> 0 <= c <= 4
  {
    if c == 0 then Some(Available)
    else if c == 1 then Some(NotAvailable)
    else if c == 2 then Some(InTransit)
    else if c == 3 then Some(Blocked)
    else if c == 4 then Some(Scheduled)
    else None
  }

  /** `TargetRoll`'s sentinel values: `IMPOSSIBLE` (`Integer.MAX_VALUE`),
      `AUTOMATIC_FAIL` (`Integer.MAX_VALUE - 1`) and `CHECK_FALSE`
      (`Integer.MIN_VALUE + 1`). */
  const IMPOSSIBLE: int32 := 0x7fff_ffff
  const AUTOMATIC_FAIL: int32 := 0x7fff_fffe
  const CHECK_FALSE: int32 := -0x7fff_ffff

  /** A roll value no attempt can meet. */
  predicate Hopeless(value: int32) {
    value == IMPOSSIBLE || value == AUTOMATIC_FAIL || value == CHECK_FALSE
  }

  /** What the part is: an installed part, or a `MissingPart` whose
      replacement is or is not in stock. */
  datatype PartKind = Installed | MissingPart(replacementAvailable: bool)

  /** What the classifier reads of a task. */
  datatype Task = Task(salvaging: bool, teamId: Option<Uuid>, kind: PartKind)

  /** The repair state shown for `task`. `roll` is the value of
      `getTargetFor(part, tech)` when a tech is selected, and `None` when no
      tech is (the roll is then never computed). */
  function Classify(task: Task, roll: Option<int32>): (s: RepairState)
    ensures s != InTransit
    ensures task.salvaging ==> s == Available
    ensures s == Scheduled <==> !task.salvaging && task.teamId.Some?
    ensures s == NotAvailable <==> !task.salvaging && task.teamId.None? && task.kind == MissingPart(false)
    ensures s == Blocked <==>
              && !task.salvaging && task.teamId.None? && task.kind != MissingPart(false)
              && roll.Some? && Hopeless(roll.value)
    ensures roll.None? ==> s != Blocked
  {
    if task.salvaging then Available
    else if task.teamId.Some? then Scheduled
    else
      var level := if task.kind.MissingPart? && !task.kind.replacementAvailable then NotAvailable else Available;
      if level == Available && roll.Some? && Hopeless(roll.value) then Blocked else level
  }

  /** Salvage and scheduling decide the state by themselves: the stock and
      the roll are not consulted. */
  lemma ClassifyShortCircuits(t1: Task, r1: Option<int32>, t2: Task, r2: Option<int32>)
    requires t1.salvaging == t2.salvaging && t1.teamId.Some? == t2.teamId.Some?
    requires t1.salvaging || t1.teamId.Some?
    ensures Classify(t1, r1) == Classify(t2, r2)
  {
  }

  /** The suffix of the icon file name for each state. */
  function IconSuffix(s: RepairState): (suffix: string)
    ensures suffix == "" <==> s == Available || s == Scheduled
    ensures FlaggedState(suffix) == (if s == Available || s == Scheduled then None else Some(s))
  {
    match s
    case Blocked => "_impossible"
    case InTransit => "_transit"
    case NotAvailable => "_na"
    case Scheduled => ""
    case Available => ""
  }

  /** The state a non-empty suffix flags, if any: the inverse of
      `IconSuffix` on the states that change the icon. */
  function FlaggedState(suffix: string): (r: Option<RepairState>)
    ensures r.Some? ==> r.value in {Blocked, InTransit, NotAvailable}
  {
    if suffix == "_impossible" then Some(Blocked)
    else if suffix == "_transit" then Some(InTransit)
    else if suffix == "_na" then Some(NotAvailable)
    else None
  }

  /** The icon a classified task can show: the state of a task that is not
      salvaged, not scheduled and not missing its replacement is flagged
      `_impossible` exactly when the roll is hopeless. */
  lemma BlockedIconIffHopeless(task: Task, value: int32)
    requires !task.salvaging && task.teamId.None? && task.kind != MissingPart(false)
    ensures IconSuffix(Classify(task, Some(value))) == "_impossible" <==> Hopeless(value)
  {
    var s := Classify(task, Some(value));
    assert FlaggedState(IconSuffix(s)) == Some(Blocked) <==> s == Blocked;
  }

  /** `getTasksAt(rows)`: the tasks at the given rows, in the order of
      `rows`. `data.get(row)` throws on a row out of range; the model
      returns the position in `rows` of the first such row. */
  method GetTasksAt<T(0)>(data: seq<T>, rows: array<int>) returns (r: Result<array<T>, nat>)
    ensures r.Ok? <==> forall i :: 0 <= i < rows.Length ==> 0 <= rows[i] < |data|
    ensures r.Ok? ==> fresh(r.value) && r.value.Length == rows.Length
    ensures r.Ok? ==> forall i :: 0 <= i < rows.Length ==> r.value[i] == data[rows[i]]
    ensures r.Err? ==>
              && r.error < rows.Length && !(0 <= rows[r.error] < |data|)
              && forall i :: 0 <= i < r.error ==> 0 <= rows[i] < |data|
  {
    var tasks := new T[rows.Length];
    var i := 0;
    while i < rows.Length
      invariant 0 <= i <= rows.Length
      invariant forall j :: 0 <= j < i ==> 0 <= rows[j] < |data| && tasks[j] == data[rows[j]]
    {
      var row := rows[i];
      if !(0 <= row < |data|) {
        return Err(i);
      }
      tasks[i] := data[row];
      i := i + 1;
    }
    return Ok(tasks);
  }
}
