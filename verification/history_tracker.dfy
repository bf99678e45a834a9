/** The history tracker: a turn counter and a hand-grown array of game
 *  state snapshots, plus the progression report built from them. The
 *  report is modelled as a value (its rows and its change summary)
 *  rather than as console text. */
module History {
  import opened Growth
  import Armies
  import Resources

  /** One snapshot of the game state. */
  datatype Snapshot = Snapshot(
    turn: int,
    population: int,
    treasury: int,
    soldiers: int,
    morale: int,
    food: int,
    wood: int,
    stone: int,
    iron: int,
    eventDescription: string)

  /** Longest event label the report shows in full. */
  const LabelWidth: nat := 30

  /** Event label as the report shows it: a label longer than 30
   *  characters is cut to its first 27 followed by "...". */
  function DisplayLabel(description: string): (shown: string)
    ensures |shown| <= LabelWidth
    ensures |description| <= LabelWidth ==> shown == description
    ensures |description| > LabelWidth ==>
      |shown| == LabelWidth && shown[..27] == description[..27] && shown[27..] == "..."
  {
    if |description| > LabelWidth then description[..27] + "..." else description
  }

  /** Showing a label that is already shown changes nothing, and what is
   *  shown is always the original label or a prefix of it plus "...". */
  lemma DisplayLabelStable(description: string)
    ensures DisplayLabel(DisplayLabel(description)) == DisplayLabel(description)
    ensures DisplayLabel(description) == description
      || (DisplayLabel(description)[..27] <= description && DisplayLabel(description)[27..] == "...")
  {
  }

  /** One row of the report's table. */
  datatype Row = Row(
    turn: int,
    population: int,
    treasury: int,
    soldiers: int,
    morale: int,
    food: int,
    wood: int,
    stone: int,
    iron: int,
    event: string)

  function RowOf(s: Snapshot): Row
  {
    Row(s.turn, s.population, s.treasury, s.soldiers, s.morale,
        s.food, s.wood, s.stone, s.iron, DisplayLabel(s.eventDescription))
  }

  /** One line of the change summary: "name: first -> last (signed delta)". */
  datatype Change = Change(name: string, first: int, last: int)
  {
    function Delta(): int
    {
      last - first
    }

    /** "+" in front of a delta that is not negative; a negative one
     *  carries its own minus sign. */
    function SignPrefix(): string
    {
      if Delta() >= 0 then "+" else ""
    }
  }

  /** The eight numeric fields the change summary compares, in its order. */
  function Measures(s: Snapshot): seq<int>
  {
    [s.population, s.treasury, s.soldiers, s.morale, s.food, s.wood, s.stone, s.iron]
  }

  /** The eight first-to-last changes, in the report's order: the k-th
   *  line compares the k-th measure of the oldest snapshot with that of
   *  the newest, and its delta carries the sign of the change. */
  function Summary(first: Snapshot, last: Snapshot): (changes: seq<Change>)
    ensures |changes| == |Measures(first)|
    ensures forall k :: 0 <= k < |changes| ==>
      && changes[k].first == Measures(first)[k]
      && changes[k].last == Measures(last)[k]
      && changes[k].first + changes[k].Delta() == changes[k].last
      && (changes[k].SignPrefix() == "+" <==> changes[k].last >= changes[k].first)
    ensures forall k, j :: 0 <= k < j < |changes| ==> changes[k].name != changes[j].name
  {
    [ Change("Population", first.population, last.population),
      Change("Treasury", first.treasury, last.treasury),
      Change("Soldiers", first.soldiers, last.soldiers),
      Change("Morale", first.morale, last.morale),
      Change("Food", first.food, last.food),
      Change("Wood", first.wood, last.wood),
      Change("Stone", first.stone, last.stone),
      Change("Iron", first.iron, last.iron) ]
  }

  datatype Report =
    | NoHistory                                        // "No historical data available."
    | Progression(rows: seq<Row>, summary: seq<Change>) // table, then summary if any

  /** The progression report of a sequence of snapshots. */
  function ReportOf(snapshots: seq<Snapshot>): (r: Report)
    ensures r == NoHistory <==> |snapshots| == 0
    ensures r.Progression? ==>
      && |r.rows| == |snapshots|
      && (forall i :: 0 <= i < |snapshots| ==> r.rows[i] == RowOf(snapshots[i]))
      && (r.summary != [] <==> |snapshots| > 1)
    ensures |snapshots| > 1 ==> r.Progression? && r.summary == Summary(snapshots[0], snapshots[|snapshots| - 1])
  {
    if |snapshots| == 0 then NoHistory
    else Progression(
      seq(|snapshots|, i requires 0 <= i < |snapshots| => RowOf(snapshots[i])),
      if |snapshots| > 1 then Summary(snapshots[0], snapshots[|snapshots| - 1]) else [])
  }

  /** The report never alters what it shows: every row carries its
   *  snapshot's turn and numbers with a label of at most 30 characters,
   *  and every summary delta is the newest measure minus the oldest. */
  lemma ReportFaithful(snapshots: seq<Snapshot>)
    requires |snapshots| > 0
    ensures var r := ReportOf(snapshots);
      forall i :: 0 <= i < |snapshots| ==>
        && r.rows[i].turn == snapshots[i].turn
        && [r.rows[i].population, r.rows[i].treasury, r.rows[i].soldiers, r.rows[i].morale,
            r.rows[i].food, r.rows[i].wood, r.rows[i].stone, r.rows[i].iron] == Measures(snapshots[i])
        && |r.rows[i].event| <= LabelWidth
    ensures var r := ReportOf(snapshots);
      forall k :: 0 <= k < |r.summary| ==>
        r.summary[k].Delta() == Measures(snapshots[|snapshots| - 1])[k] - Measures(snapshots[0])[k]
  {
  }

  /** Snapshots taken at turns 1 to `now`, oldest first. */
  predicate InTurnOrder(snaps: seq<Snapshot>, now: int)
  {
    && (forall i :: 0 <= i < |snaps| ==> 1 <= snaps[i].turn <= now)
    && (forall i, j :: 0 <= i <= j < |snaps| ==> snaps[i].turn <= snaps[j].turn)
  }

  /** A snapshot of the current turn extends a history in turn order, and
   *  advancing the turn keeps it in order. */
  lemma InTurnOrderExtends(snaps: seq<Snapshot>, now: int, snapshot: Snapshot)
    requires InTurnOrder(snaps, now) && 1 <= now
    ensures snapshot.turn == now ==> InTurnOrder(snaps + [snapshot], now)
    ensures InTurnOrder(snaps, now + 1)
  {
  }

  class HistoryTracker {
    var snapshots: array<Snapshot>
    var capacity: int
    var size: int
    var currentTurn: int

    /** The array and its bookkeeping agree. */
    ghost predicate Storage()
      reads this
    {
      0 <= size <= capacity && capacity == snapshots.Length && InitialCapacity <= capacity
    }

    /** Besides Storage: capacity grew only by doubling when full, turns
     *  start at 1, and snapshots are in turn order, none later than now. */
    ghost predicate Valid()
      reads this, snapshots
    {
      && Storage()
      && capacity == CapacityAfter(size)
      && 1 <= currentTurn
      && InTurnOrder(snapshots[..size], currentTurn)
    }

    /** The snapshots taken so far, oldest first. */
    ghost function Snapshots(): seq<Snapshot>
      reads this, snapshots
      requires Storage()
    {
      snapshots[..size]
    }

    constructor ()
      ensures Valid() && fresh(snapshots)
      ensures capacity == 10 && Snapshots() == [] && currentTurn == 1
    {
      capacity := InitialCapacity;
      size := 0;
      currentTurn := 1;
      snapshots := new Snapshot[InitialCapacity];
    }

    /** Doubles the capacity and copies the snapshots across, in order. */
    method ResizeSnapshotsArray()
      requires Storage()
      modifies this`snapshots, this`capacity
      ensures Storage() && fresh(snapshots)
      ensures capacity == 2 * old(capacity)
      ensures Snapshots() == old(Snapshots())
    {
      var newCapacity := capacity * 2;
      var newSnapshots := new Snapshot[newCapacity];
      for i := 0 to size
        modifies newSnapshots
        invariant newSnapshots[..i] == snapshots[..i]
      {
        newSnapshots[i] := snapshots[i];
      }
      snapshots := newSnapshots;
      capacity := newCapacity;
    }

    /** Appends a snapshot of the current turn taken from the given state
     *  (population total and treasury belong to classes outside this
     *  model and are passed as numbers). */
    method TakeSnapshot(population: int, treasury: int, army: Armies.Army,
                        res: Resources.ResourceManager, eventDescription: string)
      requires Valid()
      modifies this`snapshots, this`capacity, this`size, snapshots
      ensures Valid()
      ensures Snapshots() == old(Snapshots()) + [Snapshot(currentTurn, population, treasury,
        army.soldiers, army.morale, res.food, res.wood, res.stone, res.iron, eventDescription)]
      ensures capacity == GrownCapacity(old(capacity), old(size))
      ensures old(size) < old(capacity) ==> snapshots == old(snapshots)
    {
      if size >= capacity {
        ResizeSnapshotsArray();
      }
      var snapshot := Snapshot(currentTurn, population, treasury,
        army.soldiers, army.morale, res.food, res.wood, res.stone, res.iron, eventDescription);
      CapacityAfterBounds(size + 1);
      InTurnOrderExtends(snapshots[..size], currentTurn, snapshot);
      snapshots[size] := snapshot;
      size := size + 1;
      assert snapshots[..size] == old(Snapshots()) + [snapshot];
    }

    method NextTurn()
      requires Valid()
      modifies this`currentTurn
      ensures Valid()
      ensures currentTurn == old(currentTurn) + 1
    {
      currentTurn := currentTurn + 1;
    }

    method GetCurrentTurn() returns (turn: int)
      requires Valid()
      ensures turn == currentTurn && 1 <= turn
    {
      turn := currentTurn;
    }

    /** Builds the progression report by one pass over the snapshots. */
    method DisplayProgressionReport() returns (report: Report)
      requires Valid()
      ensures report == ReportOf(Snapshots())
    {
      if size == 0 {
        return NoHistory;
      }
      var rows: seq<Row> := [];
      for i := 0 to size
        invariant |rows| == i
        invariant forall j :: 0 <= j < i ==> rows[j] == RowOf(snapshots[j])
      {
        rows := rows + [RowOf(snapshots[i])];
      }
      var summary: seq<Change> := [];
      if size > 1 {
        summary := Summary(snapshots[0], snapshots[size - 1]);
      }
      report := Progression(rows, summary);
      assert rows == ReportOf(Snapshots()).rows;
    }
  }
}
