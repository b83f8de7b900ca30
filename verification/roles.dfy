/**
 * The roles for rooms that already have a storage and a central link: the
 * `transfer` creep fills spawns, extensions and towers with energy, and the
 * `centerTransfer` creep stands at a fixed spot and carries out the room's
 * logistics task, one withdraw and one transfer at a time.
 *
 * The host game is represented by the state the hooks touch (a creep's
 * store and position, the room's task and the progress reported to it) and
 * by its primitives (`withdraw`, `transfer`, `moveTo`, `findClosestByRange`),
 * whose outcome the hooks do not control: they are methods that pick any
 * status and, on success, any amount.
 */
module RolesAdvanced {
  import opened Wrappers
  import opened Setting

  /** Object ids, as passed to `Game.getObjectById`. */
  type Id = string

  /** The return codes of the host primitives used here. */
  datatype Status =
    | OK
    | ErrNotOwner
    | ErrBusy
    | ErrNotEnoughResources
    | ErrInvalidTarget
    | ErrFull
    | ErrNotInRange
    | ErrInvalidArgs
    | ErrTired
    | ErrNoBodyPart

  /** A room logistics task: move `resourceType` from `sourceId` to `targetId`. */
  datatype Task = Task(sourceId: Id, targetId: Id, resourceType: Resource)

  datatype Pos = Pos(x: int, y: int)

  /** A host call a hook issued, in the order it issued them. */
  datatype Action =
    | Withdrew(from: Id, resource: Resource)
    | Transferred(to: Id, resource: Resource)
    | MovedTo(destination: Pos)

  /** The structure kinds `transfer` cares about, and every other kind. */
  datatype StructureKind = Spawn | Extension | Tower | OtherStructure(name: string)

  /** One of the player's own structures, as `FIND_MY_STRUCTURES` lists it. */
  datatype Structure = Structure(id: Id, kind: StructureKind, pos: Pos, energy: int, energyCapacity: int)

  /**
   * A room: its current logistics task (what `getTask` returns) and the
   * amounts reported to `handleTask`, oldest first. How the room turns the
   * reports into task progress is outside this model.
   */
  class Room {
    var task: Option<Task>
    var reports: seq<nat>

    constructor (task: Option<Task>)
      ensures this.task == task && reports == []
    {
      this.task := task;
      reports := [];
    }

    /** `handleTask(amount)`: report `amount` units of progress on the task. */
    method HandleTask(amount: nat)
      modifies this`reports
      ensures reports == old(reports) + [amount]
    {
      reports := reports + [amount];
    }
  }

  /** The total of a store's amounts: `store.getUsedCapacity()`. */
  ghost function UsedCapacity(store: map<Resource, nat>): nat
    decreases |store|
  {
    if store == map[] then 0
    else
      var r :| r in store;
      store[r] + UsedCapacity(store - {r})
  }

  /** A store holds something exactly when some resource has a positive amount. */
  lemma {:induction false} UsedCapacityPositive(store: map<Resource, nat>)
    ensures UsedCapacity(store) > 0 <==> exists r :: r in store && store[r] > 0
    decreases |store|
  {
    if store != map[] {
      var r0 :| r0 in store && UsedCapacity(store) == store[r0] + UsedCapacity(store - {r0});
      var rest := store - {r0};
      UsedCapacityPositive(rest);
      if UsedCapacity(store) > 0 && store[r0] == 0 {
        var r :| r in rest && rest[r] > 0;
        assert r in store && store[r] > 0;
      }
      if exists r :: r in store && store[r] > 0 {
        var r :| r in store && store[r] > 0;
        if r != r0 {
          assert r in rest && rest[r] > 0;
        }
      }
    }
  }

  class Creep {
    var store: map<Resource, nat>
    var pos: Pos
    var actions: seq<Action>
    const room: Room

    constructor (room: Room, pos: Pos, store: map<Resource, nat>)
      ensures this.room == room && this.pos == pos && this.store == store && actions == []
    {
      this.room := room;
      this.pos := pos;
      this.store := store;
      actions := [];
    }

    /** `store.getUsedCapacity(resource)`: an absent resource counts as zero. */
    function Carried(resource: Resource): (amount: nat)
      reads this`store
      ensures resource !in store ==> amount == 0
      ensures resource in store ==> amount == store[resource]
    {
      if resource in store then store[resource] else 0
    }

    /**
     * The host's `withdraw`: any status; on success the creep holds more
     * of `resource` and the same amount of everything else.
     */
    method Withdraw(from: Id, resource: Resource) returns (status: Status)
      modifies this`store, this`actions
      ensures actions == old(actions) + [Withdrew(from, resource)]
      ensures status != OK ==> store == old(store)
      ensures status == OK ==> resource in store && store == old(store)[resource := store[resource]]
      ensures status == OK ==> Carried(resource) >= old(Carried(resource))
    {
      actions := actions + [Withdrew(from, resource)];
      status := *;
      if status == OK {
        var gained: nat :| gained >= 0;
        store := store[resource := Carried(resource) + gained];
      }
    }

    /**
     * The host's `transfer`: any status; on success the creep holds at
     * most what it held of `resource` and the same amount of everything else.
     */
    method Transfer(to: Id, resource: Resource) returns (status: Status)
      modifies this`store, this`actions
      ensures actions == old(actions) + [Transferred(to, resource)]
      ensures status != OK ==> store == old(store)
      ensures status == OK ==> resource in store && store == old(store)[resource := store[resource]]
      ensures status == OK ==> Carried(resource) <= old(Carried(resource))
    {
      actions := actions + [Transferred(to, resource)];
      status := *;
      if status == OK {
        var left: nat :| left <= Carried(resource);
        store := store[resource := left];
      }
    }

    /** The host's `moveTo`: only the request is recorded here. */
    method MoveTo(destination: Pos)
      modifies this`actions
      ensures actions == old(actions) + [MovedTo(destination)]
    {
      actions := actions + [MovedTo(destination)];
    }
  }

  // ---------------------------------------------------------------------
  // transfer
  // ---------------------------------------------------------------------

  /** The `transfer` role's filter: a spawn, extension or tower that is not full. */
  predicate NeedsEnergy(s: Structure)
  {
    (s.kind == Spawn || s.kind == Extension || s.kind == Tower) && s.energy < s.energyCapacity
  }

  /** The structures that pass the filter, in the order the host listed them. */
  function EnergyNeeders(structures: seq<Structure>): (needy: seq<Structure>)
    ensures forall s :: s in needy <==> s in structures && NeedsEnergy(s)
    ensures |needy| <= |structures|
  {
    if structures == [] then []
    else if NeedsEnergy(structures[0]) then [structures[0]] + EnergyNeeders(structures[1..])
    else EnergyNeeders(structures[1..])
  }

  /**
   * The host's `findClosestByRange` over `candidates`: nothing when there
   * is no candidate, otherwise one of them. Which one (the nearest) is up
   * to the host.
   */
  method FindClosestByRange(candidates: seq<Structure>) returns (closest: Option<Structure>)
    ensures closest.None? <==> candidates == []
    ensures closest.Some? ==> closest.value in candidates
  {
    if candidates == [] {
      return None;
    }
    var k :| 0 <= k < |candidates|;
    return Some(candidates[k]);
  }

  /**
   * `transfer.target`: find the nearest own structure that needs energy;
   * with none, do nothing. Otherwise transfer energy into it (on success
   * only the creep's energy changes, and never upwards), and walk towards it
   * when it is out of range.
   */
  method TransferTarget(creep: Creep, structures: seq<Structure>) returns (target: Option<Structure>, result: Option<Status>)
    modifies creep`store, creep`actions
    ensures target.None? <==> EnergyNeeders(structures) == []
    ensures target.None? ==> result.None? && creep.store == old(creep.store) && creep.actions == old(creep.actions)
    ensures target.Some? ==> target.value in structures && NeedsEnergy(target.value) && result.Some?
    ensures target.Some? && result == Some(ErrNotInRange) ==>
      creep.actions == old(creep.actions) + [Transferred(target.value.id, Energy), MovedTo(target.value.pos)]
    ensures target.Some? && result != Some(ErrNotInRange) ==>
      creep.actions == old(creep.actions) + [Transferred(target.value.id, Energy)]
    ensures result != Some(OK) ==> creep.store == old(creep.store)
    ensures result == Some(OK) ==>
      (Energy in creep.store && creep.store == old(creep.store)[Energy := creep.store[Energy]]
       && creep.Carried(Energy) <= old(creep.Carried(Energy)))
  {
    target := FindClosestByRange(EnergyNeeders(structures));
    if target.None? {
      return None, None;
    }
    var status := creep.Transfer(target.value.id, Energy);
    if status == ErrNotInRange {
      creep.MoveTo(target.value.pos);
    }
    result := Some(status);
  }

  /** `transfer.switch`: work (fill structures) while carrying any energy. */
  predicate TransferSwitch(creep: Creep): (on: bool)
    reads creep
    ensures on <==> Energy in creep.store && creep.store[Energy] > 0
  {
    creep.Carried(Energy) > 0
  }

  // ---------------------------------------------------------------------
  // centerTransfer
  // ---------------------------------------------------------------------

  /** `centerTransfer.prepare`: walk to the creep's post. */
  method CenterTransferPrepare(creep: Creep, x: int, y: int)
    modifies creep`actions
    ensures creep.actions == old(creep.actions) + [MovedTo(Pos(x, y))]
  {
    creep.MoveTo(Pos(x, y));
  }

  /** `centerTransfer.isReady`: the creep stands on its post. */
  predicate CenterTransferIsReady(creep: Creep, x: int, y: int): (ready: bool)
    reads creep
    ensures ready <==> creep.pos == Pos(x, y)
  {
    creep.pos.x == x && creep.pos.y == y
  }

  /** `centerTransfer.switch`: work (deliver) while carrying anything at all. */
  ghost predicate CenterTransferSwitch(creep: Creep): (on: bool)
    reads creep
    ensures on <==> exists r :: r in creep.store && creep.store[r] > 0
  {
    UsedCapacityPositive(creep.store);
    UsedCapacity(creep.store) > 0
  }

  /**
   * `transfer.switch` is the energy-only case of `centerTransfer.switch`:
   * a creep that would deliver energy would also deliver as a center
   * transfer creep, and for a creep carrying only energy the two agree.
   */
  lemma TransferSwitchImpliesCenterSwitch(creep: Creep)
    ensures TransferSwitch(creep) ==> CenterTransferSwitch(creep)
    ensures creep.store.Keys <= {Energy} ==> (TransferSwitch(creep) <==> CenterTransferSwitch(creep))
  {
    UsedCapacityPositive(creep.store);
  }

  /**
   * `centerTransfer.source`: without a task, do nothing. Otherwise
   * withdraw the task's resource from the task's source. A successful
   * withdraw changes only that resource in the creep's store, and never
   * downwards. The task itself is never changed here, and no progress is
   * reported.
   */
  method CenterTransferSource(creep: Creep) returns (result: Option<Status>)
    modifies creep`store, creep`actions
    ensures creep.room.task == old(creep.room.task) && creep.room.reports == old(creep.room.reports)
    ensures creep.room.task.None? ==>
      result.None? && creep.store == old(creep.store) && creep.actions == old(creep.actions)
    ensures creep.room.task.Some? ==>
      var task := creep.room.task.value;
      result.Some? && creep.actions == old(creep.actions) + [Withdrew(task.sourceId, task.resourceType)]
    ensures result != Some(OK) ==> creep.store == old(creep.store)
    ensures result == Some(OK) ==>
      (var r := creep.room.task.value.resourceType;
       r in creep.store && creep.store == old(creep.store)[r := creep.store[r]]
       && creep.Carried(r) >= old(creep.Carried(r)))
  {
    var task := creep.room.task;
    if task.None? {
      return None;
    }
    var status := creep.Withdraw(task.value.sourceId, task.value.resourceType);
    result := Some(status);
  }

  /**
   * `centerTransfer.target`: without a task, do nothing. Otherwise note
   * how much of the task's resource the creep carries, transfer it to the
   * task's target and, only when that succeeded, report the noted amount
   * to `handleTask`. A successful transfer changes only the task's resource
   * in the creep's store, and never upwards; a failed one changes neither
   * the creep's store nor the room's progress.
   */
  method CenterTransferTarget(creep: Creep) returns (result: Option<Status>)
    modifies creep`store, creep`actions, creep.room`reports
    ensures creep.room.task == old(creep.room.task)
    ensures creep.room.task.None? ==>
      result.None? && creep.store == old(creep.store) && creep.actions == old(creep.actions)
      && creep.room.reports == old(creep.room.reports)
    ensures creep.room.task.Some? ==>
      var task := creep.room.task.value;
      result.Some? && creep.actions == old(creep.actions) + [Transferred(task.targetId, task.resourceType)]
    ensures result == Some(OK) ==>
      creep.room.reports == old(creep.room.reports) + [old(creep.Carried(creep.room.task.value.resourceType))]
    ensures result != Some(OK) ==>
      creep.store == old(creep.store) && creep.room.reports == old(creep.room.reports)
    ensures result == Some(OK) ==>
      (var r := creep.room.task.value.resourceType;
       r in creep.store && creep.store == old(creep.store)[r := creep.store[r]]
       && creep.Carried(r) <= old(creep.Carried(r)))
  {
    var task := creep.room.task;
    if task.None? {
      return None;
    }
    var amount := creep.Carried(task.value.resourceType);
    var status := creep.Transfer(task.value.targetId, task.value.resourceType);
    if status == OK {
      creep.room.HandleTask(amount);
    }
    result := Some(status);
  }
}
