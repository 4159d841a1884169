/**
 * The command scheduler: a FIFO of move commands in front of the boat. The head
 * command waits out its preparation delay, is then executed once (which queues
 * the order on its boat), and the next command starts preparing in the same call.
 */
module Orders {
  import opened Basics
  import opened Boats

  const DefaultPreparationDuration: int := 2000

  /** A request to queue an order on a boat once the preparation delay has passed. */
  datatype Command = MoveCommand(
    boat: Boat,
    orderType: OrderType,
    duration: int := DefaultOrderDuration,
    preparationDuration: int := DefaultPreparationDuration)
  {
    /** Forwards exactly this command's order type and duration to its boat. */
    method Execute(now: int)
      requires boat.Valid()
      modifies boat
      ensures boat.Valid()
      ensures boat.orderQueue == old(boat.orderQueue) + [Order(orderType, duration, now)]
      ensures boat.currentOrder == old(boat.currentOrder)
      ensures boat.position == old(boat.position) && boat.velocity == old(boat.velocity)
      ensures boat.Added == old(boat.Added) + [Order(orderType, duration, now)]
      ensures boat.Promoted == old(boat.Promoted)
    {
      boat.AddOrder(orderType, now, duration);
    }
  }

  /** The order types of a run of commands, in the same order. */
  function Kinds(cs: seq<Command>): (ks: seq<OrderType>)
    ensures |ks| == |cs|
    ensures forall i :: 0 <= i < |cs| ==> ks[i] == cs[i].orderType
  {
    if cs == [] then [] else [cs[0].orderType] + Kinds(cs[1..])
  }

  datatype SystemState = Idle | Preparing

  class OrderSystem {
    const boat: Boat
    var commandQueue: seq<Command>
    var currentCommand: Option<Command>
    var state: SystemState
    var preparationStartTime: int
    /** The commands accepted since construction or the last `ClearQueue`, in the order accepted. */
    ghost var Accepted: seq<Command>
    /** The commands executed since then, in the order executed. */
    ghost var Executed: seq<Command>

    /** The command being prepared, as a sequence of at most one. */
    ghost function InFlight(): seq<Command>
      reads this
    {
      if currentCommand.Some? then [currentCommand.value] else []
    }

    /** What holds between any two steps, even inside `AddCommand` before the head is taken. */
    ghost predicate Coherent()
      reads this
    {
      && (state == Preparing <==> currentCommand.Some?)
      // FIFO: every command accepted is executed, in flight or queued, in the order accepted
      && Accepted == Executed + InFlight() + commandQueue
    }

    ghost predicate Valid()
      reads this
    {
      Coherent() && (state == Idle ==> commandQueue == [])
    }

    constructor (boat: Boat)
      ensures Valid()
      ensures this.boat == boat
      ensures commandQueue == [] && currentCommand == None && state == Idle && preparationStartTime == 0
      ensures Accepted == [] && Executed == []
    {
      this.boat := boat;
      commandQueue := [];
      currentCommand := None;
      state := Idle;
      preparationStartTime := 0;
      Accepted := [];
      Executed := [];
    }

    method AddCommand(command: Command, now: int)
      requires Valid()
      modifies this
      ensures Valid()
      ensures Accepted == old(Accepted) + [command] && Executed == old(Executed)
      // an idle scheduler starts preparing the new command at once
      ensures old(state) == Idle ==>
                state == Preparing && currentCommand == Some(command) && commandQueue == [] &&
                preparationStartTime == now
      // a busy one queues it behind the others
      ensures old(state) == Preparing ==>
                state == Preparing && commandQueue == old(commandQueue) + [command] &&
                currentCommand == old(currentCommand) && preparationStartTime == old(preparationStartTime)
    {
      commandQueue := commandQueue + [command];
      Accepted := Accepted + [command];
      ProcessNextCommand(now);
    }

    /** Queues a move command for this scheduler's boat, with the default preparation delay. */
    method AddOrder(orderType: OrderType, now: int, duration: int := DefaultOrderDuration)
      requires Valid()
      modifies this
      ensures Valid()
      ensures Accepted == old(Accepted) + [MoveCommand(boat, orderType, duration)] && Executed == old(Executed)
      ensures old(state) == Idle ==>
                state == Preparing && currentCommand == Some(MoveCommand(boat, orderType, duration)) &&
                commandQueue == [] && preparationStartTime == now
      ensures old(state) == Preparing ==>
                state == Preparing && commandQueue == old(commandQueue) + [MoveCommand(boat, orderType, duration)] &&
                currentCommand == old(currentCommand) && preparationStartTime == old(preparationStartTime)
    {
      var command := MoveCommand(boat, orderType, duration);
      AddCommand(command, now);
    }

    /** The boat (if any) that the next `Update` may execute a command on. */
    ghost function ExecutionTarget(): set<object>
      reads this
    {
      if currentCommand.Some? then {currentCommand.value.boat} else {}
    }

    /** Whether the current command's preparation delay has passed at `now`. */
    ghost predicate Ready(now: int)
      reads this
    {
      currentCommand.Some? && now - preparationStartTime >= currentCommand.value.preparationDuration
    }

    method Update(now: int)
      requires Valid()
      requires currentCommand.Some? ==> currentCommand.value.boat.Valid()
      modifies this, ExecutionTarget()
      ensures Valid()
      ensures Accepted == old(Accepted)
      // nothing happens while idle or while the delay has not passed
      ensures !(old(state) == Preparing && old(Ready(now))) ==>
                state == old(state) && commandQueue == old(commandQueue) &&
                currentCommand == old(currentCommand) && preparationStartTime == old(preparationStartTime) &&
                Executed == old(Executed)
      ensures !(old(state) == Preparing && old(Ready(now))) && old(currentCommand).Some? ==>
                unchanged(old(currentCommand).value.boat)
      // once it has, the current command is executed exactly once and the next one starts at the same `now`
      ensures old(state) == Preparing && old(Ready(now)) ==>
                var c := old(currentCommand).value;
                && Executed == old(Executed) + [c]
                && c.boat.Valid()
                && c.boat.orderQueue == old(c.boat.orderQueue) + [Order(c.orderType, c.duration, now)]
                && c.boat.currentOrder == old(c.boat.currentOrder)
                && c.boat.position == old(c.boat.position) && c.boat.velocity == old(c.boat.velocity)
                && (old(commandQueue) == [] ==> state == Idle && currentCommand == None && commandQueue == [])
                && (old(commandQueue) != [] ==>
                      state == Preparing && currentCommand == Some(old(commandQueue)[0]) &&
                      commandQueue == old(commandQueue)[1..] && preparationStartTime == now)
    {
      if state == Preparing {
        UpdatePreparation(now);
      }
    }

    method ProcessNextCommand(now: int)
      requires Coherent()
      modifies this
      ensures Valid()
      ensures Accepted == old(Accepted) && Executed == old(Executed)
      ensures old(state) == Preparing || old(commandQueue) == [] ==>
                state == old(state) && commandQueue == old(commandQueue) &&
                currentCommand == old(currentCommand) && preparationStartTime == old(preparationStartTime)
      ensures old(state) == Idle && old(commandQueue) != [] ==>
                state == Preparing && currentCommand == Some(old(commandQueue)[0]) &&
                commandQueue == old(commandQueue)[1..] && preparationStartTime == now
    {
      if state != Idle || |commandQueue| == 0 {
        return;
      }
      currentCommand := Some(commandQueue[0]);
      commandQueue := commandQueue[1..];
      state := Preparing;
      preparationStartTime := now;
    }

    method UpdatePreparation(now: int)
      requires Valid() && state == Preparing
      requires currentCommand.value.boat.Valid()
      modifies this, currentCommand.value.boat
      ensures Valid()
      ensures Accepted == old(Accepted)
      ensures !old(Ready(now)) ==>
                state == old(state) && commandQueue == old(commandQueue) &&
                currentCommand == old(currentCommand) && preparationStartTime == old(preparationStartTime) &&
                Executed == old(Executed)
      ensures !old(Ready(now)) ==> unchanged(old(currentCommand).value.boat)
      ensures old(Ready(now)) ==>
                var c := old(currentCommand).value;
                && Executed == old(Executed) + [c]
                && c.boat.Valid()
                && c.boat.orderQueue == old(c.boat.orderQueue) + [Order(c.orderType, c.duration, now)]
                && c.boat.currentOrder == old(c.boat.currentOrder)
                && c.boat.position == old(c.boat.position) && c.boat.velocity == old(c.boat.velocity)
                && (old(commandQueue) == [] ==> state == Idle && currentCommand == None && commandQueue == [])
                && (old(commandQueue) != [] ==>
                      state == Preparing && currentCommand == Some(old(commandQueue)[0]) &&
                      commandQueue == old(commandQueue)[1..] && preparationStartTime == now)
    {
      var command := currentCommand.value;
      var elapsed := now - preparationStartTime;
      if elapsed >= command.preparationDuration {
        command.Execute(now);
        Executed := Executed + [command];
        state := Idle;
        currentCommand := None;
        ProcessNextCommand(now);
      }
    }

    function QueuedOrders(): (ks: seq<OrderType>)
      reads this
      ensures |ks| == |commandQueue|
      ensures forall i :: 0 <= i < |commandQueue| ==> ks[i] == commandQueue[i].orderType
    {
      Kinds(commandQueue)
    }

    method ClearQueue()
      modifies this
      ensures Valid()
      ensures commandQueue == [] && state == Idle && currentCommand == None
      ensures preparationStartTime == old(preparationStartTime)
      ensures Accepted == [] && Executed == []
    {
      commandQueue := [];
      state := Idle;
      currentCommand := None;
      Accepted := [];
      Executed := [];
    }

    /** The order type being prepared, if any. */
    function CurrentOrder(): (k: Option<OrderType>)
      reads this
      ensures k.Some? ==> state == Preparing && currentCommand.Some? && k.value == currentCommand.value.orderType
      ensures Valid() ==> (k.Some? <==> state == Preparing)
    {
      if state == Preparing && currentCommand.Some? then Some(currentCommand.value.orderType) else None
    }

    /** Fraction of the preparation delay that has passed, capped at 1; 0 when not preparing. */
    function OrderProgress(now: int): (p: Num)
      reads this
      ensures state != Preparing ==> p == Finite(0.0)
      ensures p.Finite? ==> p.value <= 1.0
      ensures Valid() && state == Preparing && currentCommand.value.preparationDuration > 0 &&
              now >= preparationStartTime ==>
                p.Finite? && 0.0 <= p.value && (p.value == 1.0 <==> Ready(now))
    {
      if state == Preparing && currentCommand.Some? then
        MinRatioOne(now - preparationStartTime, currentCommand.value.preparationDuration)
      else
        Finite(0.0)
    }

    function GetSystemState(): (s: SystemState)
      reads this
      ensures Valid() ==> (s == Idle <==> currentCommand.None?)
      ensures Valid() && s == Idle ==> commandQueue == []
    {
      state
    }

    function IsInPreparation(): (b: bool)
      reads this
      ensures b <==> state == Preparing
      ensures Valid() ==> (b <==> CurrentOrder().Some?)
    {
      state == Preparing
    }
  }

  /**
   * A client of the scheduler: a left turn, and half a second later full speed. The turn
   * reaches the boat when its 2000 ms delay is up, the speed order starts preparing at
   * that same moment and reaches the boat 2000 ms later.
   */
  method TurnThenAhead()
  {
    var b := new Boat(400.0, 520.0);
    var s := new OrderSystem(b);
    s.AddOrder(FullLeft, 0);
    s.AddOrder(FullSpeed, 500);
    assert s.QueuedOrders() == [FullSpeed];
    assert s.CurrentOrder() == Some(FullLeft);
    s.Update(1999);
    assert b.orderQueue == [];
    s.Update(2000);
    assert b.orderQueue == [Order(FullLeft, 3000, 2000)];
    assert s.CurrentOrder() == Some(FullSpeed) && s.preparationStartTime == 2000;
    s.Update(4000);
    assert b.orderQueue == [Order(FullLeft, 3000, 2000), Order(FullSpeed, 3000, 4000)];
    assert s.GetSystemState() == Idle && s.QueuedOrders() == [];
  }
}
