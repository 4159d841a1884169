# Boat orders: a Dafny model

This project models the core of a small browser game in which an operator steers a
boat towards a moving target by issuing orders (stop, half or full speed, half or
full turn to the left or right). The model covers four parts of the game:

- **The command scheduler** (`Orders`, from `src/systems/OrderSystem.ts`). This is a FIFO
  of move commands plus a two-state machine, `Idle` and `Preparing`. A submitted command
  starts preparing at once if the scheduler is idle. Once its preparation delay (2000 ms by
  default) has passed, it is executed exactly once: it queues its order on the boat. The
  scheduler then goes back to `Idle` and starts the next queued command in the same call.
- **The boat** (`Boats`, from `src/entities/Boat.ts`). This is a second FIFO, of timed
  orders, with one slot for the order in effect. Each frame first promotes the queue head
  into an empty slot and restamps its start time. It then drops the order in effect once
  its duration has passed. Last, it sets or damps the velocity according to the order
  still in effect and advances the position.
- **The target** (`Targets`, from `src/entities/Target.ts`). This is a disc that slides
  along x and bounces off the canvas edges.
- **The game state** (`Game`, from `src/systems/GameState.ts`). This covers the status
  gate on each frame, the play-area clamp of the boat, the win check and its score,
  restart, and resize.

`Basics` holds the small value types the modules share. This includes `Num`, the result
of JavaScript's `Math.min(a / b, 1)`, spelled out for a zero divisor.

The objects that the game updates in place are Dafny classes: `Boat`, `Target`,
`OrderSystem` and `GameState`. Each has a `Valid()` invariant. Each method's `ensures`
gives the new state in terms of the old one, through pure specification functions:
`Processed`, `Steer`, `Bounce`, `ClampAxis`, `Score` and `Rescale`. The timing and FIFO
properties are stated on two ghost logs:

- The boat keeps `Added == Promoted + orderQueue`. Every order added has either become
  current or is still queued, in the order added.
- The scheduler keeps `Accepted == Executed + InFlight() + commandQueue`, counted since the
  last `ClearQueue`. So commands are executed in submission order, none is executed twice,
  and none still queued has been executed.

The scheduler's invariant also gives `Preparing` iff a command is in flight, and `Idle`
implies an empty queue.

The code, not a description of it, decides what is modelled. The scheduler has only the
two states `Idle` and `Preparing`; there is no executing phase. Nothing validates a
command's durations. The boat has no rotation, angular velocity or acceleration. Speed
orders set the vertical velocity and turn orders set the horizontal velocity directly.

Each read of the wall clock (`Date.now()`) becomes an explicit `now: int` parameter in
milliseconds. Positions and velocities are exact `real`s. Frame times are `real`
milliseconds.

## Model

| member | source | states |
|---|---|---|
| `Basics.MinRatioOne` | src/entities/Boat.ts:131-135 | `Math.min(elapsed / duration, 1)` is never above 1. It is in [0, 1] for a non-negative elapsed time and a positive duration, and it is exactly 1 once the elapsed time reaches the duration. A zero divisor gives NaN (0/0), -Infinity or 1. |
| `Basics.MinRatioOneMonotone` | src/systems/OrderSystem.ts:110-116 | With a positive duration the progress value never decreases as time passes. |
| `Boats.Steer` | src/entities/Boat.ts:64-99 | With no order, both velocity components are damped by 0.95; a stop order damps both by 0.9. Speed orders set only the y component, to -100 or -50. Turn orders set only the x component, to -100/-50 for left and +100/+50 for right. No frame makes either component faster than the maximum speed of 100. |
| `Boats.CoastIsGeometric` | src/entities/Boat.ts:65-70 | After n frames with no order in effect, the velocity is 0.95^n times what it was. |
| `Boats.Processed` | src/entities/Boat.ts:50-62 | The queue head is promoted only into an empty slot, restamped with `now`, and leaves the queue; otherwise the queue is untouched. An order is dropped exactly when `now - startTime >= duration`, which happens in the promoting call itself when the duration is 0 or less. Whatever stays in effect has time left. |
| `Boats.Boat.constructor` | src/entities/Boat.ts:31-34 | A new boat is at the given position, at rest, and has no orders. |
| `Boats.Boat.AddOrder` | src/entities/Boat.ts:36-43 | Appends one order with the given type and duration (default 3000), stamped `now`, to the end of the queue. The order in effect, the position and the velocity are unchanged. |
| `Boats.Boat.Update` | src/entities/Boat.ts:45-48 | Orders are processed before movement. So the velocity follows the order left in effect after processing, and an order that expires this frame has no effect on it. The position then moves by the new velocity times dt/1000. |
| `Boats.Boat.ProcessOrders` | src/entities/Boat.ts:50-62 | The new order slot and queue are `Processed` of the old ones. Orders become current in FIFO order, each at most once (the `Promoted` log grows by the old queue head exactly when it is promoted). |
| `Boats.Boat.UpdateMovement` | src/entities/Boat.ts:64-103 | The velocity becomes `Steer` of the order in effect and the old velocity. The position advances by the new velocity; the orders are unchanged. |
| `Boats.Boat.OrderProgress` | src/entities/Boat.ts:131-135 | 0 with no order in effect. Otherwise it is a finite number never above 1 (the invariant keeps the order's duration positive), non-negative once `now` has reached the start time, and equal to 1 exactly when the order's time is up. |
| `Boats.Boat.CurrentOrderType` | src/entities/Boat.ts:137-139 | The type of the order in effect, or none exactly when no order is in effect. |
| `Targets.Bounce` | src/entities/Target.ts:15-25 | On a canvas at least 2·radius wide, the disc ends in [radius, width - radius]. Touching or passing the right edge gives direction -1 at `width - radius`, and this test is made first. Otherwise touching the left edge gives direction 1 at `radius`. The direction stays one of ±1 and changes only at an edge. |
| `Targets.Target.constructor` | src/entities/Target.ts:10-13 | A new target is at the given position, heading right (+1), with the given canvas width. |
| `Targets.Target.Update` | src/entities/Target.ts:15-25 | The new x and direction are `Bounce` of the old ones. The y coordinate and the canvas width are unchanged, and the direction stays ±1. |
| `Targets.Target.SetBounds` | src/entities/Target.ts:46-48 | Only the canvas width changes. |
| `Orders.Command.Execute` | src/systems/OrderSystem.ts:24-26 | Forwards exactly the command's `(orderType, duration)` to its boat's `AddOrder`, so one order stamped `now` joins the end of that boat's queue and nothing else on the boat changes. |
| `Orders.Kinds` | src/systems/OrderSystem.ts:93-95 | Mapping commands to their order types keeps the length and the order of the commands. |
| `Orders.OrderSystem.constructor` | src/systems/OrderSystem.ts:43-52 | A new scheduler is idle with an empty queue, no current command and start time 0, bound to the given boat. |
| `Orders.OrderSystem.AddCommand` | src/systems/OrderSystem.ts:54-57 | An idle scheduler makes the new command current at once, with state `Preparing`, an empty queue and preparation time `now`. A busy one appends the command to the tail of the queue and changes nothing else. Either way the command joins the `Accepted` log and the invariant holds again. |
| `Orders.OrderSystem.AddOrder` | src/systems/OrderSystem.ts:59-62 | Submits a move command for the scheduler's own boat, with the given duration (default 3000) and the default preparation delay of 2000, with the same effect as `AddCommand`. |
| `Orders.OrderSystem.Update` | src/systems/OrderSystem.ts:64-68 | Nothing changes, the boat included, unless the scheduler is preparing and `now - preparationStartTime >= preparationDuration`. Then the current command is executed exactly once: one order joins its boat's queue and one entry joins `Executed`. The head of the queue, if any, starts preparing at the same `now`; otherwise the scheduler is idle. |
| `Orders.OrderSystem.ProcessNextCommand` | src/systems/OrderSystem.ts:70-78 | Changes nothing when preparing or when the queue is empty. Otherwise it dequeues the head into the current slot, switches to `Preparing` and records `now`. Afterwards idle implies an empty queue. |
| `Orders.OrderSystem.UpdatePreparation` | src/systems/OrderSystem.ts:80-91 | Executes the current command only once its preparation delay has passed. It then returns to idle and immediately starts the next queued command. Before the delay has passed, it leaves the scheduler and the boat untouched. |
| `Orders.OrderSystem.QueuedOrders` | src/systems/OrderSystem.ts:93-95 | The types of the queued commands, in queue order. |
| `Orders.OrderSystem.ClearQueue` | src/systems/OrderSystem.ts:97-101 | Leaves an empty queue, state `Idle` and no current command. It executes nothing and touches only the scheduler, so the boat is untouched. |
| `Orders.OrderSystem.CurrentOrder` | src/systems/OrderSystem.ts:103-108 | The type of the command in preparation. Under the invariant it is present exactly when the state is `Preparing`. |
| `Orders.OrderSystem.OrderProgress` | src/systems/OrderSystem.ts:110-116 | 0 when not preparing and never above 1. With a positive delay and `now` at or after the start, it is in [0, 1] and reaches 1 exactly when the command is due for execution. |
| `Orders.OrderSystem.GetSystemState` | src/systems/OrderSystem.ts:118-120 | Under the invariant, `Idle` holds exactly when no command is current, and `Idle` implies an empty queue. |
| `Orders.OrderSystem.IsInPreparation` | src/systems/OrderSystem.ts:122-124 | True exactly in state `Preparing`, which under the invariant is exactly when `CurrentOrder` is present. |
| `Game.ClampAxis` | src/systems/GameState.ts:68-90 | On a canvas at least `2·margin + size` wide (margin 10), the boat's box ends at least `margin` inside on that axis. An axis already in bounds keeps its position and velocity. An axis that had to be clamped is moved to one of the two limits and its velocity becomes 0. |
| `Game.ClampIdempotent` | src/systems/GameState.ts:68-90 | Clamping an already clamped axis changes nothing. |
| `Game.Score` | src/systems/GameState.ts:95 | `max(0, 1000 - floor(elapsed / 100))` is at least 0, at most 1000 for a non-negative elapsed time, and 0 exactly from 100 s on. One point is lost per full 100 ms. |
| `Game.ScoreNonIncreasing` | src/systems/GameState.ts:95 | Reaching the target later never scores more. |
| `Game.Rescale` | src/systems/GameState.ts:140-145 | The rescaled coordinate keeps its fraction of the canvas (`x' / newWidth == x / oldWidth`), and a canvas that keeps its size leaves the coordinate where it was. |
| `Game.GameState.constructor` | src/systems/GameState.ts:18-26 | A new game is playing with score 0, started at `now`. Its boat is at `(width/2, height - 80)`, its target is at `(width/2, 60)` with the canvas width as bound, and its scheduler is idle and bound to that boat. |
| `Game.GameState.Update` | src/systems/GameState.ts:28-38 | Nothing changes unless the status is `Playing`, so a won game stays won until `Reset`. Otherwise the boat update, the target update, the clamp and the collision check run in that order. The final boat state is the clamp of the boat's own step, and a collision (tested on the end-of-frame positions) sets `Won` and the score for `now - gameStartTime`. |
| `Game.GameState.KeepBoatInBounds` | src/systems/GameState.ts:68-90 | Both boat axes become `ClampAxis` of their old position and velocity. The boat's orders are untouched. |
| `Game.GameState.CheckCollisions` | src/systems/GameState.ts:92-97 | A collision sets status `Won` and the score from the elapsed time. Without one, status and score are unchanged. |
| `Game.GameState.Reset` | src/systems/GameState.ts:118-126 | Sets status `Playing`, score 0 and start time `now`. It builds a fresh boat, target and scheduler from the current canvas size, with the scheduler bound to the new boat. |
| `Game.GameState.Resize` | src/systems/GameState.ts:132-147 | Records the new canvas size and rescales the boat and target positions proportionally on each axis. It sets the target's bound to the new width and leaves velocities, orders, status and score unchanged. |

`Orders.TurnThenAhead` is a client of the scheduler's contracts. A full-left order is
submitted at 0 ms and a full-speed order at 500 ms. The left turn reaches the boat at
2000 ms, the speed order starts preparing at that same moment and reaches the boat at
4000 ms, and the scheduler is then idle.

## Left out

- Rendering (`GameState.render`, `drawGameCanvas`, `drawWinMessage`, `Boat.render`, `Target.render`): canvas drawing only.
- `src/ui/UIController.ts`, `src/main.ts` and `vite.config.ts`: DOM wiring, a demo animation and build configuration, outside the core.
- `Target.checkCollision` (src/entities/Target.ts:37-44): it is a floating-point distance test with `Math.sqrt`. `GameState.Update` and `CheckCollisions` take it as a parameter `collides`, a total function of the target's and the boat's positions.
- `GameState.getGameTime` (src/systems/GameState.ts:128-130): a clock read minus the start time, used only by the interface.
- `Date.now()`: every read becomes the parameter `now`. `Boat.processOrders` reads the clock twice in one call; the model uses one instant for both reads.
- IEEE-754 rounding in the velocity, position, resize and progress arithmetic: the model computes with exact reals. Only the zero divisor of the two progress getters is kept, as `Num`.
- The `Command` interface: `MoveCommand` is its only implementation, so a command is a datatype with one constructor. `getType`, `getDuration` and `getPreparationDuration` are its fields.
- `Orders.OrderSystem.UpdatePreparation`: the source's early return when no command is current cannot happen in state `Preparing` under the invariant, so the method requires that state instead of repeating the test.
- `Orders.OrderSystem.Update`: requires the boat of the command in preparation to satisfy `Boat.Valid()`. Every constructed boat keeps that invariant; the requirement lets the contract say what executing does to that boat.
- `Game.GameState.Resize`: requires the old canvas width and height to be non-zero. With a zero-sized canvas the source divides by zero and the positions become NaN or infinite.
- `Game.GameState.Update`: does not call the scheduler's `update`, because the source's frame does not. The scheduler is driven by its own caller.
- The `PAUSED` status: it is declared but never set in these files. The model keeps it as `Paused`, which `Update` treats like `Won`.
