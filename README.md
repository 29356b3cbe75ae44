# Tower of Tanoi: ring-stacking bookkeeping

A Dafny model of the game logic in `src/gameScene.ts` of a Tower-of-Hanoi-style toy
built on the kaboom engine. Towers keep a stack of the rings placed on them. Each
tower hands out the seat of the next ring: the tower's x, and its y raised by one
ring height per ring already below. A tower reports its top ring. A ring can be
highlighted (selected) and placed on a tower. The scene builds three towers and
three rings and stacks large, medium and small on the first tower. Four key
handlers act on the selected ring. The jump key acts only when the ring is
grounded, the arrow keys only when it is airborne, and Enter never acts.

Modules:

- `Wrappers` (`wrappers.dfy`): `Option`, with `None` standing for `undefined`.
- `Stacking` (`stacking.dfy`): the pure arithmetic. `Seat` is the seat of one stack
  position and `Seats` the seats of successive additions. `Top` is the last-element lookup.
- `Entities` (`entities.dfy`): the `Tower` and `Ring` classes, whose methods update
  their fields in place, and the size-to-width table `Width`.
- `Input` (`input.dfy`): the handlers' guards as one decision function `Handler`.
- `Scene` (`scene.dfy`): class `GameScene`, which does the setup and holds the
  handlers, plus two client methods that state multi-call behaviour.

The engine supplies whether a ring is grounded, so each handler takes it as a
boolean parameter. A jump is returned as `Jump(1000)`, the requested impulse. Its
physical effect is not modelled. Coordinates are integers because every constant in
the file is an integer.

The seat is computed after the append from `(length - 1) * RING_HEIGHT`, so the
first ring sits exactly at the tower's anchor.

## Model

| member | source | states |
|---|---|---|
| `Stacking.Seat` | src/gameScene.ts:30-33 | the seat keeps the tower's x; stack position 0 is the tower's anchor itself; position i lies exactly i ring heights above the anchor, so strictly above it when i > 0 |
| `Stacking.Seats` | src/gameScene.ts:28-33 | count successive additions to a tower holding `start` rings return seats for positions start, start+1, …; each seat has the same x as the one before and lies exactly one ring height above it |
| `Stacking.SeatsSplit` | src/gameScene.ts:28-33 | adding m rings and then n more hands out the same seats as adding m + n rings in one run (the seat depends only on the stack length) |
| `Stacking.SeatsDoNotOverlap` | src/gameScene.ts:30-33 | a ring seated later lies at least one ring height above any ring seated earlier on the same tower, and exactly (k − j) ring heights above it; bottom-anchored rings never overlap |
| `Stacking.Top` | src/gameScene.ts:35-37 | the lookup is None exactly when the list is empty; otherwise it is the last element |
| `Stacking.TopAfterPushes` | src/gameScene.ts:29-36 | after any sequence of appends the top is the last ring appended; with no appends it is unchanged |
| `Entities.Width` | src/gameScene.ts:77-88 | large ⇔ 150, medium ⇔ 110, small ⇔ 70, so distinct sizes have distinct widths |
| `Entities.Tower.constructor` | src/gameScene.ts:24-25 | a new tower has the given anchor and an empty stack |
| `Entities.Tower.AddRing` | src/gameScene.ts:28-34 | the stack becomes the old stack with the ring appended, without any size or duplicate check; the returned seat is that of the new top position |
| `Entities.Tower.AvailableRing` | src/gameScene.ts:35-37 | the tower's top ring is None exactly when its stack is empty, and otherwise the last ring added |
| `Entities.Ring.constructor` | src/gameScene.ts:71-101 | a new ring has the given colour, width `Width(size)`, height 40, position (0, 0) and a black outline of width 1 |
| `Entities.Ring.Select` | src/gameScene.ts:48-51 | the outline becomes cyan with width 2 whatever it was; the position does not change and no tower is touched |
| `Entities.Ring.PlaceOnTower` | src/gameScene.ts:52-56 | the tower's stack gains this ring at the end, and the ring's position becomes the seat the tower returned |
| `Entities.Ring.MoveBy` | src/gameScene.ts:163 | the engine's relative move: x and y grow by exactly dx and dy |
| `Input.Handler` | src/gameScene.ts:150-174 | with no ring selected nothing happens; Enter never acts; a jump happens iff Space, selected and grounded, with force 1000; a move happens iff Right/Left, selected and airborne, by +10/−10 in x and 0 in y |
| `Input.JumpAndMoveExclusive` | src/gameScene.ts:151-167 | for the same grounded reading, the jump guard and the move guards exclude each other |
| `Scene.GameScene.constructor` | src/gameScene.ts:118-141 | towers at (150,550), (400,550), (650,550); rings large/red, medium/yellow, small/green, each of height 40 with the unselected black outline of width 1; tower1 holds exactly [large, medium, small], seated at (150,550), (150,510), (150,470), which are `Seats(150, 550, 0, 3)`; tower1's top is the small ring; tower2 and tower3 are empty; no ring is selected |
| `Scene.GameScene.OnSpace` | src/gameScene.ts:150-156 | returns the jump effect of `Handler`; an impulse is requested iff a ring is selected and grounded; nothing changes |
| `Scene.GameScene.OnRight` | src/gameScene.ts:158-164 | an airborne selected ring moves by +10 in x and 0 in y; a grounded one does not move; its outline never changes; with none selected nothing changes |
| `Scene.GameScene.OnLeft` | src/gameScene.ts:166-172 | an airborne selected ring moves by −10 in x and 0 in y; a grounded one does not move; its outline never changes; with none selected nothing changes |
| `Scene.GameScene.OnEnter` | src/gameScene.ts:174 | the effect is `NoEffect` and nothing changes |
| `Scene.AddRings` | src/gameScene.ts:28-34 | adding any list of rings one after another to any tower appends exactly those rings in order, and the seats returned are `Seats` of the tower's anchor starting at its old stack length: each one ring height above the previous |
| `Scene.PlaceOnTwoTowers` | src/gameScene.ts:52-56 | placing a ring on one tower and then on another puts it at the second tower's seat, while the first tower still lists it and still reports it as its top ring |
| `Scene.SelectTwice` | src/gameScene.ts:48-51 | selecting twice leaves the same outline as selecting once (cyan, width 2); neither the position nor any tower's stack changes |

## Left out

- Rendering and entity construction through the engine (`add`, `rect`, `color`, `origin`, `area`, `body`, `solid`), the two ground planes and the towers' 50×250 footprint: they are engine calls with no logic of their own.
- Physics: what a jump impulse does to velocity, gravity, and how the engine decides that a ring is grounded. Grounded is a boolean parameter and a jump is a returned `Jump(1000)` request.
- The per-frame `onUpdate` callback: it only writes the top ring's id to the console.
- Registration of the handlers with `onKeyPress`/`onKeyDown` and the frame loop that calls them: only the handler bodies are modelled.
- Setting the selected ring: the source has no code that selects a ring. The scene starts with none, and the handlers are specified for both cases.
- Engine coordinates are floating point; the model uses integers, which is exact for every value this file produces.
- Input.JumpAndMoveExclusive: holds only for one grounded reading. Each handler asks the engine whether the ring is grounded for itself, and a jump requested by the Space handler can make the ring airborne before an arrow handler runs in the same frame; the model takes grounded as an input per handler call and does not capture that change.
