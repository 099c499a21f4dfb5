# Player control for a top-down Bevy game, in Dafny

This project models the player-control core of a small top-down action game
built on the Bevy engine:

- the **action bindings**: a table from game actions (move left/right/up/down,
  run, attack, roll, switch level) to keys, and the two queries on it, "held"
  and "just pressed";
- the **player component**, with its five states: Idle, Walking, Running,
  Rolling and Attacking;
- the **two systems that run every frame, in order**:
  - the movement pass advances the roll cooldown, moves the player and picks
    its state, starting rolls and attacks;
  - the timer-expiry pass ends a roll or an attack once its timer has run
    out.

Modules:

- `Input`: the bindings and queries, as datatypes and functions. The
  engine's keyboard is a per-tick snapshot: the set of keys held and the set
  of keys newly pressed.
- `Timers`: the engine's once-mode timer, over whole milliseconds. Ticking
  stops at the duration, and the timer stays finished until it is reset.
- `Geometry`: exact plane vectors. Each coordinate is `a + b/√2`, so the
  normalisation of the eight key directions is exact. No rounding is
  modelled.
- `PlayerControl`:
  - `Player` and `Transform` are classes. The systems `PlayerMovement`,
    `PlayerStateUpdate` and `Tick` update them in place.
  - Each method is proved equal to a pure function on values (`Movement`,
    `StateUpdate`, `Step`). `Step` also preserves the invariant `Inv` between
    frames.
  - `Simulate` runs a sequence of ticks.
- `PlayerProperties`: lemmas about one tick and about runs of ticks.

Inputs the game reads from the engine are parameters of the model:

- the keyboard snapshot;
- the bindings resource;
- the frame time `delta`, in milliseconds.

Two behaviours of the code are worth knowing, and the model follows the
code in both:

- **A timed state can expire in the tick that starts it.** The movement
  pass resets the attack timer (src/player.rs:99) or the roll timer
  (src/player.rs:87) when it starts an attack or a roll. The expiry pass
  that runs next in the same frame ticks that same timer by the same
  `delta` (src/player.rs:111, :117). So a frame at least as long as the
  timer (300 ms for an attack, 200 ms for a roll) enters the state and
  leaves it within one tick. `PlayerProperties.SameTickExpiry` states this.
- **A roll can start from Idle.** The comment at src/player.rs:84 says a
  roll is only allowed "when walking or running". The code sets Walking or
  Running at src/player.rs:78-82 just before the roll check, so any player
  who is not rolling or attacking, and whose keys give a direction this
  tick, can start a roll, even one that was Idle in the previous tick.
- **The tick that starts an attack still moves the player.** Movement at
  src/player.rs:66-76 runs before the attack check at src/player.rs:97-100;
  an attacking player stands still only from the next tick on
  (`PlayerProperties.ScenarioAttackFromIdle`, `AttackingStandsStill`).

## Model

| member | source | states |
|---|---|---|
| Input.AnyDown | src/input.rs:47 | the `any` over a key list holds iff some key of the list is in the given key set |
| Input.IsPressed | src/input.rs:45-51 | an action is pressed iff it is bound and some bound key is held; an unbound action is never pressed |
| Input.JustPressed | src/input.rs:54-60 | an action is just pressed iff it is bound and some bound key was pressed this tick; an unbound action never is |
| Input.Default | src/input.rs:24-41 | the startup table binds every one of the nine actions to a non-empty key list |
| Input.EveryActionIsBound | src/input.rs:29-37 | a table with a non-empty entry for each of the nine actions covers every action |
| Input.QueriesSeeOnlyBoundKeys | src/input.rs:45-60 | each query holds iff the set of bound keys meets the held (resp. just-pressed) set |
| Input.QueriesIgnoreKeyOrder | src/input.rs:45-60 | two tables binding the same key set to an action answer both queries alike: order and repeats in a list do not matter |
| Input.PressedIsMonotone | src/input.rs:45-60 | holding or pressing more keys never turns an action off |
| Input.DefaultKeysAreDisjoint | src/input.rs:29-37 | in the default table no key is bound to two actions |
| Input.DefaultQueries | src/input.rs:29-37 | the default table read through the queries: MoveLeft is A or ←, Run is left Shift, Attack is E, Roll is Space, and so on |
| Timers.FromMillis | src/player.rs:147-149 | a new once-mode timer starts at zero elapsed and is finished only if its duration is zero |
| Timers.Tick | src/player.rs:35 | ticking keeps the duration and the range invariant; the result is finished iff the elapsed time plus `delta` reaches the duration, and otherwise has advanced by exactly `delta` |
| Timers.Reset | src/player.rs:87 | a reset timer keeps its duration, has zero elapsed, and is finished only if its duration is zero |
| Timers.OnceStaysFinished | src/player.rs:35 | a finished once-mode timer stays finished however far it is ticked |
| Timers.TickAdditive | src/player.rs:111 | ticking by `a` and then by `b` is ticking by `a + b` |
| Timers.ResetThenTick | src/player.rs:87-90 | after a reset, a tick finishes the timer iff it covers the whole duration; resetting forgets any earlier ticks |
| Geometry.ToVec | src/player.rs:51-64 | a sign pair is the zero vector iff both signs are zero |
| Geometry.Normalize | src/player.rs:67 | an axis direction is unchanged; each component is zero exactly when the sign is; each component keeps its sign; diagonals have equal or opposite components |
| Geometry.ScaleAddsUp | src/player.rs:74-76 | moving along a vector by `r1` and then by `r2` is moving along it by `r1 + r2` |
| PlayerControl.DefaultPlayer | src/player.rs:141-152 | the default player is Idle, satisfies the invariant, and none of its three timers is finished |
| PlayerControl.ResolveDirection | src/player.rs:51-64 | each axis is 0 when both or neither of its keys are held, +1 or -1 when only one is; in both directions |
| PlayerControl.Movement | src/player.rs:25-101 | the movement pass keeps speed and run multiplier; it either advances the cooldown by `delta` or resets an already run-out cooldown; it keeps a Rolling or Attacking state |
| PlayerControl.StateUpdate | src/player.rs:103-124 | only Rolling and Attacking players change; the matching timer advances by `delta` and the player becomes Idle exactly when it is finished |
| PlayerControl.Step | src/player.rs:154-158 | a whole frame (movement, then expiry) preserves the between-frame invariant `Inv` |
| PlayerControl.TravelAddsUp | src/player.rs:39-41 | travelling for `a` ms and then `b` ms covers the same ground as travelling for `a + b` ms |
| PlayerControl.Player.Default | src/player.rs:141-152 | the constructed component holds exactly the default player's field values, and satisfies the invariant |
| PlayerControl.PlayerMovement | src/player.rs:25-101 | the in-place movement system leaves the component and translation equal to `Movement` applied to their old values |
| PlayerControl.KeyDirection | src/player.rs:51-64 | the four sequential tests of the movement actions compute `ResolveDirection` |
| PlayerControl.PlayerStateUpdate | src/player.rs:103-124 | the in-place expiry system leaves the component equal to `StateUpdate` of its old value |
| PlayerControl.Tick | src/player.rs:154-158 | the chained systems compute `Step` and preserve the invariant |
| PlayerProperties.RollingSlides | src/player.rs:35-43 | a rolling player moves by roll direction × roll speed × time whatever keys are held, and nothing but the cooldown changes on it |
| PlayerProperties.AttackingStandsStill | src/player.rs:46-48 | an attacking player keeps its position, and nothing but the cooldown changes on it |
| PlayerProperties.TimedStatesIgnoreInput | src/player.rs:38-48 | in the Rolling and Attacking states the movement pass gives the same result under any keys and any bindings |
| PlayerProperties.OppositeKeysCancel | src/player.rs:51-64 | holding both keys of an axis gives 0 on that axis |
| PlayerProperties.LocomotionPosition | src/player.rs:66-94 | outside the timed states: no direction keeps the position; otherwise the player moves along the normalised direction at the walking speed, or the running speed exactly when Run is held |
| PlayerProperties.LocomotionState | src/player.rs:66-100 | outside the timed states the state after the movement pass is Attacking, Idle, Rolling, Running or Walking by the code's priority |
| PlayerProperties.RollStart | src/player.rs:85-91 | when all three roll conditions hold, both roll timers are reset, the roll direction is this tick's non-zero unit direction, the roll speed is twice the running speed, and the state is Rolling unless an attack overrides it |
| PlayerProperties.NoRollWithoutTrigger | src/player.rs:85-91 | when any roll condition fails, including a zero direction, the roll timer, direction and speed are kept, the cooldown only advances, and no roll begins |
| PlayerProperties.AttackOverrides | src/player.rs:85-100 | Attack just pressed outside the timed states ends in Attacking with a reset attack timer; a roll started in the same tick keeps its timer and cooldown resets |
| PlayerProperties.NoAttackWithoutPress | src/player.rs:96-100 | without an Attack press the attack timer is unchanged and no attack begins |
| PlayerProperties.SameTickExpiry | src/player.rs:96-121 | an attack or roll started in a tick at least as long as its timer is over by the end of that tick |
| PlayerProperties.AttackPhase | src/player.rs:116-121 | for a player satisfying the between-frame invariant, across a run of ticks an attacking player never moves, whatever keys are held; its attack timer advances by the run's total time; it ends Idle exactly when that time covers the rest of the attack |
| PlayerProperties.RollPhase | src/player.rs:110-115 | for a player satisfying the between-frame invariant, across a run of ticks a rolling player keeps its direction and speed; it slides by direction × speed × total time, whatever keys are held; it ends Idle exactly when that time covers the rest of the roll |
| PlayerProperties.NoRollBeforeCooldown | src/player.rs:85 | over any run of ticks ending before the roll cooldown runs out, a player who was not rolling never rolls, whatever keys are pressed, and the cooldown advances by the run's total time |
| PlayerProperties.NoRollRightAfterSpawn | src/player.rs:148 | over any run of ticks totalling less than 350 ms from spawn, the player never rolls |
| PlayerProperties.StepRight | src/player.rs:66-82 | holding only MoveRight, without Roll, moves the player right by speed × time, at the running speed exactly when Run is held, even in a tick that starts an attack; without Attack it ends Walking or Running accordingly |
| PlayerProperties.DefaultKeysForRight | src/input.rs:29-37 | with the default table, holding D (with or without left Shift) presses MoveRight and no other movement action, Run exactly with Shift, Attack and Roll exactly with E and Space |
| PlayerProperties.DefaultSpeeds | src/player.rs:141-152 | the default player walks at 300 units/s, runs at 600 and rolls at 1200 |
| PlayerProperties.ScenarioNoKeys | src/player.rs:92-94 | with no key held a player outside the timed states becomes Idle in place, and only its cooldown advances |
| PlayerProperties.ScenarioWalkRight | src/player.rs:66-82 | holding D for one second walks the default player 300 units right |
| PlayerProperties.ScenarioRunRight | src/player.rs:68-82 | holding D and Shift for half a second runs it 300 units right |
| PlayerProperties.RollOutlastsShortTick | src/player.rs:85-115 | a roll started in a tick shorter than the roll timer is still Rolling at the end of the tick, at the roll speed, along this tick's unit direction, with its timer advanced by the tick |
| PlayerProperties.ScenarioRollFromWalk | src/player.rs:85-91 | D with Space, once the cooldown has run out, starts a roll right at 1200 units/s |
| PlayerProperties.ScenarioAttackFromIdle | src/player.rs:66-100 | E starts a 300 ms attack even while a movement key is held, and in that first tick the player still walks 4.8 units right |
| PlayerProperties.ColorsTellStatesApart | src/player.rs:131-137 | the presentation colour determines the state |

## Left out

- `update_player_color` (src/player.rs:126-138) is only modelled as the
  state-to-colour-name function `ColorOf`. The sprite and its RGB float
  values are rendering.
- f32 arithmetic. Speeds and positions are exact reals, so no rounding and
  no overflow are modelled.
- Geometry.Normalize: `Vec2::normalize` is computed exactly, but the model
  does not prove that a diagonal has unit length. It proves only the sign
  and symmetry properties listed above, and that axis directions are
  unchanged.
- Only the x/y translation of the `Transform` is modelled. The code never
  changes z.
- The engine's `Timer` and `Time` are not part of this model. Time is whole
  milliseconds. The once-mode timer is modelled by its duration and elapsed
  time only; its repeating mode and its "just finished" flag are not used by
  the core.
- `ButtonInput` edge detection belongs to the engine. A tick's keyboard is
  a snapshot given as input, and the model does not relate consecutive
  snapshots.
- `query.single_mut()` assumes exactly one player entity. The model takes
  the one `Player` and `Transform` as method parameters, and has no
  entity queries or scheduling.
- Level switching (`src/levels/`) and app wiring (`src/main.rs`) are not
  part of this model. They are entity spawn and despawn commands and
  plugin setup.
