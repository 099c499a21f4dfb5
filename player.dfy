/** The player component and the two systems that drive it each tick: the
    movement pass (`PlayerMovement`) and the timer-expiry pass
    (`PlayerStateUpdate`), run in that order by `Tick`.

    The methods work on the `Player` and `Transform` objects in place; each is
    proved equal to a pure specification (`Movement`, `StateUpdate`, `Step`) on
    which the lemmas below state what a tick does. Time is in whole
    milliseconds; positions and speeds are exact reals. */
module PlayerControl {
  import opened Input
  import opened Geometry
  import Timers

  /** The five mutually exclusive states. */
  datatype PlayerState = Idle | Walking | Running | Rolling | Attacking

  /** The fields of the `Player` component, as one value. */
  datatype PlayerData = PlayerData(
    state: PlayerState,
    speed: real,
    runSpeedMultiplier: real,
    rollSpeed: real,
    rollTimer: Timers.Timer,
    rollCooldown: Timers.Timer,
    attackTimer: Timers.Timer,
    rollDirection: Vec2)

  /** A player together with the x/y part of its transform's translation. */
  datatype Frame = Frame(player: PlayerData, position: Vec2)

  /** One tick's input: the keyboard snapshot and the elapsed time in ms. */
  datatype TickInput = TickInput(keyboard: Keyboard, delta: nat)

  /** A duration in ms, in seconds. */
  function Seconds(delta: nat): real { delta as real / 1000.0 }

  /** `dir * speed * delta`: the displacement at `speed` units/s along `dir`
      over `delta` ms. */
  function Travel(dir: Vec2, speed: real, delta: nat): Vec2
  {
    Scale(dir, speed * Seconds(delta))
  }

  /** The walking speed, times the run multiplier when Run is held. */
  function MoveSpeed(p: PlayerData, run: bool): real
  {
    if run then p.speed * p.runSpeedMultiplier else p.speed
  }

  /** The speed of a roll: twice the running speed. */
  function RollSpeed(p: PlayerData): real
  {
    p.speed * p.runSpeedMultiplier * 2.0
  }

  /** `Player::default()`: idle, 300 units/s, run multiplier 2, roll speed 400,
      roll 200 ms, roll cooldown 350 ms, attack 300 ms, no roll direction. */
  function DefaultPlayer(): (p: PlayerData)
    ensures Inv(p) && p.state == Idle
    ensures !p.rollCooldown.Finished() && !p.rollTimer.Finished() && !p.attackTimer.Finished()
  {
    PlayerData(Idle, 300.0, 2.0, 400.0,
      Timers.FromMillis(200), Timers.FromMillis(350), Timers.FromMillis(300), ZeroVec)
  }

  /** What holds of a player between ticks: the timers are in range, a player
      in a timed state has a live timer, and a rolling player has a direction
      and the roll speed set when the roll began. */
  ghost predicate Inv(p: PlayerData)
  {
    p.rollTimer.Valid() && p.rollCooldown.Valid() && p.attackTimer.Valid()
    && (p.state == Rolling ==> !p.rollTimer.Finished())
    && (p.state == Attacking ==> !p.attackTimer.Finished())
    && (p.state == Rolling ==>
          p.rollDirection != ZeroVec && p.rollSpeed == RollSpeed(p))
  }

  /** The direction the movement keys ask for: left and right cancel on x, up
      and down cancel on y. */
  function ResolveDirection(b: InputBindings, kb: Keyboard): (d: Dir)
    ensures d.x == 0 <==> IsPressed(b, MoveLeft, kb) == IsPressed(b, MoveRight, kb)
    ensures d.x == 1 <==> IsPressed(b, MoveRight, kb) && !IsPressed(b, MoveLeft, kb)
    ensures d.x == -1 <==> IsPressed(b, MoveLeft, kb) && !IsPressed(b, MoveRight, kb)
    ensures d.y == 0 <==> IsPressed(b, MoveUp, kb) == IsPressed(b, MoveDown, kb)
    ensures d.y == 1 <==> IsPressed(b, MoveUp, kb) && !IsPressed(b, MoveDown, kb)
    ensures d.y == -1 <==> IsPressed(b, MoveDown, kb) && !IsPressed(b, MoveUp, kb)
  {
    var right := if IsPressed(b, MoveRight, kb) then 1 else 0;
    var left := if IsPressed(b, MoveLeft, kb) then 1 else 0;
    var up := if IsPressed(b, MoveUp, kb) then 1 else 0;
    var down := if IsPressed(b, MoveDown, kb) then 1 else 0;
    Dir(right - left, up - down)
  }

  /** The movement pass: advance the roll cooldown; a rolling player slides
      along its roll direction and an attacking one stays put; otherwise the
      keys set Idle, Walking or Running, may start a roll, and may start an
      attack that overrides the state. */
  function Movement(f: Frame, b: InputBindings, kb: Keyboard, delta: nat): (r: Frame)
    ensures r.player.speed == f.player.speed
    ensures r.player.runSpeedMultiplier == f.player.runSpeedMultiplier
    ensures r.player.rollCooldown == Timers.Tick(f.player.rollCooldown, delta)
         || (r.player.rollCooldown == Timers.Reset(f.player.rollCooldown)
             && Timers.Tick(f.player.rollCooldown, delta).Finished())
    ensures f.player.state in {Rolling, Attacking} ==> r.player.state == f.player.state
  {
    var p := f.player.(rollCooldown := Timers.Tick(f.player.rollCooldown, delta));
    if p.state == Rolling then
      Frame(p, Add(f.position, Travel(p.rollDirection, p.rollSpeed, delta)))
    else if p.state == Attacking then
      Frame(p, f.position)
    else
      StartAttack(Locomotion(Frame(p, f.position), b, kb, delta), b, kb)
  }

  /** The keys decide Idle, Walking or Running and move the player; a non-zero
      direction with Roll just pressed and the cooldown run out starts a roll. */
  function Locomotion(g: Frame, b: InputBindings, kb: Keyboard, delta: nat): Frame
  {
    var p := g.player;
    var d := ResolveDirection(b, kb);
    if d != Still then
      var u := Normalize(d);
      var pos := Add(g.position, Travel(u, MoveSpeed(p, IsPressed(b, Run, kb)), delta));
      var walking := p.(state := if IsPressed(b, Run, kb) then Running else Walking);
      if JustPressed(b, Roll, kb) && walking.rollCooldown.Finished() then
        Frame(walking.(state := Rolling,
                       rollTimer := Timers.Reset(walking.rollTimer),
                       rollDirection := u,
                       rollSpeed := RollSpeed(walking),
                       rollCooldown := Timers.Reset(walking.rollCooldown)), pos)
      else
        Frame(walking, pos)
    else
      Frame(p.(state := Idle), g.position)
  }

  /** Attack just pressed, when not already attacking, overrides the state. */
  function StartAttack(g: Frame, b: InputBindings, kb: Keyboard): Frame
  {
    if JustPressed(b, Attack, kb) && g.player.state != Attacking then
      g.(player := g.player.(state := Attacking, attackTimer := Timers.Reset(g.player.attackTimer)))
    else
      g
  }

  /** The timer-expiry pass: only a rolling or attacking player changes; the
      matching timer advances, and the player drops to Idle once it has run out. */
  function StateUpdate(p: PlayerData, delta: nat): (r: PlayerData)
    ensures p.state !in {Rolling, Attacking} ==> r == p
    ensures p.state == Rolling ==>
      r == p.(rollTimer := Timers.Tick(p.rollTimer, delta),
              state := if Timers.Tick(p.rollTimer, delta).Finished() then Idle else Rolling)
    ensures p.state == Attacking ==>
      r == p.(attackTimer := Timers.Tick(p.attackTimer, delta),
              state := if Timers.Tick(p.attackTimer, delta).Finished() then Idle else Attacking)
  {
    match p.state
    case Rolling =>
      var t := Timers.Tick(p.rollTimer, delta);
      p.(rollTimer := t, state := if t.Finished() then Idle else p.state)
    case Attacking =>
      var t := Timers.Tick(p.attackTimer, delta);
      p.(attackTimer := t, state := if t.Finished() then Idle else p.state)
    case _ => p
  }

  /** One whole tick: the movement pass, then the timer-expiry pass. */
  function Step(f: Frame, b: InputBindings, kb: Keyboard, delta: nat): (r: Frame)
    ensures Inv(f.player) ==> Inv(r.player)
  {
    var m := Movement(f, b, kb, delta);
    Frame(StateUpdate(m.player, delta), m.position)
  }

  /** A run of ticks under fixed bindings. */
  function Simulate(f: Frame, b: InputBindings, ticks: seq<TickInput>): Frame
    decreases |ticks|
  {
    if ticks == [] then f
    else Simulate(Step(f, b, ticks[0].keyboard, ticks[0].delta), b, ticks[1..])
  }

  /** The time a run of ticks covers, in ms. */
  function TotalDelta(ticks: seq<TickInput>): nat
  {
    if ticks == [] then 0 else ticks[0].delta + TotalDelta(ticks[1..])
  }

  /** The last tick of a non-empty run. */
  function Last(ticks: seq<TickInput>): TickInput
    requires ticks != []
  {
    ticks[|ticks| - 1]
  }

  /** The display colour the presentation step picks for each state. */
  datatype Color = Blue | Green | Red | Yellow | Purple

  function ColorOf(s: PlayerState): Color
  {
    match s
    case Idle => Blue
    case Walking => Green
    case Running => Red
    case Rolling => Yellow
    case Attacking => Purple
  }

  /** Travelling along `dir` for `a` ms and then for `b` ms covers the same
      ground as travelling for `a + b` ms. */
  lemma TravelAddsUp(p: Vec2, dir: Vec2, speed: real, a: nat, b: nat)
    ensures Add(Add(p, Travel(dir, speed, a)), Travel(dir, speed, b)) == Add(p, Travel(dir, speed, a + b))
  {
    assert Seconds(a) + Seconds(b) == Seconds(a + b);
    assert speed * Seconds(a) + speed * Seconds(b) == speed * Seconds(a + b);
    ScaleAddsUp(p, dir, speed * Seconds(a), speed * Seconds(b));
  }

  /** The entity's spatial transform; only the x/y translation is modelled. */
  class Transform {
    var translation: Vec2

    constructor (position: Vec2)
      ensures translation == position
    {
      translation := position;
    }
  }

  /** The `Player` component, updated in place by the systems below. */
  class Player {
    var state: PlayerState
    var speed: real
    var runSpeedMultiplier: real
    var rollSpeed: real
    var rollTimer: Timers.Timer
    var rollCooldown: Timers.Timer
    var attackTimer: Timers.Timer
    var rollDirection: Vec2

    /** The component's fields as a value. */
    function Model(): PlayerData
      reads this
    {
      PlayerData(state, speed, runSpeedMultiplier, rollSpeed,
                 rollTimer, rollCooldown, attackTimer, rollDirection)
    }

    constructor Default()
      ensures Model() == DefaultPlayer() && Inv(Model())
    {
      state := Idle;
      speed := 300.0;
      runSpeedMultiplier := 2.0;
      rollSpeed := 400.0;
      rollTimer := Timers.FromMillis(200);
      rollCooldown := Timers.FromMillis(350);
      attackTimer := Timers.FromMillis(300);
      rollDirection := ZeroVec;
    }
  }

  /** The `player_movement` system. */
  method PlayerMovement(kb: Keyboard, b: InputBindings, delta: nat, transform: Transform, player: Player)
    modifies transform, player
    ensures Frame(player.Model(), transform.translation)
         == Movement(Frame(old(player.Model()), old(transform.translation)), b, kb, delta)
  {
    player.rollCooldown := Timers.Tick(player.rollCooldown, delta);

    if player.state == Rolling {
      transform.translation :=
        Add(transform.translation, Travel(player.rollDirection, player.rollSpeed, delta));
      return;
    }

    if player.state == Attacking {
      return;
    }
    ghost var start := Frame(player.Model(), transform.translation);

    var direction := KeyDirection(b, kb);

    if direction != Still {
      var u := Normalize(direction);
      var speed := if IsPressed(b, Run, kb) then player.speed * player.runSpeedMultiplier else player.speed;
      assert speed == MoveSpeed(start.player, IsPressed(b, Run, kb));
      transform.translation := Add(transform.translation, Travel(u, speed, delta));
      player.state := if IsPressed(b, Run, kb) then Running else Walking;

      if JustPressed(b, Roll, kb) && player.rollCooldown.Finished() {
        player.state := Rolling;
        player.rollTimer := Timers.Reset(player.rollTimer);
        player.rollDirection := u;
        assert player.speed == start.player.speed && player.runSpeedMultiplier == start.player.runSpeedMultiplier;
        player.rollSpeed := player.speed * player.runSpeedMultiplier * 2.0;
        player.rollCooldown := Timers.Reset(player.rollCooldown);
        assert Frame(player.Model(), transform.translation) == Locomotion(start, b, kb, delta);
      } else {
        assert Frame(player.Model(), transform.translation) == Locomotion(start, b, kb, delta);
      }
    } else {
      player.state := Idle;
      assert Frame(player.Model(), transform.translation) == Locomotion(start, b, kb, delta);
    }

    if JustPressed(b, Attack, kb) && player.state != Attacking {
      player.state := Attacking;
      player.attackTimer := Timers.Reset(player.attackTimer);
    }
  }

  /** The direction block of `player_movement`: start from zero, then each held
      movement action pushes one component by one. */
  method KeyDirection(b: InputBindings, kb: Keyboard) returns (direction: Dir)
    ensures direction == ResolveDirection(b, kb)
  {
    var dx: int, dy: int := 0, 0;
    if IsPressed(b, MoveLeft, kb) {
      dx := dx - 1;
    }
    if IsPressed(b, MoveRight, kb) {
      dx := dx + 1;
    }
    if IsPressed(b, MoveUp, kb) {
      dy := dy + 1;
    }
    if IsPressed(b, MoveDown, kb) {
      dy := dy - 1;
    }
    direction := Dir(dx, dy);
  }

  /** The `player_state_update` system. */
  method PlayerStateUpdate(delta: nat, player: Player)
    modifies player
    ensures player.Model() == StateUpdate(old(player.Model()), delta)
  {
    match player.state {
      case Rolling =>
        player.rollTimer := Timers.Tick(player.rollTimer, delta);
        if player.rollTimer.Finished() {
          player.state := Idle;
        }
      case Attacking =>
        player.attackTimer := Timers.Tick(player.attackTimer, delta);
        if player.attackTimer.Finished() {
          player.state := Idle;
        }
      case _ =>
    }
  }

  /** One frame of the chained systems: movement, then state update. */
  method Tick(kb: Keyboard, b: InputBindings, delta: nat, transform: Transform, player: Player)
    modifies transform, player
    ensures Frame(player.Model(), transform.translation)
         == Step(Frame(old(player.Model()), old(transform.translation)), b, kb, delta)
    ensures Inv(old(player.Model())) ==> Inv(player.Model())
  {
    PlayerMovement(kb, b, delta, transform, player);
    PlayerStateUpdate(delta, player);
  }
}
