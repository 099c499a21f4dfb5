/** What one tick, and a run of ticks, does to the player: the properties of
    the movement pass, the timer-expiry pass and the two timed states. */
module PlayerProperties {
  import opened Input
  import opened Geometry
  import Timers
  import opened PlayerControl

  /** A rolling player slides along its frozen roll direction at the roll
      speed; only the cooldown changes on the player. */
  lemma RollingSlides(f: Frame, b: InputBindings, kb: Keyboard, delta: nat)
    requires f.player.state == Rolling
    ensures Movement(f, b, kb, delta).position
         == Add(f.position, Travel(f.player.rollDirection, f.player.rollSpeed, delta))
    ensures Movement(f, b, kb, delta).player
         == f.player.(rollCooldown := Timers.Tick(f.player.rollCooldown, delta))
  {
  }

  /** An attacking player does not move; only the cooldown changes. */
  lemma AttackingStandsStill(f: Frame, b: InputBindings, kb: Keyboard, delta: nat)
    requires f.player.state == Attacking
    ensures Movement(f, b, kb, delta).position == f.position
    ensures Movement(f, b, kb, delta).player
         == f.player.(rollCooldown := Timers.Tick(f.player.rollCooldown, delta))
  {
  }

  /** In the two timed states the movement pass does not look at the keys or
      the bindings at all: held movement keys, Roll and Attack are ignored. */
  lemma TimedStatesIgnoreInput(f: Frame, b1: InputBindings, kb1: Keyboard,
                               b2: InputBindings, kb2: Keyboard, delta: nat)
    requires f.player.state == Rolling || f.player.state == Attacking
    ensures Movement(f, b1, kb1, delta) == Movement(f, b2, kb2, delta)
  {
  }

  /** Opposite keys cancel: holding both keys of an axis gives 0 on that axis. */
  lemma OppositeKeysCancel(b: InputBindings, kb: Keyboard)
    ensures IsPressed(b, MoveLeft, kb) && IsPressed(b, MoveRight, kb) ==> ResolveDirection(b, kb).x == 0
    ensures IsPressed(b, MoveUp, kb) && IsPressed(b, MoveDown, kb) ==> ResolveDirection(b, kb).y == 0
  {
  }

  /** Outside the timed states: with no direction the player stays in place;
      with one it moves along the normalised direction at the walking speed,
      or at the running speed exactly when Run is held. */
  lemma LocomotionPosition(f: Frame, b: InputBindings, kb: Keyboard, delta: nat)
    requires f.player.state != Rolling && f.player.state != Attacking
    ensures var d := ResolveDirection(b, kb);
            Movement(f, b, kb, delta).position
              == if d == Still then f.position
                 else Add(f.position, Travel(Normalize(d), MoveSpeed(f.player, IsPressed(b, Run, kb)), delta))
  {
    var p := f.player.(rollCooldown := Timers.Tick(f.player.rollCooldown, delta));
    var g := Locomotion(Frame(p, f.position), b, kb, delta);
    assert Movement(f, b, kb, delta) == StartAttack(g, b, kb);
    assert MoveSpeed(p, IsPressed(b, Run, kb)) == MoveSpeed(f.player, IsPressed(b, Run, kb));
  }

  /** Outside the timed states the state after the movement pass is, in
      priority order: Attacking when Attack is just pressed, Idle when the keys
      give no direction, Rolling when a roll starts, then Running when Run is
      held and Walking otherwise. */
  lemma LocomotionState(f: Frame, b: InputBindings, kb: Keyboard, delta: nat)
    requires f.player.state != Rolling && f.player.state != Attacking
    ensures Movement(f, b, kb, delta).player.state
              == if JustPressed(b, Attack, kb) then Attacking
                 else if ResolveDirection(b, kb) == Still then Idle
                 else if JustPressed(b, Roll, kb) && Timers.Tick(f.player.rollCooldown, delta).Finished() then Rolling
                 else if IsPressed(b, Run, kb) then Running
                 else Walking
  {
    var p := f.player.(rollCooldown := Timers.Tick(f.player.rollCooldown, delta));
    var g := Locomotion(Frame(p, f.position), b, kb, delta);
    assert Movement(f, b, kb, delta) == StartAttack(g, b, kb);
  }

  /** A roll starts when the player is not in a timed state, the keys give a
      direction, Roll is just pressed and the cooldown has run out after this
      tick's advance. Starting it resets the roll timer and the cooldown, fixes
      the roll direction to this tick's unit direction and sets the roll speed
      to twice the running speed. */
  lemma RollStart(f: Frame, b: InputBindings, kb: Keyboard, delta: nat)
    requires f.player.state != Rolling && f.player.state != Attacking
    requires ResolveDirection(b, kb) != Still && JustPressed(b, Roll, kb)
    requires Timers.Tick(f.player.rollCooldown, delta).Finished()
    ensures var r := Movement(f, b, kb, delta).player;
            && r.rollTimer == Timers.Reset(f.player.rollTimer)
            && r.rollCooldown == Timers.Reset(f.player.rollCooldown)
            && r.rollDirection == Normalize(ResolveDirection(b, kb))
            && r.rollDirection != ZeroVec
            && r.rollSpeed == RollSpeed(f.player)
            && r.state == if JustPressed(b, Attack, kb) then Attacking else Rolling
  {
  }

  /** Without all of those conditions no roll starts: the roll timer,
      direction and speed stay as they were, the cooldown only advances, and
      the player can be Rolling afterwards only if it was Rolling before. In
      particular a player whose keys give no direction never starts a roll. */
  lemma NoRollWithoutTrigger(f: Frame, b: InputBindings, kb: Keyboard, delta: nat)
    requires !(f.player.state != Rolling && f.player.state != Attacking
               && ResolveDirection(b, kb) != Still && JustPressed(b, Roll, kb)
               && Timers.Tick(f.player.rollCooldown, delta).Finished())
    ensures var r := Movement(f, b, kb, delta).player;
            && r.rollTimer == f.player.rollTimer
            && r.rollDirection == f.player.rollDirection
            && r.rollSpeed == f.player.rollSpeed
            && r.rollCooldown == Timers.Tick(f.player.rollCooldown, delta)
            && (r.state == Rolling ==> f.player.state == Rolling)
  {
  }

  /** Attack just pressed in a tick that began outside the timed states ends
      the movement pass in Attacking with a fresh attack timer, overriding a
      roll started in the same tick; that roll's timer and cooldown resets
      stay. */
  lemma AttackOverrides(f: Frame, b: InputBindings, kb: Keyboard, delta: nat)
    requires f.player.state != Rolling && f.player.state != Attacking
    requires JustPressed(b, Attack, kb)
    ensures var r := Movement(f, b, kb, delta).player;
            && r.state == Attacking
            && r.attackTimer == Timers.Reset(f.player.attackTimer)
            && (ResolveDirection(b, kb) != Still && JustPressed(b, Roll, kb)
                && Timers.Tick(f.player.rollCooldown, delta).Finished()
                ==> r.rollCooldown == Timers.Reset(f.player.rollCooldown)
                    && r.rollTimer == Timers.Reset(f.player.rollTimer))
  {
  }

  /** Without an Attack press the attack timer is untouched and no attack
      starts. */
  lemma NoAttackWithoutPress(f: Frame, b: InputBindings, kb: Keyboard, delta: nat)
    requires !JustPressed(b, Attack, kb)
    ensures var r := Movement(f, b, kb, delta).player;
            && r.attackTimer == f.player.attackTimer
            && (r.state == Attacking ==> f.player.state == Attacking)
  {
  }

  /** The two passes run in the same tick, so a timed state entered with a
      tick at least as long as its timer is already over when the tick ends:
      the player never shows it. */
  lemma SameTickExpiry(f: Frame, b: InputBindings, kb: Keyboard, delta: nat)
    requires f.player.state != Rolling && f.player.state != Attacking
    ensures JustPressed(b, Attack, kb) && delta >= f.player.attackTimer.duration
            ==> Step(f, b, kb, delta).player.state == Idle
    ensures !JustPressed(b, Attack, kb) && ResolveDirection(b, kb) != Still && JustPressed(b, Roll, kb)
            && Timers.Tick(f.player.rollCooldown, delta).Finished() && delta >= f.player.rollTimer.duration
            ==> Step(f, b, kb, delta).player.state == Idle
  {
  }

  /** A run's total time covers its last tick. */
  lemma {:induction false} TotalCoversLast(ticks: seq<TickInput>)
    requires ticks != []
    ensures TotalDelta(ticks) >= Last(ticks).delta
  {
    if |ticks| > 1 {
      TotalCoversLast(ticks[1..]);
      assert Last(ticks[1..]) == Last(ticks);
    }
  }

  /** An attack lasts exactly its timer: over a run of ticks in which every
      tick but the last leaves the timer running, the player keeps its
      position whatever keys are held, and ends Idle exactly when the run
      covers what was left of the attack timer. */
  lemma {:induction false} AttackPhase(f: Frame, b: InputBindings, ticks: seq<TickInput>)
    decreases |ticks|
    requires Inv(f.player) && f.player.state == Attacking
    requires ticks != []
    requires f.player.attackTimer.elapsed + TotalDelta(ticks) - Last(ticks).delta < f.player.attackTimer.duration
    ensures var r := Simulate(f, b, ticks);
            && r.position == f.position
            && r.player.attackTimer == Timers.Tick(f.player.attackTimer, TotalDelta(ticks))
            && r.player.state
                 == if f.player.attackTimer.elapsed + TotalDelta(ticks) >= f.player.attackTimer.duration
                    then Idle else Attacking
  {
    var t0 := ticks[0];
    var g := Step(f, b, t0.keyboard, t0.delta);
    TotalCoversLast(ticks);
    if |ticks| == 1 {
      assert Simulate(f, b, ticks) == Simulate(g, b, []);
    } else {
      var rest := ticks[1..];
      assert Last(rest) == Last(ticks);
      TotalCoversLast(rest);
      assert g.player.state == Attacking;
      AttackPhase(g, b, rest);
      Timers.TickAdditive(f.player.attackTimer, t0.delta, TotalDelta(rest));
    }
  }

  /** A roll lasts exactly its timer and keeps its course: over a run of ticks
      in which every tick but the last leaves the roll timer running, the
      player slides along the roll direction at the roll speed for the run's
      whole time, whatever keys are held, and ends Idle exactly when the run
      covers what was left of the roll timer. */
  lemma {:induction false} RollPhase(f: Frame, b: InputBindings, ticks: seq<TickInput>)
    decreases |ticks|
    requires Inv(f.player) && f.player.state == Rolling
    requires ticks != []
    requires f.player.rollTimer.elapsed + TotalDelta(ticks) - Last(ticks).delta < f.player.rollTimer.duration
    ensures var r := Simulate(f, b, ticks);
            && r.position == Add(f.position, Travel(f.player.rollDirection, f.player.rollSpeed, TotalDelta(ticks)))
            && r.player.rollDirection == f.player.rollDirection
            && r.player.rollSpeed == f.player.rollSpeed
            && r.player.rollTimer == Timers.Tick(f.player.rollTimer, TotalDelta(ticks))
            && r.player.state
                 == if f.player.rollTimer.elapsed + TotalDelta(ticks) >= f.player.rollTimer.duration
                    then Idle else Rolling
  {
    var t0 := ticks[0];
    var g := Step(f, b, t0.keyboard, t0.delta);
    TotalCoversLast(ticks);
    if |ticks| == 1 {
      assert Simulate(f, b, ticks) == Simulate(g, b, []);
    } else {
      var rest := ticks[1..];
      assert Last(rest) == Last(ticks);
      TotalCoversLast(rest);
      assert g.player.state == Rolling;
      RollPhase(g, b, rest);
      Timers.TickAdditive(f.player.rollTimer, t0.delta, TotalDelta(rest));
      TravelAddsUp(f.position, f.player.rollDirection, f.player.rollSpeed, t0.delta, TotalDelta(rest));
    }
  }

  /** No roll can start while the roll cooldown is running: over a run of
      ticks that ends before the cooldown runs out, a player who was not
      rolling never rolls, whatever keys are pressed, and the cooldown
      advances by the run's total time. */
  lemma {:induction false} NoRollBeforeCooldown(f: Frame, b: InputBindings, ticks: seq<TickInput>)
    decreases |ticks|
    requires f.player.state != Rolling && f.player.rollCooldown.Valid()
    requires f.player.rollCooldown.elapsed + TotalDelta(ticks) < f.player.rollCooldown.duration
    ensures Simulate(f, b, ticks).player.state != Rolling
    ensures Simulate(f, b, ticks).player.rollCooldown == Timers.Tick(f.player.rollCooldown, TotalDelta(ticks))
  {
    if ticks != [] {
      var t0 := ticks[0];
      var g := Step(f, b, t0.keyboard, t0.delta);
      NoRollWithoutTrigger(f, b, t0.keyboard, t0.delta);
      assert g.player.state != Rolling;
      assert g.player.rollCooldown == Timers.Tick(f.player.rollCooldown, t0.delta);
      NoRollBeforeCooldown(g, b, ticks[1..]);
      Timers.TickAdditive(f.player.rollCooldown, t0.delta, TotalDelta(ticks[1..]));
    }
  }

  /** A freshly spawned player cannot roll before its cooldown's 350 ms have
      passed, whatever keys are pressed over however many ticks. */
  lemma NoRollRightAfterSpawn(pos: Vec2, b: InputBindings, ticks: seq<TickInput>)
    requires TotalDelta(ticks) < 350
    ensures Simulate(Frame(DefaultPlayer(), pos), b, ticks).player.state != Rolling
  {
    NoRollBeforeCooldown(Frame(DefaultPlayer(), pos), b, ticks);
  }

  /** With no key held, a player outside the timed states goes Idle in place. */
  lemma ScenarioNoKeys(f: Frame, delta: nat)
    requires f.player.state != Rolling && f.player.state != Attacking
    ensures Step(f, Default(), Keyboard({}, {}), delta) == Frame(f.player.(
              state := Idle, rollCooldown := Timers.Tick(f.player.rollCooldown, delta)), f.position)
  {
    DefaultQueries(Keyboard({}, {}));
  }

  /** Travel along the x axis, component by component. */
  lemma TravelRight(speed: real, delta: nat)
    ensures Travel(Vec2(One, Zero), speed, delta) == Vec2(Scalar(speed * Seconds(delta), 0.0), Zero)
  {
  }

  /** Holding MoveRight and no other movement action resolves to straight
      right, whose normalisation is the unit x vector. */
  lemma RightOnly(b: InputBindings, kb: Keyboard)
    requires IsPressed(b, MoveRight, kb) && !IsPressed(b, MoveLeft, kb)
    requires !IsPressed(b, MoveUp, kb) && !IsPressed(b, MoveDown, kb)
    ensures ResolveDirection(b, kb) == Dir(1, 0)
    ensures Normalize(ResolveDirection(b, kb)) == Vec2(One, Zero)
  {
  }

  /** Holding only MoveRight, without Roll, moves a player outside the timed
      states `dist` units right, where `dist` is the walking speed, or the
      running speed exactly when Run is held, times the tick; this holds also
      in the tick in which Attack starts. Without Attack the player ends the
      tick Running or Walking. */
  lemma StepRight(f: Frame, b: InputBindings, kb: Keyboard, delta: nat, run: bool, dist: real)
    requires f.player.state != Rolling && f.player.state != Attacking
    requires IsPressed(b, MoveRight, kb) && !IsPressed(b, MoveLeft, kb)
    requires !IsPressed(b, MoveUp, kb) && !IsPressed(b, MoveDown, kb)
    requires !JustPressed(b, Roll, kb)
    requires IsPressed(b, Run, kb) == run && MoveSpeed(f.player, run) * Seconds(delta) == dist
    ensures Step(f, b, kb, delta).position == Add(f.position, Vec2(Scalar(dist, 0.0), Zero))
    ensures !JustPressed(b, Attack, kb) ==>
              Step(f, b, kb, delta).player.state == if run then Running else Walking
  {
    RightOnly(b, kb);
    LocomotionPosition(f, b, kb, delta);
    LocomotionState(f, b, kb, delta);
    TravelRight(MoveSpeed(f.player, run), delta);
  }

  /** The default table read for a keyboard holding D, possibly with left
      Shift: only MoveRight among the movement actions, Run exactly with
      Shift, and Attack and Roll exactly when E and Space are just pressed. */
  lemma DefaultKeysForRight(kb: Keyboard)
    requires kb.held == {KeyD} || kb.held == {KeyD, ShiftLeft}
    ensures IsPressed(Default(), MoveRight, kb) && !IsPressed(Default(), MoveLeft, kb)
    ensures !IsPressed(Default(), MoveUp, kb) && !IsPressed(Default(), MoveDown, kb)
    ensures IsPressed(Default(), Run, kb) <==> ShiftLeft in kb.held
    ensures JustPressed(Default(), Attack, kb) <==> KeyE in kb.justPressed
    ensures JustPressed(Default(), Roll, kb) <==> Space in kb.justPressed
  {
    DefaultQueries(kb);
  }

  /** The default player walks at 300 units/s, runs at 600 and rolls at 1200:
      300 units in one second of walking or half a second of running, 4.8
      units in a 16 ms tick of walking. */
  lemma DefaultSpeeds()
    ensures MoveSpeed(DefaultPlayer(), false) == 300.0
    ensures MoveSpeed(DefaultPlayer(), true) == 600.0
    ensures RollSpeed(DefaultPlayer()) == 1200.0
    ensures MoveSpeed(DefaultPlayer(), false) * Seconds(1000) == 300.0
    ensures MoveSpeed(DefaultPlayer(), true) * Seconds(500) == 300.0
    ensures MoveSpeed(DefaultPlayer(), false) * Seconds(16) == 4.8
  {
  }

  /** The roll speed depends on the walking speed and run multiplier only. */
  lemma RollSpeedOfSpeeds(p: PlayerData, q: PlayerData)
    requires p.speed == q.speed && p.runSpeedMultiplier == q.runSpeedMultiplier
    ensures RollSpeed(p) == RollSpeed(q)
  {
  }

  /** Holding D for one second at 300 units/s walks 300 units right. */
  lemma ScenarioWalkRight(pos: Vec2)
    ensures var r := Step(Frame(DefaultPlayer(), pos), Default(), Keyboard({KeyD}, {}), 1000);
            r.position == Add(pos, Vec2(Scalar(300.0, 0.0), Zero)) && r.player.state == Walking
  {
    var kb := Keyboard({KeyD}, {});
    DefaultKeysForRight(kb);
    DefaultSpeeds();
    StepRight(Frame(DefaultPlayer(), pos), Default(), kb, 1000, false, 300.0);
  }

  /** Holding D and Shift for half a second at twice 300 units/s runs 300
      units right. */
  lemma ScenarioRunRight(pos: Vec2)
    ensures var r := Step(Frame(DefaultPlayer(), pos), Default(), Keyboard({KeyD, ShiftLeft}, {}), 500);
            r.position == Add(pos, Vec2(Scalar(300.0, 0.0), Zero)) && r.player.state == Running
  {
    var kb := Keyboard({KeyD, ShiftLeft}, {});
    DefaultKeysForRight(kb);
    DefaultSpeeds();
    StepRight(Frame(DefaultPlayer(), pos), Default(), kb, 500, true, 300.0);
  }

  /** A roll started in a tick shorter than the roll timer is still under way
      at the end of the tick, with the roll timer advanced by the tick. */
  lemma RollOutlastsShortTick(f: Frame, b: InputBindings, kb: Keyboard, delta: nat)
    requires f.player.state != Rolling && f.player.state != Attacking
    requires ResolveDirection(b, kb) != Still && JustPressed(b, Roll, kb) && !JustPressed(b, Attack, kb)
    requires Timers.Tick(f.player.rollCooldown, delta).Finished()
    requires delta < f.player.rollTimer.duration
    ensures var r := Step(f, b, kb, delta).player;
            && r.state == Rolling
            && r.rollSpeed == RollSpeed(f.player)
            && r.rollDirection == Normalize(ResolveDirection(b, kb))
            && r.rollTimer == Timers.Tick(Timers.Reset(f.player.rollTimer), delta)
  {
    RollStart(f, b, kb, delta);
  }

  /** A walking default player whose cooldown has run out, holding D and
      pressing Space, starts a roll at 1200 units/s to the right. */
  lemma ScenarioRollFromWalk(pos: Vec2)
    ensures var p := DefaultPlayer().(state := Walking, rollCooldown := Timers.Timer(350, 350));
            var r := Step(Frame(p, pos), Default(), Keyboard({KeyD}, {Space}), 16);
            && r.player.state == Rolling
            && r.player.rollSpeed == 1200.0
            && r.player.rollDirection == Vec2(One, Zero)
            && r.player.rollTimer == Timers.Timer(200, 16)
  {
    var p := DefaultPlayer().(state := Walking, rollCooldown := Timers.Timer(350, 350));
    var kb := Keyboard({KeyD}, {Space});
    DefaultKeysForRight(kb);
    RightOnly(Default(), kb);
    RollOutlastsShortTick(Frame(p, pos), Default(), kb, 16);
    DefaultSpeeds();
    RollSpeedOfSpeeds(p, DefaultPlayer());
  }

  /** An idle default player pressing E starts a 300 ms attack. The movement
      keys are read before the attack check, so in this first tick the player
      still walks: 300 units/s for 16 ms is 4.8 units right. */
  lemma ScenarioAttackFromIdle(pos: Vec2)
    ensures var r := Step(Frame(DefaultPlayer(), pos), Default(), Keyboard({KeyD}, {KeyE}), 16);
            && r.player.state == Attacking
            && r.player.attackTimer == Timers.Timer(300, 16)
            && r.position == Add(pos, Vec2(Scalar(4.8, 0.0), Zero))
  {
    var kb := Keyboard({KeyD}, {KeyE});
    DefaultKeysForRight(kb);
    DefaultSpeeds();
    StepRight(Frame(DefaultPlayer(), pos), Default(), kb, 16, false, 4.8);
    AttackOverrides(Frame(DefaultPlayer(), pos), Default(), kb, 16);
  }

  /** Each state has its own colour. */
  lemma ColorsTellStatesApart(s1: PlayerState, s2: PlayerState)
    requires ColorOf(s1) == ColorOf(s2)
    ensures s1 == s2
  {
  }
}
