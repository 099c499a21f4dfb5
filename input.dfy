/** Action bindings: a fixed table from abstract game actions to physical keys,
    queried against a per-tick keyboard snapshot. */
module Input {

  /** The abstract gameplay intents a key can be bound to. */
  datatype GameAction =
    | MoveLeft | MoveRight | MoveUp | MoveDown
    | Run | Attack | Roll
    | SwitchLevel1 | SwitchLevel2

  /** Physical keys. The thirteen keys of the default table are named; every
      other key of the keyboard is `OtherKey` with some code. */
  datatype KeyCode =
    | KeyA | ArrowLeft | KeyD | ArrowRight | KeyW | ArrowUp | KeyS | ArrowDown
    | ShiftLeft | KeyE | Space | Digit1 | Digit2
    | OtherKey(code: nat)

  /** The engine's keyboard state for one tick: the keys held down, and the keys
      whose down-transition happened during this tick. */
  datatype Keyboard = Keyboard(held: set<KeyCode>, justPressed: set<KeyCode>)

  /** The bindings resource: each action maps to an ordered list of keys. An
      action may be absent, and a key may back several actions. */
  datatype InputBindings = InputBindings(bindings: map<GameAction, seq<KeyCode>>)

  /** `keys.iter().any(|k| k is down)`: some key of the list is in `down`. */
  function AnyDown(keys: seq<KeyCode>, down: set<KeyCode>): (r: bool)
    ensures r <==> exists k :: k in keys && k in down
  {
    if keys == [] then false
    else keys[0] in down || AnyDown(keys[1..], down)
  }

  /** Is any key bound to `action` held this tick? Unbound actions are never pressed. */
  function IsPressed(b: InputBindings, action: GameAction, kb: Keyboard): (r: bool)
    ensures action !in b.bindings ==> !r
    ensures r <==> action in b.bindings && exists k :: k in b.bindings[action] && k in kb.held
  {
    if action in b.bindings then AnyDown(b.bindings[action], kb.held) else false
  }

  /** Was any key bound to `action` newly pressed this tick? Unbound actions never are. */
  function JustPressed(b: InputBindings, action: GameAction, kb: Keyboard): (r: bool)
    ensures action !in b.bindings ==> !r
    ensures r <==> action in b.bindings && exists k :: k in b.bindings[action] && k in kb.justPressed
  {
    if action in b.bindings then AnyDown(b.bindings[action], kb.justPressed) else false
  }

  /** The set of keys bound to `action` (empty when it is unbound). */
  function BoundKeys(b: InputBindings, action: GameAction): (s: set<KeyCode>)
    ensures forall k :: k in s <==> action in b.bindings && k in b.bindings[action]
  {
    if action in b.bindings then set k | k in b.bindings[action] else {}
  }

  /** The startup table. Every action is bound to at least one key. */
  function Default(): (b: InputBindings)
    ensures forall a :: a in b.bindings && |b.bindings[a]| > 0
  {
    var m := map[
      MoveLeft := [KeyA, ArrowLeft],
      MoveRight := [KeyD, ArrowRight],
      MoveUp := [KeyW, ArrowUp],
      MoveDown := [KeyS, ArrowDown],
      Run := [ShiftLeft],
      Attack := [KeyE],
      Roll := [Space],
      SwitchLevel1 := [Digit1],
      SwitchLevel2 := [Digit2]
    ];
    EveryActionIsBound(m);
    InputBindings(m)
  }

  /** A table with a non-empty entry for each of the nine actions covers them all. */
  lemma EveryActionIsBound(m: map<GameAction, seq<KeyCode>>)
    requires MoveLeft in m && MoveRight in m && MoveUp in m && MoveDown in m
    requires Run in m && Attack in m && Roll in m && SwitchLevel1 in m && SwitchLevel2 in m
    requires m[MoveLeft] != [] && m[MoveRight] != [] && m[MoveUp] != [] && m[MoveDown] != []
    requires m[Run] != [] && m[Attack] != [] && m[Roll] != [] && m[SwitchLevel1] != [] && m[SwitchLevel2] != []
    ensures forall a :: a in m && |m[a]| > 0
  {
    forall a: GameAction ensures a in m && |m[a]| > 0 {
      match a
      case MoveLeft => case MoveRight => case MoveUp => case MoveDown =>
      case Run => case Attack => case Roll => case SwitchLevel1 => case SwitchLevel2 =>
    }
  }

  /** Both queries answer "do the bound keys meet the relevant key set". */
  lemma QueriesSeeOnlyBoundKeys(b: InputBindings, action: GameAction, kb: Keyboard)
    ensures IsPressed(b, action, kb) <==> BoundKeys(b, action) * kb.held != {}
    ensures JustPressed(b, action, kb) <==> BoundKeys(b, action) * kb.justPressed != {}
  {
    if IsPressed(b, action, kb) {
      var k :| k in b.bindings[action] && k in kb.held;
      assert k in BoundKeys(b, action) * kb.held;
    }
    if JustPressed(b, action, kb) {
      var k :| k in b.bindings[action] && k in kb.justPressed;
      assert k in BoundKeys(b, action) * kb.justPressed;
    }
  }

  /** Order and repetition in a binding list do not matter: two tables that bind
      the same set of keys to an action answer every query alike. */
  lemma QueriesIgnoreKeyOrder(b1: InputBindings, b2: InputBindings, action: GameAction, kb: Keyboard)
    requires BoundKeys(b1, action) == BoundKeys(b2, action)
    ensures IsPressed(b1, action, kb) == IsPressed(b2, action, kb)
    ensures JustPressed(b1, action, kb) == JustPressed(b2, action, kb)
  {
    QueriesSeeOnlyBoundKeys(b1, action, kb);
    QueriesSeeOnlyBoundKeys(b2, action, kb);
  }

  /** Holding more keys never releases an action. */
  lemma PressedIsMonotone(b: InputBindings, action: GameAction, kb1: Keyboard, kb2: Keyboard)
    requires kb1.held <= kb2.held && kb1.justPressed <= kb2.justPressed
    ensures IsPressed(b, action, kb1) ==> IsPressed(b, action, kb2)
    ensures JustPressed(b, action, kb1) ==> JustPressed(b, action, kb2)
  {
  }

  /** In the default table no key backs two actions, so one key press triggers
      exactly one action. */
  lemma DefaultKeysAreDisjoint(a1: GameAction, a2: GameAction, k: KeyCode)
    requires k in Default().bindings[a1] && k in Default().bindings[a2]
    ensures a1 == a2
  {
  }

  /** The default table, read through the queries. */
  lemma DefaultQueries(kb: Keyboard)
    ensures IsPressed(Default(), MoveLeft, kb) <==> KeyA in kb.held || ArrowLeft in kb.held
    ensures IsPressed(Default(), MoveRight, kb) <==> KeyD in kb.held || ArrowRight in kb.held
    ensures IsPressed(Default(), MoveUp, kb) <==> KeyW in kb.held || ArrowUp in kb.held
    ensures IsPressed(Default(), MoveDown, kb) <==> KeyS in kb.held || ArrowDown in kb.held
    ensures IsPressed(Default(), Run, kb) <==> ShiftLeft in kb.held
    ensures JustPressed(Default(), Attack, kb) <==> KeyE in kb.justPressed
    ensures JustPressed(Default(), Roll, kb) <==> Space in kb.justPressed
    ensures JustPressed(Default(), SwitchLevel1, kb) <==> Digit1 in kb.justPressed
    ensures JustPressed(Default(), SwitchLevel2, kb) <==> Digit2 in kb.justPressed
  {
  }
}
