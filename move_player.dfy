/**
 * The player movement system of src/systems/move_player.rs: every entity with
 * both a `PlayerControl` and a `Position` moves one `MOVE_UNIT` per pressed
 * arrow key, except that a move which would leave the `u16` range is skipped.
 */
module MovePlayers {
  import opened Wrappers
  import opened Ints
  import opened CustomInputs
  import opened Sprites

  const MOVE_UNIT: u16 := 32

  /** A step towards zero (Left on x, Up on y): skipped when it would go below zero. */
  function MoveBack(n: u16): (r: u16)
    ensures n < MOVE_UNIT ==> r == n
    ensures MOVE_UNIT <= n ==> r as int == n as int - MOVE_UNIT as int
  {
    if n < MOVE_UNIT then n else n - MOVE_UNIT
  }

  /** A step away from zero (Right on x, Down on y): skipped when it would pass `u16::MAX`. */
  function MoveForward(n: u16): (r: u16)
    ensures n > U16_MAX - MOVE_UNIT ==> r == n
    ensures n <= U16_MAX - MOVE_UNIT ==> r as int == n as int + MOVE_UNIT as int
  {
    if n > U16_MAX - MOVE_UNIT then n else n + MOVE_UNIT
  }

  /** The four key checks of `run` in order: Left, Right, Up, Down. */
  function MovePosition(keys: set<KeyCode>, p: Position): (r: Position)
    ensures Left !in keys && Right !in keys ==> r.x == p.x
    ensures Left in keys && Right !in keys ==> r.x == MoveBack(p.x)
    ensures Left !in keys && Right in keys ==> r.x == MoveForward(p.x)
    ensures Up !in keys && Down !in keys ==> r.y == p.y
    ensures Up in keys && Down !in keys ==> r.y == MoveBack(p.y)
    ensures Up !in keys && Down in keys ==> r.y == MoveForward(p.y)
  {
    var x1 := if Left in keys then MoveBack(p.x) else p.x;
    var x2 := if Right in keys then MoveForward(x1) else x1;
    var y1 := if Up in keys then MoveBack(p.y) else p.y;
    var y2 := if Down in keys then MoveForward(y1) else y1;
    Position(x2, y2)
  }

  /** The components of one entity the system looks at. */
  datatype PlayerEntity = PlayerEntity(hasPlayerControl: bool, position: Option<Position>)

  /** The join over `PlayerControl` and `Position` visits only entities having both. */
  function MoveEntity(keys: set<KeyCode>, e: PlayerEntity): (r: PlayerEntity)
    ensures r.hasPlayerControl == e.hasPlayerControl && r.position.Some? == e.position.Some?
    ensures !e.hasPlayerControl ==> r == e
  {
    if e.hasPlayerControl && e.position.Some? then e.(position := Some(MovePosition(keys, e.position.value))) else e
  }

  /** `MovePlayer::run`: moves every controlled entity in place. */
  method Run(keysPressed: set<KeyCode>, entities: array<PlayerEntity>)
    modifies entities
    ensures forall i :: 0 <= i < entities.Length ==> entities[i] == MoveEntity(keysPressed, old(entities[i]))
  {
    for i := 0 to entities.Length
      invariant forall j :: 0 <= j < i ==> entities[j] == MoveEntity(keysPressed, old(entities[j]))
      invariant forall j :: i <= j < entities.Length ==> entities[j] == old(entities[j])
    {
      var entity := entities[i];
      if entity.hasPlayerControl && entity.position.Some? {
        var pos := entity.position.value;
        if Left in keysPressed {
          pos := pos.(x := if pos.x < MOVE_UNIT then pos.x else pos.x - MOVE_UNIT);
        }
        if Right in keysPressed {
          pos := pos.(x := if pos.x > U16_MAX - MOVE_UNIT then pos.x else pos.x + MOVE_UNIT);
        }
        if Up in keysPressed {
          pos := pos.(y := if pos.y < MOVE_UNIT then pos.y else pos.y - MOVE_UNIT);
        }
        if Down in keysPressed {
          pos := pos.(y := if pos.y > U16_MAX - MOVE_UNIT then pos.y else pos.y + MOVE_UNIT);
        }
        entities[i] := entity.(position := Some(pos));
      }
    }
  }

  /** x depends only on Left and Right, y only on Up and Down. */
  lemma AxesIndependent(keys: set<KeyCode>, p: Position)
    ensures MovePosition(keys, p).x == MovePosition(keys * {Left, Right}, p).x
    ensures MovePosition(keys, p).y == MovePosition(keys * {Up, Down}, p).y
  {
  }

  /** With no arrow key pressed nothing moves. */
  lemma NoArrowNoMove(keys: set<KeyCode>, p: Position)
    requires Left !in keys && Right !in keys && Up !in keys && Down !in keys
    ensures MovePosition(keys, p) == p
  {
  }

  /**
   * Left is applied before Right: with both pressed a position near the left
   * edge ends one unit further right, and any other position stays put.
   * Up and Down behave the same way on y.
   */
  lemma OpposingKeys(keys: set<KeyCode>, p: Position)
    requires Left in keys && Right in keys && Up in keys && Down in keys
    ensures MovePosition(keys, p).x as int == if p.x < MOVE_UNIT then p.x as int + MOVE_UNIT as int else p.x as int
    ensures MovePosition(keys, p).y as int == if p.y < MOVE_UNIT then p.y as int + MOVE_UNIT as int else p.y as int
  {
  }

  /** One key moves exactly one unit along its axis, unless the edge stops it. */
  lemma SingleKeyMoves(p: Position)
    ensures MovePosition({Right}, p) == if p.x as int + MOVE_UNIT as int <= U16_MAX as int then p.(x := p.x + MOVE_UNIT) else p
    ensures MovePosition({Left}, p) == if MOVE_UNIT <= p.x then p.(x := p.x - MOVE_UNIT) else p
    ensures MovePosition({Down}, p) == if p.y as int + MOVE_UNIT as int <= U16_MAX as int then p.(y := p.y + MOVE_UNIT) else p
    ensures MovePosition({Up}, p) == if MOVE_UNIT <= p.y then p.(y := p.y - MOVE_UNIT) else p
  {
  }
}
