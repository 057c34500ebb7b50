/** The snake game (SnakeGame/snake.cpp): a snake on a 30 by 20 board moves
    one cell per timer tick in its direction (0 right, 1 down, 2 left,
    3 up), grows by one cell and scores 10 when its head lands on the food,
    and the game ends when the head leaves the board or runs into the body.

    QRandomGenerator's draws for the food position are a parameter: the
    sequence of cells the generator yields, each on the board. Painting and
    the window are not modelled; the timer is a flag. */
module SnakeGame {
  const BOARD_WIDTH: int := 30
  const BOARD_HEIGHT: int := 20
  const GAME_SPEED: int := 100
  const POINTS_PER_FOOD: int := 10

  datatype Cell = Cell(x: int, y: int)

  datatype Key = Left | Right | Up | Down | Space | OtherKey

  predicate OnBoard(c: Cell)
  {
    0 <= c.x < BOARD_WIDTH && 0 <= c.y < BOARD_HEIGHT
  }

  predicate IsDirection(d: int)
  {
    0 <= d < 4
  }

  function Opposite(d: int): int
  {
    (d + 2) % 4
  }

  /** The cell next to c in direction d. */
  function Step(c: Cell, d: int): (n: Cell)
    requires IsDirection(d)
    ensures (if n.x < c.x then c.x - n.x else n.x - c.x) + (if n.y < c.y then c.y - n.y else n.y - c.y) == 1
  {
    match d
    case 0 => Cell(c.x + 1, c.y)
    case 1 => Cell(c.x, c.y + 1)
    case 2 => Cell(c.x - 1, c.y)
    case 3 => Cell(c.x, c.y - 1)
  }

  /** Stepping back the opposite way returns to the start cell, and only
      the opposite direction does. */
  lemma StepBack(c: Cell, d: int, e: int)
    requires IsDirection(d) && IsDirection(e)
    ensures Step(Step(c, d), e) == c <==> e == Opposite(d)
  {
  }

  /** The direction an arrow key asks for. */
  function KeyDirection(key: Key): int
    requires key in {Left, Right, Up, Down}
  {
    match key
    case Right => 0
    case Down => 1
    case Left => 2
    case Up => 3
  }

  const INITIAL_BODY: seq<Cell> := [
    Cell(BOARD_WIDTH / 2, BOARD_HEIGHT / 2),
    Cell(BOARD_WIDTH / 2 - 1, BOARD_HEIGHT / 2),
    Cell(BOARD_WIDTH / 2 - 2, BOARD_HEIGHT / 2)]

  predicate Distinct(body: seq<Cell>)
  {
    forall i, j :: 0 <= i < j < |body| ==> body[i] != body[j]
  }

  predicate AllOnBoard(body: seq<Cell>)
  {
    forall i :: 0 <= i < |body| ==> OnBoard(body[i])
  }

  /** The head has left the board or lies on another body cell. */
  predicate Collides(body: seq<Cell>)
    requires body != []
  {
    !OnBoard(body[0]) || body[0] in body[1..]
  }

  /** The generator's draws all lie on the board. */
  predicate OnBoardDraws(draws: seq<Cell>)
  {
    forall i :: 0 <= i < |draws| ==> OnBoard(draws[i])
  }

  /** Some draw misses the body, so the food search ends. */
  predicate FreeDrawIn(draws: seq<Cell>, body: seq<Cell>)
  {
    exists i :: 0 <= i < |draws| && draws[i] !in body
  }

  /** The first draw that misses the body. */
  function FirstFree(draws: seq<Cell>, body: seq<Cell>): (c: Cell)
    requires FreeDrawIn(draws, body)
    ensures c in draws && c !in body
    ensures OnBoardDraws(draws) ==> OnBoard(c)
    decreases |draws|
  {
    if draws[0] !in body then draws[0]
    else
      assert FreeDrawIn(draws[1..], body) by {
        var i :| 0 <= i < |draws| && draws[i] !in body;
        assert draws[1..][i - 1] == draws[i];
      }
      FirstFree(draws[1..], body)
  }

  /** Once the body covers every cell of the board (a snake of 599 cells
      eating the last free one), no on-board draw misses it: the food
      search of locateFood has no draw to stop at and loops for ever. */
  lemma FullBoardHasNoFreeDraw(draws: seq<Cell>, body: seq<Cell>)
    requires OnBoardDraws(draws)
    requires forall c :: OnBoard(c) ==> c in body
    ensures !FreeDrawIn(draws, body)
  {
  }

  /** A draw ahead of every free draw is skipped. */
  lemma FirstFreeSkip(draws: seq<Cell>, body: seq<Cell>, i: nat)
    requires FreeDrawIn(draws, body) && i < |draws| && draws[i] in body
    requires forall k :: 0 <= k < i ==> draws[k] in body
    ensures FreeDrawIn(draws[i + 1..], body)
    ensures FirstFree(draws[i..], body) == FirstFree(draws[i + 1..], body)
  {
    var j :| 0 <= j < |draws| && draws[j] !in body;
    assert j > i;
    assert draws[i + 1..][j - i - 1] == draws[j];
    assert draws[i..][1..] == draws[i + 1..];
  }

  class Snake {
    var body: seq<Cell>
    var food: Cell
    var direction: int
    /** The direction of the last move; only the corrected key rule reads it. */
    var heading: int
    var gameOver: bool
    var score: int
    var timerActive: bool
    /** The interval timer->start was given, in milliseconds. */
    var timerInterval: int

    /** The snake has at least its three starting cells, its neck is one
        step behind its head, the score counts the food eaten, the food lies
        on the board off the body, the timer runs until the game ends, and
        while the game runs the body lies on the board without overlap; the
        timer ticks every GAME_SPEED milliseconds. */
    ghost predicate Valid()
      reads this
    {
      IsDirection(direction) && IsDirection(heading)
      && |body| >= 3
      && body[1] == Step(body[0], Opposite(heading))
      && score == POINTS_PER_FOOD * (|body| - 3)
      && OnBoard(food) && food !in body
      && timerActive == !gameOver && timerInterval == GAME_SPEED
      && (!gameOver ==> AllOnBoard(body) && Distinct(body))
    }

    /** The corrected key rule's guarantee: the snake is not turned back
        towards its neck. */
    ghost predicate Steerable()
      reads this
    {
      direction != Opposite(heading)
    }

    constructor(draws: seq<Cell>)
      requires OnBoardDraws(draws) && FreeDrawIn(draws, INITIAL_BODY)
      ensures Valid() && Steerable()
      ensures body == INITIAL_BODY && direction == 0 && score == 0 && !gameOver && timerActive
      ensures food == FirstFree(draws, INITIAL_BODY)
    {
      new;
      InitGame(draws);
    }

    /** initGame: the three-cell snake in the middle of the board heads
        right, the score is zero and food is placed off the body. */
    method InitGame(draws: seq<Cell>)
      requires OnBoardDraws(draws) && FreeDrawIn(draws, INITIAL_BODY)
      modifies this
      ensures Valid() && Steerable()
      ensures body == INITIAL_BODY && direction == 0 && heading == 0
      ensures score == 0 && !gameOver && timerActive && timerInterval == GAME_SPEED
      ensures food == FirstFree(draws, INITIAL_BODY)
    {
      body := INITIAL_BODY;
      direction := 0;
      heading := 0;
      gameOver := false;
      score := 0;
      LocateFood(draws);
      timerActive := true;
      timerInterval := GAME_SPEED;
    }

    /** The body scan of locateFood: whether a cell lies on the body. */
    method Occupied(c: Cell) returns (occupied: bool)
      ensures occupied <==> c in body
    {
      occupied := false;
      var i := 0;
      while i < |body|
        invariant 0 <= i <= |body|
        invariant forall k :: 0 <= k < i ==> body[k] != c
      {
        if body[i] == c {
          return true;
        }
        i := i + 1;
      }
    }

    /** locateFood: draws cells until one misses the body; the food goes
        there. */
    method LocateFood(draws: seq<Cell>)
      requires OnBoardDraws(draws) && FreeDrawIn(draws, body)
      modifies this`food
      ensures food == FirstFree(draws, body)
      ensures OnBoard(food) && food !in body
    {
      var i := 0;
      var c := draws[0];
      var occupied := Occupied(c);
      while occupied
        invariant 0 <= i < |draws| && c == draws[i]
        invariant occupied <==> c in body
        invariant forall k :: 0 <= k < i ==> draws[k] in body
        invariant FreeDrawIn(draws[i..], body) && FirstFree(draws[i..], body) == FirstFree(draws, body)
        decreases |draws| - i
      {
        FirstFreeSkip(draws, body, i);
        assert i + 1 < |draws| by {
          var j :| 0 <= j < |draws[i + 1..]| && draws[i + 1..][j] !in body;
        }
        assert draws[i + 1..][1..] == draws[i + 2..];
        i := i + 1;
        c := draws[i];
        occupied := Occupied(c);
      }
      assert draws[i..][0] == c;
      food := c;
    }

    /** checkCollision: the game ends, and the timer stops, exactly when the
        head has left the board or lies on another body cell. */
    method CheckCollision()
      requires body != []
      modifies this`gameOver, this`timerActive
      ensures Collides(body) ==> gameOver && !timerActive
      ensures !Collides(body) ==> gameOver == old(gameOver) && timerActive == old(timerActive)
    {
      var head := body[0];
      if head.x < 0 || head.x >= BOARD_WIDTH || head.y < 0 || head.y >= BOARD_HEIGHT {
        gameOver := true;
        timerActive := false;
        return;
      }
      var i := 1;
      while i < |body|
        invariant 1 <= i <= |body|
        invariant forall k :: 1 <= k < i ==> body[k] != head
      {
        if body[i] == head {
          assert body[1..][i - 1] == head;
          gameOver := true;
          timerActive := false;
          return;
        }
        i := i + 1;
      }
      assert head !in body[1..] by {
        forall k | 0 <= k < |body[1..]|
          ensures body[1..][k] != head
        {
          assert body[1..][k] == body[k + 1];
        }
      }
    }

    /** moveSnake: nothing happens once the game is over. Otherwise the head
        advances one cell in the current direction; on the food the snake
        grows by that cell, scores 10 and new food is placed, elsewhere the
        tail cell is dropped; then the game ends exactly when the new head
        is off the board or on the body. */
    method MoveSnake(draws: seq<Cell>)
      requires Valid()
      requires OnBoardDraws(draws)
      requires !gameOver && Step(body[0], direction) == food ==> FreeDrawIn(draws, [food] + body)
      modifies this`body, this`score, this`food, this`heading, this`gameOver, this`timerActive
      ensures Valid()
      ensures old(gameOver) ==> unchanged(this)
      ensures !old(gameOver) ==>
        var head := Step(old(body)[0], old(direction));
        && heading == direction
        && (head == old(food) ==>
              body == [head] + old(body) && score == old(score) + POINTS_PER_FOOD
              && food == FirstFree(draws, body))
        && (head != old(food) ==>
              body == [head] + old(body)[..|old(body)| - 1] && score == old(score) && food == old(food))
        && gameOver == Collides(body)
      ensures !old(gameOver) && old(Steerable()) ==> body[0] != old(body)[1]
    {
      if gameOver {
        return;
      }
      var head := Step(body[0], direction);
      StepBack(body[0], direction, heading);
      ghost var oldBody := body;
      if head == food {
        body := [head] + body;
        score := score + POINTS_PER_FOOD;
        LocateFood(draws);
      } else {
        body := [head] + body[..|body| - 1];
      }
      heading := direction;
      StepBack(head, direction, Opposite(direction));
      CheckCollision();
      if !gameOver {
        NewHeadKeepsBody(oldBody, body, head);
      }
    }

    /** keyPressEvent as written: an arrow key turns the snake unless it
        asks for the opposite of the current direction; space restarts a
        finished game; other keys change nothing. */
    method KeyPressAsWritten(key: Key, draws: seq<Cell>)
      requires Valid()
      requires key == Space && gameOver ==> OnBoardDraws(draws) && FreeDrawIn(draws, INITIAL_BODY)
      modifies this
      ensures Valid()
      ensures key in {Left, Right, Up, Down} ==>
        unchanged(this`body, this`food, this`score, this`gameOver, this`heading)
        && direction == (if KeyDirection(key) == Opposite(old(direction)) then old(direction) else KeyDirection(key))
        && direction != Opposite(old(direction))
      ensures key == Space && old(gameOver) ==>
        body == INITIAL_BODY && direction == 0 && score == 0 && !gameOver && timerActive
      ensures (key == Space && !old(gameOver)) || key == OtherKey ==> unchanged(this)
    {
      match key {
        case Left =>
          if direction != 0 { direction := 2; }
        case Right =>
          if direction != 2 { direction := 0; }
        case Up =>
          if direction != 1 { direction := 3; }
        case Down =>
          if direction != 3 { direction := 1; }
        case Space =>
          if gameOver { InitGame(draws); }
        case OtherKey =>
      }
    }

    /** keyPressEvent with the reversal check made against the direction of
        the last move, so that two quick presses cannot turn the snake back
        onto its neck. */
    method KeyPress(key: Key, draws: seq<Cell>)
      requires Valid()
      requires key == Space && gameOver ==> OnBoardDraws(draws) && FreeDrawIn(draws, INITIAL_BODY)
      modifies this
      ensures Valid()
      ensures key in {Left, Right, Up, Down} ==>
        unchanged(this`body, this`food, this`score, this`gameOver, this`heading)
        && direction == (if KeyDirection(key) == Opposite(heading) then old(direction) else KeyDirection(key))
      ensures old(Steerable()) ==> Steerable()
      ensures key == Space && old(gameOver) ==>
        body == INITIAL_BODY && direction == 0 && score == 0 && !gameOver && timerActive && Steerable()
      ensures (key == Space && !old(gameOver)) || key == OtherKey ==> unchanged(this)
    {
      match key {
        case Left =>
          if heading != 0 { direction := 2; }
        case Right =>
          if heading != 2 { direction := 0; }
        case Up =>
          if heading != 1 { direction := 3; }
        case Down =>
          if heading != 3 { direction := 1; }
        case Space =>
          if gameOver { InitGame(draws); }
        case OtherKey =>
      }
    }
  }

  /** A move that does not end the game keeps the body on the board and
      free of overlap. */
  lemma NewHeadKeepsBody(oldBody: seq<Cell>, body: seq<Cell>, head: Cell)
    requires AllOnBoard(oldBody) && Distinct(oldBody) && oldBody != []
    requires body == [head] + oldBody || body == [head] + oldBody[..|oldBody| - 1]
    requires !Collides(body)
    ensures AllOnBoard(body) && Distinct(body)
  {
    forall i, j | 0 <= i < j < |body|
      ensures body[i] != body[j]
    {
      if i == 0 {
        assert body[1..][j - 1] == body[j];
      } else {
        assert body[i] == oldBody[i - 1] && body[j] == oldBody[j - 1];
      }
    }
    forall i | 0 <= i < |body|
      ensures OnBoard(body[i])
    {
      if i > 0 {
        assert body[i] == oldBody[i - 1];
      }
    }
  }

  /** Turning up and then left within one tick, as written, reverses the
      snake onto its neck and ends a fresh game. */
  method QuickTurnEndsGameAsWritten(draws: seq<Cell>) returns (g: Snake)
    requires OnBoardDraws(draws) && FreeDrawIn(draws, INITIAL_BODY)
    ensures g.gameOver && g.score == 0
  {
    g := new Snake(draws);
    g.KeyPressAsWritten(Up, []);
    g.KeyPressAsWritten(Left, []);
    assert g.direction == 2;
    assert Step(g.body[0], 2) == g.body[1];
    ghost var neck := g.body[1];
    g.MoveSnake([]);
    assert g.body[0] == neck == g.body[2];
    assert g.body[1..][1] == g.body[0];
  }

  /** With the corrected rule the second press is ignored: the snake heads
      up and the game goes on. */
  method QuickTurnIgnored(draws: seq<Cell>, more: seq<Cell>) returns (g: Snake)
    requires OnBoardDraws(draws) && FreeDrawIn(draws, INITIAL_BODY)
    requires OnBoardDraws(more) && FreeDrawIn(more, [Cell(15, 9)] + INITIAL_BODY)
    ensures !g.gameOver && g.body != [] && g.body[0] == Cell(15, 9)
  {
    g := new Snake(draws);
    g.KeyPress(Up, []);
    g.KeyPress(Left, []);
    assert g.direction == 3;
    g.MoveSnake(more);
    assert g.body[0] == Cell(15, 9);
    assert g.body[1..] == INITIAL_BODY || g.body[1..] == INITIAL_BODY[..2];
  }
}
