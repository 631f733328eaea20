/** The game itself: the global variables of script.js as the fields of one
    object, the run state machine (restart, end of run, flap, pause), the
    username entry, and the simulation step of the main loop. The browser's
    key-value storage is modelled by three fields holding what is stored
    under "flappyLeaderboard", under the "<name>_highscore" keys and under
    "flappyUsername". */
module Flappy {
  import opened World
  import opened Leaderboard
  import opened Obstacles
  import opened Collision

  /** The storage key under which a player's best score is kept. */
  function HighscoreKey(name: string): string
  {
    name + "_highscore"
  }

  /** A player's stored best score, 0 when none is stored. */
  function StoredHighscore(store: map<string, int>, name: string): int
  {
    if HighscoreKey(name) in store then store[HighscoreKey(name)] else 0
  }

  /** The username after one key press in the popup: a printable key is
      appended while the name is shorter than `MaxNameLength`, Backspace
      removes the last character. The name only ever grows or shrinks by one
      character at its end, and typing never makes it too long. */
  function EditName(name: string, key: string): (r: string)
    ensures |name| <= MaxNameLength ==> |r| <= MaxNameLength
    ensures name <= r || r <= name
    ensures |name| - 1 <= |r| <= |name| + 1
    ensures |r| > |name| ==> r == name + key
    ensures |key| == 1 && |name| < MaxNameLength ==> r == name + key
    ensures key == "Backspace" ==> r == if name == "" then "" else name[..|name| - 1]
    ensures |key| != 1 && key != "Backspace" ==> r == name
    ensures |key| == 1 && |name| >= MaxNameLength ==> r == name
  {
    if |key| == 1 && |name| < MaxNameLength then name + key
    else if key == "Backspace" && name != "" then name[..|name| - 1]
    else name
  }

  /** The score after `frames` frames of a run: `Math.floor(frames / 15)`. */
  function ScoreAfter(frames: nat): nat
  {
    frames / FramesPerPoint
  }

  /** The score never decreases while the frame counter grows. */
  lemma ScoreMonotone(a: nat, b: nat)
    requires a <= b
    ensures ScoreAfter(a) <= ScoreAfter(b)
  {
  }

  /** The restart button drawn on the game-over screen. */
  predicate InRestartButton(x: real, y: real)
  {
    && GameWidth / 2.0 - 60.0 < x < GameWidth / 2.0 + 60.0
    && GameHeight / 2.0 + 60.0 < y < GameHeight / 2.0 + 100.0
  }

  /** The part of the game state that a run changes. */
  datatype RunState = RunState(bird: Bird, pipes: seq<Pipe>, frame: nat, score: int,
                               flapFrame: nat, gameStarted: bool, isPaused: bool, highscore: int)

  /** The run state after `resetGame`, where `best` is the player's stored best. */
  function Restarted(s: RunState, best: int): RunState
  {
    RunState(s.bird.(y := StartY, velocity := StartVelocity), [], 0, 0, 0, true, false, best)
  }

  /** The run state after `flap`: a running, unpaused bird gets the lift
      velocity; a finished or not yet started run restarts when a name has
      been entered; otherwise nothing changes. */
  function Flapped(s: RunState, name: string, store: map<string, int>): RunState
  {
    if s.gameStarted && !s.isPaused then s.(bird := s.bird.(velocity := s.bird.lift))
    else if !s.gameStarted && name != "" then Restarted(s, StoredHighscore(store, name))
    else s
  }

  class Game {
    var bird: Bird
    var pipes: seq<Pipe>
    var frame: nat
    var score: int
    var flapFrame: nat
    var gameStarted: bool
    var isPaused: bool
    var username: string
    var highscore: int
    var showUsernamePopup: bool

    // What the page keeps in the browser's storage.
    var leaderboard: Board
    var highscores: map<string, int>
    var savedUsername: string

    ghost function Run(): RunState
      reads this
    {
      RunState(bird, pipes, frame, score, flapFrame, gameStarted, isPaused, highscore)
    }

    /** What every step keeps: the bird's fixed measurements and constants,
        valid pipes in screen order, the score derived from the frame count,
        the wing sprite index in range and the name no longer than allowed. */
    ghost predicate RunValid()
      reads this
    {
      && bird == StartBird.(y := bird.y, velocity := bird.velocity)
      && PipesValid(pipes)
      && score == ScoreAfter(frame)
      && flapFrame < WingFrames
      && |username| <= MaxNameLength
    }

    /** Once the name has been entered, the best score shown is the one stored
        for that name. */
    ghost predicate Valid()
      reads this
    {
      && RunValid()
      && (!showUsernamePopup ==> highscore == StoredHighscore(highscores, username))
    }

    /** The main loop advances the simulation in this state. */
    ghost predicate Running()
      reads this
    {
      !showUsernamePopup && gameStarted && !isPaused
    }

    /** The state after `gameOver` ended a run with score `final`, starting from
        stored leaderboard `board0`, best score `best0` and stored bests `store0`. */
    ghost predicate Finalized(board0: Board, best0: int, store0: map<string, int>, final: int)
      reads this
    {
      && leaderboard == SaveScore(board0, username, final)
      && highscore == Max(best0, final)
      && highscores == (if final > best0 then store0[HighscoreKey(username) := final] else store0)
      && !gameStarted
      && !isPaused
    }

    /** Nothing that `gameOver` writes has changed. */
    ghost predicate Untouched(board0: Board, best0: int, store0: map<string, int>, started0: bool, paused0: bool)
      reads this
    {
      && leaderboard == board0 && highscore == best0 && highscores == store0
      && gameStarted == started0 && isPaused == paused0
    }

    /** The page as loaded, with `board`, `store` and `savedName` already in storage. */
    constructor (board: Board, store: map<string, int>, savedName: string)
      ensures Valid()
      ensures Run() == RunState(StartBird, [], 0, 0, 0, false, false, 0)
      ensures username == "" && showUsernamePopup
      ensures leaderboard == board && highscores == store && savedUsername == savedName
    {
      bird := StartBird;
      pipes := [];
      frame := 0;
      score := 0;
      flapFrame := 0;
      gameStarted := false;
      isPaused := false;
      username := "";
      highscore := 0;
      showUsernamePopup := true;
      leaderboard := board;
      highscores := store;
      savedUsername := savedName;
    }

    /** `resetGame`: a new run with the bird back at its start, no pipes, the
        counters at zero, and the player's stored best loaded. */
    method ResetGame()
      requires RunValid()
      modifies this`bird, this`pipes, this`frame, this`score, this`flapFrame,
               this`gameStarted, this`isPaused, this`highscore
      ensures Valid()
      ensures Run() == Restarted(old(Run()), StoredHighscore(highscores, username))
    {
      bird := bird.(y := StartY);
      bird := bird.(velocity := StartVelocity);
      pipes := [];
      frame := 0;
      score := 0;
      flapFrame := 0;
      gameStarted := true;
      isPaused := false;
      highscore := StoredHighscore(highscores, username);
    }

    /** `gameOver`: records the score on the leaderboard, stores a new best
        score only when it beats the old one, and ends the run unpaused. */
    method GameOver()
      requires Valid()
      modifies this`leaderboard, this`highscore, this`highscores, this`gameStarted, this`isPaused
      ensures Valid()
      ensures Finalized(old(leaderboard), old(highscore), old(highscores), score)
      ensures !showUsernamePopup ==>
                StoredHighscore(highscores, username) == Max(old(StoredHighscore(highscores, username)), score)
    {
      leaderboard := SaveScore(leaderboard, username, score);
      if score > highscore {
        highscore := score;
        highscores := highscores[HighscoreKey(username) := highscore];
      }
      gameStarted := false;
      isPaused := false;
    }

    /** `updatePipes`: spawns a pipe on every `SpawnInterval`-th frame, moves
        every pipe left in place, then keeps only the pipes still on screen. */
    method UpdatePipes(top: real)
      requires Valid()
      requires 0.0 <= top < GameHeight / 2.0
      modifies this`pipes
      ensures Valid()
      ensures pipes == Advanced(old(pipes), frame, top)
    {
      if frame % SpawnInterval == 0 {
        pipes := pipes + [NewPipe(top)];
      }
      assert pipes == old(pipes) + Spawned(frame, top) by {
        assert old(pipes) + [] == old(pipes);
      }
      ghost var spawned := pipes;
      ShiftPipes();
      DropPipesOffScreen();
      assert pipes == KeepOnScreen(ShiftAll(spawned));
      AdvancedValid(old(pipes), frame, top);
    }

    /** `for (let pipe of pipes) pipe.x -= 2.5`: each pipe in turn moves left. */
    method ShiftPipes()
      modifies this`pipes
      ensures pipes == ShiftAll(old(pipes))
    {
      var i := 0;
      while i < |pipes|
        invariant |pipes| == |old(pipes)|
        invariant 0 <= i <= |pipes|
        invariant forall k :: 0 <= k < i ==> pipes[k] == Shifted(old(pipes)[k])
        invariant forall k :: i <= k < |pipes| ==> pipes[k] == old(pipes)[k]
      {
        pipes := pipes[i := pipes[i].(x := pipes[i].x - PipeSpeed)];
        i := i + 1;
      }
    }

    /** `pipes = pipes.filter(pipe => pipe.x + pipe.width > 0)`: the pipes still
        on screen are collected in order and replace the list. */
    method DropPipesOffScreen()
      modifies this`pipes
      ensures pipes == KeepOnScreen(old(pipes))
    {
      var kept := [];
      var j := 0;
      while j < |pipes|
        invariant 0 <= j <= |pipes|
        invariant kept == KeepOnScreen(pipes[..j])
      {
        assert pipes[..j + 1][..j] == pipes[..j];
        if OnScreen(pipes[j]) {
          kept := kept + [pipes[j]];
        }
        j := j + 1;
      }
      assert pipes[..j] == pipes;
      pipes := kept;
    }

    /** `checkCollision`: calls `gameOver` once for every pipe the bird hits and
        once more when it has left the field. Because a second `gameOver`
        changes nothing, the run ends, exactly as after one call, precisely
        when the bird collides. */
    method CheckCollision()
      requires Valid()
      modifies this`leaderboard, this`highscore, this`highscores, this`gameStarted, this`isPaused
      ensures Valid()
      ensures if Collides(bird, pipes)
              then Finalized(old(leaderboard), old(highscore), old(highscores), score)
              else Untouched(old(leaderboard), old(highscore), old(highscores), old(gameStarted), old(isPaused))
    {
      ghost var hit := false;
      var i := 0;
      while i < |pipes|
        invariant 0 <= i <= |pipes|
        invariant Valid()
        invariant hit <==> exists j :: 0 <= j < i && HitsPipe(bird, pipes[j])
        invariant hit ==> Finalized(old(leaderboard), old(highscore), old(highscores), score)
        invariant !hit ==> Untouched(old(leaderboard), old(highscore), old(highscores), old(gameStarted), old(isPaused))
      {
        if HitsPipe(bird, pipes[i]) {
          GameOver();
          SaveScoreIdempotent(old(leaderboard), username, score);
          hit := true;
        }
        i := i + 1;
      }
      if OutOfBounds(bird) {
        GameOver();
        SaveScoreIdempotent(old(leaderboard), username, score);
      }
    }

    /** `flap`, also what a touch does. */
    method Flap()
      requires Valid()
      modifies this`bird, this`pipes, this`frame, this`score, this`flapFrame,
               this`gameStarted, this`isPaused, this`highscore
      ensures Valid()
      ensures Run() == Flapped(old(Run()), username, highscores)
    {
      if gameStarted && !isPaused {
        bird := bird.(velocity := bird.lift);
      } else if !gameStarted && username != "" {
        ResetGame();
      }
    }

    /** The keydown handler, given the event's `key` and `code`. While the popup
        is shown, keys edit the name and Enter with a non-empty name stores it,
        closes the popup and starts a run. Afterwards Space flaps and P toggles
        the pause, in any state. */
    method KeyDown(key: string, code: string)
      requires Valid()
      modifies this`username, this`showUsernamePopup, this`savedUsername,
               this`bird, this`pipes, this`frame, this`score, this`flapFrame,
               this`gameStarted, this`isPaused, this`highscore
      ensures Valid()
      ensures old(showUsernamePopup) ==>
                && username == EditName(old(username), key)
                && if key == "Enter" && username != "" then
                     && !showUsernamePopup && savedUsername == username
                     && Run() == Restarted(old(Run()), StoredHighscore(highscores, username))
                   else
                     && showUsernamePopup && savedUsername == old(savedUsername)
                     && Run() == old(Run())
      ensures !old(showUsernamePopup) ==>
                && username == old(username) && !showUsernamePopup && savedUsername == old(savedUsername)
                && Run() == if code == "Space" then Flapped(old(Run()), username, highscores)
                            else if code == "KeyP" then old(Run()).(isPaused := !old(isPaused))
                            else old(Run())
    {
      if showUsernamePopup {
        if |key| == 1 && |username| < MaxNameLength {
          username := username + key;
        }
        if key == "Backspace" {
          username := if username == "" then "" else username[..|username| - 1];
        }
        if key == "Enter" && username != "" {
          showUsernamePopup := false;
          savedUsername := username;
          ResetGame();
        }
      } else {
        if code == "Space" {
          Flap();
        }
        if code == "KeyP" {
          isPaused := !isPaused;
        }
      }
    }

    /** The mousedown handler, given the click position: a click on the restart
        button of the game-over screen restarts the run, and every click then
        flaps (so a restart click also starts the bird with the lift velocity). */
    method MouseDown(x: real, y: real)
      requires Valid()
      modifies this`bird, this`pipes, this`frame, this`score, this`flapFrame,
               this`gameStarted, this`isPaused, this`highscore
      ensures Valid()
      ensures var restart := old(!showUsernamePopup && !gameStarted) && InRestartButton(x, y);
              Run() == Flapped(if restart then Restarted(old(Run()), StoredHighscore(highscores, username))
                               else old(Run()),
                               username, highscores)
    {
      if !showUsernamePopup && !gameStarted {
        if InRestartButton(x, y) {
          ResetGame();
        }
      }
      Flap();
    }

    /** One frame of the main loop's simulation: while a run is going and not
        paused, gravity accelerates the bird, the bird moves, the pipes
        advance, collisions are checked, the frame counter and the score
        advance and every `FramesPerWingBeat` frames the wing sprite changes.
        `top` is the random upper-segment height for a pipe spawned now. */
    method Tick(top: real)
      requires Valid()
      requires 0.0 <= top < GameHeight / 2.0
      modifies this`bird, this`pipes, this`frame, this`score, this`flapFrame,
               this`leaderboard, this`highscore, this`highscores, this`gameStarted, this`isPaused
      ensures Valid()
      ensures !old(Running()) ==> unchanged(this)
      ensures old(Running()) ==>
                && bird.velocity == old(bird.velocity) + old(bird.gravity)
                && bird == old(bird).(velocity := bird.velocity, y := old(bird.y) + bird.velocity)
                && pipes == Advanced(old(pipes), old(frame), top)
                && frame == old(frame) + 1
                && score == ScoreAfter(frame) && score >= old(score)
                && flapFrame == (if frame % FramesPerWingBeat == 0
                                 then (old(flapFrame) + 1) % WingFrames else old(flapFrame))
                && if Collides(bird, pipes)
                   then Finalized(old(leaderboard), old(highscore), old(highscores), old(score))
                   else Untouched(old(leaderboard), old(highscore), old(highscores), true, false)
    {
      if !showUsernamePopup && gameStarted && !isPaused {
        Fall();
        UpdatePipes(top);
        ghost var board0, best0, store0 := leaderboard, highscore, highscores;
        CheckCollision();
        assert if Collides(bird, pipes) then Finalized(board0, best0, store0, old(score))
               else Untouched(board0, best0, store0, true, false);
        CountFrame();
      }
    }

    /** Gravity, then motion: the velocity grows by the gravity and the bird
        moves by the new velocity. */
    method Fall()
      requires Valid()
      modifies this`bird
      ensures Valid()
      ensures bird.velocity == old(bird.velocity) + old(bird.gravity)
      ensures bird == old(bird).(velocity := bird.velocity, y := old(bird.y) + bird.velocity)
    {
      bird := bird.(velocity := bird.velocity + bird.gravity);
      bird := bird.(y := bird.y + bird.velocity);
    }

    /** The frame counter, the score derived from it, and the wing sprite. */
    method CountFrame()
      requires Valid()
      modifies this`frame, this`score, this`flapFrame
      ensures Valid()
      ensures frame == old(frame) + 1
      ensures score == ScoreAfter(frame) && score >= old(score)
      ensures flapFrame == if frame % FramesPerWingBeat == 0 then (old(flapFrame) + 1) % WingFrames
                           else old(flapFrame)
    {
      frame := frame + 1;
      score := ScoreAfter(frame);
      ScoreMonotone(old(frame), frame);
      if frame % FramesPerWingBeat == 0 {
        flapFrame := (flapFrame + 1) % WingFrames;
      }
    }
  }
}
