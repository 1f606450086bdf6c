/**
  The game scene: the module-level state of the game as the fields of one
  object, and the operations that the engine's callbacks run on it (the
  countdown's timed calls, the per-frame update, the spawner's looping
  event, the overlap and ground-contact callbacks).
 */
module GameScene {
  import opened GameRules
  import opened Countdown
  import opened Controls

  /** Range of the horizontal position a token is spawned at. */
  const MinTokenX := 15
  const MaxTokenX := 785
  /** Period, in milliseconds, of the spawner's looping event. */
  const SpawnDelay := 800

  /** A falling token: where it was spawned and the token speed it was
      launched with. */
  datatype Token = Token(x: int, speed: int)

  /** The spawner's looping timer event. */
  datatype Spawner = NotStarted | Looping(delay: int) | Removed

  datatype Phase = CountingDown | Playing | Ended {
    function Rank(): nat {
      match this
      case CountingDown => 0
      case Playing => 1
      case Ended => 2
    }
  }

  predicate TokenInRange(t: Token, tokenSpeed: int) {
    MinTokenX <= t.x <= MaxTokenX && InitialTokenSpeed <= t.speed <= tokenSpeed
  }

  /** Every falling token was spawned in range and with a token speed no
      greater than the current one. */
  predicate TokensInRange(ts: seq<Token>, tokenSpeed: int) {
    forall k :: 0 <= k < |ts| ==> TokenInRange(ts[k], tokenSpeed)
  }

  /** Removing one token, with the token speed possibly raised, keeps the
      rest in range. */
  lemma RemovalKeepsTokensInRange(ts: seq<Token>, i: nat, speed: int, raised: int)
    requires TokensInRange(ts, speed) && i < |ts| && speed <= raised
    ensures TokensInRange(ts[..i] + ts[i + 1..], raised)
  {
    var rest := ts[..i] + ts[i + 1..];
    forall k | 0 <= k < |rest|
      ensures TokenInRange(rest[k], raised)
    {
      if k < i {
        assert rest[k] == ts[k];
      } else {
        assert rest[k] == ts[k + 1];
      }
    }
  }

  /** Raising the token speed keeps the falling tokens in range. */
  lemma RaiseKeepsTokensInRange(ts: seq<Token>, speed: int, raised: int)
    requires TokensInRange(ts, speed) && speed <= raised
    ensures TokensInRange(ts, raised)
  {
  }

  class Game {
    // game state
    var score: int
    var totalTokens: int
    var evolutionStage: int
    var tokenSpeed: int
    var isPlaying: bool
    var gameEnded: bool
    var startTime: int
    // the player sprite: its stored speed and what the game sets on its body
    var playerSpeed: int
    var velocityX: int
    var velocityY: int
    var facingLeft: bool
    // tokens still falling, and the event that spawns them
    var tokens: seq<Token>
    var spawner: Spawner
    // what is on screen
    var timerSeconds: int
    var countdownLabel: Label
    var countdownCalls: nat
    var messages: seq<Message>
    // the engine clock, in milliseconds
    var createdAt: int
    var clock: int

    function CurrentProgress(): Progress
      reads this`score, this`totalTokens, this`evolutionStage, this`playerSpeed,
            this`tokenSpeed, this`gameEnded
    {
      Progress(score, totalTokens, evolutionStage, playerSpeed, tokenSpeed, gameEnded)
    }

    function CurrentPhase(): Phase
      reads this`isPlaying, this`gameEnded
    {
      if gameEnded then Ended else if isPlaying then Playing else CountingDown
    }

    /** The counters are those of `totalTokens` collections from the start,
        and one notice was shown per evolution and per end. */
    ghost predicate CountersValid()
      reads this`score, this`totalTokens, this`evolutionStage, this`playerSpeed,
            this`tokenSpeed, this`gameEnded, this`messages
    {
      Consistent(CurrentProgress(), messages)
    }

    /** The label is the one set by the countdown calls that ran, and play
        started with the last call. */
    ghost predicate CountdownValid()
      reads this`countdownCalls, this`countdownLabel, this`isPlaying
    {
      && countdownLabel == LabelAfterCalls(countdownCalls)
      && isPlaying == (countdownCalls == CallCount)
    }

    /** Exactly the countdown calls due by the clock have run: before play
        that is the count due, in play (after all four calls) the start delay
        has passed. The clock has not gone back past the creation or the
        start of play. */
    ghost predicate ClockValid()
      reads this`countdownCalls, this`isPlaying, this`clock, this`createdAt, this`startTime
    {
      && (!isPlaying ==> countdownCalls == CallsDue(clock - createdAt))
      && (isPlaying ==> clock - createdAt >= StartDelay && startTime <= clock)
      && createdAt <= clock
    }

    /** In every valid state exactly the countdown calls due by the clock
        have run. */
    lemma CountdownCaughtUp()
      requires CountdownValid() && ClockValid()
      ensures countdownCalls == CallsDue(clock - createdAt)
    {
    }

    /** The spawner runs exactly between the start and the end, and tokens
        exist only once play has started. */
    ghost predicate SpawnValid()
      reads this`isPlaying, this`gameEnded, this`spawner, this`totalTokens,
            this`tokens, this`tokenSpeed
    {
      && spawner == (if !isPlaying then NotStarted else if gameEnded then Removed else Looping(SpawnDelay))
      && (!isPlaying ==> totalTokens == 0 && tokens == [])
      && TokensInRange(tokens, tokenSpeed)
    }

    ghost predicate Valid()
      reads this`score, this`totalTokens, this`evolutionStage, this`playerSpeed,
            this`tokenSpeed, this`gameEnded, this`messages, this`isPlaying,
            this`countdownCalls, this`countdownLabel, this`clock, this`createdAt,
            this`startTime, this`spawner, this`tokens
    {
      CountersValid() && CountdownValid() && ClockValid() && SpawnValid()
    }

    /** Scene creation at engine time `now`: initial counters, the player at
        its initial speed, the countdown label "3" with its calls scheduled. */
    constructor (now: int)
      ensures Valid()
      ensures CurrentProgress() == InitialProgress
      ensures CurrentPhase() == CountingDown
      ensures tokens == [] && messages == [] && spawner == NotStarted
      ensures countdownLabel == FirstLabel && countdownCalls == 0
      ensures createdAt == now && clock == now
      ensures velocityX == 0 && velocityY == 0 && !facingLeft && timerSeconds == 0
    {
      score, totalTokens, evolutionStage := 0, 0, 0;
      tokenSpeed := InitialTokenSpeed;
      isPlaying, gameEnded := false, false;
      startTime := 0;
      playerSpeed := InitialPlayerSpeed;
      velocityX, velocityY, facingLeft := 0, 0, false;
      tokens, spawner := [], NotStarted;
      timerSeconds := 0;
      countdownLabel, countdownCalls := FirstLabel, 0;
      messages := [];
      createdAt, clock := now, now;
    }

    /** Starts play: records the start time and starts the looping spawner. */
    method StartGame()
      modifies this`isPlaying, this`startTime, this`spawner
      ensures isPlaying && startTime == clock && spawner == Looping(SpawnDelay)
    {
      isPlaying := true;
      startTime := clock;
      spawner := Looping(SpawnDelay);
    }

    /** The next scheduled countdown call runs: each of the first three sets
        the label's next text, the fourth destroys the label and starts play. */
    method RunScheduledCall()
      requires countdownCalls < CallCount
      modifies this`countdownCalls, this`countdownLabel, this`isPlaying, this`startTime, this`spawner
      ensures countdownCalls == old(countdownCalls) + 1
      ensures countdownLabel == LabelAfterCalls(countdownCalls)
      ensures countdownCalls < CallCount ==>
                isPlaying == old(isPlaying) && startTime == old(startTime) && spawner == old(spawner)
      ensures countdownCalls == CallCount ==>
                isPlaying && startTime == clock && spawner == Looping(SpawnDelay)
    {
      match countdownCalls {
        case 0 => countdownLabel := Two;
        case 1 => countdownLabel := One;
        case 2 => countdownLabel := Go;
        case _ =>
          countdownLabel := Destroyed;
          StartGame();
      }
      countdownCalls := countdownCalls + 1;
    }

    /** The engine clock reaches `now`: every countdown call that has become
        due runs, in order; the last one removes the label and starts play. */
    method AdvanceCountdown(now: int)
      requires Valid()
      requires clock <= now
      modifies this`clock, this`countdownCalls, this`countdownLabel,
               this`isPlaying, this`startTime, this`spawner
      ensures Valid()
      ensures clock == now
      ensures countdownCalls == CallsDue(now - createdAt)
      ensures countdownLabel == LabelAt(now - createdAt)
      ensures isPlaying <==> now - createdAt >= StartDelay
      ensures old(isPlaying) ==> startTime == old(startTime) && spawner == old(spawner)
      ensures !old(isPlaying) && isPlaying ==> startTime == now && spawner == Looping(SpawnDelay)
      ensures old(CurrentPhase()).Rank() <= CurrentPhase().Rank()
    {
      CallsDueMonotone(clock - createdAt, now - createdAt);
      clock := now;
      while countdownCalls < CallsDue(now - createdAt)
        invariant CountdownValid() && SpawnValid()
        invariant countdownCalls <= CallsDue(now - createdAt) && createdAt <= clock
        invariant isPlaying ==> startTime <= clock
        invariant clock == now
        invariant old(isPlaying) ==> startTime == old(startTime) && spawner == old(spawner)
        invariant !old(isPlaying) && isPlaying ==> startTime == now && spawner == Looping(SpawnDelay)
        decreases CallCount - countdownCalls
      {
        RunScheduledCall();
      }
      ScheduleShowsLabelAt(now - createdAt);
    }

    /** The in-play part of a frame: the keys set the player's velocity and
        facing, and the timer shows the whole seconds since the start. */
    method Steer(keys: Keys, touchingDown: bool)
      modifies this`velocityX, this`velocityY, this`facingLeft, this`timerSeconds
      ensures velocityX == HorizontalVelocity(keys, EffectiveSpeed(playerSpeed))
      ensures facingLeft == FacingLeft(keys, old(facingLeft))
      ensures velocityY == VerticalVelocity(keys, touchingDown, old(velocityY))
      ensures timerSeconds == ElapsedSeconds(clock, startTime)
    {
      var speed := EffectiveSpeed(playerSpeed);
      velocityX := HorizontalVelocity(keys, speed);
      facingLeft := FacingLeft(keys, facingLeft);
      velocityY := VerticalVelocity(keys, touchingDown, velocityY);
      timerSeconds := ElapsedSeconds(clock, startTime);
    }

    /** One frame at engine time `now`: the countdown calls that became due
        run first; then outside play nothing else changes, and in play the
        keys set the velocity and the timer shows the elapsed seconds. */
    method Update(keys: Keys, touchingDown: bool, now: int)
      requires Valid()
      requires clock <= now
      modifies this`clock, this`countdownCalls, this`countdownLabel,
               this`isPlaying, this`startTime, this`spawner,
               this`velocityX, this`velocityY, this`facingLeft, this`timerSeconds
      ensures Valid()
      ensures clock == now
      ensures countdownLabel == LabelAt(now - createdAt)
      ensures isPlaying <==> now - createdAt >= StartDelay
      ensures old(isPlaying) ==> startTime == old(startTime) && spawner == old(spawner)
      ensures !old(isPlaying) && isPlaying ==> startTime == now && spawner == Looping(SpawnDelay)
      ensures !isPlaying || gameEnded ==>
                velocityX == old(velocityX) && velocityY == old(velocityY)
                && facingLeft == old(facingLeft) && timerSeconds == old(timerSeconds)
      ensures isPlaying && !gameEnded ==>
                && velocityX == HorizontalVelocity(keys, playerSpeed)
                && facingLeft == FacingLeft(keys, old(facingLeft))
                && velocityY == VerticalVelocity(keys, touchingDown, old(velocityY))
                && timerSeconds == ElapsedSeconds(now, startTime)
                && timerSeconds >= 0
    {
      AdvanceCountdown(now);
      if !isPlaying || gameEnded {
        return;
      }
      assert playerSpeed >= InitialPlayerSpeed;
      Steer(keys, touchingDown);
    }

    /** The spawner's looping event fires with a random position `x`: while
        the event exists, a token is added carrying the current token speed. */
    method SpawnTick(x: int)
      requires Valid()
      requires MinTokenX <= x <= MaxTokenX
      modifies this`tokens
      ensures Valid()
      ensures tokens == old(tokens) + (if spawner.Looping? then [Token(x, tokenSpeed)] else [])
    {
      if spawner.Looping? {
        tokens := tokens + [Token(x, tokenSpeed)];
      }
    }

    /** Token `i` touches the ground and is destroyed. */
    method TokenLanded(i: nat)
      requires Valid()
      requires i < |tokens|
      modifies this`tokens
      ensures Valid()
      ensures tokens == old(tokens[..i] + tokens[i + 1..])
    {
      tokens := tokens[..i] + tokens[i + 1..];
    }

    /** Advances the stage and raises the player's speed and the token speed;
        tokens already falling keep theirs. */
    method Evolve()
      requires evolutionStage < MaxStage
      modifies this`evolutionStage, this`playerSpeed, this`tokenSpeed, this`messages
      ensures evolutionStage == old(evolutionStage) + 1
      ensures playerSpeed == old(playerSpeed) + PlayerSpeedIncrease
      ensures tokenSpeed == old(tokenSpeed) + TokenSpeedIncrease
      ensures messages == old(messages) + [EvolvedMessage]
    {
      evolutionStage := evolutionStage + 1;
      playerSpeed := playerSpeed + PlayerSpeedIncrease;
      tokenSpeed := tokenSpeed + TokenSpeedIncrease;
      messages := messages + [EvolvedMessage];
    }

    /** Ends the game: sets the end flag, removes the spawner and shows the
        whole seconds elapsed since the start. */
    method EndGame()
      requires spawner != NotStarted
      modifies this`gameEnded, this`spawner, this`messages
      ensures gameEnded && spawner == Removed
      ensures messages == old(messages) + [VictoryMessage(ElapsedSeconds(clock, startTime))]
    {
      gameEnded := true;
      spawner := Removed;
      messages := messages + [VictoryMessage(ElapsedSeconds(clock, startTime))];
    }

    /** The two checks that close a collection, on the counters after the
        count went up: the evolution check, then the end check. */
    method CheckMilestones()
      requires CountdownValid() && SpawnValid()
      requires totalTokens > 0
      modifies this`evolutionStage, this`playerSpeed, this`tokenSpeed,
               this`gameEnded, this`spawner, this`messages
      ensures CountdownValid() && SpawnValid()
      ensures CurrentProgress() == Checked(old(CurrentProgress()))
      ensures messages == old(messages) + Announcements(old(CurrentProgress()), ElapsedSeconds(clock, startTime))
      ensures spawner == if EndsOn(old(CurrentProgress())) then Removed else old(spawner)
    {
      if totalTokens % 8 == 0 && evolutionStage < MaxStage {
        Evolve();
      }
      if totalTokens == FinalTokenCount {
        EndGame();
      }
      assert SpawnValid() by {
        RaiseKeepsTokensInRange(tokens, old(tokenSpeed), tokenSpeed);
      }
    }

    /** The first half of a collection at engine time `now`: token `i` is
        disabled, and the score and the count go up. */
    method TakeToken(i: nat, now: int)
      requires CountdownValid() && ClockValid() && SpawnValid()
      requires i < |tokens|
      requires clock <= now
      modifies this`score, this`totalTokens, this`tokens, this`clock
      ensures CountdownValid() && ClockValid() && SpawnValid()
      ensures isPlaying && startTime <= now
      ensures clock == now && tokens == old(tokens[..i] + tokens[i + 1..])
      ensures CurrentProgress() == Rewarded(old(CurrentProgress()))
    {
      RemovalKeepsTokensInRange(tokens, i, tokenSpeed, tokenSpeed);
      clock, tokens := now, tokens[..i] + tokens[i + 1..];
      score, totalTokens := score + ScoreReward, totalTokens + 1;
    }

    /** The player overlaps token `i` at engine time `now`: the token goes,
        the score and the count go up, then the milestone checks run. There
        is no phase guard: a token still falling after the end can be
        collected. */
    method CollectToken(i: nat, now: int)
      requires Valid()
      requires i < |tokens|
      requires clock <= now
      modifies this`score, this`totalTokens, this`evolutionStage, this`playerSpeed,
               this`tokenSpeed, this`gameEnded, this`spawner, this`messages,
               this`tokens, this`clock
      ensures Valid()
      ensures clock == now
      ensures CurrentProgress() == Collect(old(CurrentProgress()))
      ensures tokens == old(tokens[..i] + tokens[i + 1..])
      ensures messages == old(messages)
                          + Announcements(Rewarded(old(CurrentProgress())), ElapsedSeconds(now, startTime))
      ensures spawner == if gameEnded then Removed else old(spawner)
      ensures old(CurrentPhase()).Rank() <= CurrentPhase().Rank()
    {
      ghost var before := CurrentProgress();
      TakeToken(i, now);
      CheckMilestones();
      assert CountersValid() by {
        CollectKeepsConsistent(before, old(messages), ElapsedSeconds(now, startTime));
      }
    }
  }
}
