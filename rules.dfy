/**
  The gameplay rules of the token-collecting game: its constants, the
  counters that one collected token changes, the closed form of those
  counters after any number of collections, and the notifications
  ("Bozo Evolved!", "Mission Accomplished!") that a collection triggers.

  Products, quotients and remainders are written with the literal values
  of the constants below (10, 8, 50, 20, 1000), which keeps the verifier's
  arithmetic linear; the constants are used everywhere else.
 */
module GameRules {

  /** Points added to the score for each collected token. */
  const ScoreReward := 10
  /** Collections between two evolutions. */
  const EvolutionThreshold := 8
  /** Number of player textures; the evolution stage indexes them. */
  const StageCount := 4
  const MaxStage := StageCount - 1
  const InitialPlayerSpeed := 200
  const InitialTokenSpeed := 150
  const PlayerSpeedIncrease := 50
  const TokenSpeedIncrease := 20
  /** The token count whose collection ends the game: the threshold times
      the last stage, 8 * 3. */
  const FinalTokenCount := 24

  lemma FinalTokenCountIsLastThreshold()
    ensures FinalTokenCount == EvolutionThreshold * MaxStage
  {
  }

  /** The counters a collection changes: the score, the token count, the
      stage, the player's stored speed, the token speed and the end flag. */
  datatype Progress = Progress(
    score: int,
    totalTokens: int,
    stage: int,
    playerSpeed: int,
    tokenSpeed: int,
    ended: bool)

  const InitialProgress := Progress(0, 0, 0, InitialPlayerSpeed, InitialTokenSpeed, false)

  function PlayerSpeedAt(stage: int): int {
    InitialPlayerSpeed + 50 * stage
  }

  function TokenSpeedAt(stage: int): int {
    InitialTokenSpeed + 20 * stage
  }

  /** The stage reached after n collections: one stage per full threshold,
      capped at the last texture. */
  function StageFor(n: nat): (s: nat)
    ensures s <= MaxStage
    ensures 8 * s <= n
    ensures s < MaxStage ==> n < 8 * (s + 1)
  {
    if n / 8 < MaxStage then n / 8 else MaxStage
  }

  /** Closed form of the counters after n collections from the start. */
  function ProgressAfter(n: nat): Progress {
    var s := StageFor(n);
    Progress(10 * n, n, s, PlayerSpeedAt(s), TokenSpeedAt(s), n >= FinalTokenCount)
  }

  /** The first half of a collection: the reward and the count. */
  function Rewarded(p: Progress): (q: Progress)
    ensures q.score == p.score + ScoreReward && q.totalTokens == p.totalTokens + 1
    ensures q.stage == p.stage && q.playerSpeed == p.playerSpeed
    ensures q.tokenSpeed == p.tokenSpeed && q.ended == p.ended
  {
    p.(score := p.score + ScoreReward, totalTokens := p.totalTokens + 1)
  }

  /** The evolution check, run on the counters after the count went up. */
  predicate EvolvesOn(q: Progress)
    ensures EvolvesOn(q) ==> q.stage + 1 <= MaxStage
    ensures q.totalTokens % EvolutionThreshold != 0 ==> !EvolvesOn(q)
  {
    q.totalTokens % 8 == 0 && q.stage < MaxStage
  }

  /** The end check, run after the evolution check. */
  predicate EndsOn(q: Progress)
    ensures EndsOn(q) ==> q.totalTokens % EvolutionThreshold == 0 && q.totalTokens > 0
  {
    q.totalTokens == FinalTokenCount
  }

  /** The second half of a collection: the two independent checks, the
      evolution first and the end second. */
  function Checked(q: Progress): (r: Progress)
    ensures r.score == q.score && r.totalTokens == q.totalTokens
    ensures r.stage == q.stage + (if EvolvesOn(q) then 1 else 0)
    ensures r.playerSpeed == q.playerSpeed + (if EvolvesOn(q) then PlayerSpeedIncrease else 0)
    ensures r.tokenSpeed == q.tokenSpeed + (if EvolvesOn(q) then TokenSpeedIncrease else 0)
    ensures r.ended == (q.ended || EndsOn(q))
  {
    var r := if EvolvesOn(q) then
      q.(stage := q.stage + 1,
         playerSpeed := q.playerSpeed + PlayerSpeedIncrease,
         tokenSpeed := q.tokenSpeed + TokenSpeedIncrease)
    else q;
    if EndsOn(r) then r.(ended := true) else r
  }

  /** One collected token. */
  function Collect(p: Progress): (r: Progress)
    ensures r.score == p.score + ScoreReward && r.totalTokens == p.totalTokens + 1
    ensures p.stage <= r.stage <= p.stage + 1
    ensures r.stage > p.stage ==> p.stage < MaxStage
    ensures r.playerSpeed >= p.playerSpeed && r.tokenSpeed >= p.tokenSpeed
    ensures p.ended ==> r.ended
  {
    Checked(Rewarded(p))
  }

  /** The counters after n collections, one step at a time. */
  function Run(n: nat): (r: Progress)
    ensures r.totalTokens == n
    ensures r.score == 10 * r.totalTokens
    ensures 0 <= r.stage <= MaxStage
    ensures r.playerSpeed >= InitialPlayerSpeed && r.tokenSpeed >= InitialTokenSpeed
  {
    if n == 0 then InitialProgress else Collect(Run(n - 1))
  }

  /** The step rule of a collection agrees with the closed form. */
  lemma {:induction false} CollectFollowsClosedForm(n: nat)
    ensures Collect(ProgressAfter(n)) == ProgressAfter(n + 1)
  {
    var s := StageFor(n);
    if (n + 1) % 8 == 0 && s < MaxStage {
      assert n / 8 == s;
      assert (n + 1) / 8 == s + 1;
    } else if s < MaxStage {
      assert (n + 1) / 8 == n / 8;
    }
  }

  lemma {:induction false} RunMatchesClosedForm(n: nat)
    ensures Run(n) == ProgressAfter(n)
  {
    if n > 0 {
      RunMatchesClosedForm(n - 1);
      CollectFollowsClosedForm(n - 1);
    }
  }

  /** An evolution happens on the collections that bring the count to 8, 16
      and 24, and on no other. */
  lemma EvolvesExactlyAtThresholds(n: nat)
    ensures EvolvesOn(Rewarded(Run(n))) <==>
              (n + 1) % 8 == 0 && n + 1 <= FinalTokenCount
  {
    RunMatchesClosedForm(n);
  }

  /** The end check fires on the 24th collection and on no other, and the
      end flag is set from then on. */
  lemma EndsExactlyOnce(n: nat)
    ensures EndsOn(Rewarded(Run(n))) <==> n + 1 == FinalTokenCount
    ensures Run(n).ended <==> n >= FinalTokenCount
  {
    RunMatchesClosedForm(n);
  }

  /** Collections past the end keep adding to the score but change neither
      the stage nor the speeds. */
  lemma NothingEvolvesAfterTheEnd(n: nat)
    requires n >= FinalTokenCount
    ensures Run(n).ended && Run(n).stage == MaxStage
    ensures !EvolvesOn(Rewarded(Run(n))) && !EndsOn(Rewarded(Run(n)))
    ensures Run(n + 1).score == Run(n).score + ScoreReward
    ensures Run(n + 1).playerSpeed == Run(n).playerSpeed
    ensures Run(n + 1).tokenSpeed == Run(n).tokenSpeed
  {
    RunMatchesClosedForm(n);
  }

  /** The token count, the stage and both speeds never go down. */
  lemma NeverDecreases(m: nat, n: nat)
    requires m <= n
    ensures Run(m).totalTokens <= Run(n).totalTokens
    ensures Run(m).stage <= Run(n).stage
    ensures Run(m).playerSpeed <= Run(n).playerSpeed
    ensures Run(m).tokenSpeed <= Run(n).tokenSpeed
    ensures Run(m).ended ==> Run(n).ended
  {
    RunMatchesClosedForm(m);
    RunMatchesClosedForm(n);
    assert m / 8 <= n / 8;
  }

  /** The counters after 8, 16 and 24 collections. */
  lemma Milestones()
    ensures Run(8) == Progress(80, 8, 1, 250, 170, false)
    ensures Run(16) == Progress(160, 16, 2, 300, 190, false)
    ensures Run(24) == Progress(240, 24, 3, 350, 210, true)
  {
    RunMatchesClosedForm(8);
    RunMatchesClosedForm(16);
    RunMatchesClosedForm(24);
  }

  /** Whole seconds between two engine timestamps, rounded down. */
  function ElapsedSeconds(now: int, start: int): (r: int)
    ensures 1000 * r <= now - start < 1000 * (r + 1)
    ensures now >= start ==> r >= 0
  {
    (now - start) / 1000
  }

  lemma ElapsedNeverGoesBack(start: int, now: int, later: int)
    requires now <= later
    ensures ElapsedSeconds(now, start) <= ElapsedSeconds(later, start)
  {
  }

  /** The notices a collection puts on screen. */
  datatype Message = EvolvedMessage | VictoryMessage(seconds: int)

  /** What a collection announces, in the order the checks run: the
      evolution first, then the end with the elapsed seconds. */
  function Announcements(q: Progress, seconds: int): (ms: seq<Message>)
    ensures |ms| == (if EvolvesOn(q) then 1 else 0) + (if EndsOn(q) then 1 else 0)
    ensures EvolvesOn(q) ==> ms[0] == EvolvedMessage
    ensures EndsOn(q) ==> ms[|ms| - 1] == VictoryMessage(seconds)
  {
    (if EvolvesOn(q) then [EvolvedMessage] else [])
    + (if EndsOn(q) then [VictoryMessage(seconds)] else [])
  }

  function Evolutions(ms: seq<Message>): nat {
    if ms == [] then 0 else (if ms[0].EvolvedMessage? then 1 else 0) + Evolutions(ms[1..])
  }

  function Victories(ms: seq<Message>): nat {
    if ms == [] then 0 else (if ms[0].VictoryMessage? then 1 else 0) + Victories(ms[1..])
  }

  lemma {:induction false} MessageCountsAppend(a: seq<Message>, b: seq<Message>)
    ensures Evolutions(a + b) == Evolutions(a) + Evolutions(b)
    ensures Victories(a + b) == Victories(a) + Victories(b)
  {
    if a == [] {
      assert a + b == b;
    } else {
      assert (a + b)[1..] == a[1..] + b;
      MessageCountsAppend(a[1..], b);
    }
  }

  /** A collection announces one evolution exactly when it evolves and one
      victory exactly when it ends the game. */
  lemma AnnouncementCounts(q: Progress, seconds: int)
    ensures Evolutions(Announcements(q, seconds)) == (if EvolvesOn(q) then 1 else 0)
    ensures Victories(Announcements(q, seconds)) == (if EndsOn(q) then 1 else 0)
  {
    var e: seq<Message> := if EvolvesOn(q) then [EvolvedMessage] else [];
    var v: seq<Message> := if EndsOn(q) then [VictoryMessage(seconds)] else [];
    MessageCountsAppend(e, v);
  }

  /** The seconds shown by every victory notice are non-negative. */
  predicate VictorySecondsNonNegative(ms: seq<Message>) {
    forall k :: 0 <= k < |ms| && ms[k].VictoryMessage? ==> ms[k].seconds >= 0
  }

  lemma AppendKeepsVictorySecondsNonNegative(ms: seq<Message>, more: seq<Message>)
    requires VictorySecondsNonNegative(ms) && VictorySecondsNonNegative(more)
    ensures VictorySecondsNonNegative(ms + more)
  {
    forall k | 0 <= k < |ms + more| && (ms + more)[k].VictoryMessage?
      ensures (ms + more)[k].seconds >= 0
    {
      if k >= |ms| {
        assert (ms + more)[k] == more[k - |ms|];
      }
    }
  }

  /** The counters are those of a run of collections from the start, and
      the notices shown so far are one per evolution and one for the end,
      none of them with a negative time. */
  ghost predicate Consistent(p: Progress, ms: seq<Message>) {
    && p.totalTokens >= 0
    && p == Run(p.totalTokens)
    && Evolutions(ms) == p.stage
    && Victories(ms) == (if p.ended then 1 else 0)
    && VictorySecondsNonNegative(ms)
  }

  lemma StartIsConsistent()
    ensures Consistent(InitialProgress, [])
  {
  }

  /** A collection, with what it announces appended to the notices, keeps
      the counters and the notices consistent. */
  lemma CollectKeepsConsistent(p: Progress, ms: seq<Message>, seconds: int)
    requires Consistent(p, ms)
    requires seconds >= 0
    ensures Consistent(Collect(p), ms + Announcements(Rewarded(p), seconds))
  {
    var q := Rewarded(p);
    var more := Announcements(q, seconds);
    EndsExactlyOnce(p.totalTokens);
    AnnouncementCounts(q, seconds);
    MessageCountsAppend(ms, more);
    AppendKeepsVictorySecondsNonNegative(ms, more);
  }

  /** On the 24th collection both checks fire: first the last evolution, then
      the end. */
  lemma LastCollectionEvolvesThenEnds(seconds: int)
    ensures Announcements(Rewarded(Run(FinalTokenCount - 1)), seconds)
              == [EvolvedMessage, VictoryMessage(seconds)]
  {
    RunMatchesClosedForm(FinalTokenCount - 1);
  }
}
