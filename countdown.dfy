/**
  The countdown shown before play: the label starts at "3", four calls are
  scheduled one second apart from scene creation, the first three change
  the label and the fourth removes it and starts the game.
 */
module Countdown {

  /** The countdown label: one of its four texts, or destroyed. */
  datatype Label = Three | Two | One | Go | Destroyed {
    /** The text on screen; nothing once the label is destroyed. */
    function Text(): string {
      match this
      case Three => "3"
      case Two => "2"
      case One => "1"
      case Go => "Go!"
      case Destroyed => ""
    }
  }

  const FirstLabel := Three
  /** Delays, in milliseconds after scene creation, of the scheduled calls. */
  const Delays: seq<int> := [1000, 2000, 3000, 4000]
  const CallCount := 4
  /** The delay of the call that starts the game. */
  const StartDelay := 4000

  lemma ScheduleConstants()
    ensures CallCount == |Delays| && StartDelay == Delays[CallCount - 1]
  {
  }

  /** The label after the first k scheduled calls have run: the first three
      calls set "2", "1" and "Go!", the fourth destroys the label. */
  function LabelAfterCalls(k: nat): (shown: Label)
    ensures shown == FirstLabel <==> k == 0
    ensures shown == Destroyed <==> k >= CallCount
    ensures 0 < k < CallCount ==> shown.Text() == ["3", "2", "1", "Go!"][k]
  {
    match k
    case 0 => Three
    case 1 => Two
    case 2 => One
    case 3 => Go
    case _ => Destroyed
  }

  /** The number of scheduled calls due once `elapsed` milliseconds have
      passed since the scene was created. */
  function CallsDue(elapsed: int): (c: nat)
    ensures c <= CallCount
  {
    if elapsed < 1000 then 0
    else if elapsed < 2000 then 1
    else if elapsed < 3000 then 2
    else if elapsed < 4000 then 3
    else 4
  }

  /** The calls due are exactly those whose delay has passed. */
  lemma CallsDueAreThoseWhoseDelayPassed(elapsed: int)
    ensures forall k :: 0 <= k < CallCount ==> (k < CallsDue(elapsed) <==> Delays[k] <= elapsed)
  {
  }

  /** Reference: the label on screen at each moment of the countdown, by
      the whole second since scene creation. */
  function LabelAt(elapsed: int): (shown: Label)
    ensures shown.Text() == "3" <==> elapsed < 1000
    ensures shown == Two <==> 1000 <= elapsed < 2000
    ensures shown == One <==> 2000 <= elapsed < 3000
    ensures shown.Text() == "Go!" <==> 3000 <= elapsed < 4000
    ensures shown == Destroyed <==> elapsed >= StartDelay
  {
    if elapsed < 1000 then Three
    else if elapsed < 2000 then Two
    else if elapsed < 3000 then One
    else if elapsed < 4000 then Go
    else Destroyed
  }

  /** Running the due calls in order shows the label of the current second. */
  lemma ScheduleShowsLabelAt(elapsed: int)
    ensures LabelAfterCalls(CallsDue(elapsed)) == LabelAt(elapsed)
  {
  }

  /** A call once due stays due as time passes. */
  lemma CallsDueMonotone(earlier: int, later: int)
    requires earlier <= later
    ensures CallsDue(earlier) <= CallsDue(later)
  {
  }
}
