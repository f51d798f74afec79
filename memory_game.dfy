/**
 * The memory-tile game: a round shows `targetCount` tiles of a 5×5 grid
 * after a countdown, then the player taps; all targets found scores and
 * raises the level, one wrong tap resets both. `Math.random` is given as
 * the sequence of tile indices it produces, and each timer as a method
 * the caller invokes when the timer fires.
 */
module MemoryGame {
  import opened Wrappers

  const GridSize: int := 5
  const TotalTiles: int := GridSize * GridSize
  const MaxTargets: int := 15
  const CountdownStart: int := 3

  datatype GameState = Countdown | Show | Play | Result

  /** Which of the translated messages is shown. */
  datatype Message = Ready | ShowTiles | PlayTiles | Success | Fail

  /** `Math.min(3 + (nextLevel - 1), 15)`. */
  function TargetCount(nextLevel: int): (n: int)
    ensures n <= MaxTargets && (n == MaxTargets || n == nextLevel + 2)
    ensures nextLevel >= 1 ==> n >= 3
    ensures nextLevel <= MaxTargets - 2 ==> n == nextLevel + 2
  {
    if 3 + (nextLevel - 1) < MaxTargets then 3 + (nextLevel - 1) else MaxTargets
  }

  /** The distinct values of `s` in order of first appearance. */
  function Dedup(s: seq<int>): (d: seq<int>)
    ensures |d| <= |s|
    decreases |s|
  {
    if s == [] then []
    else
      var d := Dedup(s[..|s| - 1]);
      if s[|s| - 1] in d then d else d + [s[|s| - 1]]
  }

  predicate Distinct(s: seq<int>) {
    forall i, j :: 0 <= i < j < |s| ==> s[i] != s[j]
  }

  /** Every value drawn is a tile index. */
  predicate TileDraws(s: seq<int>) {
    forall k :: 0 <= k < |s| ==> 0 <= s[k] < TotalTiles
  }

  lemma {:induction false} DedupDistinct(s: seq<int>)
    ensures Distinct(Dedup(s))
    decreases |s|
  {
    if s != [] {
      DedupDistinct(s[..|s| - 1]);
    }
  }

  /** `Dedup` keeps exactly the values of its input. */
  lemma {:induction false} DedupSameValues(s: seq<int>)
    ensures forall x :: x in Dedup(s) <==> x in s
    decreases |s|
  {
    if s != [] {
      DedupSameValues(s[..|s| - 1]);
      assert s == s[..|s| - 1] + [s[|s| - 1]];
    }
  }

  /** Deduplicating a prefix gives a prefix of the deduplicated whole. */
  lemma {:induction false} DedupPrefix(s: seq<int>, i: nat)
    requires i <= |s|
    ensures Dedup(s[..i]) <= Dedup(s)
    decreases |s| - i
  {
    if i < |s| {
      DedupPrefix(s, i + 1);
      assert s[..i + 1][..i] == s[..i];
    } else {
      assert s[..i] == s;
    }
  }

  /** The drawing loop: keep drawing and push each index not drawn before, until there are `targetCount` of them. */
  method PickTargets(targetCount: int, draws: seq<int>) returns (targets: seq<int>)
    requires targetCount <= |Dedup(draws)|
    ensures targets == if targetCount <= 0 then [] else Dedup(draws)[..targetCount]
  {
    targets := [];
    var i := 0;
    while |targets| < targetCount
      invariant 0 <= i <= |draws| && targets == Dedup(draws[..i]) && |targets| <= (if targetCount < 0 then 0 else targetCount)
      decreases |draws| - i
    {
      assert draws[..|draws|] == draws;
      assert draws[..i + 1][..i] == draws[..i];
      if draws[i] !in targets {
        targets := targets + [draws[i]];
      }
      i := i + 1;
    }
    if targetCount > 0 {
      DedupPrefix(draws, i);
    }
  }

  /** A round's targets are exactly `targetCount` distinct tile indices. */
  lemma RoundTargets(nextLevel: int, draws: seq<int>)
    requires nextLevel >= 1 && TileDraws(draws) && TargetCount(nextLevel) <= |Dedup(draws)|
    ensures var t := Dedup(draws)[..TargetCount(nextLevel)];
      |t| == TargetCount(nextLevel) && Distinct(t) && TileDraws(t)
  {
    DedupDistinct(draws);
    DedupSameValues(draws);
    var d := Dedup(draws);
    forall k | 0 <= k < |d| ensures 0 <= d[k] < TotalTiles {
      assert d[k] in d;
    }
  }

  /** The score after a cleared round at `level`. */
  function ScoreAfterSuccess(score: int, level: int): (s: int)
    ensures s - score == 100 + 10 * level
  {
    score + 100 + level * 10
  }

  class MemoryGame {
    var gameState: GameState
    var countdown: int
    var targets: seq<int>
    var selected: seq<int>
    var wrong: seq<int>
    var message: Message
    var level: int
    var score: int
    /** The level a pending `startNewRound` timer will start, if one is pending. */
    var pendingRound: Option<int>

    /** Found tiles are distinct targets, wrong tiles are not targets, and the level starts at 1. */
    ghost predicate Valid()
      reads this
    {
      && Distinct(targets) && Distinct(selected)
      && (forall k :: 0 <= k < |selected| ==> selected[k] in targets)
      && (forall k :: 0 <= k < |wrong| ==> wrong[k] !in targets)
      && level >= 1 && score >= 0
    }

    /** Mounting, including the effect that starts the first round. */
    constructor (draws: seq<int>)
      requires TargetCount(1) <= |Dedup(draws)|
      ensures Valid() && level == 1 && score == 0 && pendingRound == None
      ensures gameState == Countdown && countdown == CountdownStart && targets == Dedup(draws)[..3]
    {
      gameState := Countdown;
      countdown := CountdownStart;
      targets := [];
      selected := [];
      wrong := [];
      message := Ready;
      level := 1;
      score := 0;
      pendingRound := None;
      new;
      StartNewRound(1, draws);
    }

    /** `startNewRound`: reset the round's state and draw its targets; level and score are left alone. */
    method StartNewRound(nextLevel: int, draws: seq<int>)
      requires Valid() && TargetCount(nextLevel) <= |Dedup(draws)|
      modifies this`gameState, this`countdown, this`selected, this`wrong, this`message, this`targets
      ensures Valid()
      ensures gameState == Countdown && countdown == CountdownStart && selected == [] && wrong == [] && message == Ready
      ensures targets == if TargetCount(nextLevel) <= 0 then [] else Dedup(draws)[..TargetCount(nextLevel)]
    {
      gameState := Countdown;
      countdown := CountdownStart;
      selected := [];
      wrong := [];
      message := Ready;
      var newTargets := PickTargets(TargetCount(nextLevel), draws);
      DedupDistinct(draws);
      targets := newTargets;
    }

    /** The countdown and show effects: a pending timer fires, or the countdown at 0 moves on at once. */
    method Advance()
      requires Valid()
      modifies this`gameState, this`countdown, this`message
      ensures Valid()
      ensures old(gameState) == Countdown && old(countdown) > 0 ==>
                gameState == Countdown && countdown == old(countdown) - 1 && message == old(message)
      ensures old(gameState) == Countdown && old(countdown) <= 0 ==>
                gameState == Show && countdown == old(countdown) && message == ShowTiles
      ensures old(gameState) == Show ==> gameState == Play && countdown == old(countdown) && message == PlayTiles
      ensures old(gameState) in {Play, Result} ==>
                gameState == old(gameState) && countdown == old(countdown) && message == old(message)
    {
      match gameState {
        case Countdown =>
          if countdown > 0 {
            countdown := countdown - 1;
          } else {
            gameState := Show;
            message := ShowTiles;
          }
        case Show =>
          gameState := Play;
          message := PlayTiles;
        case Play =>
        case Result =>
      }
    }

    /** `handleTilePress(index)`. */
    method HandleTilePress(index: int)
      requires Valid()
      modifies this`selected, this`wrong, this`gameState, this`message, this`score, this`level, this`pendingRound
      ensures Valid() && targets == old(targets)
      ensures old(gameState) != Play || index in old(selected) || index in old(wrong) ==>
                selected == old(selected) && wrong == old(wrong) && gameState == old(gameState)
                && score == old(score) && level == old(level) && pendingRound == old(pendingRound)
                && message == old(message)
      ensures old(gameState) == Play && index !in old(selected) && index !in old(wrong) && index in targets ==>
                selected == old(selected) + [index] && wrong == old(wrong)
                && (if |selected| == |targets| then
                      gameState == Result && message == Success
                      && score == ScoreAfterSuccess(old(score), old(level)) && level == old(level) + 1
                      && pendingRound == Some(old(level) + 1)
                    else
                      gameState == old(gameState) && message == old(message)
                      && score == old(score) && level == old(level) && pendingRound == old(pendingRound))
      ensures old(gameState) == Play && index !in old(selected) && index !in old(wrong) && index !in targets ==>
                wrong == old(wrong) + [index] && selected == old(selected)
                && gameState == Result && message == Fail && score == 0 && level == 1 && pendingRound == Some(1)
    {
      if gameState != Play {
        return;
      }
      if index in selected || index in wrong {
        return;
      }
      if index in targets {
        var newSelected := selected + [index];
        selected := newSelected;
        if |newSelected| == |targets| {
          gameState := Result;
          message := Success;
          pendingRound := Some(level + 1);
          score := ScoreAfterSuccess(score, level);
          level := level + 1;
        }
      } else {
        wrong := wrong + [index];
        gameState := Result;
        message := Fail;
        score := 0;
        level := 1;
        pendingRound := Some(1);
      }
    }

    /** The pending `startNewRound` timer fires. */
    method FireRoundTimer(draws: seq<int>)
      requires Valid() && pendingRound.Some? && TargetCount(pendingRound.value) <= |Dedup(draws)|
      modifies this`gameState, this`countdown, this`selected, this`wrong, this`message, this`targets, this`pendingRound
      ensures Valid() && pendingRound == None
      ensures gameState == Countdown && countdown == CountdownStart && selected == [] && wrong == [] && message == Ready
      ensures targets == if TargetCount(old(pendingRound).value) <= 0 then [] else Dedup(draws)[..TargetCount(old(pendingRound).value)]
    {
      var next := pendingRound.value;
      pendingRound := None;
      StartNewRound(next, draws);
    }

    /**
     * A change of language: the message goes back to "ready", and because
     * `startNewRound` depends on the translated text, the mount effect
     * starts a round of level 1 again without resetting level or score.
     */
    method ChangeLanguage(draws: seq<int>)
      requires Valid() && TargetCount(1) <= |Dedup(draws)|
      modifies this`gameState, this`countdown, this`selected, this`wrong, this`message, this`targets
      ensures Valid() && message == Ready && gameState == Countdown && countdown == CountdownStart && selected == [] && wrong == []
      ensures targets == Dedup(draws)[..3]
    {
      message := Ready;
      StartNewRound(1, draws);
    }
  }

  /** All targets of a round found in order, with no wrong tap, clear the round. */
  lemma ClearAfterAllTargets(targets: seq<int>, selected: seq<int>)
    requires Distinct(targets) && |selected| == |targets| && Distinct(selected)
    requires forall k :: 0 <= k < |selected| ==> selected[k] in targets
    ensures forall x :: x in targets ==> x in selected
  {
    var st := set k | 0 <= k < |selected| :: selected[k];
    var tt := set k | 0 <= k < |targets| :: targets[k];
    DistinctSetSize(selected);
    DistinctSetSize(targets);
    assert st <= tt;
    SubsetSameSize(st, tt);
    forall x | x in targets ensures x in selected {
      assert x in tt;
    }
  }

  lemma {:induction false} DistinctSetSize(s: seq<int>)
    requires Distinct(s)
    ensures |set k | 0 <= k < |s| :: s[k]| == |s|
    decreases |s|
  {
    if s != [] {
      var init := s[..|s| - 1];
      DistinctSetSize(init);
      var si := set k | 0 <= k < |init| :: init[k];
      var ss := set k | 0 <= k < |s| :: s[k];
      assert ss == si + {s[|s| - 1]};
      assert s[|s| - 1] !in si;
    }
  }

  lemma SubsetSameSize(a: set<int>, b: set<int>)
    requires a <= b && |a| == |b|
    ensures a == b
  {
    assert b == a + (b - a);
    assert a * (b - a) == {};
    assert |b - a| == 0;
  }
}
