/**
 * The dice roller: the current value, the "rolling" flag the roll-start callback raises, and the
 * history of the last ten rolls. The random draw is the parameter `value` of `RollDice`.
 */
module DiceRoller {

  /** The most rolls the history keeps. */
  const HistoryLimit: nat := 10

  function Min(a: int, b: int): int { if a < b then a else b }

  /** The history after recording `value`: appended, and the oldest entry dropped once there are more than ten. */
  function NextHistory(history: seq<int>, value: int): (r: seq<int>)
    ensures |history| < HistoryLimit ==> r == history + [value]
    ensures |history| == HistoryLimit ==> r == history[1..] + [value]
    ensures |history| <= HistoryLimit ==> |r| <= HistoryLimit
    ensures |r| > 0 && r[|r| - 1] == value
  {
    var h := history + [value];
    if |h| > HistoryLimit then h[1..] else h
  }

  /** The last `min(n, 10)` of `n` rolls, oldest first. */
  function LastRolls(rolls: seq<int>): (r: seq<int>)
    ensures |r| == Min(|rolls|, HistoryLimit)
    ensures forall i :: 0 <= i < |r| ==> r[i] == rolls[|rolls| - |r| + i]
  {
    rolls[|rolls| - Min(|rolls|, HistoryLimit)..]
  }

  /** Recording a roll in the history of the earlier rolls gives the history of all the rolls. */
  lemma NextHistoryKeepsLastRolls(rolls: seq<int>, value: int)
    ensures NextHistory(LastRolls(rolls), value) == LastRolls(rolls + [value])
  {
    var all := rolls + [value];
    var r := NextHistory(LastRolls(rolls), value);
    var expected := LastRolls(all);
    assert |r| == |expected|;
    forall i | 0 <= i < |r| ensures r[i] == expected[i] {
      if |rolls| < HistoryLimit {
        assert r == LastRolls(rolls) + [value];
      } else {
        assert r == LastRolls(rolls)[1..] + [value];
      }
    }
  }

  /** The six dice pictures. */
  datatype DiceFace = Dice1 | Dice2 | Dice3 | Dice4 | Dice5 | Dice6

  /** `getDiceImageResource`: 1 to 5 show their own face, every other value shows the six. */
  function GetDiceImageResource(diceValue: int): (face: DiceFace)
    ensures 1 <= diceValue <= 6 ==> FaceValue(face) == diceValue
    ensures !(1 <= diceValue <= 5) ==> face == Dice6
  {
    match diceValue
    case 1 => Dice1
    case 2 => Dice2
    case 3 => Dice3
    case 4 => Dice4
    case 5 => Dice5
    case _ => Dice6
  }

  /** The number of pips a picture shows. */
  function FaceValue(face: DiceFace): (v: int)
    ensures 1 <= v <= 6
  {
    match face
    case Dice1 => 1
    case Dice2 => 2
    case Dice3 => 3
    case Dice4 => 4
    case Dice5 => 5
    case Dice6 => 6
  }

  /** Every picture is shown for exactly one value in 1..6. */
  lemma EveryFaceShownForItsValue(face: DiceFace)
    ensures GetDiceImageResource(FaceValue(face)) == face
  {
    match face
    case Dice1 =>
    case Dice2 =>
    case Dice3 =>
    case Dice4 =>
    case Dice5 =>
    case Dice6 =>
  }

  class DiceRollerApp {
    var diceValue: int
    var isRolling: bool
    var diceHistory: seq<int>
    /** Every value rolled so far, oldest first. */
    ghost var rolls: seq<int>

    /** The history is the last ten rolls (so never longer than ten). */
    ghost predicate Valid()
      reads this
    {
      diceHistory == LastRolls(rolls)
    }

    /** The initial state: showing 1, not rolling, no history. */
    constructor ()
      ensures Valid()
      ensures diceValue == 1 && !isRolling && diceHistory == [] && rolls == []
    {
      diceValue := 1;
      isRolling := false;
      diceHistory := [];
      rolls := [];
    }

    /** The roll-start callback. */
    method OnRollStart()
      requires Valid()
      modifies this
      ensures Valid()
      ensures isRolling
      ensures diceValue == old(diceValue) && diceHistory == old(diceHistory) && rolls == old(rolls)
    {
      isRolling := true;
    }

    /** The new-value callback: shows the value and records it in the bounded history. */
    method OnNewValue(newValue: int)
      requires Valid()
      modifies this
      ensures Valid()
      ensures diceValue == newValue && isRolling == old(isRolling)
      ensures rolls == old(rolls) + [newValue]
      ensures diceHistory == NextHistory(old(diceHistory), newValue)
      ensures |diceHistory| <= HistoryLimit && diceHistory[|diceHistory| - 1] == newValue
    {
      NextHistoryKeepsLastRolls(rolls, newValue);
      diceValue := newValue;
      diceHistory := diceHistory + [newValue];
      if |diceHistory| > HistoryLimit {
        diceHistory := diceHistory[1..];
      }
      rolls := rolls + [newValue];
    }

    /** `rollDice`: the roll-start callback, then the new-value callback with the drawn value (1..6). */
    method RollDice(value: int)
      requires Valid()
      requires 1 <= value <= 6
      modifies this
      ensures Valid()
      ensures isRolling && diceValue == value
      ensures rolls == old(rolls) + [value]
      ensures diceHistory == NextHistory(old(diceHistory), value)
      ensures FaceValue(GetDiceImageResource(diceValue)) == value
    {
      OnRollStart();
      OnNewValue(value);
    }
  }
}
