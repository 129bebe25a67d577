/**
 * The primary-hand rule shared by both controllers
 * (src/core/game_controller.py and game_logic/game_controller.py): the right
 * hand has priority over the left, and no hand gives nothing.
 */
module HandSelection {
  import opened Wrappers
  import opened Landmarks

  /** The detector's result: landmarks per hand name ("Right", "Left"). */
  type DetectedHands = map<string, Landmarks>

  function SideName(side: Side): string
  {
    match side
    case Left => "Left"
    case Right => "Right"
  }

  /** The hand passed on to the game logic. */
  function SelectPrimaryHand(hands: DetectedHands): (r: Option<(Side, Landmarks)>)
    ensures "Right" in hands ==> r == Some((Right, hands["Right"]))
    ensures "Right" !in hands && "Left" in hands ==> r == Some((Left, hands["Left"]))
    ensures "Right" !in hands && "Left" !in hands ==> r == None
    ensures r.Some? ==> SideName(r.value.0) in hands && hands[SideName(r.value.0)] == r.value.1
  {
    if "Right" in hands then Some((Right, hands["Right"]))
    else if "Left" in hands then Some((Left, hands["Left"]))
    else None
  }

  /** The left hand is chosen only when no right hand was detected, whatever else is present. */
  lemma LeftOnlyWithoutRight(hands: DetectedHands)
    ensures SelectPrimaryHand(hands).Some? && SelectPrimaryHand(hands).value.0 == Left <==>
            "Right" !in hands && "Left" in hands
  {
  }

  /** Adding or removing a left hand never changes the choice when a right hand is present. */
  lemma RightHandDecides(hands: DetectedHands, left: Landmarks)
    requires "Right" in hands
    ensures SelectPrimaryHand(hands["Left" := left]) == SelectPrimaryHand(hands)
    ensures SelectPrimaryHand(hands - {"Left"}) == SelectPrimaryHand(hands)
  {
  }

  /** Labels other than "Right" and "Left" are ignored. */
  lemma OtherLabelsIgnored(hands: DetectedHands, name: string, lms: Landmarks)
    requires name != "Right" && name != "Left"
    ensures SelectPrimaryHand(hands[name := lms]) == SelectPrimaryHand(hands)
  {
  }
}
