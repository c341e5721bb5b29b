/**
 * The snip-and-swap state machine (snipState in script.js) and the events the
 * handlers feed it. Guards that are not about the snip state (the snip tool being
 * active, no drag in progress) belong to the handlers; the events carry the
 * remaining conditions the handlers test.
 */
module SnipMachine {

  datatype SnipState = Idle | Selecting1 | Selected1 | Selecting2 | Swapped

  datatype SnipEvent =
      /** handleConfirmSnip1; `rectValid` is whether the drag gave a rectangle. */
    | ConfirmFirst(rectValid: bool)
      /** handleStartSelection2. */
    | StartSecond
      /** handleConfirmSnip2; `firstHeld` is whether snip1Data and snip1Rect are present. */
    | ConfirmSecond(rectValid: bool, firstHeld: bool)
      /** A mouse-up with the snip tool whose drag gave no rectangle (handleSelectionMouseUp). */
    | EmptyRelease
      /** resetToolState('snip'): on a tool switch, cancel, or the pointer leaving mid-drag. */
    | ToolReset
      /** rotateCanvas. */
    | Rotation
      /** A click on the snip tool button. */
    | SnipToolClicked

  /** The next snip state. */
  function Step(s: SnipState, e: SnipEvent): (t: SnipState)
    // No event leads into Selecting1: the source never assigns it.
    ensures t == Selecting1 ==> s == Selecting1
    // Region 1 is held (Selected1, Selecting2) only after it was held or just confirmed.
    ensures (t == Selected1 || t == Selecting2) ==> s in {Selecting1, Selected1, Selecting2}
    // Rotation and the tool button always abandon the flow.
    ensures e.Rotation? || e.SnipToolClicked? ==> t == Idle
  {
    match e
    case ConfirmFirst(rectValid) => if s == Selecting1 && rectValid then Selected1 else s
    case StartSecond => if s == Selected1 then Selecting2 else s
    case ConfirmSecond(rectValid, firstHeld) => if s == Selecting2 && firstHeld && rectValid then Swapped else s
    case EmptyRelease =>
      if s == Selecting1 then Idle else if s == Selecting2 then Selected1 else s
    case ToolReset => if s != Swapped && s != Idle then Idle else s
    case Rotation => Idle
    case SnipToolClicked => Idle
  }

  /**
   * Each handler moves the machine exactly when its guard holds, and in every
   * other case leaves the state as it was.
   */
  lemma StepGuards(s: SnipState, rectValid: bool, firstHeld: bool)
    ensures Step(s, ConfirmFirst(rectValid)) != s <==> s == Selecting1 && rectValid
    ensures Step(s, StartSecond) != s <==> s == Selected1
    ensures Step(s, ConfirmSecond(rectValid, firstHeld)) != s <==> s == Selecting2 && rectValid && firstHeld
    ensures Step(s, EmptyRelease) != s <==> s == Selecting1 || s == Selecting2
    ensures Step(s, ToolReset) != s <==> s != Idle && s != Swapped
  {
  }

  /** The state reached from `s` after the events `es`, in order. */
  function Run(s: SnipState, es: seq<SnipEvent>): (t: SnipState)
    // Selecting1 is reached by no run that does not start in it.
    ensures t == Selecting1 ==> s == Selecting1
    decreases |es|
  {
    if es == [] then s else Run(Step(s, es[0]), es[1..])
  }

  /**
   * The snip flow can never start: from Idle, the state the editor starts in,
   * every sequence of events leaves the machine in Idle.
   */
  lemma {:induction false} IdleIsClosed(es: seq<SnipEvent>)
    ensures Run(Idle, es) == Idle
    decreases |es|
  {
    if es != [] {
      IdleIsClosed(es[1..]);
    }
  }

  /**
   * Were the machine in Selecting1, the designed flow would go through:
   * confirm region 1, arm region 2, confirm region 2.
   */
  lemma DesignedFlow()
    ensures Run(Selecting1, [ConfirmFirst(true), StartSecond, ConfirmSecond(true, true)]) == Swapped
    ensures Run(Selecting1, [ConfirmFirst(true), StartSecond, EmptyRelease]) == Selected1
  {
  }
}
