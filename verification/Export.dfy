/**
 * The export orchestrator: the save button's state machine around one
 * asynchronous report render. The renderer itself is an outside capability;
 * only the settling of its promise, with success or failure, is modelled.
 */
module Export {

  /** The floppy-disk icon the button shows when idle and after a successful export. */
  const SaveIcon := "\U{1F4BE}"
  const SavingLabel := "Saving PDF..."
  const ErrorLabel := "Error! Try Again"

  /**
   * What the save button shows, whether it is disabled, and how many render
   * calls have been started whose promise has not settled yet.
   */
  datatype SaveState = SaveState(caption: string, disabled: bool, inFlight: nat)

  /** A user activation of the button, or the settling of the pending render. */
  datatype Event = Activate | Settle(success: bool)

  /**
   * The orchestrator's invariant: at most one render is outstanding, the
   * button is disabled exactly while a started render has not settled, and
   * it then reads "Saving PDF...".
   */
  predicate Sound(s: SaveState) {
    && s.inFlight <= 1
    && (s.disabled <==> s.inFlight == 1)
    && (s.inFlight == 1 ==> s.caption == SavingLabel)
  }

  /** The button as the page first shows it: the given caption, enabled, nothing rendering. */
  function Idle(caption: string): (s: SaveState)
    ensures Sound(s) && !s.disabled && s.inFlight == 0
  {
    SaveState(caption, false, 0)
  }

  /**
   * A click. A disabled button receives no click, so nothing changes; an
   * enabled one starts a render, shows "Saving PDF..." and disables itself.
   */
  function ClickStep(s: SaveState): (r: SaveState)
    ensures s.disabled ==> r == s
    ensures !s.disabled ==> r.caption == SavingLabel && r.disabled && r.inFlight == s.inFlight + 1
    ensures Sound(s) ==> Sound(r) && r.inFlight == 1
  {
    if s.disabled then s else SaveState(SavingLabel, true, s.inFlight + 1)
  }

  /**
   * The pending render settles: success restores the icon, failure shows the
   * error caption, and either way the button is enabled again.
   */
  function CompleteStep(s: SaveState, success: bool): (r: SaveState)
    requires s.inFlight > 0
    ensures r.inFlight == s.inFlight - 1 && !r.disabled
    ensures r.caption == if success then SaveIcon else ErrorLabel
    ensures Sound(s) ==> Sound(r) && r.inFlight == 0
  {
    SaveState(if success then SaveIcon else ErrorLabel, false, s.inFlight - 1)
  }

  /** One event; a settlement with no render outstanding cannot happen and leaves the state alone. */
  function Step(s: SaveState, e: Event): SaveState {
    match e
    case Activate => ClickStep(s)
    case Settle(success) => if s.inFlight > 0 then CompleteStep(s, success) else s
  }

  function Run(s: SaveState, events: seq<Event>): SaveState
    decreases |events|
  {
    if events == [] then s else Run(Step(s, events[0]), events[1..])
  }

  /** Whatever the users and the renderer do, never more than one render is outstanding. */
  lemma {:induction false} RunStaysSound(s: SaveState, events: seq<Event>)
    requires Sound(s)
    ensures Sound(Run(s, events))
    decreases |events|
  {
    if events != [] {
      RunStaysSound(Step(s, events[0]), events[1..]);
    }
  }

  /** After a failure the button can be used again: the next click starts a new render. */
  lemma RetryAfterFailure(s: SaveState)
    requires Sound(s) && s.inFlight == 1
    ensures var r := ClickStep(CompleteStep(s, false));
            r.caption == SavingLabel && r.disabled && r.inFlight == 1
  {
  }

  /** The save button, whose handler updates its caption and `disabled` flag in place. */
  class SaveButton {
    /** What the button shows: its `textContent`, or the text its `innerHTML` renders. */
    var caption: string
    var disabled: bool
    /** Render calls started whose promise has not settled. */
    var inFlight: nat

    function State(): SaveState
      reads this
    {
      SaveState(caption, disabled, inFlight)
    }

    constructor (caption: string)
      ensures State() == Idle(caption)
    {
      this.caption := caption;
      disabled := false;
      inFlight := 0;
    }

    /**
     * The click listener; `invoked` says whether the renderer was called.
     * A disabled button gets no click event from the browser.
     */
    method Click() returns (invoked: bool)
      modifies this
      ensures State() == ClickStep(old(State()))
      ensures invoked <==> !old(disabled)
    {
      if disabled {
        return false;
      }
      caption := SavingLabel;
      disabled := true;
      inFlight := inFlight + 1;
      invoked := true;
    }

    /** The render's promise settles: `then` on success, `catch` on failure. */
    method Complete(success: bool)
      requires inFlight > 0
      modifies this
      ensures State() == CompleteStep(old(State()), success)
    {
      inFlight := inFlight - 1;
      if success {
        caption := SaveIcon;
      } else {
        caption := ErrorLabel;
      }
      disabled := false;
    }
  }
}
