/**
 * The in-panel copy button (src/popover.ts): a click writes the share URL to
 * the clipboard; a successful write disables the button and shows the
 * "copied" content, and the 5000 ms timer it starts restores both. The
 * asynchronous write and the timer are input events.
 */
module CopyButtons {
  import opened Wrappers
  import opened Popover

  /** How the clipboard write that a click starts ends. */
  datatype WriteOutcome = Written | Rejected

  datatype Event = Click(outcome: WriteOutcome) | TimerElapsed

  /** What a user sees of the button, and whether its revert timer is running. */
  datatype CopyState = CopyState(disabled: bool, content: string, timerPending: bool)

  function InitialState(spec: CopyButtonSpec): (s: CopyState)
    ensures Consistent(spec, s) && !s.disabled
  {
    CopyState(false, spec.initial, false)
  }

  /**
   * The button is disabled exactly while its revert timer runs, and then
   * shows the copied content; otherwise it shows its initial content.
   */
  predicate Consistent(spec: CopyButtonSpec, s: CopyState)
  {
    && s.disabled == s.timerPending
    && s.content == (if s.disabled then spec.copied else spec.initial)
  }

  /**
   * One event. A disabled button receives no clicks; a rejected write changes
   * nothing; a successful one disables the button, shows the copied content
   * and starts the timer; the timer restores the initial state.
   */
  function Next(spec: CopyButtonSpec, s: CopyState, e: Event): (t: CopyState)
    ensures Consistent(spec, s) ==> Consistent(spec, t)
    ensures e == Click(Rejected) ==> t == s
    ensures e.Click? && s.disabled ==> t == s
    ensures e == Click(Written) && !s.disabled ==> t.disabled && t.content == spec.copied && t.timerPending
    ensures e == TimerElapsed && s.timerPending ==> t == InitialState(spec)
    ensures e == TimerElapsed && !s.timerPending ==> t == s
  {
    match e
    case Click(outcome) =>
      if s.disabled || outcome == Rejected then s
      else CopyState(true, spec.copied, true)
    case TimerElapsed =>
      if s.timerPending then CopyState(false, spec.initial, false) else s
  }

  /** The state after a sequence of events. */
  function Run(spec: CopyButtonSpec, s: CopyState, events: seq<Event>): CopyState
    decreases |events|
  {
    if events == [] then s else Run(spec, Next(spec, s, events[0]), events[1..])
  }

  /** Every state reachable from a consistent one is consistent. */
  lemma {:induction false} RunKeepsConsistent(spec: CopyButtonSpec, s: CopyState, events: seq<Event>)
    requires Consistent(spec, s)
    ensures Consistent(spec, Run(spec, s, events))
    decreases |events|
  {
    if events != [] {
      RunKeepsConsistent(spec, Next(spec, s, events[0]), events[1..]);
    }
  }

  lemma {:induction false} RunAppend(spec: CopyButtonSpec, s: CopyState, events: seq<Event>, e: Event)
    ensures Run(spec, s, events + [e]) == Next(spec, Run(spec, s, events), e)
    decreases |events|
  {
    if events == [] {
      assert events + [e] == [e];
    } else {
      assert (events + [e])[1..] == events[1..] + [e];
      RunAppend(spec, Next(spec, s, events[0]), events[1..], e);
    }
  }

  /**
   * Whatever happened before, once the pending timer of a disabled button
   * fires, the button is enabled again and shows its initial content.
   */
  lemma CopiedAlwaysReverts(spec: CopyButtonSpec, events: seq<Event>)
    requires Run(spec, InitialState(spec), events).disabled
    ensures Run(spec, InitialState(spec), events + [TimerElapsed]) == InitialState(spec)
  {
    RunKeepsConsistent(spec, InitialState(spec), events);
    RunAppend(spec, InitialState(spec), events, TimerElapsed);
  }

  /** The live button. */
  class CopyButton {
    const spec: CopyButtonSpec
    var disabled: bool
    var content: string
    var timerPending: bool

    function State(): CopyState
      reads this
    {
      CopyState(disabled, content, timerPending)
    }

    constructor (spec: CopyButtonSpec)
      ensures this.spec == spec
      ensures State() == InitialState(spec)
    {
      this.spec := spec;
      disabled := false;
      content := spec.initial;
      timerPending := false;
    }

    /**
     * A click: an enabled button asks the clipboard to write the share URL
     * and reacts to the outcome; a disabled one gets no click event.
     */
    method Click(outcome: WriteOutcome) returns (write: Option<string>)
      modifies this
      ensures write == (if old(disabled) then None else Some(spec.text))
      ensures State() == Next(spec, old(State()), Event.Click(outcome))
    {
      if disabled {
        return None;
      }
      write := Some(spec.text);
      if outcome == Written {
        disabled := true;
        content := spec.copied;
        timerPending := true;
      }
    }

    /** The 5000 ms revert timer fires. */
    method TimerElapsed()
      modifies this
      ensures State() == Next(spec, old(State()), Event.TimerElapsed)
    {
      if timerPending {
        disabled := false;
        content := spec.initial;
        timerPending := false;
      }
    }
  }
}
