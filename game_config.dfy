/**
 * The global game mode (prototype or full) and the observers notified when
 * it changes. The JavaScript keeps both in static fields; here they live in
 * one `GameConfig` object. A callback is identified by reference, as
 * `indexOf` compares JavaScript functions.
 */
module GameConfiguration {
  import Ecs
  import JsArray

  /** A registered listener `(isPrototype: boolean) => void`. */
  class Callback {
    constructor() {}
  }

  /** One invocation `callback(isPrototype)`. */
  datatype Notification = Notification(callback: Callback, isPrototype: bool)

  /** The mode and the registered callbacks, as values. */
  datatype ConfigState = ConfigState(isPrototypeMode: bool, callbacks: seq<Callback>)

  /** A transition's new state and the notifications it sent, in order. */
  datatype Transition = Transition(state: ConfigState, sent: seq<Notification>)

  /** Every registered callback, once each in registration order, called with `mode`. */
  predicate Broadcast(sent: seq<Notification>, callbacks: seq<Callback>, mode: bool) {
    |sent| == |callbacks| &&
    forall i :: 0 <= i < |sent| ==> sent[i] == Notification(callbacks[i], mode)
  }

  function Notify(callbacks: seq<Callback>, mode: bool): (sent: seq<Notification>)
    ensures Broadcast(sent, callbacks, mode)
  {
    if callbacks == [] then []
    else [Notification(callbacks[0], mode)] + Notify(callbacks[1..], mode)
  }

  /** `toggleMode()`. */
  function ToggleStep(s: ConfigState): (t: Transition)
    ensures t.state.isPrototypeMode == !s.isPrototypeMode && t.state.callbacks == s.callbacks
    ensures Broadcast(t.sent, s.callbacks, !s.isPrototypeMode)
  {
    Transition(s.(isPrototypeMode := !s.isPrototypeMode), Notify(s.callbacks, !s.isPrototypeMode))
  }

  /** `setMode(isPrototype)`: a change of mode notifies; setting the current mode is silent. */
  function SetModeStep(s: ConfigState, isPrototype: bool): (t: Transition)
    ensures t.state == s.(isPrototypeMode := isPrototype)
    ensures s.isPrototypeMode == isPrototype ==> t.sent == []
    ensures s.isPrototypeMode != isPrototype ==> Broadcast(t.sent, s.callbacks, isPrototype)
  {
    if s.isPrototypeMode != isPrototype then
      Transition(s.(isPrototypeMode := isPrototype), Notify(s.callbacks, isPrototype))
    else Transition(s, [])
  }

  /** Two toggles restore the mode, and each callback hears both new values in turn. */
  lemma ToggleTwice(s: ConfigState)
    ensures ToggleStep(ToggleStep(s).state).state == s
    ensures ToggleStep(ToggleStep(s).state).sent == Notify(s.callbacks, s.isPrototypeMode)
  {
  }

  /** Setting a mode twice notifies at most once: the second call is silent. */
  lemma SetModeIdempotent(s: ConfigState, mode: bool)
    ensures SetModeStep(SetModeStep(s, mode).state, mode) == Transition(SetModeStep(s, mode).state, [])
  {
  }

  /**
   * Registering and then unregistering a callback restores the list when it
   * was not registered before; when it was, the same callbacks remain but
   * the earlier registration is the one removed.
   */
  lemma OnThenOff(callbacks: seq<Callback>, c: Callback)
    ensures c !in callbacks ==> Ecs.RemoveArrayElement(callbacks + [c], c) == callbacks
    ensures multiset(Ecs.RemoveArrayElement(callbacks + [c], c)) == multiset(callbacks)
  {
    Ecs.AppendThenRemove(callbacks, c);
  }

  class GameConfig {
    var isPrototypeMode: bool
    var callbacks: seq<Callback>

    /** The static initialisers: full mode, no callbacks. */
    constructor()
      ensures !isPrototypeMode && callbacks == []
    {
      isPrototypeMode := false;
      callbacks := [];
    }

    function State(): ConfigState
      reads this
    {
      ConfigState(isPrototypeMode, callbacks)
    }

    /** Sends the current mode to every callback, in registration order. */
    method NotifyAll() returns (sent: seq<Notification>)
      ensures sent == Notify(callbacks, isPrototypeMode)
    {
      sent := [];
      for i := 0 to |callbacks|
        invariant sent == Notify(callbacks[..i], isPrototypeMode)
      {
        NotifyAppend(callbacks[..i], callbacks[i], isPrototypeMode);
        assert callbacks[..i + 1] == callbacks[..i] + [callbacks[i]];
        sent := sent + [Notification(callbacks[i], isPrototypeMode)];
      }
      assert callbacks[..|callbacks|] == callbacks;
    }

    method ToggleMode() returns (sent: seq<Notification>)
      modifies this`isPrototypeMode
      ensures Transition(State(), sent) == ToggleStep(old(State()))
    {
      isPrototypeMode := !isPrototypeMode;
      sent := NotifyAll();
    }

    method SetMode(isPrototype: bool) returns (sent: seq<Notification>)
      modifies this`isPrototypeMode
      ensures Transition(State(), sent) == SetModeStep(old(State()), isPrototype)
    {
      sent := [];
      if isPrototypeMode != isPrototype {
        isPrototypeMode := isPrototype;
        sent := NotifyAll();
      }
    }

    /** `onModeChange(callback)`: appends, duplicates allowed. */
    method OnModeChange(callback: Callback)
      modifies this`callbacks
      ensures callbacks == old(callbacks) + [callback]
    {
      callbacks := callbacks + [callback];
    }

    /** `offModeChange(callback)`: removes the first registration, if any. */
    method OffModeChange(callback: Callback)
      modifies this`callbacks
      ensures callbacks == Ecs.RemoveArrayElement(old(callbacks), callback)
    {
      var index := JsArray.IndexOf(callbacks, callback);
      if index > -1 {
        callbacks := callbacks[..index] + callbacks[index + 1..];
      }
    }
  }

  lemma {:induction false} NotifyAppend(cs: seq<Callback>, c: Callback, mode: bool)
    ensures Notify(cs + [c], mode) == Notify(cs, mode) + [Notification(c, mode)]
  {
    if cs != [] {
      assert (cs + [c])[1..] == cs[1..] + [c];
      NotifyAppend(cs[1..], c, mode);
    } else {
      assert cs + [c] == [c];
    }
  }
}
