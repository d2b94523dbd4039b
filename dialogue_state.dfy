/** The global string state flag that drives dialogues, quests and monologues. */
module DialogueStates {

  /** Abstract view of the flag: its value and every OnStateChanged invocation so far. */
  datatype Flag = Flag(current: string, fired: seq<string>)

  /** What SetState does to the flag: a real change is recorded and announced once. */
  function Set(f: Flag, newState: string): (r: Flag)
    ensures r.current == newState
    ensures f.current == newState ==> r == f
    ensures f.current != newState ==> r.fired == f.fired + [newState]
  {
    if f.current != newState then Flag(newState, f.fired + [newState]) else f
  }

  /** Setting the same value twice has exactly the effect of setting it once, events included. */
  lemma SetTwiceIsSetOnce(f: Flag, s: string)
    ensures Set(Set(f, s), s) == Set(f, s)
  {
  }

  class DialogueState {
    /** The current game state string ("start" initially). */
    var currentState: string
    /** The values passed to OnStateChanged, in the order the event fired. */
    var fired: seq<string>

    function Model(): Flag
      reads this
    {
      Flag(currentState, fired)
    }

    constructor ()
      ensures currentState == "start" && fired == []
    {
      currentState := "start";
      fired := [];
    }

    /** Updates the state only on a real change and fires OnStateChanged once with the new value. */
    method SetState(newState: string) returns (changed: bool)
      modifies this
      ensures changed <==> old(currentState) != newState
      ensures Model() == Set(old(Model()), newState)
    {
      changed := currentState != newState;
      if changed {
        currentState := newState;
        fired := fired + [newState];
      }
    }

    /** Whether the flag holds `requiredState`, which is exactly when setting it again would change nothing and fire nothing. */
    function CheckState(requiredState: string): (r: bool)
      reads this
      ensures r <==> currentState == requiredState
      ensures r <==> Set(Model(), requiredState) == Model()
    {
      currentState == requiredState
    }
  }

  /** Calling SetState twice in a row leaves the same state and event log as calling it once. */
  method SetStateTwice(d: DialogueState, s: string)
    modifies d
    ensures d.Model() == Set(old(d.Model()), s)
  {
    var first := d.SetState(s);
    var second := d.SetState(s);
    assert !second;
    SetTwiceIsSetOnce(old(d.Model()), s);
  }
}
