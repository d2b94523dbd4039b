/** An NPC's dialogue: choosing a dialogue by game state, showing its lines and ending it. */
module DialogueTriggers {
  import opened Common
  import opened DialogueStates

  datatype Speaker = Player | NPC | System

  /** One line; an empty `setStateOnLine` (null or "" in the game) sets nothing. */
  datatype DialogueLine = DialogueLine(text: string, speaker: Speaker, setStateOnLine: string)

  /** A dialogue asset; `id` stands for the asset's identity, which the trigger compares. */
  datatype DialogueData = DialogueData(id: nat, dialogueName: string, lines: seq<DialogueLine>,
                                       requiredState: string, stateRequired: bool)

  /** CheckDialogueConditions: only a dialogue that requires a non-empty state can fail, and only on another state. */
  predicate Passes(d: DialogueData, current: string) {
    !(d.stateRequired && d.requiredState != "") || current == d.requiredState
  }

  /** The index FindSuitableDialogue stops at: the first dialogue whose conditions pass, or -1. */
  function FirstSuitable(ds: seq<DialogueData>, current: string): (r: int)
    ensures -1 <= r < |ds|
    ensures r == -1 <==> forall j :: 0 <= j < |ds| ==> !Passes(ds[j], current)
    ensures r >= 0 ==> Passes(ds[r], current) && forall j :: 0 <= j < r ==> !Passes(ds[j], current)
  {
    if |ds| == 0 then -1
    else if Passes(ds[0], current) then 0
    else
      var k := FirstSuitable(ds[1..], current);
      if k == -1 then -1 else k + 1
  }

  /** FindSuitableDialogue: the first passing dialogue, or null. */
  function FindSuitable(ds: seq<DialogueData>, current: string): (r: Option<DialogueData>)
    ensures r.None? <==> forall j :: 0 <= j < |ds| ==> !Passes(ds[j], current)
    ensures r.Some? ==> Passes(r.value, current)
  {
    var k := FirstSuitable(ds, current);
    if k == -1 then None else Some(ds[k])
  }

  /** A dialogue that requires no state, or an empty one, always passes. */
  lemma UnconditionalPasses(d: DialogueData, current: string)
    requires !d.stateRequired || d.requiredState == ""
    ensures Passes(d, current)
  {
  }

  /** When the first dialogue is unconditional, FindSuitableDialogue always picks it. */
  lemma UnconditionalFirstIsFound(ds: seq<DialogueData>, current: string)
    requires |ds| > 0 && (!ds[0].stateRequired || ds[0].requiredState == "")
    ensures FindSuitable(ds, current) == Some(ds[0])
  {
  }

  /** The trigger's own fields (the hint bubble, speech bubbles and coroutines are visual only). */
  datatype TriggerModel = TriggerModel(
    isInRange: bool,
    isDialogueActive: bool,
    currentDialogue: Option<DialogueData>,
    currentLineIndex: int,
    /** False once "end" deactivated the game object; its Update no longer runs. */
    objectActive: bool,
    /** Every line shown in a speech bubble, in order. */
    shown: seq<DialogueLine>)

  /** The trigger together with the global state flag that its lines write. */
  datatype Scene = Scene(m: TriggerModel, f: Flag)

  /** A running dialogue always has a current dialogue and a line index inside it; a stopped one has neither. */
  predicate Valid(m: TriggerModel) {
    (m.isDialogueActive <==> m.currentDialogue.Some?) &&
    (m.isDialogueActive ==> 0 <= m.currentLineIndex < |m.currentDialogue.value.lines|)
  }

  /** EndDialogue: inactive, line 0, no current dialogue. */
  function Ended(m: TriggerModel): (r: TriggerModel)
    ensures Valid(r) && r.shown == m.shown && r.isInRange == m.isInRange && r.objectActive == m.objectActive
  {
    m.(isDialogueActive := false, currentLineIndex := 0, currentDialogue := None)
  }

  /** What OnGameStateChanged does after its restart check: "end" ends and deactivates, "win" ends. */
  function ReactToState(m: TriggerModel, s: string): TriggerModel {
    if s == "end" then Ended(m).(objectActive := false)
    else if s == "win" then Ended(m)
    else m
  }

  /**
   * ShowLine: shows line `i` and applies its non-empty state at once. A real change fires
   * OnStateChanged, which reaches this trigger while its dialogue is active, so only the
   * "end"/"win" reaction can apply.
   */
  function LineShown(sc: Scene, i: int): (r: Scene)
    requires sc.m.isDialogueActive && sc.m.currentDialogue.Some?
    requires 0 <= i < |sc.m.currentDialogue.value.lines|
    ensures r.m.shown == sc.m.shown + [sc.m.currentDialogue.value.lines[i]]
    ensures var s := sc.m.currentDialogue.value.lines[i].setStateOnLine;
      r.f == if s == "" then sc.f else Set(sc.f, s)
    ensures r.m.objectActive ==> sc.m.objectActive
  {
    var line := sc.m.currentDialogue.value.lines[i];
    var m1 := sc.m.(shown := sc.m.shown + [line]);
    if line.setStateOnLine == "" then Scene(m1, sc.f)
    else if sc.f.current == line.setStateOnLine then Scene(m1, sc.f)
    else Scene(ReactToState(m1, line.setStateOnLine), Set(sc.f, line.setStateOnLine))
  }

  /** StartSpecificDialogue: a null or empty dialogue is ignored; otherwise it starts at line 0. */
  function StartSpecific(sc: Scene, d: Option<DialogueData>): Scene {
    if d.None? || |d.value.lines| == 0 then sc
    else LineShown(Scene(sc.m.(currentDialogue := d, isDialogueActive := true, currentLineIndex := 0), sc.f), 0)
  }

  /** StartAppropriateDialogue: the first suitable dialogue, else the first one, else nothing. */
  function StartAppropriate(ds: seq<DialogueData>, sc: Scene): Scene {
    var sel := FindSuitable(ds, sc.f.current);
    if sel.Some? then StartSpecific(sc, sel)
    else if |ds| > 0 then StartSpecific(sc, Some(ds[0]))
    else sc
  }

  /** ShowNextLine: the next line, or completion past the last one. */
  function NextLineShown(sc: Scene): Scene
    requires sc.m.isDialogueActive && sc.m.currentDialogue.Some?
  {
    var i := sc.m.currentLineIndex + 1;
    if 0 <= i < |sc.m.currentDialogue.value.lines| then LineShown(Scene(sc.m.(currentLineIndex := i), sc.f), i)
    else Scene(Ended(sc.m), sc.f)
  }

  /** OnGameStateChanged, delivered after the flag already holds `s`. */
  function GameStateChanged(ds: seq<DialogueData>, sc: Scene, s: string): Scene {
    var sc1 :=
      if sc.m.isInRange && !sc.m.isDialogueActive then
        var nd := FindSuitable(ds, sc.f.current);
        if nd.Some? && nd != sc.m.currentDialogue then StartSpecific(sc, nd) else sc
      else sc;
    Scene(ReactToState(sc1.m, s), sc1.f)
  }

  /** CheckPlayerDistance: updates the range flag; walking out of range ends a running dialogue. */
  function CheckDistance(radius: real, m: TriggerModel, distance: Option<real>): TriggerModel {
    if distance.None? then m
    else
      var inRange := distance.value <= radius;
      var m1 := m.(isInRange := inRange);
      if !inRange && m.isInRange && m.isDialogueActive then Ended(m1) else m1
  }

  /** Whether a key press starts a dialogue and raises OnInteract. */
  predicate Interacts(m: TriggerModel, keyDown: bool) {
    keyDown && m.isInRange && !m.isDialogueActive
  }

  /** HandleDialogueInput: the interaction key starts a dialogue when in range and idle, and advances one that runs. */
  function HandleInput(ds: seq<DialogueData>, sc: Scene, keyDown: bool): Scene
    requires Valid(sc.m)
  {
    if Interacts(sc.m, keyDown) then StartAppropriate(ds, sc)
    else if keyDown && sc.m.isDialogueActive then NextLineShown(sc)
    else sc
  }

  /** ForceStartDialogue: a given dialogue, or the appropriate one when none is given. */
  function ForceStart(ds: seq<DialogueData>, sc: Scene, d: Option<DialogueData>): Scene {
    var sc1 := if !sc.m.isDialogueActive then Scene(Ended(sc.m), sc.f) else sc;
    if d.Some? then StartSpecific(sc1, d) else StartAppropriate(ds, sc1)
  }

  lemma ShowLineValid(sc: Scene, i: int)
    requires sc.m.isDialogueActive && sc.m.currentDialogue.Some?
    requires 0 <= i < |sc.m.currentDialogue.value.lines| && sc.m.currentLineIndex == i
    ensures Valid(LineShown(sc, i).m)
  {
  }

  lemma StartSpecificValid(sc: Scene, d: Option<DialogueData>)
    requires Valid(sc.m)
    ensures Valid(StartSpecific(sc, d).m)
  {
    if d.Some? && |d.value.lines| > 0 {
      ShowLineValid(Scene(sc.m.(currentDialogue := d, isDialogueActive := true, currentLineIndex := 0), sc.f), 0);
    }
  }

  lemma StartAppropriateValid(ds: seq<DialogueData>, sc: Scene)
    requires Valid(sc.m)
    ensures Valid(StartAppropriate(ds, sc).m)
  {
    var sel := FindSuitable(ds, sc.f.current);
    if sel.Some? {
      StartSpecificValid(sc, sel);
    } else if |ds| > 0 {
      StartSpecificValid(sc, Some(ds[0]));
    }
  }

  lemma NextLineValid(sc: Scene)
    requires Valid(sc.m) && sc.m.isDialogueActive
    ensures Valid(NextLineShown(sc).m)
  {
    var i := sc.m.currentLineIndex + 1;
    if i < |sc.m.currentDialogue.value.lines| {
      ShowLineValid(Scene(sc.m.(currentLineIndex := i), sc.f), i);
    }
  }

  /** Every operation keeps a running dialogue's current dialogue and line index consistent. */
  lemma OperationsKeepValid(ds: seq<DialogueData>, sc: Scene, s: string, radius: real,
                            distance: Option<real>, keyDown: bool, d: Option<DialogueData>)
    requires Valid(sc.m)
    ensures Valid(GameStateChanged(ds, sc, s).m)
    ensures Valid(CheckDistance(radius, sc.m, distance))
    ensures Valid(HandleInput(ds, sc, keyDown).m)
    ensures Valid(ForceStart(ds, sc, d).m)
  {
    var nd := FindSuitable(ds, sc.f.current);
    StartSpecificValid(sc, nd);
    StartAppropriateValid(ds, sc);
    if sc.m.isDialogueActive {
      NextLineValid(sc);
    }
    var sc1 := if !sc.m.isDialogueActive then Scene(Ended(sc.m), sc.f) else sc;
    StartSpecificValid(sc1, d);
    StartAppropriateValid(ds, sc1);
  }

  /** Starting a dialogue with lines shows its first line; unless that line ends the game or wins, the dialogue runs at line 0. */
  lemma StartShowsFirstLine(sc: Scene, d: DialogueData)
    requires |d.lines| > 0
    ensures StartSpecific(sc, Some(d)).m.shown == sc.m.shown + [d.lines[0]]
    ensures d.lines[0].setStateOnLine !in {"end", "win"} ==>
      var r := StartSpecific(sc, Some(d)).m;
      r.isDialogueActive && r.currentDialogue == Some(d) && r.currentLineIndex == 0
  {
  }

  /** "end" stops the dialogue and deactivates the trigger, "win" stops it; far away or busy, any other state changes nothing. */
  lemma GameStateChangedCases(ds: seq<DialogueData>, sc: Scene, s: string)
    ensures s == "end" ==> var r := GameStateChanged(ds, sc, s).m;
      !r.isDialogueActive && r.currentDialogue.None? && r.currentLineIndex == 0 && !r.objectActive
    ensures s == "win" ==> var r := GameStateChanged(ds, sc, s).m;
      !r.isDialogueActive && r.currentDialogue.None? && r.currentLineIndex == 0
    ensures !(sc.m.isInRange && !sc.m.isDialogueActive) && s != "end" && s != "win" ==>
      GameStateChanged(ds, sc, s) == sc
  {
  }

  /**
   * An idle trigger with the player in range restarts with the dialogue suited to the new state:
   * with a suitable dialogue it starts that one, showing its first line and, unless that line ends
   * the game or wins, running at line 0; with none it stays as it was.
   */
  lemma IdleInRangeRestarts(ds: seq<DialogueData>, sc: Scene, s: string)
    requires Valid(sc.m) && sc.m.isInRange && !sc.m.isDialogueActive && s != "end" && s != "win"
    ensures var nd := FindSuitable(ds, sc.f.current);
      nd.Some? ==> GameStateChanged(ds, sc, s) == StartSpecific(sc, nd) && Passes(nd.value, sc.f.current)
    ensures FindSuitable(ds, sc.f.current).None? ==> GameStateChanged(ds, sc, s) == sc
    ensures var nd := FindSuitable(ds, sc.f.current);
      var r := GameStateChanged(ds, sc, s).m;
      nd.Some? && |nd.value.lines| > 0 ==>
        r.shown == sc.m.shown + [nd.value.lines[0]] &&
        (nd.value.lines[0].setStateOnLine !in {"end", "win"} ==>
          r.isDialogueActive && r.currentDialogue == nd && r.currentLineIndex == 0)
  {
    var nd := FindSuitable(ds, sc.f.current);
    if nd.Some? && |nd.value.lines| > 0 {
      StartShowsFirstLine(sc, nd.value);
    }
  }

  /** Advancing past the last line ends the dialogue; before it, the index moves on by one. */
  lemma NextLineAdvancesOrEnds(sc: Scene)
    requires sc.m.isDialogueActive && sc.m.currentDialogue.Some? && Valid(sc.m)
    ensures var lines := sc.m.currentDialogue.value.lines;
      sc.m.currentLineIndex + 1 >= |lines| ==> NextLineShown(sc) == Scene(Ended(sc.m), sc.f)
    ensures var lines := sc.m.currentDialogue.value.lines;
      var i := sc.m.currentLineIndex + 1;
      i < |lines| && lines[i].setStateOnLine !in {"end", "win"} ==>
        NextLineShown(sc).m.currentLineIndex == i && NextLineShown(sc).m.isDialogueActive &&
        NextLineShown(sc).m.shown == sc.m.shown + [lines[i]]
  {
  }

  /** Leaving the interaction radius ends a running dialogue. */
  lemma LeavingRangeEnds(radius: real, m: TriggerModel, distance: real)
    requires m.isInRange && m.isDialogueActive && distance > radius
    ensures var r := CheckDistance(radius, m, Some(distance));
      !r.isInRange && !r.isDialogueActive && r.currentDialogue.None? && r.currentLineIndex == 0
  {
  }

  class DialogueTrigger {
    const dialogues: seq<DialogueData>
    const interactionRadius: real
    const state: DialogueState
    var isInRange: bool
    var isDialogueActive: bool
    var currentDialogue: Option<DialogueData>
    var currentLineIndex: int
    var objectActive: bool
    var shown: seq<DialogueLine>

    function Model(): TriggerModel
      reads this
    {
      TriggerModel(isInRange, isDialogueActive, currentDialogue, currentLineIndex, objectActive, shown)
    }

    function Now(): Scene
      reads this, state
    {
      Scene(Model(), state.Model())
    }

    constructor (dialogues: seq<DialogueData>, interactionRadius: real, state: DialogueState)
      ensures this.dialogues == dialogues && this.interactionRadius == interactionRadius && this.state == state
      ensures Model() == TriggerModel(false, false, None, 0, true, []) && Valid(Model())
    {
      this.dialogues := dialogues;
      this.interactionRadius := interactionRadius;
      this.state := state;
      isInRange := false;
      isDialogueActive := false;
      currentDialogue := None;
      currentLineIndex := 0;
      objectActive := true;
      shown := [];
    }

    method EndDialogue()
      modifies this
      ensures Model() == Ended(old(Model()))
    {
      isDialogueActive := false;
      currentLineIndex := 0;
      currentDialogue := None;
    }

    method ShowLine(lineIndex: int)
      requires isDialogueActive && currentDialogue.Some?
      requires 0 <= lineIndex < |currentDialogue.value.lines|
      modifies this, state
      decreases 0, 2
      ensures Now() == LineShown(old(Now()), lineIndex)
    {
      var line := currentDialogue.value.lines[lineIndex];
      shown := shown + [line];
      if line.setStateOnLine != "" {
        var changed := state.SetState(line.setStateOnLine);
        if changed {
          OnGameStateChanged(line.setStateOnLine);
        }
      }
    }

    method StartSpecificDialogue(dialogue: Option<DialogueData>)
      modifies this, state
      decreases 1, 0
      ensures Now() == StartSpecific(old(Now()), dialogue)
    {
      if dialogue.None? || |dialogue.value.lines| == 0 {
        return;
      }
      currentDialogue := dialogue;
      isDialogueActive := true;
      currentLineIndex := 0;
      ShowLine(currentLineIndex);
    }

    /** The handler subscribed to OnStateChanged. */
    method OnGameStateChanged(newState: string)
      modifies this, state
      decreases if isDialogueActive then 0 else 2, 1
      ensures Now() == GameStateChanged(dialogues, old(Now()), newState)
    {
      if isInRange && !isDialogueActive {
        var newDialogue := FindSuitable(dialogues, state.currentState);
        if newDialogue.Some? && newDialogue != currentDialogue {
          StartSpecificDialogue(newDialogue);
        }
      }
      if newState == "end" {
        EndDialogue();
        objectActive := false;
      }
      if newState == "win" {
        EndDialogue();
      }
    }

    method StartAppropriateDialogue()
      modifies this, state
      ensures Now() == StartAppropriate(dialogues, old(Now()))
    {
      var selected := FindSuitable(dialogues, state.currentState);
      if selected.Some? {
        StartSpecificDialogue(selected);
      } else if |dialogues| > 0 {
        StartSpecificDialogue(Some(dialogues[0]));
      }
    }

    /** Also the end of the typewriter or display delay of the current line. */
    method ShowNextLine()
      requires isDialogueActive && Valid(Model())
      modifies this, state
      ensures Now() == NextLineShown(old(Now()))
    {
      currentLineIndex := currentLineIndex + 1;
      if currentLineIndex < |currentDialogue.value.lines| {
        ShowLine(currentLineIndex);
      } else {
        EndDialogue();
      }
    }

    /** `distance` is None when the scene has no player. */
    method CheckPlayerDistance(distance: Option<real>)
      modifies this
      ensures Model() == CheckDistance(interactionRadius, old(Model()), distance)
    {
      if distance.None? {
        return;
      }
      var wasInRange := isInRange;
      isInRange := distance.value <= interactionRadius;
      if !isInRange && wasInRange && isDialogueActive {
        EndDialogue();
      }
    }

    /** Returns whether OnInteract was raised. */
    method HandleDialogueInput(keyDown: bool) returns (interacted: bool)
      requires Valid(Model())
      modifies this, state
      ensures interacted == Interacts(old(Model()), keyDown)
      ensures Now() == HandleInput(dialogues, old(Now()), keyDown)
    {
      interacted := false;
      if keyDown && isInRange && !isDialogueActive {
        StartAppropriateDialogue();
        interacted := true;
      } else if keyDown && isDialogueActive {
        ShowNextLine();
      }
    }

    /** One frame while the game object is active. */
    method Update(distance: Option<real>, keyDown: bool) returns (interacted: bool)
      requires Valid(Model())
      modifies this, state
      ensures Valid(Model())
      ensures !old(objectActive) ==> Now() == old(Now()) && !interacted
      ensures old(objectActive) ==>
        Now() == HandleInput(dialogues, Scene(CheckDistance(interactionRadius, old(Model()), distance), old(state.Model())), keyDown)
    {
      interacted := false;
      if !objectActive {
        return;
      }
      CheckPlayerDistance(distance);
      ghost var afterDistance := Now();
      OperationsKeepValid(dialogues, Scene(old(Model()), old(state.Model())), "", interactionRadius, distance, keyDown, None);
      interacted := HandleDialogueInput(keyDown);
      OperationsKeepValid(dialogues, afterDistance, "", interactionRadius, distance, keyDown, None);
    }

    method ForceStartDialogue(specificDialogue: Option<DialogueData>)
      modifies this, state
      ensures Now() == ForceStart(dialogues, old(Now()), specificDialogue)
    {
      if !isDialogueActive {
        EndDialogue();
      }
      if specificDialogue.Some? {
        StartSpecificDialogue(specificDialogue);
      } else {
        StartAppropriateDialogue();
      }
    }
  }
}
