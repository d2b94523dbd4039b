/** A one-shot monologue started by walking into a trigger zone; its state change waits until the end. */
module Monologues {
  import opened Common
  import opened DialogueStates
  import D = DialogueTriggers

  /** The monologue's own fields (speech bubbles and coroutines are visual only). */
  datatype MonoModel = MonoModel(
    currentDialogue: Option<D.DialogueData>,
    currentLineIndex: int,
    /** The deferred state: the last non-empty line state seen, "" for none (null in the game). */
    stateToSet: string,
    colliderEnabled: bool,
    objectActive: bool,
    shown: seq<D.DialogueLine>)

  datatype MonoScene = MonoScene(m: MonoModel, f: Flag)

  /** The state remembered after showing `lines` in order, starting from `prior`. */
  function LastSet(lines: seq<D.DialogueLine>, prior: string): string
    decreases |lines|
  {
    if |lines| == 0 then prior
    else
      var before := LastSet(lines[..|lines| - 1], prior);
      var s := lines[|lines| - 1].setStateOnLine;
      if s != "" then s else before
  }

  /** EndDialogue only drops the current dialogue; the line index is left as it is. */
  function Ended(m: MonoModel): MonoModel {
    m.(currentDialogue := None)
  }

  /** OnGameStateChanged: "end" ends and deactivates the object, "win" ends. */
  function React(m: MonoModel, s: string): MonoModel {
    if s == "end" then Ended(m).(objectActive := false)
    else if s == "win" then Ended(m)
    else m
  }

  /** ShowLine: shows line `i` and only remembers its non-empty state. */
  function LineShown(m: MonoModel, i: int): (r: MonoModel)
    requires m.currentDialogue.Some? && 0 <= i < |m.currentDialogue.value.lines|
    ensures r.currentDialogue == m.currentDialogue && r.currentLineIndex == m.currentLineIndex
    ensures r.shown == m.shown + [m.currentDialogue.value.lines[i]]
    ensures r.stateToSet == LastSet(m.currentDialogue.value.lines[i..i + 1], m.stateToSet)
  {
    var line := m.currentDialogue.value.lines[i];
    assert m.currentDialogue.value.lines[i..i + 1][..0] == [];
    m.(shown := m.shown + [line],
       stateToSet := if line.setStateOnLine != "" then line.setStateOnLine else m.stateToSet)
  }

  /** StartSpecificDialogue: a null or empty dialogue is ignored; otherwise it starts at line 0. */
  function StartSpecific(m: MonoModel, d: Option<D.DialogueData>): MonoModel {
    if d.None? || |d.value.lines| == 0 then m
    else LineShown(m.(currentDialogue := d, currentLineIndex := 0), 0)
  }

  /**
   * OnDialogueComplete: end, then apply the remembered state, if any, and forget it. A real change
   * fires OnStateChanged, which also reaches this monologue.
   */
  function Completed(sc: MonoScene): (r: MonoScene)
    ensures r.m.stateToSet == "" && r.m.currentDialogue.None?
    ensures r.f == if sc.m.stateToSet == "" then sc.f else Set(sc.f, sc.m.stateToSet)
  {
    var m1 := Ended(sc.m);
    if m1.stateToSet == "" then MonoScene(m1, sc.f)
    else
      var m2 := if sc.f.current != m1.stateToSet then React(m1, m1.stateToSet) else m1;
      MonoScene(m2.(stateToSet := ""), Set(sc.f, m1.stateToSet))
  }

  /** ShowNextLine: the next line, or completion once past the last one. */
  function NextLine(sc: MonoScene): MonoScene
    requires sc.m.currentDialogue.Some?
  {
    var i := sc.m.currentLineIndex + 1;
    var m1 := sc.m.(currentLineIndex := i);
    if 0 <= i < |sc.m.currentDialogue.value.lines| then MonoScene(LineShown(m1, i), sc.f)
    else Completed(MonoScene(m1, sc.f))
  }

  /** Whether the player entering the zone starts the monologue `d`. */
  predicate Opens(d: D.DialogueData, m: MonoModel, f: Flag, isPlayer: bool) {
    m.colliderEnabled && m.objectActive && isPlayer &&
    d.stateRequired && d.requiredState != "" && f.current == d.requiredState
  }

  /** OnTriggerEnter2D: start the monologue and switch the trigger collider off. */
  function TriggerEnter(d: D.DialogueData, m: MonoModel, f: Flag, isPlayer: bool): MonoModel {
    if Opens(d, m, f, isPlayer) then StartSpecific(m, Some(d)).(colliderEnabled := false) else m
  }

  /** ForceEndDialogue: ends this monologue unless it is the one announced as active. */
  function ForceEnd(d: D.DialogueData, m: MonoModel, activeMonolog: Option<D.DialogueData>): MonoModel {
    if activeMonolog != Some(d) then Ended(m) else m
  }

  /** Advancing `k` times, stopping once the dialogue is over. */
  function Advance(sc: MonoScene, k: nat): MonoScene
    decreases k
  {
    if k == 0 || sc.m.currentDialogue.None? then sc else Advance(NextLine(sc), k - 1)
  }

  /** Remembering line states is cumulative: one more line either replaces the state or keeps it. */
  lemma LastSetStep(lines: seq<D.DialogueLine>, i: nat, prior: string)
    requires i < |lines|
    ensures LastSet(lines[..i + 1], prior) == LastSet(lines[i..i + 1], LastSet(lines[..i], prior))
  {
    assert lines[..i + 1][..i] == lines[..i];
    assert lines[i..i + 1][..0] == [];
  }

  /** Part way through: the flag is untouched and the remembered state covers the lines shown so far. */
  lemma {:induction false} AdvanceMidway(sc: MonoScene, d: D.DialogueData, prior: string, base: seq<D.DialogueLine>, k: nat)
    requires sc.m.currentDialogue == Some(d)
    requires 0 <= sc.m.currentLineIndex < |d.lines|
    requires sc.m.stateToSet == LastSet(d.lines[..sc.m.currentLineIndex + 1], prior)
    requires sc.m.shown == base + d.lines[..sc.m.currentLineIndex + 1]
    requires sc.m.currentLineIndex + k < |d.lines|
    ensures var r := Advance(sc, k);
      r.f == sc.f && r.m.currentDialogue == Some(d) && r.m.currentLineIndex == sc.m.currentLineIndex + k &&
      r.m.stateToSet == LastSet(d.lines[..r.m.currentLineIndex + 1], prior) &&
      r.m.shown == base + d.lines[..r.m.currentLineIndex + 1]
    decreases k
  {
    if k > 0 {
      var i := sc.m.currentLineIndex + 1;
      var next := NextLine(sc);
      LastSetStep(d.lines, i, prior);
      assert d.lines[..i + 1] == d.lines[..i] + [d.lines[i]];
      assert next.m.shown == base + d.lines[..i + 1];
      AdvanceMidway(next, d, prior, base, k - 1);
    }
  }

  /**
   * Playing a monologue through: every line is shown once, in order, the flag does not change
   * until the end, and the end applies exactly the last non-empty line state (or the one left
   * over from before) and forgets it.
   */
  lemma Playthrough(m: MonoModel, f: Flag, d: D.DialogueData)
    requires |d.lines| > 0
    ensures var r := Advance(MonoScene(StartSpecific(m, Some(d)), f), |d.lines|);
      var s := LastSet(d.lines, m.stateToSet);
      r.m.currentDialogue.None? && r.m.stateToSet == "" && r.m.shown == m.shown + d.lines &&
      r.f == if s == "" then f else Set(f, s)
  {
    var start := MonoScene(StartSpecific(m, Some(d)), f);
    var n := |d.lines|;
    assert d.lines[..1] == d.lines[0..1];
    assert d.lines[..0] == [];
    AdvanceMidway(start, d, m.stateToSet, m.shown, n - 1);
    assert d.lines[..n] == d.lines;
    AdvanceSplit(start, n - 1);
  }

  lemma {:induction false} AdvanceSplit(sc: MonoScene, k: nat)
    ensures Advance(sc, k + 1) == Advance(Advance(sc, k), 1)
    decreases k
  {
    if k > 0 && sc.m.currentDialogue.Some? {
      AdvanceSplit(NextLine(sc), k - 1);
    }
  }

  /** The zone opens at most once: afterwards the collider is off and later entries change nothing. */
  lemma OpensAtMostOnce(d: D.DialogueData, m: MonoModel, f: Flag, f2: Flag, isPlayer: bool, again: bool)
    requires Opens(d, m, f, isPlayer)
    ensures var m1 := TriggerEnter(d, m, f, isPlayer);
      !m1.colliderEnabled && TriggerEnter(d, m1, f2, again) == m1
  {
  }

  /** Only a monologue that requires a non-empty state equal to the current one can start. */
  lemma OpensOnlyOnRequiredState(d: D.DialogueData, m: MonoModel, f: Flag, isPlayer: bool)
    requires !d.stateRequired || d.requiredState == "" || f.current != d.requiredState || !isPlayer
    ensures TriggerEnter(d, m, f, isPlayer) == m
  {
  }

  class MonologueTrigger {
    const dialogue: D.DialogueData
    const state: DialogueState
    var currentDialogue: Option<D.DialogueData>
    var currentLineIndex: int
    var stateToSet: string
    var colliderEnabled: bool
    var objectActive: bool
    var shown: seq<D.DialogueLine>

    function Model(): MonoModel
      reads this
    {
      MonoModel(currentDialogue, currentLineIndex, stateToSet, colliderEnabled, objectActive, shown)
    }

    function Now(): MonoScene
      reads this, state
    {
      MonoScene(Model(), state.Model())
    }

    constructor (dialogue: D.DialogueData, state: DialogueState)
      ensures this.dialogue == dialogue && this.state == state
      ensures Model() == MonoModel(None, 0, "", true, true, [])
    {
      this.dialogue := dialogue;
      this.state := state;
      currentDialogue := None;
      currentLineIndex := 0;
      stateToSet := "";
      colliderEnabled := true;
      objectActive := true;
      shown := [];
    }

    /** Trigger contact with `isPlayer` telling whether the collider is the player's; returns whether OnInteract was raised. */
    method OnTriggerEnter2D(isPlayer: bool) returns (interacted: bool)
      modifies this
      ensures interacted == Opens(dialogue, old(Model()), state.Model(), isPlayer)
      ensures Model() == TriggerEnter(dialogue, old(Model()), state.Model(), isPlayer)
    {
      interacted := false;
      if !colliderEnabled || !objectActive || !isPlayer {
        return;
      }
      if dialogue.stateRequired && dialogue.requiredState != "" {
        if state.CheckState(dialogue.requiredState) {
          StartSpecificDialogue(Some(dialogue));
          interacted := true;
          colliderEnabled := false;
        }
      }
    }

    method StartSpecificDialogue(d: Option<D.DialogueData>)
      modifies this
      ensures Model() == StartSpecific(old(Model()), d)
    {
      if d.None? || |d.value.lines| == 0 {
        return;
      }
      currentDialogue := d;
      currentLineIndex := 0;
      ShowLine(currentLineIndex);
    }

    /** Shows a line; its state is only remembered, so the global flag is not touched. */
    method ShowLine(lineIndex: int)
      requires currentDialogue.Some? && 0 <= lineIndex < |currentDialogue.value.lines|
      modifies this
      ensures Model() == LineShown(old(Model()), lineIndex)
    {
      var line := currentDialogue.value.lines[lineIndex];
      shown := shown + [line];
      if line.setStateOnLine != "" {
        stateToSet := line.setStateOnLine;
      }
    }

    /** Also the end of the typewriter or display delay of the current line. */
    method ShowNextLine()
      requires currentDialogue.Some?
      modifies this, state
      ensures Now() == NextLine(old(Now()))
    {
      currentLineIndex := currentLineIndex + 1;
      if 0 <= currentLineIndex < |currentDialogue.value.lines| {
        ShowLine(currentLineIndex);
      } else {
        OnDialogueComplete();
      }
    }

    method OnDialogueComplete()
      modifies this, state
      ensures Now() == Completed(old(Now()))
    {
      EndDialogue();
      if stateToSet != "" {
        var changed := state.SetState(stateToSet);
        if changed {
          OnGameStateChanged(stateToSet);
        }
        stateToSet := "";
      }
    }

    /** The handler subscribed to OnStateChanged. */
    method OnGameStateChanged(newState: string)
      modifies this
      ensures Model() == React(old(Model()), newState)
    {
      if newState == "end" {
        EndDialogue();
        objectActive := false;
      }
      if newState == "win" {
        EndDialogue();
      }
    }

    method EndDialogue()
      modifies this
      ensures Model() == Ended(old(Model()))
    {
      currentDialogue := None;
    }

    /** The handler for the state's monologue-update event; `activeMonolog` is the monologue the state announces as active. */
    method ForceEndDialogue(activeMonolog: Option<D.DialogueData>)
      modifies this
      ensures Model() == ForceEnd(dialogue, old(Model()), activeMonolog)
    {
      if activeMonolog != Some(dialogue) {
        EndDialogue();
      }
    }
  }
}
