/** A quest that activates on a game state and completes when the player hands over the required items. */
module Quests {
  import opened Common
  import opened Inventory
  import opened DialogueStates
  import opened DialogueTriggers

  /** The quest asset. */
  datatype QuestData = QuestData(
    questName: string,
    requiredState: string,
    requiredItems: seq<Item>,
    completionState: string,
    completionDialogue: Option<DialogueData>,
    failureDialogue: Option<DialogueData>)

  /** HasAllRequiredItems: every required item's name is found in the inventory; no inventory means false. */
  function HasAll(inventory: Option<seq<Slot>>, required: seq<Item>): (r: bool)
    ensures r <==> (inventory.Some? &&
                    forall k :: 0 <= k < |required| ==> FirstNamed(inventory.value, required[k].itemName) != -1)
  {
    if inventory.None? then false
    else if |required| == 0 then true
    else if HasItemByName(inventory.value, required[0].itemName) == -1 then false
    else
      var rest := HasAll(inventory, required[1..]);
      assert forall k :: 1 <= k < |required| ==> required[k] == required[1..][k - 1];
      rest
  }

  /** RemoveRequiredItems: for each required item in turn, clear the first slot carrying its name, if any. */
  function RemoveAll(slots: seq<Slot>, required: seq<Item>): seq<Slot>
    decreases |required|
  {
    if |required| == 0 then slots
    else
      var rest := required[..|required| - 1];
      var s := RemoveAll(slots, rest);
      var k := HasItemByName(s, required[|required| - 1].itemName);
      if k == -1 then s else s[k := None]
  }

  /** A required name whose item is somewhere in the slots. */
  predicate NamedIn(s: Slot, required: seq<Item>) {
    s.Some? && exists k :: 0 <= k < |required| && required[k].itemName == s.value.itemName
  }

  /**
   * Handing in keeps every slot, and only clears slots: each slot is unchanged or was holding
   * an item whose name is on the required list.
   */
  lemma {:induction false} RemoveAllOnlyClearsRequired(slots: seq<Slot>, required: seq<Item>)
    ensures |RemoveAll(slots, required)| == |slots|
    ensures forall j :: 0 <= j < |slots| ==>
      RemoveAll(slots, required)[j] == slots[j] ||
      (RemoveAll(slots, required)[j].None? && NamedIn(slots[j], required))
    decreases |required|
  {
    if |required| > 0 {
      var rest := required[..|required| - 1];
      RemoveAllOnlyClearsRequired(slots, rest);
      var s := RemoveAll(slots, rest);
      var last := required[|required| - 1];
      var k := HasItemByName(s, last.itemName);
      forall j | 0 <= j < |slots|
        ensures RemoveAll(slots, required)[j] == slots[j] ||
          (RemoveAll(slots, required)[j].None? && NamedIn(slots[j], required))
      {
        if s[j] != slots[j] {
          assert NamedIn(slots[j], rest);
          var w :| 0 <= w < |rest| && rest[w].itemName == slots[j].value.itemName;
          assert required[w] == rest[w];
        }
        if k != -1 && j == k && s[j] == slots[j] {
          assert required[|required| - 1].itemName == slots[j].value.itemName;
        }
      }
    }
  }

  /** The required items carry pairwise different names. */
  predicate DistinctNames(required: seq<Item>) {
    forall i, j :: 0 <= i < j < |required| ==> required[i].itemName != required[j].itemName
  }

  /** Two slot lists that agree on which slots carry `name` have the same first slot carrying it. */
  lemma FirstNamedAgrees(a: seq<Slot>, b: seq<Slot>, name: string)
    requires |a| == |b| && forall j :: 0 <= j < |a| ==> (Named(a[j], name) <==> Named(b[j], name))
    ensures FirstNamed(a, name) == FirstNamed(b, name)
  {
  }

  /** Handing in items under other names does not move the first slot carrying `name`. */
  lemma OthersKeepFirstNamed(slots: seq<Slot>, required: seq<Item>, name: string)
    requires forall k :: 0 <= k < |required| ==> required[k].itemName != name
    ensures |RemoveAll(slots, required)| == |slots|
    ensures FirstNamed(RemoveAll(slots, required), name) == FirstNamed(slots, name)
  {
    var s := RemoveAll(slots, required);
    RemoveAllOnlyClearsRequired(slots, required);
    assert forall j :: 0 <= j < |slots| ==> (Named(s[j], name) <==> Named(slots[j], name));
    FirstNamedAgrees(s, slots, name);
  }

  /**
   * Before the hand-in of `name`, its original first slot is either already empty (an earlier
   * required item carried the same name) or still the first slot carrying it.
   */
  lemma FirstNamedBeforeLast(slots: seq<Slot>, rest: seq<Item>, name: string)
    requires |RemoveAll(slots, rest)| == |slots|
    requires forall k :: 0 <= k < |rest| && FirstNamed(slots, rest[k].itemName) != -1 ==>
      RemoveAll(slots, rest)[FirstNamed(slots, rest[k].itemName)].None?
    requires FirstNamed(slots, name) != -1
    ensures var p := FirstNamed(slots, name);
      RemoveAll(slots, rest)[p].None? || FirstNamed(RemoveAll(slots, rest), name) == p
  {
    if forall k :: 0 <= k < |rest| ==> rest[k].itemName != name {
      OthersKeepFirstNamed(slots, rest, name);
    } else {
      var w :| 0 <= w < |rest| && rest[w].itemName == name;
    }
  }

  /**
   * Handing in removes every required item the inventory held: the first slot that carried each
   * required name before the hand-in is empty afterwards (a repeated name also clears later slots).
   */
  lemma {:induction false} HandInRemovesEach(slots: seq<Slot>, required: seq<Item>)
    ensures |RemoveAll(slots, required)| == |slots|
    ensures forall k :: 0 <= k < |required| && FirstNamed(slots, required[k].itemName) != -1 ==>
      RemoveAll(slots, required)[FirstNamed(slots, required[k].itemName)].None?
    decreases |required|
  {
    if |required| > 0 {
      var n := |required| - 1;
      var rest := required[..n];
      var last := required[n];
      HandInRemovesEach(slots, rest);
      var s := RemoveAll(slots, rest);
      var r := RemoveAll(slots, required);
      var k := HasItemByName(s, last.itemName);
      assert r == if k == -1 then s else s[k := None];
      if FirstNamed(slots, last.itemName) != -1 {
        FirstNamedBeforeLast(slots, rest, last.itemName);
      }
      forall k | 0 <= k < |required| && FirstNamed(slots, required[k].itemName) != -1
        ensures r[FirstNamed(slots, required[k].itemName)].None?
      {
        if k < n {
          assert rest[k] == required[k];
        }
      }
    }
  }

  /** Clearing an occupied slot lowers the item count by one. */
  lemma {:induction false} ClearOneCount(s: seq<Slot>, k: nat)
    requires k < |s| && s[k].Some?
    ensures ItemCount(s[k := None]) == ItemCount(s) - 1
    decreases |s|
  {
    if k == 0 {
      assert s[k := None][1..] == s[1..];
    } else {
      ClearOneCount(s[1..], k - 1);
      assert s[k := None][1..] == s[1..][k - 1 := None];
    }
  }

  /**
   * When the inventory holds every required item and the names are pairwise different, completing
   * the quest takes away exactly as many items as are required.
   */
  lemma {:induction false} HandInCount(slots: seq<Slot>, required: seq<Item>)
    requires HasAll(Some(slots), required) && DistinctNames(required)
    ensures ItemCount(RemoveAll(slots, required)) == ItemCount(slots) - |required|
    decreases |required|
  {
    if |required| > 0 {
      var n := |required| - 1;
      var rest := required[..n];
      var last := required[n];
      assert forall k :: 0 <= k < n ==> rest[k] == required[k];
      HandInCount(slots, rest);
      OthersKeepFirstNamed(slots, rest, last.itemName);
      var s := RemoveAll(slots, rest);
      var k := FirstNamed(s, last.itemName);
      assert FirstNamed(slots, last.itemName) != -1;
      ClearOneCount(s, k);
    }
  }

  /** A hand-in of a single item clears exactly the first slot carrying its name. */
  lemma RemoveOneClearsFirstNamed(slots: seq<Slot>, item: Item)
    requires FirstNamed(slots, item.itemName) != -1
    ensures RemoveAll(slots, [item]) == slots[FirstNamed(slots, item.itemName) := None]
  {
    assert [item][..0] == [];
  }

  /** What the quest giver reads and changes: its flags, the inventory's slots, the trigger and the state flag. */
  datatype World = World(active: bool, completed: bool, slots: Option<seq<Slot>>,
                         trigger: Option<TriggerModel>, flag: Flag)

  /** A completed quest is never active again. */
  predicate Settled(w: World) {
    w.completed ==> !w.active
  }

  /** ForceStartDialogue on the quest's trigger with dialogue `d`, when both exist. */
  function ForceStartFor(ds: seq<DialogueData>, w: World, d: Option<DialogueData>): (r: World)
    ensures r.active == w.active && r.completed == w.completed && r.slots == w.slots
  {
    if w.trigger.Some? && d.Some? then
      var sc := ForceStart(ds, Scene(w.trigger.value, w.flag), d);
      w.(trigger := Some(sc.m), flag := sc.f)
    else w
  }

  /**
   * SetState called by the quest giver: the flag takes `s`, and a real change fires OnStateChanged,
   * which the quest's own trigger handles before SetState returns.
   */
  function Announce(ds: seq<DialogueData>, w: World, s: string): (r: World)
    ensures r.active == w.active && r.completed == w.completed && r.slots == w.slots
    ensures r.trigger.Some? <==> w.trigger.Some?
    ensures w.flag.current == s ==> r == w
    ensures w.trigger.None? ==> r.flag == Set(w.flag, s)
    ensures w.trigger.Some? && w.flag.current != s ==>
      Scene(r.trigger.value, r.flag) == GameStateChanged(ds, Scene(w.trigger.value, Set(w.flag, s)), s)
  {
    if w.flag.current != s && w.trigger.Some? then
      var sc := GameStateChanged(ds, Scene(w.trigger.value, Set(w.flag, s)), s);
      w.(trigger := Some(sc.m), flag := sc.f)
    else w.(flag := Set(w.flag, s))
  }

  /**
   * CompleteQuest: hand in the items, set the completion state (the trigger reacts to it at once),
   * close the quest, then start the completion dialogue.
   */
  function Complete(q: QuestData, ds: seq<DialogueData>, w: World): (r: World)
    requires w.slots.Some?
    ensures !r.active && r.completed
    ensures r.slots == Some(RemoveAll(w.slots.value, q.requiredItems))
    ensures r.trigger.Some? <==> w.trigger.Some?
    ensures w.trigger.None? ==> r.flag == Set(w.flag, q.completionState)
    ensures w.trigger.Some? && w.flag.current != q.completionState && q.completionState == "end" ==>
      !r.trigger.value.objectActive
  {
    var w1 := w.(slots := Some(RemoveAll(w.slots.value, q.requiredItems)));
    var w2 := Announce(ds, w1, q.completionState);
    ForceStartFor(ds, w2.(active := false, completed := true), q.completionDialogue)
  }

  /**
   * The order inside CompleteQuest: completing on "end" first deactivates the quest's trigger, and
   * the completion dialogue then still starts on it; with no completion dialogue, an idle trigger in
   * range restarts with the dialogue suited to the new state.
   */
  lemma CompletionReactsFirst(q: QuestData, ds: seq<DialogueData>, w: World)
    requires w.slots.Some? && w.trigger.Some? && w.flag.current != q.completionState
    ensures var r := Complete(q, ds, w);
      q.completionState == "end" && q.completionDialogue.Some? && |q.completionDialogue.value.lines| > 0 &&
      q.completionDialogue.value.lines[0].setStateOnLine !in {"end", "win"} ==>
        !r.trigger.value.objectActive && r.trigger.value.isDialogueActive &&
        r.trigger.value.currentDialogue == q.completionDialogue && r.trigger.value.currentLineIndex == 0
    ensures var t := w.trigger.value;
      var f := Set(w.flag, q.completionState);
      q.completionDialogue.None? && Valid(t) && t.isInRange && !t.isDialogueActive &&
      q.completionState !in {"end", "win"} && FindSuitable(ds, q.completionState).Some? ==>
        Complete(q, ds, w).trigger == Some(StartSpecific(Scene(t, f), FindSuitable(ds, q.completionState)).m)
  {
    var w1 := w.(slots := Some(RemoveAll(w.slots.value, q.requiredItems)));
    var w2 := Announce(ds, w1, q.completionState);
    var f := Set(w.flag, q.completionState);
    if q.completionDialogue.Some? && |q.completionDialogue.value.lines| > 0 {
      var sc := Scene(Ended(w2.trigger.value), w2.flag);
      StartShowsFirstLine(sc, q.completionDialogue.value);
    }
    if q.completionDialogue.None? && Valid(w.trigger.value) && w.trigger.value.isInRange &&
       !w.trigger.value.isDialogueActive && q.completionState != "end" && q.completionState != "win" {
      IdleInRangeRestarts(ds, Scene(w.trigger.value, f), q.completionState);
    }
  }

  /** TryCompleteQuest: only an open quest can complete; without the items the failure dialogue starts instead. */
  function TryComplete(q: QuestData, ds: seq<DialogueData>, w: World): World {
    if !w.active || w.completed then w
    else if HasAll(w.slots, q.requiredItems) then Complete(q, ds, w)
    else ForceStartFor(ds, w, q.failureDialogue)
  }

  function CheckActivation(q: QuestData, w: World, s: string): World {
    if !w.active && !w.completed && s == q.requiredState then w.(active := true) else w
  }

  function CheckCompletion(q: QuestData, ds: seq<DialogueData>, w: World, s: string): World {
    if w.active && s == q.requiredState then TryComplete(q, ds, w) else w
  }

  /** OnStateChanged: the activation check first, then the completion check, both on the new state. */
  function StateChanged(q: QuestData, ds: seq<DialogueData>, w: World, s: string): World {
    CheckCompletion(q, ds, CheckActivation(q, w, s), s)
  }

  /** OnDilogueInteract: the completion check on the current state. */
  function Interact(q: QuestData, ds: seq<DialogueData>, w: World): World {
    CheckCompletion(q, ds, w, w.flag.current)
  }

  function CheckQuestSpec(q: QuestData, ds: seq<DialogueData>, w: World): World {
    if w.active then TryComplete(q, ds, w) else w
  }

  /** Every quest operation keeps a completed quest inactive. */
  lemma OperationsSettle(q: QuestData, ds: seq<DialogueData>, w: World, s: string)
    requires Settled(w)
    ensures Settled(TryComplete(q, ds, w)) && Settled(StateChanged(q, ds, w, s))
    ensures Settled(Interact(q, ds, w)) && Settled(CheckQuestSpec(q, ds, w))
  {
  }

  /** Once completed, a quest ignores every later state change, interaction and check. */
  lemma CompletedIsFinal(q: QuestData, ds: seq<DialogueData>, w: World, s: string)
    requires w.completed
    ensures TryComplete(q, ds, w) == w && StateChanged(q, ds, w, s) == w
    ensures Interact(q, ds, w) == w && CheckQuestSpec(q, ds, w) == w
  {
  }

  /** Activation runs first: reaching the required state activates an idle quest and tries to complete it at once. */
  lemma ActivationBeforeCompletion(q: QuestData, ds: seq<DialogueData>, w: World)
    requires !w.active && !w.completed
    ensures StateChanged(q, ds, w, q.requiredState) == TryComplete(q, ds, w.(active := true))
  {
  }

  /** An open quest without the items keeps its flags and the inventory, and runs the failure dialogue. */
  lemma MissingItemsRefuse(q: QuestData, ds: seq<DialogueData>, w: World)
    requires w.active && !w.completed && !HasAll(w.slots, q.requiredItems)
    ensures TryComplete(q, ds, w) == ForceStartFor(ds, w, q.failureDialogue)
    ensures TryComplete(q, ds, w).active && !TryComplete(q, ds, w).completed
    ensures TryComplete(q, ds, w).slots == w.slots
  {
  }

  /** A state other than the required one neither activates nor completes the quest. */
  lemma OtherStatesIgnored(q: QuestData, ds: seq<DialogueData>, w: World, s: string)
    requires s != q.requiredState
    ensures StateChanged(q, ds, w, s) == w
  {
  }

  class QuestGiver {
    const quest: QuestData
    const dialogueTrigger: Option<DialogueTrigger>
    const playerInventory: Option<InventorySystem>
    const state: DialogueState
    var isQuestActive: bool
    var isQuestCompleted: bool

    /** The objects beyond the quest giver itself that its methods may change. */
    function Footprint(): set<object> {
      {state} +
      (if playerInventory.Some? then {playerInventory.value} else {}) +
      (if dialogueTrigger.Some? then {dialogueTrigger.value} else {})
    }

    /** The trigger talks to the same global state flag. */
    predicate Wired()
      reads this
    {
      dialogueTrigger.Some? ==> dialogueTrigger.value.state == state
    }

    function Dialogues(): seq<DialogueData> {
      if dialogueTrigger.Some? then dialogueTrigger.value.dialogues else []
    }

    function Slots(): Option<seq<Slot>>
      reads if playerInventory.Some? then {playerInventory.value} else {}
    {
      if playerInventory.Some? then Some(playerInventory.value.inventory) else None
    }

    function Now(): World
      reads this, Footprint()
    {
      World(isQuestActive, isQuestCompleted, Slots(),
            if dialogueTrigger.Some? then Some(dialogueTrigger.value.Model()) else None,
            state.Model())
    }

    constructor (quest: QuestData, dialogueTrigger: Option<DialogueTrigger>,
                 playerInventory: Option<InventorySystem>, state: DialogueState)
      ensures this.quest == quest && this.dialogueTrigger == dialogueTrigger
      ensures this.playerInventory == playerInventory && this.state == state
      ensures !isQuestActive && !isQuestCompleted
    {
      this.quest := quest;
      this.dialogueTrigger := dialogueTrigger;
      this.playerInventory := playerInventory;
      this.state := state;
      isQuestActive := false;
      isQuestCompleted := false;
    }

    /** True exactly when there is an inventory and every required item's name is found in it. */
    function HasAllRequiredItems(): (r: bool)
      reads if playerInventory.Some? then {playerInventory.value} else {}
      ensures r <==> (playerInventory.Some? &&
                      forall k :: 0 <= k < |quest.requiredItems| ==>
                        FirstNamed(playerInventory.value.inventory, quest.requiredItems[k].itemName) != -1)
    {
      HasAll(Slots(), quest.requiredItems)
    }

    method StartDialogue(d: Option<DialogueData>)
      requires Wired()
      modifies Footprint()
      ensures Now() == ForceStartFor(Dialogues(), old(Now()), d)
    {
      if d.Some? && dialogueTrigger.Some? {
        dialogueTrigger.value.ForceStartDialogue(d);
      }
    }

    method RemoveRequiredItems()
      requires playerInventory.Some?
      modifies playerInventory.value
      ensures playerInventory.value.inventory == RemoveAll(old(playerInventory.value.inventory), quest.requiredItems)
    {
      var inv := playerInventory.value;
      var required := quest.requiredItems;
      var i := 0;
      while i < |required|
        invariant 0 <= i <= |required|
        invariant inv.inventory == RemoveAll(old(inv.inventory), required[..i])
      {
        assert required[..i + 1][..i] == required[..i];
        var itemIndex := HasItemByName(inv.inventory, required[i].itemName);
        if itemIndex != -1 {
          inv.RemoveItem(itemIndex);
        }
        i := i + 1;
      }
      assert required[..i] == required;
    }

    method CompleteQuest()
      requires Wired() && HasAllRequiredItems()
      modifies this, Footprint()
      ensures Now() == Complete(quest, Dialogues(), old(Now()))
    {
      RemoveRequiredItems();
      var changed := state.SetState(quest.completionState);
      if changed && dialogueTrigger.Some? {
        dialogueTrigger.value.OnGameStateChanged(quest.completionState);
      }
      isQuestActive := false;
      isQuestCompleted := true;
      StartDialogue(quest.completionDialogue);
    }

    method TryCompleteQuest()
      requires Wired()
      modifies this, Footprint()
      ensures Now() == TryComplete(quest, Dialogues(), old(Now()))
    {
      if !isQuestActive || isQuestCompleted {
        return;
      }
      if HasAllRequiredItems() {
        CompleteQuest();
      } else {
        StartDialogue(quest.failureDialogue);
      }
    }

    method CheckQuestActivation(s: string)
      modifies this
      ensures Now() == CheckActivation(quest, old(Now()), s)
    {
      if !isQuestActive && !isQuestCompleted && s == quest.requiredState {
        isQuestActive := true;
      }
    }

    method CheckQuestCompletion(s: string)
      requires Wired()
      modifies this, Footprint()
      ensures Now() == CheckCompletion(quest, Dialogues(), old(Now()), s)
    {
      if isQuestActive && s == quest.requiredState {
        TryCompleteQuest();
      }
    }

    /** The handler subscribed to OnStateChanged. */
    method OnStateChanged(newState: string)
      requires Wired()
      modifies this, Footprint()
      ensures Now() == StateChanged(quest, Dialogues(), old(Now()), newState)
    {
      CheckQuestActivation(newState);
      CheckQuestCompletion(newState);
    }

    /** The handler subscribed to the trigger's OnInteract. */
    method OnDilogueInteract()
      requires Wired()
      modifies this, Footprint()
      ensures Now() == Interact(quest, Dialogues(), old(Now()))
    {
      CheckQuestCompletion(state.currentState);
    }

    method CheckQuest()
      requires Wired()
      modifies this, Footprint()
      ensures Now() == CheckQuestSpec(quest, Dialogues(), old(Now()))
    {
      if isQuestActive {
        TryCompleteQuest();
      }
    }
  }
}
