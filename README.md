# A verified model of the game logic of GameJam_KOMOD

GameJam_KOMOD is a small 2D stealth/horror game built in Unity. The player sneaks through a house that four kinds of monsters patrol:

- Fear waits in the dark and dashes at the player.
- Rage listens, then charges.
- Resentment is a puddle guardian tied to its puddle.
- A basic patrol monster.

The player can hide in closets, carry items in a fixed-size inventory, lose hearts and respawn, talk to characters, hand in quests, trigger monologues, and follow a guiding ghost. The music changes with the danger.

This project models the per-frame logic of those components in Dafny and proves what the game code promises about it. Each component becomes a class with the component's own fields.

- **Per-frame methods.** Each per-frame method is specified against a pure function over a snapshot of the fields, usually called `Now()`. A tick's ensures reads `Now() == Tick(config, old(Now()), sense)`.
- **Properties.** The properties are lemmas about those functions. Examples:
  - which transition each perception input takes;
  - how timers are reset on entry;
  - the non-repeating wander-point choice;
  - the charge cooldown gate;
  - the Resentment leash;
  - the absorbing death state;
  - the "at most one puddle guardian" invariant;
  - the inventory slot discipline;
  - the idempotent state flag;
  - quest finality;
  - dialogue line advancement;
  - the round-robin music index;
  - bounded volume fades.

**Engine services become inputs.** A per-frame `Sense` record carries:

- the frame time `dt`;
- distances, and whether a ray reaches the player;
- the hiding and crouching flags;
- whether the navigation agent has arrived;
- the navigation mesh's sampled point, as an `Option`;
- the random numbers drawn.

**Damage is returned, not delivered.** A monster attack returns a flag to its caller, which delivers it as `PlayerHealth.TakeDamage`.

**Module layout.**

- One module per game script. The exception is `Puddles`: the puddle, the puddle spawner and the puddle guardian refer to one another, so they share that module.
- The Resentment machine is specified separately in its own module, `Resentment`.
- `Common` holds the option type, 2D positions and modular index arithmetic `Wrap`, plus the two `PlayerController` flags that several scripts change.

## Model

| member | source | states |
|---|---|---|
| Common.Wrap | Assets/Audio/Music/Scripts/SequentialAudioPlayer.cs:78 | `k` reduced into the ring of `n` slots, always below `n` |
| Common.WrapIsMod | Assets/Audio/Music/Scripts/SequentialAudioPlayer.cs:76-78 | after `k` increments with reset to 0 at `n`, the index is exactly the remainder `k % n` |
| Common.WrapNext | Assets/Audio/Music/AngerSequentialAudioPlayer.cs:32-36 | one more step around the ring moves to the next slot, and from the last slot back to 0 |
| DialogueStates.Set | Assets/Dialoges/DialogueState.cs:25-33 | setting the current value changes nothing and fires nothing; a new value becomes current and is announced exactly once |
| DialogueStates.SetTwiceIsSetOnce | Assets/Dialoges/DialogueState.cs:25-33 | setting a value twice has the same effect as setting it once, including the events fired |
| DialogueStates.DialogueState.constructor | Assets/Dialoges/DialogueState.cs:7 | the flag starts at "start" with no events fired |
| DialogueStates.DialogueState.SetState | Assets/Dialoges/DialogueState.cs:25-33 | the new flag and event log are `Set` of the old ones; it reports whether the value really changed |
| DialogueStates.DialogueState.CheckState | Assets/Dialoges/DialogueState.cs:35-38 | true exactly when the flag holds the required state, which is exactly when setting that state again would change nothing and fire no event |
| DialogueStates.SetStateTwice | Assets/Dialoges/DialogueState.cs:25-33 | two consecutive SetState calls leave the state and the event log exactly as one call does |
| Inventory.FirstFreeSlot | Assets/Player/Scripts/InventorySystem.cs:102-110 | the lowest index of an empty slot, or -1 exactly when every slot is taken |
| Inventory.IndexOf | Assets/Player/Scripts/InventorySystem.cs:189-197 | the first index holding the value, or -1 exactly when it does not occur |
| Inventory.FirstNamed | Assets/Player/Scripts/InventorySystem.cs:199-207 | the first slot whose item carries the name, or -1 exactly when none does |
| Inventory.HasItemByName | Assets/Player/Scripts/InventorySystem.cs:199-207 | scanning by name and then locating that item yields the first slot with the name, or -1 |
| Inventory.ItemCount | Assets/Player/Scripts/InventorySystem.cs:209-217 | the number of occupied slots is at most the slot count; it equals the slot count exactly when every slot is occupied, and 0 exactly when all are empty |
| Inventory.ItemsMembers | Assets/Player/Scripts/InventorySystem.cs:157-168 | an item is handed back by DropAllItems exactly when some slot held it |
| Inventory.ItemsCount | Assets/Player/Scripts/InventorySystem.cs:157-217 | DropAllItems hands back exactly as many items as GetItemCount reports |
| Inventory.Empty | Assets/Player/Scripts/InventorySystem.cs:37-44 | `n` slots, all empty |
| Inventory.InventorySystem.constructor | Assets/Player/Scripts/InventorySystem.cs:37-44 | the inventory list exists but has no slots yet |
| Inventory.InventorySystem.InitializeInventory | Assets/Player/Scripts/InventorySystem.cs:37-44 | appends exactly `inventorySize` empty slots |
| Inventory.InventorySystem.PickupItem | Assets/Player/Scripts/InventorySystem.cs:99-125 | writes the item into the lowest-index empty slot and changes nothing else; a full inventory is unchanged and -1 is returned |
| Inventory.InventorySystem.DropItem | Assets/Player/Scripts/InventorySystem.cs:127-141 | clears only the indexed slot and returns what it held; an out-of-range index changes nothing |
| Inventory.InventorySystem.RemoveItem | Assets/Player/Scripts/InventorySystem.cs:143-155 | clears only the indexed slot; an out-of-range index changes nothing |
| Inventory.InventorySystem.DropAllItems | Assets/Player/Scripts/InventorySystem.cs:157-168 | afterwards every slot is empty and the slot count is the same; the items dropped are the stored items in slot order |
| Inventory.InventorySystem.HasItem | Assets/Player/Scripts/InventorySystem.cs:189-197 | the first slot that holds the item, or -1 |
| Inventory.InventorySystem.GetItemCount | Assets/Player/Scripts/InventorySystem.cs:209-217 | the number of occupied slots: at most the slot count, the number of items DropAllItems hands back, and the slot count exactly when no slot is free |
| Inventory.InventorySystem.IsFull | Assets/Player/Scripts/InventorySystem.cs:219-222 | with the configured number of slots, IsFull holds exactly when PickupItem would find no free slot |
| Inventory.DropStep | Assets/Player/Scripts/InventorySystem.cs:159-165 | clearing slot `i` extends the empty prefix by one, and the item it held is the next item handed back |
| Health.RepeatedHits | Assets/Player/Scripts/PlayerHealth.cs:30-42 | after `n` hits from `h` ≥ 0 hearts, `h − n` remain, or 0 once `n` ≥ `h`; exactly one of the hits calls Die when they use up the last heart, and none otherwise |
| Health.PlayerHealth.constructor | Assets/Player/Scripts/PlayerHealth.cs:6-9 | the component before Start, bound to its controller and inventory, with `currentHearts` as set in the inspector |
| Health.PlayerHealth.Start | Assets/Player/Scripts/PlayerHealth.cs:22-28 | the hearts start at `maxHearts` |
| Health.PlayerHealth.TakeDamage | Assets/Player/Scripts/PlayerHealth.cs:30-42 | does nothing at 0 hearts; otherwise removes exactly one heart, and calls Die exactly when that reaches 0 |
| Health.PlayerHealth.Die | Assets/Player/Scripts/PlayerHealth.cs:44-51 | freezes the player and empties every inventory slot |
| Health.PlayerHealth.Respawn | Assets/Player/Scripts/PlayerHealth.cs:53-69 | restores `maxHearts`, lets the player move, and moves them to the respawn point when there is one |
| Hiding.ClosestIndex | Assets/Player/Scripts/HideController.cs:21-41 | the index of a nearby closet at minimal distance, the earliest one on ties, or -1 when there is none |
| Hiding.Closest | Assets/Player/Scripts/HideController.cs:21-41 | the closet selected, or none exactly when no closet overlaps |
| Hiding.HideController.constructor | Assets/Player/Scripts/HideController.cs:1-14 | a visible player who can move and is not hiding |
| Hiding.HideController.SetHidingState | Assets/Player/Scripts/HideController.cs:111-131 | movement, the sprite (when present) and the colliders all follow `!isHiding` |
| Hiding.HideController.EnterCloset | Assets/Player/Scripts/HideController.cs:81-94 | does nothing without a closet or while hiding; otherwise hides and saves the player's position |
| Hiding.HideController.ExitCloset | Assets/Player/Scripts/HideController.cs:96-109 | stops hiding and moves the player back to the position saved on entry |
| Hiding.HideController.ForceExitCloset | Assets/Player/Scripts/HideController.cs:135-141 | exits when hiding, and does nothing otherwise |
| Hiding.HideController.CheckNearbyClosets | Assets/Player/Scripts/HideController.cs:21-64 | the closest closet becomes current; losing every closet while hiding forces an exit |
| Hiding.HideController.HandleHidingInput | Assets/Player/Scripts/HideController.cs:66-79 | the key enters when not hiding next to a closet, exits when hiding, and does nothing without the key |
| Hiding.HideController.Update | Assets/Player/Scripts/HideController.cs:15-19 | the closet selected this frame becomes current; then the key enters that closet when the player was not hiding (saving the old position), and leaves the closet when hiding (back at the saved position, visible and able to move); a player pushed out because the last closet went out of range ends the frame outside, key or no key; otherwise nothing changes |
| Hiding.EnterThenExit | Assets/Player/Scripts/HideController.cs:83-99 | entering a closet and leaving it puts the player back where they stood, able to move |
| DialogueTriggers.FirstSuitable | Assets/Dialoges/DialogueTrigger.cs:130-154 | the index of the first dialogue whose conditions pass, or -1 exactly when none passes |
| DialogueTriggers.FindSuitable | Assets/Dialoges/DialogueTrigger.cs:130-140 | the first passing dialogue, or none exactly when no dialogue passes |
| DialogueTriggers.UnconditionalPasses | Assets/Dialoges/DialogueTrigger.cs:145-153 | a dialogue that requires no state, or an empty one, always passes |
| DialogueTriggers.UnconditionalFirstIsFound | Assets/Dialoges/DialogueTrigger.cs:116-140 | when the first dialogue is unconditional, it is the one selected |
| DialogueTriggers.Ended | Assets/Dialoges/DialogueTrigger.cs:390-407 | after EndDialogue: inactive, line 0, no current dialogue |
| DialogueTriggers.LineShown | Assets/Dialoges/DialogueTrigger.cs:169-196 | showing a line records it and sets its non-empty state on the global flag at once; an empty state leaves the flag alone |
| DialogueTriggers.ShowLineValid | Assets/Dialoges/DialogueTrigger.cs:169-196 | showing a line of the current dialogue keeps the running-dialogue invariant |
| DialogueTriggers.StartSpecificValid | Assets/Dialoges/DialogueTrigger.cs:156-167 | StartSpecificDialogue keeps the invariant |
| DialogueTriggers.StartAppropriateValid | Assets/Dialoges/DialogueTrigger.cs:116-128 | StartAppropriateDialogue keeps the invariant |
| DialogueTriggers.NextLineValid | Assets/Dialoges/DialogueTrigger.cs:313-342 | ShowNextLine keeps the invariant |
| DialogueTriggers.OperationsKeepValid | Assets/Dialoges/DialogueTrigger.cs:81-364 | every operation keeps this invariant: a running dialogue has a current dialogue and a line index inside it, and a stopped one has neither |
| DialogueTriggers.StartShowsFirstLine | Assets/Dialoges/DialogueTrigger.cs:156-167 | starting a dialogue that has lines shows line 0; unless that line ends or wins the game, the dialogue then runs at line 0 |
| DialogueTriggers.GameStateChangedCases | Assets/Dialoges/DialogueTrigger.cs:344-364 | "end" stops the dialogue (inactive, no dialogue, line 0) and deactivates the trigger, "win" stops it; a trigger that is out of range or busy ignores every other state |
| DialogueTriggers.IdleInRangeRestarts | Assets/Dialoges/DialogueTrigger.cs:344-354 | an idle trigger with the player in range starts the first dialogue whose conditions pass on the new state, showing its first line and running at line 0 unless that line ends or wins the game; with no suitable dialogue nothing changes |
| DialogueTriggers.NextLineAdvancesOrEnds | Assets/Dialoges/DialogueTrigger.cs:313-331 | before the last line the index moves on by one; past it, the dialogue ends inactive at line 0 with no current dialogue |
| DialogueTriggers.LeavingRangeEnds | Assets/Dialoges/DialogueTrigger.cs:93-99 | leaving the interaction radius ends a running dialogue |
| DialogueTriggers.DialogueTrigger.constructor | Assets/Dialoges/DialogueTrigger.cs:51-63 | an idle trigger that is out of range |
| DialogueTriggers.DialogueTrigger.EndDialogue | Assets/Dialoges/DialogueTrigger.cs:390-407 | the trigger becomes `Ended` of its old state |
| DialogueTriggers.DialogueTrigger.ShowLine | Assets/Dialoges/DialogueTrigger.cs:169-196 | the trigger and the flag become `LineShown` of their old values |
| DialogueTriggers.DialogueTrigger.StartSpecificDialogue | Assets/Dialoges/DialogueTrigger.cs:156-167 | a null or empty dialogue is ignored; otherwise it starts at line 0 and shows it |
| DialogueTriggers.DialogueTrigger.OnGameStateChanged | Assets/Dialoges/DialogueTrigger.cs:344-364 | restarts when idle and in range, then ends on "end" (deactivating) or "win" |
| DialogueTriggers.DialogueTrigger.StartAppropriateDialogue | Assets/Dialoges/DialogueTrigger.cs:116-128 | starts the first suitable dialogue, else `dialogues[0]`, else nothing |
| DialogueTriggers.DialogueTrigger.ShowNextLine | Assets/Dialoges/DialogueTrigger.cs:313-342 | shows the next line, or completes the dialogue past the last one |
| DialogueTriggers.DialogueTrigger.CheckPlayerDistance | Assets/Dialoges/DialogueTrigger.cs:81-101 | the range flag follows the distance; walking out of range ends a running dialogue; with no player nothing changes |
| DialogueTriggers.DialogueTrigger.HandleDialogueInput | Assets/Dialoges/DialogueTrigger.cs:103-114 | the key starts a dialogue and raises OnInteract when in range and idle; it advances a running dialogue |
| DialogueTriggers.DialogueTrigger.Update | Assets/Dialoges/DialogueTrigger.cs:73-79 | one frame: the distance check, then the key |
| DialogueTriggers.DialogueTrigger.ForceStartDialogue | Assets/Dialoges/DialogueTrigger.cs:410-426 | starts the given dialogue, or the appropriate one when none is given |
| Quests.HasAll | Assets/Dialoges/QuestGiver.cs:100-117 | true exactly when an inventory exists and every required item's name is found in it |
| Quests.RemoveAllOnlyClearsRequired | Assets/Dialoges/QuestGiver.cs:139-151 | handing in keeps the slot count, only clears slots, and clears only slots carrying a required name |
| Quests.RemoveOneClearsFirstNamed | Assets/Dialoges/QuestGiver.cs:139-151 | handing in a single item clears exactly the first slot with its name |
| Quests.HandInRemovesEach | Assets/Dialoges/QuestGiver.cs:139-151 | every required item the inventory held is removed: the first slot that carried each required name is empty after the hand-in, whether or not names repeat |
| Quests.HandInCount | Assets/Dialoges/QuestGiver.cs:139-151 | when the inventory holds every required item and the names differ, the hand-in takes away exactly as many items as are required |
| Quests.QuestGiver.HasAllRequiredItems | Assets/Dialoges/QuestGiver.cs:100-117 | true exactly when there is an inventory and every required item's name is found in it |
| Quests.ForceStartFor | Assets/Dialoges/QuestGiver.cs:153-159 | starting a quest dialogue keeps the quest's flags and the inventory |
| Quests.Announce | Assets/Dialoges/QuestGiver.cs:124 | the quest giver's SetState: the flag takes the new value, and a real change is handled by the quest's own trigger (`GameStateChanged`) before SetState returns; with no trigger the flag is simply set; an unchanged value changes nothing |
| Quests.Complete | Assets/Dialoges/QuestGiver.cs:119-137 | completion clears the quest's active flag, sets completed and hands in the required items (what the hand-in removes is proved by HandInRemovesEach and HandInCount); without a trigger the flag is `completionState` set on the old one; completing on "end" leaves the trigger's object deactivated |
| Quests.CompletionReactsFirst | Assets/Dialoges/QuestGiver.cs:119-137 | the trigger reacts to `completionState` before the completion dialogue starts: on "end" the trigger's object is deactivated and the completion dialogue still starts on it at line 0; with no completion dialogue, an idle trigger in range restarts with the dialogue suited to the new state |
| Quests.OperationsSettle | Assets/Dialoges/QuestGiver.cs:49-168 | no quest operation makes a completed quest active |
| Quests.CompletedIsFinal | Assets/Dialoges/QuestGiver.cs:63-87 | once completed, a quest ignores every later state change, interaction and check |
| Quests.ActivationBeforeCompletion | Assets/Dialoges/QuestGiver.cs:49-67 | reaching the required state activates an idle quest and tries to complete it in the same event |
| Quests.MissingItemsRefuse | Assets/Dialoges/QuestGiver.cs:85-98 | an open quest without its items keeps its flags and the inventory, and runs the failure dialogue |
| Quests.OtherStatesIgnored | Assets/Dialoges/QuestGiver.cs:60-77 | a state other than `requiredState` neither activates nor completes the quest |
| Quests.QuestGiver.constructor | Assets/Dialoges/QuestGiver.cs:15-34 | the quest starts neither active nor completed |
| Quests.QuestGiver.StartDialogue | Assets/Dialoges/QuestGiver.cs:153-159 | forwards a dialogue to the trigger when both exist |
| Quests.QuestGiver.RemoveRequiredItems | Assets/Dialoges/QuestGiver.cs:139-151 | for each required item in turn, clears the first slot carrying its name |
| Quests.QuestGiver.CompleteQuest | Assets/Dialoges/QuestGiver.cs:119-137 | the new state is `Complete` of the old one: a changed flag is delivered to the trigger's OnGameStateChanged between SetState and the completion dialogue |
| Quests.QuestGiver.TryCompleteQuest | Assets/Dialoges/QuestGiver.cs:85-98 | no-op unless the quest is active and not completed; completes when the items are present, otherwise shows the failure dialogue |
| Quests.QuestGiver.CheckQuestActivation | Assets/Dialoges/QuestGiver.cs:60-83 | activates only a quest that is neither active nor completed, on `requiredState` |
| Quests.QuestGiver.CheckQuestCompletion | Assets/Dialoges/QuestGiver.cs:69-77 | an active quest on `requiredState` tries to complete |
| Quests.QuestGiver.OnStateChanged | Assets/Dialoges/QuestGiver.cs:49-53 | the activation check runs before the completion check |
| Quests.QuestGiver.OnDilogueInteract | Assets/Dialoges/QuestGiver.cs:55-58 | interacting runs the completion check on the current state |
| Quests.QuestGiver.CheckQuest | Assets/Dialoges/QuestGiver.cs:162-168 | an active quest tries to complete |
| Monologues.LineShown | Assets/Dialoges/MonologueTrigger.cs:92-119 | showing a line only remembers its non-empty state; the global flag is untouched |
| Monologues.Completed | Assets/Dialoges/MonologueTrigger.cs:204-214 | at completion the remembered state is written to the flag and then cleared |
| Monologues.LastSetStep | Assets/Dialoges/MonologueTrigger.cs:100-103 | one more line either replaces the remembered state with its own non-empty one or keeps it |
| Monologues.AdvanceMidway | Assets/Dialoges/MonologueTrigger.cs:184-202 | part way through, the flag is untouched and the remembered state is the last one set by the lines shown so far |
| Monologues.Playthrough | Assets/Dialoges/MonologueTrigger.cs:63-214 | playing a monologue to the end writes exactly the last non-empty line state, once, at completion |
| Monologues.AdvanceSplit | Assets/Dialoges/MonologueTrigger.cs:184-202 | advancing `j + k` lines is advancing `j` lines, then `k` |
| Monologues.OpensAtMostOnce | Assets/Dialoges/MonologueTrigger.cs:65-76 | after the zone opens, its collider is off and later entries change nothing |
| Monologues.OpensOnlyOnRequiredState | Assets/Dialoges/MonologueTrigger.cs:65-76 | only a monologue that requires a non-empty state equal to the current state can start |
| Monologues.MonologueTrigger.constructor | Assets/Dialoges/MonologueTrigger.cs:37-47 | idle, collider on, nothing remembered |
| Monologues.MonologueTrigger.OnTriggerEnter2D | Assets/Dialoges/MonologueTrigger.cs:63-79 | the player entering on the required state starts the monologue and switches the collider off; anything else is ignored |
| Monologues.MonologueTrigger.StartSpecificDialogue | Assets/Dialoges/MonologueTrigger.cs:81-90 | a null or empty dialogue is ignored; otherwise it starts at line 0 |
| Monologues.MonologueTrigger.ShowLine | Assets/Dialoges/MonologueTrigger.cs:92-119 | the line's state is deferred, and the flag is unchanged |
| Monologues.MonologueTrigger.ShowNextLine | Assets/Dialoges/MonologueTrigger.cs:184-202 | the next line, or completion past the last one |
| Monologues.MonologueTrigger.OnDialogueComplete | Assets/Dialoges/MonologueTrigger.cs:204-214 | applies the deferred state, clears it, and ends |
| Monologues.MonologueTrigger.OnGameStateChanged | Assets/Dialoges/MonologueTrigger.cs:216-227 | "end" ends and deactivates the monologue, "win" ends it, and any other state changes nothing |
| Monologues.MonologueTrigger.EndDialogue | Assets/Dialoges/MonologueTrigger.cs:229-244 | drops the current dialogue and keeps the line index |
| Monologues.MonologueTrigger.ForceEndDialogue | Assets/Dialoges/MonologueTrigger.cs:246-253 | ends this monologue only when a different one is announced as active |
| SequentialAudio.Following | Assets/Audio/Music/Scripts/SequentialAudioPlayer.cs:76-78 | the next index stays in range, and wraps to 0 past the end |
| SequentialAudio.Schedule | Assets/Audio/Music/Scripts/SequentialAudioPlayer.cs:57-79 | scheduling keeps the index inside the playlist and leaves the player's activity alone; with clips present any pending playlist is consumed |
| SequentialAudio.Play | Assets/Audio/Music/Scripts/SequentialAudioPlayer.cs:32-48 | a request keeps the index inside the playlist, and never leaves an empty playlist pending |
| SequentialAudio.ScheduleN | Assets/Audio/Music/Scripts/SequentialAudioPlayer.cs:57-79 | any number of schedulings in a row keep the index inside the playlist |
| SequentialAudio.RoundRobin | Assets/Audio/Music/Scripts/SequentialAudioPlayer.cs:57-79 | `k` schedulings of a playlist without null clips append exactly `k` clips, which are the playlist's clips in order from the current index, wrapping around; the index ends `k` positions on |
| SequentialAudio.WrapShift | Assets/Audio/Music/Scripts/SequentialAudioPlayer.cs:76-78 | starting one slot on and going `j` steps ends where `j + 1` steps end |
| SequentialAudio.WrapBelow | Assets/Audio/Music/Scripts/SequentialAudioPlayer.cs:76-78 | an index already in range is its own wrap |
| SequentialAudio.PendingTakesOver | Assets/Audio/Music/Scripts/SequentialAudioPlayer.cs:61-66 | a pending playlist replaces the current one at the next scheduling, starting from its first clip, and the pending slot is cleared |
| SequentialAudio.Gapless | Assets/Audio/Music/Scripts/SequentialAudioPlayer.cs:69-75 | each clip starts where the previous one ends |
| SequentialAudio.NullClipStalls | Assets/Audio/Music/Scripts/SequentialAudioPlayer.cs:69-72 | a null clip schedules nothing and leaves the index and the boundary unchanged |
| SequentialAudio.UnforcedRequestWaits | Assets/Audio/Music/Scripts/SequentialAudioPlayer.cs:36-40 | while playing, an unforced request changes only the pending playlist |
| SequentialAudio.SequentialAudioPlayer.constructor | Assets/Audio/Music/Scripts/SequentialAudioPlayer.cs:14-18 | inactive, with no clips and nothing pending |
| SequentialAudio.SequentialAudioPlayer.Update | Assets/Audio/Music/Scripts/SequentialAudioPlayer.cs:20-30 | schedules only when active with clips and within 0.1 s of the boundary |
| SequentialAudio.SequentialAudioPlayer.PlayPlaylist | Assets/Audio/Music/Scripts/SequentialAudioPlayer.cs:32-48 | the new state is `Play` of the old one |
| SequentialAudio.SequentialAudioPlayer.StopPlaylist | Assets/Audio/Music/Scripts/SequentialAudioPlayer.cs:50-55 | deactivates and drops any pending playlist |
| SequentialAudio.SequentialAudioPlayer.ScheduleNextClip | Assets/Audio/Music/Scripts/SequentialAudioPlayer.cs:57-79 | the new state is `Schedule` of the old one |
| Playlists.FindIndex | Assets/Audio/Music/Scripts/PlaylistManager.cs:38 | the index of the first playlist with the name, or -1 exactly when there is none |
| Playlists.Find | Assets/Audio/Music/Scripts/PlaylistManager.cs:38 | the first playlist with the name, or none |
| Playlists.PlaylistManager.constructor | Assets/Audio/Music/Scripts/PlaylistManager.cs:20-34 | no playlist is current |
| Playlists.PlaylistManager.Start | Assets/Audio/Music/Scripts/PlaylistManager.cs:20-34 | the first playlist, when there is one, becomes current and is played without force |
| Playlists.PlaylistManager.PlayPlaylist | Assets/Audio/Music/Scripts/PlaylistManager.cs:36-56 | the current playlist forwards nothing; an unknown name changes nothing; a different playlist that is found becomes current and its clips are forwarded with `force` |
| Playlists.PlaylistManager.Stop | Assets/Audio/Music/Scripts/PlaylistManager.cs:58-62 | clears the current playlist and stops the player |
| Playlists.RequestTwice | Assets/Audio/Music/Scripts/PlaylistManager.cs:43-50 | requesting the same playlist twice forwards it once; the second request changes nothing |
| AngerAudio.AngerSequentialAudioPlayer.constructor | Assets/Audio/Music/AngerSequentialAudioPlayer.cs:7 | the index starts at 0, and nothing has played |
| AngerAudio.AngerSequentialAudioPlayer.Start | Assets/Audio/Music/AngerSequentialAudioPlayer.cs:9-16 | plays `clips[0]` at once when there is a clip; the clips played so far are the round-robin order from the first clip |
| AngerAudio.AngerSequentialAudioPlayer.Update | Assets/Audio/Music/AngerSequentialAudioPlayer.cs:18-25 | a new clip starts only when nothing is playing and there are clips; the round-robin order is kept |
| AngerAudio.AngerSequentialAudioPlayer.PlayNextClip | Assets/Audio/Music/AngerSequentialAudioPlayer.cs:27-37 | plays exactly `clips[currentIndex]`, then advances the index within range, wrapping to 0 |
| AdaptiveMusic.MoveTowards | Assets/Audio/Music/Scripts/AdaptiveMusicManager.cs:54-62 | the result moves toward the target by at most `maxDelta`, never past it, and is the target when within `maxDelta`; a negative `maxDelta` moves it away from the target by that amount, upwards when it already sits at the target (Mathf.Sign(0) is 1) |
| AdaptiveMusic.FadeArrives | Assets/Audio/Music/Scripts/AdaptiveMusicManager.cs:54-62 | a fade reaches its target once the steps taken add up to the distance, and then stays there |
| AdaptiveMusic.Step | Assets/Audio/Music/Scripts/AdaptiveMusicManager.cs:41-64 | in Chase the chase layer is at the target volume right after the update |
| AdaptiveMusic.StepStaysInRange | Assets/Audio/Music/Scripts/AdaptiveMusicManager.cs:41-64 | volumes between 0 and the target volume stay there |
| AdaptiveMusic.StepIsBounded | Assets/Audio/Music/Scripts/AdaptiveMusicManager.cs:43-62 | in one update calm and search move by at most the step; outside Chase the chase layer moves by at most twice the step |
| AdaptiveMusic.AdaptiveMusicManager.constructor | Assets/Audio/Music/Scripts/AdaptiveMusicManager.cs:1-17 | the manager starts in the calm state |
| AdaptiveMusic.AdaptiveMusicManager.Start | Assets/Audio/Music/Scripts/AdaptiveMusicManager.cs:28-30 | calm is at `targetVolume`, with chase and search at 0 |
| AdaptiveMusic.AdaptiveMusicManager.UpdateVolumes | Assets/Audio/Music/Scripts/AdaptiveMusicManager.cs:41-64 | the volumes become `Step` of the old ones with step `fadeSpeed * dt` |
| AdaptiveMusic.AdaptiveMusicManager.SetState | Assets/Audio/Music/Scripts/AdaptiveMusicManager.cs:67-71 | the state becomes the new one; setting the current state is a no-op |
| Ghost.GoalFor | Assets/Entity/Ghost/Scripts/GhostAI.cs:42-54 | the target point when the player is closer than `minDistance`, the player when farther than `maxDistance`, and staying put otherwise |
| Ghost.GhostAI.constructor | Assets/Entity/Ghost/Scripts/GhostAI.cs:18-24 | the guide has not reached its target and has fired nothing |
| Ghost.GhostAI.Update | Assets/Entity/Ghost/Scripts/GhostAI.cs:26-38 | after completion nothing changes; within `arrivalThreshold` the guide completes before any movement; otherwise it moves toward the `GoalFor` destination |
| Ghost.GhostAI.UpdateMovement | Assets/Entity/Ghost/Scripts/GhostAI.cs:40-55 | the destination is the position of `GoalFor` |
| Ghost.GhostAI.CompleteGuide | Assets/Entity/Ghost/Scripts/GhostAI.cs:57-67 | sets `hasReachedTarget`, stops the agent and fires OnGuideCompleted exactly once |
| Monster.Transitions | Assets/Entity/Monsters/Scripts/MonsterAI.cs:67-127 | the next state for every state and perception: Wandering stays unless it sees the player; Chasing loses sight to Searching and within `attackRange` goes to Attacking; Attacking goes out of range to Chasing; Searching sees the player to Chasing and on expiry to Wandering |
| Monster.LostSightSearches | Assets/Entity/Monsters/Scripts/MonsterAI.cs:81-98 | losing sight in Chasing searches the last known position with `stateTimer = sightWaitTime` |
| Monster.TimerDiscipline | Assets/Entity/Monsters/Scripts/MonsterAI.cs:42-65 | every tick both timers drop by `dt`, unless a transition or an attack resets them to a configured value |
| Monster.AttackGate | Assets/Entity/Monsters/Scripts/MonsterAI.cs:100-114 | an attack happens exactly in Attacking, in range, with an expired `attackTimer`, and it resets the timer to `attackCooldown` |
| Monster.FirstAttackImmediate | Assets/Entity/Monsters/Scripts/MonsterAI.cs:182-187 | entering Attacking zeroes `attackTimer`, so the first in-range tick attacks |
| Monster.UnseenKeepsWandering | Assets/Entity/Monsters/Scripts/MonsterAI.cs:67-79 | a wandering monster that never sees the player keeps wandering over any number of ticks |
| Monster.MonsterAI.constructor | Assets/Entity/Monsters/Scripts/MonsterAI.cs:9-27 | the monster starts Wandering with its configuration |
| Monster.MonsterAI.Start | Assets/Entity/Monsters/Scripts/MonsterAI.cs:29-38 | the agent is configured and a wander destination is picked |
| Monster.MonsterAI.Update | Assets/Entity/Monsters/Scripts/MonsterAI.cs:40-59 | the new memory and the attack flag are `Tick` of the old memory and the frame's perception |
| Monster.MonsterAI.UpdateTimers | Assets/Entity/Monsters/Scripts/MonsterAI.cs:61-65 | both timers drop by `dt` |
| Monster.MonsterAI.UpdateWandering | Assets/Entity/Monsters/Scripts/MonsterAI.cs:67-79 | sight starts a chase; arrival with an expired timer picks a new destination |
| Monster.MonsterAI.UpdateChasing | Assets/Entity/Monsters/Scripts/MonsterAI.cs:81-98 | lost sight searches, range attacks, and otherwise it follows the player |
| Monster.MonsterAI.UpdateAttacking | Assets/Entity/Monsters/Scripts/MonsterAI.cs:100-114 | out of range it chases; otherwise it attacks on an expired timer |
| Monster.MonsterAI.UpdateSearching | Assets/Entity/Monsters/Scripts/MonsterAI.cs:116-127 | sight chases; expiry wanders |
| Monster.MonsterAI.CanSeePlayer | Assets/Entity/Monsters/Scripts/MonsterAI.cs:129-141 | no sight beyond `detectionRange`; within it, sight is exactly the ray reaching the player, whether or not the player hides |
| Monster.MonsterAI.SetWanderDestination | Assets/Entity/Monsters/Scripts/MonsterAI.cs:144-164 | a sampled point becomes the destination with `stateTimer = waitTimeAtPoint`; no sample changes nothing |
| Monster.MonsterAI.StartWandering | Assets/Entity/Monsters/Scripts/MonsterAI.cs:166-172 | Wandering at wander speed, with a new destination |
| Monster.MonsterAI.StartChasing | Assets/Entity/Monsters/Scripts/MonsterAI.cs:174-180 | Chasing at chase speed, stopping at 0.8 times `attackRange` |
| Monster.MonsterAI.StartAttacking | Assets/Entity/Monsters/Scripts/MonsterAI.cs:182-187 | Attacking, stopped, with `attackTimer = 0` |
| Monster.MonsterAI.StartSearching | Assets/Entity/Monsters/Scripts/MonsterAI.cs:189-195 | Searching at the last known position with `stateTimer = sightWaitTime` |
| Fear.SightRule | Assets/Entity/Monsters/Scripts/FearAI.cs:213-226 | no sight beyond `detectionRange` or while the player hides; otherwise sight is exactly the ray reaching the player |
| Fear.FearAI.CanSeePlayer | Assets/Entity/Monsters/Scripts/FearAI.cs:213-226 | no sight beyond `detectionRange` or while the player hides; otherwise sight is exactly the ray reaching the player |
| Fear.PickAcceptable | Assets/Entity/Monsters/Scripts/FearAI.cs:230-242 | the wander-point draw yields an index in range that differs from the previous one whenever there are at least 2 points |
| Fear.NoPointsNoChange | Assets/Entity/Monsters/Scripts/FearAI.cs:230 | with no wander points, SetWanderDestination changes nothing |
| Fear.WanderPick | Assets/Entity/Monsters/Scripts/FearAI.cs:228-254 | the new index is in range and, with at least 2 points, differs from the previous one; a sampled point starts Wandering with `stateTimer = waitTimeAtPoint`, and without one only the index changes |
| Fear.TimerDiscipline | Assets/Entity/Monsters/Scripts/FearAI.cs:73-117 | every tick the three timers drop by the same `dt`, unless a transition or an attack resets them to a configured value |
| Fear.SightResponses | Assets/Entity/Monsters/Scripts/FearAI.cs:121-189 | sight moves Wandering and Searching to Chasing, but Waiting to Dashing with `dashTimer = dashDuration` |
| Fear.WaitEntry | Assets/Entity/Monsters/Scripts/FearAI.cs:119-131 | unseen Wandering enters Waiting exactly on arrival with an expired timer, hidden and stopped with `stateTimer = hidingTime` |
| Fear.WaitExpiry | Assets/Entity/Monsters/Scripts/FearAI.cs:133-145 | an expired wait without sight returns, on a successful pick, to Wandering with `stateTimer = waitTimeAtPoint`, moving and visible |
| Fear.ChaseAttackSearch | Assets/Entity/Monsters/Scripts/FearAI.cs:147-194 | Chasing without sight searches with `stateTimer = sightWaitTime` and in range attacks; Attacking goes out of range to Chasing; attacks happen exactly in range on an expired timer and reset it to `attackCooldown`; Searching holds while its timer runs |
| Fear.FirstAttackImmediate | Assets/Entity/Monsters/Scripts/FearAI.cs:166-181 | entering Attacking zeroes `attackTimer`, so the first in-range tick attacks |
| Fear.DashOutcome | Assets/Entity/Monsters/Scripts/FearAI.cs:198-210 | a dash ends in Chasing when `dashTimer` expires, and in Attacking within `attackRange` |
| Fear.FairDraws | Assets/Entity/Monsters/Scripts/FearAI.cs:236-240 | a random source that can produce two different in-range values lets the draw finish from any previous index |
| Fear.DyingIsFinal | Assets/Entity/Monsters/Scripts/FearAI.cs:77-97 | once Dying, the monster stays Dying and never attacks, over any number of ticks |
| Fear.FearAI.constructor | Assets/Entity/Monsters/Scripts/FearAI.cs:11-47 | the monster starts Wandering with no wander point chosen |
| Fear.FearAI.Start | Assets/Entity/Monsters/Scripts/FearAI.cs:49-69 | the agent is configured and the wander destination is set |
| Fear.FearAI.Update | Assets/Entity/Monsters/Scripts/FearAI.cs:71-110 | the new memory and the attack flag are `Tick` of the old memory and the frame's perception |
| Fear.FearAI.UpdateTimers | Assets/Entity/Monsters/Scripts/FearAI.cs:112-117 | the three timers drop by `dt` |
| Fear.FearAI.UpdateWandering | Assets/Entity/Monsters/Scripts/FearAI.cs:119-131 | sight chases; arrival with an expired timer waits |
| Fear.FearAI.UpdateWaiting | Assets/Entity/Monsters/Scripts/FearAI.cs:133-145 | sight dashes; expiry picks a new wander point |
| Fear.FearAI.UpdateChasing | Assets/Entity/Monsters/Scripts/FearAI.cs:147-164 | lost sight searches, range attacks, and otherwise it follows the player |
| Fear.FearAI.UpdateAttacking | Assets/Entity/Monsters/Scripts/FearAI.cs:166-181 | out of range it chases; otherwise it attacks on an expired timer |
| Fear.FearAI.UpdateSearching | Assets/Entity/Monsters/Scripts/FearAI.cs:183-194 | sight chases; expiry wanders |
| Fear.FearAI.UpdateDashing | Assets/Entity/Monsters/Scripts/FearAI.cs:196-211 | expiry chases; range attacks |
| Fear.FearAI.PickWanderIndex | Assets/Entity/Monsters/Scripts/FearAI.cs:234-240 | the do-while draw returns `Pick` of the rolls: the first acceptable roll |
| Fear.FearAI.SetWanderDestination | Assets/Entity/Monsters/Scripts/FearAI.cs:228-254 | the new state is `SetWander` of the old one |
| Fear.FearAI.StartWaiting | Assets/Entity/Monsters/Scripts/FearAI.cs:256-262 | Waiting, stopped and hidden, with `stateTimer = hidingTime` |
| Fear.FearAI.StartWandering | Assets/Entity/Monsters/Scripts/FearAI.cs:264-271 | Wandering at wander speed, with a new wander point |
| Fear.FearAI.StartChasing | Assets/Entity/Monsters/Scripts/FearAI.cs:273-280 | Chasing at chase speed, visible |
| Fear.FearAI.StartAttacking | Assets/Entity/Monsters/Scripts/FearAI.cs:282-288 | Attacking, stopped, with `attackTimer = 0` |
| Fear.FearAI.StartSearching | Assets/Entity/Monsters/Scripts/FearAI.cs:290-297 | Searching at the last known position with `stateTimer = sightWaitTime` |
| Fear.FearAI.StartDashing | Assets/Entity/Monsters/Scripts/FearAI.cs:299-317 | Dashing toward the sampled aim point with `dashTimer = dashDuration` |
| Fear.FearAI.StartDying | Assets/Entity/Monsters/Scripts/FearAI.cs:319-325 | Dying, stopped |
| Rage.EntriesValid | Assets/Entity/Monsters/Scripts/RageAI.cs:223-308 | every entry into Chasing, Searching or Wandering, and every charge end, keeps the invariant |
| Rage.TimersValid | Assets/Entity/Monsters/Scripts/RageAI.cs:94-115 | the timer step and the hearing update keep the invariant |
| Rage.HandlersValid | Assets/Entity/Monsters/Scripts/RageAI.cs:117-194 | every state handler keeps the invariant |
| Rage.TickKeepsValid | Assets/Entity/Monsters/Scripts/RageAI.cs:69-351 | every tick keeps this invariant: the chase-sound coroutine handle is held exactly in the chase states (chasing, winding up, charging) when there are chase clips, and the last mood cue sent is the one for the current state ("RageCalm", "RageChasing", "RageSearching") |
| Rage.ExtendsTrans | Assets/Entity/Monsters/Scripts/RageAI.cs:69-92 | the cue log only grows, transitively |
| Rage.EntriesExtend | Assets/Entity/Monsters/Scripts/RageAI.cs:223-308 | transitions only append cues |
| Rage.TimersExtend | Assets/Entity/Monsters/Scripts/RageAI.cs:94-115 | the timer step only appends cues |
| Rage.HandlersExtend | Assets/Entity/Monsters/Scripts/RageAI.cs:117-194 | handlers only append cues |
| Rage.CuesGrow | Assets/Entity/Monsters/Scripts/RageAI.cs:69-92 | a tick never retracts a mood cue already sent |
| Rage.HearingFollowsCrouch | Assets/Entity/Monsters/Scripts/RageAI.cs:109-115 | the hearing range is `crouchHearingRange` while crouching and `normalHearingRange` otherwise, so a crouching player beyond the crouch range does not draw a wandering monster into a chase |
| Rage.ChargeGate | Assets/Entity/Monsters/Scripts/RageAI.cs:131-147 | Chasing winds up exactly when the player is heard within `chargeDistance` and `attackTimer` has expired; wind-up sets `stateTimer = chargeReadyTime` and stops the agent |
| Rage.WindUp | Assets/Entity/Monsters/Scripts/RageAI.cs:149-157 | PreparingCharge charges once its timer expires, with `chargeTimer = chargeDuration` and the agent disabled |
| Rage.ChargeFollowsWindUp | Assets/Entity/Monsters/Scripts/RageAI.cs:131-157 | a frame ends in Charging only if it began in PreparingCharge or Charging, and a wind-up turns into a charge exactly when its timer runs out |
| Rage.ChargeTimerOnlyWhileCharging | Assets/Entity/Monsters/Scripts/RageAI.cs:94-107 | outside Charging the charge timer does not move, except when it is set to `chargeDuration` on entry |
| Rage.ChargeExpiry | Assets/Entity/Monsters/Scripts/RageAI.cs:99-237 | an expired charge sets `attackTimer = attackCooldown`, re-enables the agent, then chases if the player is heard and otherwise searches |
| Rage.ContactDuringCharge | Assets/Entity/Monsters/Scripts/RageAI.cs:159-181 | contact within 1 unit during a charge damages a player with health; it ends the charge early exactly when the player has a Rigidbody2D |
| Rage.DamageOnlyWhileCharging | Assets/Entity/Monsters/Scripts/RageAI.cs:159-181 | no damage outside Charging |
| Rage.SearchOutcome | Assets/Entity/Monsters/Scripts/RageAI.cs:183-194 | Searching holds until its timer expires, then chases if the player is heard and otherwise wanders |
| Rage.RageAI.constructor | Assets/Entity/Monsters/Scripts/RageAI.cs:12-50 | the monster starts Wandering, silent, and satisfies the invariant |
| Rage.RageAI.Start | Assets/Entity/Monsters/Scripts/RageAI.cs:52-67 | the hearing range is `normalHearingRange` and the monster starts wandering |
| Rage.RageAI.Update | Assets/Entity/Monsters/Scripts/RageAI.cs:69-92 | the new memory and the damage flag are `Tick` of the old memory and the frame's perception |
| Rage.RageAI.UpdateTimers | Assets/Entity/Monsters/Scripts/RageAI.cs:94-107 | the charge timer runs only while charging, and its expiry ends the charge |
| Rage.RageAI.UpdateHearingRange | Assets/Entity/Monsters/Scripts/RageAI.cs:109-115 | the range follows crouching when there is a controller |
| Rage.RageAI.CanHearPlayer | Assets/Entity/Monsters/Scripts/RageAI.cs:196-200 | a hiding player is never heard; otherwise the player is heard exactly within the current hearing range |
| Rage.RageAI.UpdateWandering | Assets/Entity/Monsters/Scripts/RageAI.cs:117-129 | hearing chases; arrival with an expired timer picks a destination |
| Rage.RageAI.UpdateChasing | Assets/Entity/Monsters/Scripts/RageAI.cs:131-147 | losing the player searches; close with an expired timer winds up; otherwise it follows |
| Rage.RageAI.UpdatePreparingCharge | Assets/Entity/Monsters/Scripts/RageAI.cs:149-157 | expiry charges |
| Rage.RageAI.UpdateCharging | Assets/Entity/Monsters/Scripts/RageAI.cs:159-181 | contact damages, and ends the charge against a Rigidbody2D |
| Rage.RageAI.UpdateSearching | Assets/Entity/Monsters/Scripts/RageAI.cs:183-194 | expiry chases or wanders |
| Rage.RageAI.StartPreparingCharge | Assets/Entity/Monsters/Scripts/RageAI.cs:202-210 | PreparingCharge, stopped, with `stateTimer = chargeReadyTime` |
| Rage.RageAI.StartCharging | Assets/Entity/Monsters/Scripts/RageAI.cs:212-221 | Charging, with the agent off and `chargeTimer = chargeDuration` |
| Rage.RageAI.EndCharge | Assets/Entity/Monsters/Scripts/RageAI.cs:223-237 | the cooldown is set, the agent is back on, and the monster chases or searches |
| Rage.RageAI.OnCollisionEnter2D | Assets/Entity/Monsters/Scripts/RageAI.cs:239-253 | an object is destroyed exactly when it is destructible and the monster is charging; nothing in the monster changes |
| Rage.RageAI.SetWanderDestination | Assets/Entity/Monsters/Scripts/RageAI.cs:255-275 | a sampled point becomes the destination with `stateTimer = waitTimeAtPoint` |
| Rage.RageAI.StartWandering | Assets/Entity/Monsters/Scripts/RageAI.cs:277-286 | Wandering, "RageCalm" sent, chase sounds off |
| Rage.RageAI.StartChasing | Assets/Entity/Monsters/Scripts/RageAI.cs:288-298 | Chasing toward the heard position, "RageChasing" sent, chase sounds on when there are chase clips |
| Rage.RageAI.StartSearching | Assets/Entity/Monsters/Scripts/RageAI.cs:300-308 | Searching with `stateTimer = waitTimeAtPoint`, "RageSearching" sent, chase sounds off |
| Rage.RageAI.StartChaseSounds | Assets/Entity/Monsters/Scripts/RageAI.cs:337-342 | the chase-sound loop runs exactly when there are chase clips |
| Rage.RageAI.StopChaseSounds | Assets/Entity/Monsters/Scripts/RageAI.cs:344-351 | the chase-sound loop is off |
| Resentment.IdleChasesAtOnce | Assets/Entity/Monsters/Scripts/ResentmentAI.cs:47-49 | an Idle guardian is Chasing after its very first tick |
| Resentment.ChasingPriority | Assets/Entity/Monsters/Scripts/ResentmentAI.cs:71-96 | in Chasing, lost sight wins over attack range, attack range wins over the leash, and only a chase that goes on heads for the player |
| Resentment.LeashChecks | Assets/Entity/Monsters/Scripts/ResentmentAI.cs:98-141 | Attacking and Searching return to the puddle when it is farther than `returnToPuddleDistance`, after the range or sight check; Searching also returns on expiry; returning heads for the puddle |
| Resentment.SearchEntry | Assets/Entity/Monsters/Scripts/ResentmentAI.cs:71-96 | searching starts only from a chase that lost sight, with `stateTimer = 2` |
| Resentment.ReturningRules | Assets/Entity/Monsters/Scripts/ResentmentAI.cs:143-161 | Returning disappears exactly within 1.5 of the puddle; it resumes Chasing exactly when the player is seen within 0.7 times `returnToPuddleDistance`, and otherwise keeps returning |
| Resentment.AttackTiming | Assets/Entity/Monsters/Scripts/ResentmentAI.cs:98-120 | entering Attacking zeroes `attackTimer`; damage only comes from Attacking against a player with health and resets the timer to `attackCooldown`; only Returning disappears |
| Resentment.NeverIdleAgain | Assets/Entity/Monsters/Scripts/ResentmentAI.cs:41-63 | after any tick the guardian is never Idle again, and it disappears only while Returning |
| Puddles.Clamp01 | Assets/Entity/Monsters/Scripts/PuddleController.cs:62 | the progress is clamped into [0, 1] and left alone inside it |
| Puddles.EaseBounds | Assets/Entity/Monsters/Scripts/PuddleController.cs:63 | the ease-in-out growth curve maps [0, 1] into [0, 1], from 0 to 1 |
| Puddles.EaseMonotone | Assets/Entity/Monsters/Scripts/PuddleController.cs:63 | the growth curve never decreases |
| Puddles.GrowthSchedule | Assets/Entity/Monsters/Scripts/PuddleController.cs:55-72 | the size starts at 0.1, stays within [0.1, `maxSize`], never shrinks, and is exactly `maxSize` once (`maxSize` − 0.1) / `growthSpeed` has elapsed |
| Puddles.RemoveFirst | Assets/Entity/Monsters/Scripts/PuddleSpawner.cs:65 | List.Remove drops one occurrence of a listed puddle and leaves an unlisted one's list unchanged |
| Puddles.PuddleSpawner.constructor | Assets/Entity/Monsters/Scripts/PuddleSpawner.cs:1-18 | no puddles, no guardian, with the count within its cap |
| Puddles.PuddleSpawner.Update | Assets/Entity/Monsters/Scripts/PuddleSpawner.cs:20-31 | the timer runs and puddles spawn only below `maxPuddles`; an expired timer resets to `spawnInterval` after the spawn attempt; the count stays within [0, `maxPuddles`] and at most one guardian lives |
| Puddles.PuddleSpawner.SpawnPuddle | Assets/Entity/Monsters/Scripts/PuddleSpawner.cs:33-45 | a missing prefab or area changes nothing; otherwise an active new puddle joins the list and the count goes up by one, together |
| Puddles.PuddleSpawner.OnMonsterSpawned | Assets/Entity/Monsters/Scripts/PuddleSpawner.cs:53-56 | sets the guardian flag and nothing else |
| Puddles.PuddleSpawner.CanSpawnMonster | Assets/Entity/Monsters/Scripts/PuddleSpawner.cs:47-51 | a new guardian may rise exactly while none is recorded as spawned |
| Puddles.PuddleSpawner.OnMonsterReturned | Assets/Entity/Monsters/Scripts/PuddleSpawner.cs:58-61 | clears the guardian flag and nothing else |
| Puddles.PuddleSpawner.OnPuddleDestroyed | Assets/Entity/Monsters/Scripts/PuddleSpawner.cs:63-67 | removes the puddle from the list and decrements the count, saturating at 0 |
| Puddles.PuddleSpawner.DeleteAll | Assets/Entity/Monsters/Scripts/PuddleSpawner.cs:87-95 | destroys every tracked puddle; with at least one puddle the count and `maxPuddles` become 0, and with none both are unchanged; the list itself is kept |
| Puddles.PuddleController.constructor | Assets/Entity/Monsters/Scripts/PuddleController.cs:1-23 | an active puddle with no guardian and no spawner |
| Puddles.PuddleController.Initialize | Assets/Entity/Monsters/Scripts/PuddleController.cs:25-28 | records the spawner and changes nothing else |
| Puddles.PuddleController.Start | Assets/Entity/Monsters/Scripts/PuddleController.cs:30-40 | size 0.1 and `lifeTimer = lifeDuration`, and the first growth frame runs |
| Puddles.PuddleController.GrowStep | Assets/Entity/Monsters/Scripts/PuddleController.cs:53-73 | while growing, elapsed time advances by `dt` and the size follows the schedule; the last frame sets exactly `maxSize` |
| Puddles.PuddleController.Update | Assets/Entity/Monsters/Scripts/PuddleController.cs:42-51 | an inactive puddle does nothing; the lifetime drops by `dt`, and expiry disappears; the spawner is notified only when the puddle turns inactive |
| Puddles.PuddleController.OnTriggerEnter2D | Assets/Entity/Monsters/Scripts/PuddleController.cs:75-89 | the player is slowed and a spawn is scheduled only while the puddle is active |
| Puddles.PuddleController.TrySpawnMonster | Assets/Entity/Monsters/Scripts/PuddleController.cs:104-114 | does nothing when a guardian lives or the spawner refuses; otherwise records a new Idle guardian homed here, sets the spawner's flag, and keeps at most one guardian |
| Puddles.PuddleController.ReturnMonster | Assets/Entity/Monsters/Scripts/PuddleController.cs:116-123 | clears a live guardian and the spawner's flag; a second call is a no-op |
| Puddles.PuddleController.Disappear | Assets/Entity/Monsters/Scripts/PuddleController.cs:125-136 | with a live guardian it adds 1 s of life and stays active; otherwise it deactivates, unregisters from the spawner and starts the disappear animation, whose first pass leaves 20 s minus this frame's time |
| Puddles.PuddleController.DisappearStep | Assets/Entity/Monsters/Scripts/PuddleController.cs:138-160 | one frame of the disappear animation: with time left the timer drops by `dt`; with none the puddle's object is destroyed; a destroyed puddle runs nothing |
| Puddles.AnimationCountsDown | Assets/Entity/Monsters/Scripts/PuddleController.cs:138-160 | while the animation runs, its timer is 20 s minus the frame time so far; the puddle is destroyed only after at least 20 s of frame time, and on the first frame after they have passed |
| Puddles.AnimationSplit | Assets/Entity/Monsters/Scripts/PuddleController.cs:143-157 | running the animation over two stretches of frames is running it over their concatenation |
| Puddles.ResentmentAI.constructor | Assets/Entity/Monsters/Scripts/ResentmentAI.cs:7-29 | the guardian starts Idle with no home |
| Puddles.ResentmentAI.Start | Assets/Entity/Monsters/Scripts/ResentmentAI.cs:31-39 | the agent moves at chase speed |
| Puddles.ResentmentAI.SetHomePuddle | Assets/Entity/Monsters/Scripts/ResentmentAI.cs:228-232 | records the home puddle and its position |
| Puddles.ResentmentAI.Update | Assets/Entity/Monsters/Scripts/ResentmentAI.cs:41-63 | the new memory and the damage flag are `Resentment.Tick` of the old ones; disappearing destroys the guardian and keeps at most one guardian |
| Puddles.ResentmentAI.DisappearIntoPuddle | Assets/Entity/Monsters/Scripts/ResentmentAI.cs:217-226 | returns to the home puddle only if one is set and not destroyed, which clears the guardian link and the spawner's flag, then destroys itself; a destroyed home puddle and its spawner are left as they were, so the spawner's flag stays set |

## Left out

**Engine and physics**
- Physics and navigation become inputs. This covers ray hits, overlap queries, distances, the navigation mesh's sampled point (`Option`), agent arrival and `remainingDistance`. Agent movement itself, the Lerp dash motion, the charge's position update and knockback forces are not modelled.
- Random numbers are inputs: wander-point rolls, random points and spawn positions. `GetRandomSpawnPosition` is therefore an input to `PuddleSpawner.Update`.
- `Time.deltaTime` and the audio clock are parameters.

**Rendering and animation**
- Animator parameters and sprite tinting are not modelled. The darkening of Fear is kept as a flag only.
- The Fear death animation is not modelled. Of the puddle disappear animation only the 20 s countdown and the final Destroy are modelled; its shrinking and fading are visual.
- Closet tinting, speech bubbles, interaction hints and gizmos are not modelled.
- Fear.FearAI.StartDying: the death animation coroutine that later destroys the object is not modelled; the state only becomes Dying.

**Timing and coroutines**
- Typewriter effects and "hide line after delay" become explicit ShowNextLine calls.
- `Invoke` delays are not modelled. The puddle spawn invoked from OnTriggerEnter2D is returned as a `scheduleSpawn` flag, and PlayerHealth's delayed Respawn is an ordinary call.
- The growth coroutine is resumed by explicit `GrowStep(dt)` frames.
- Rage's random-interval chase vocal coroutine is kept only as the handle it holds (`chaseSounds`). The clips it plays and its random waits are not modelled. The loop in it ends by itself once the state leaves Chasing, so after a wind-up at most one more clip plays while the handle stays held until StopChaseSounds.

**Audio**
- Audio output is not modelled. This covers `AudioSource.Play`/`PlayScheduled`, `AdaptiveMusicManager.Stop`/`Play`, which only start and stop audio sources, and sound effects.

**Cross-component calls**
- Rage's mood cues are logged in a `cues` sequence instead of being sent to a PlaylistManager.
- Attacks and damage are returned flags for the caller to deliver to `PlayerHealth.TakeDamage`.
- Slowdown is returned to the caller as the `slow` flag. `ApplySlow`/`RemoveSlow` and `OnTriggerExit2D` in PuddleController are not modelled.
- QuestGiver's `SetState` on completion is delivered to the quest's own DialogueTrigger before the completion dialogue starts (`Quests.Announce`). Other subscribers of `OnStateChanged`, such as other triggers and monologues, run at that same moment in the game but are not part of the quest's world and are not called.
- Quests.Complete: the quest giver's own `OnStateChanged`, which its `SetState` also reaches before the quest closes, is not re-entered. It can act only when `completionState` equals `requiredState` while the flag held another value, which only a direct `CheckQuest` or `TryCompleteQuest` call brings about; the game then runs TryCompleteQuest again on the reduced inventory.
- Quests.ForceStartFor: flag changes written by the lines of a quest dialogue reach the trigger, through LineShown, but are not delivered back to the quest giver's own `OnStateChanged`.
- `OnStateChanged` appends to an event log on the `DialogueState`. DialogueTrigger and MonologueTrigger react to their own state changes. Other subscribers are not called.

**Missing members and unmodelled operations**
- The DialogueState members used by MonologueTrigger but absent from `DialogueState.cs` are not modelled (`OnMonologUpdate`, `SetActiveMonologData`, `activeMonologData`). The announced active monologue is the `activeMonolog` parameter of `ForceEndDialogue`.
- `PlayerController.cs` has no `isCrouching` field, although RageAI reads one. Crouching is therefore a per-tick input of Rage.
- `InventorySystem.HandleInput`, `TryPickupItem` and `UpdateUI` are not modelled. They are key polling, an overlap query and UI.
- `DialogueTrigger.ForceStartDialogueByName` is not modelled. It is a name lookup followed by ForceStartDialogue.
- The null `DialogueState.Instance` singleton is not modelled. The state object is passed in.
- `OnDestroy` unsubscription is not modelled.
- Scene objects are modelled as values: items, closets, dialogues and puddle prefabs. Instantiate/Destroy become `new` and a `destroyed` flag.
- PlaylistManager always has its player. The null-player check is not modelled.
- Ghost.GhostAI.CompleteGuide: the delayed `Destroy(gameObject, 0.1f)` is not modelled. Once `hasReachedTarget` is set, Update already changes nothing, so only the object's removal from the scene is missing.

**Numbers and preconditions**
- Unity `float` values and constants (0.1, 0.8, 0.7, 1.5) are modelled as exact reals. Rounding is not modelled.
- Puddles.SizeAt: requires `growthSpeed > 0` because the game divides by it. A zero speed makes the growth duration infinite in Unity and has no real-number counterpart. A negative speed gives a negative duration, so the game skips the growth loop and sets `maxSize` at once; the model does not cover that case.
- Puddles.PuddleSpawner.constructor: requires a prefab's `growthSpeed > 0`, so spawned puddles with a zero or negative speed are not modelled.
- Puddles.PuddleSpawner.Update: requires a prefab's `growthSpeed > 0`, for the same reason.
- Puddles.PuddleSpawner.SpawnPuddle: requires a prefab's `growthSpeed > 0`, for the same reason.
- Puddles.PuddleController.constructor: requires `growthSpeed > 0`. A negative speed, where the game jumps straight to `maxSize`, is not modelled.
- Puddles.PuddleController.Start: requires `growthSpeed > 0`, for the same reason.
- Puddles.PuddleController.GrowStep: requires `growthSpeed > 0`, for the same reason.
- Fear.FearAI.Update: requires that the random rolls of the frame contain an acceptable wander index. The game's do-while loop only ends because `Random.Range` eventually yields one, so the random source is required to be fair.
- Fear.Run: each frame's rolls must be `Fair`, meaning in range and containing two distinct values when there are at least two points.
- Resentment.LeashChecks: the destination is stated only for transitions into Returning from another state. Returning keeps its destination as it was.
- Rage.ChargeExpiry: requires positive `attackCooldown` and `waitTimeAtPoint`. With a zero cooldown the handler that runs in the same tick may start another wind-up at once.
