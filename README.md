# Axe-Knight gameplay logic in Dafny

This project models the discrete gameplay logic of the Axe-Knight Unity platformer (the `FCV-Engine-Dev` project). It proves properties of that model.

- **Player controller** (`movement.dfy`, module `PlayerMovement`). This models the jump and wall-jump state machine of `Movement.cs`:
  - the coyote timer, the jump buffer, extra jumps and the `isJumping` latch;
  - wall slide, wall jump and the direction memory that forbids climbing one wall;
  - fast-fall gravity and sprite flipping.

  The class `Movement` keeps the script's fields and changes them in place, callback by callback. Each method is proved equal to a specification function on a `PlayerState` value (`AfterUpdate`, `AfterFixedUpdate`). Lemmas over arbitrary sequences of engine callbacks (`Run`) prove the following:
  - the invariant holds throughout;
  - jumps between two landings are bounded;
  - without extra jumps, no second ground jump happens before landing;
  - jumps respect the buffer time;
  - wall jumps alternate direction and respect the `finiteWallJumps` cap.
- **Audio** (`audio_manager.dfy`, `audio_sender.dfy`):
  - the sound-effect array is kept aligned with the `SoundType` names;
  - every library receives an audio source routed to the mixer group;
  - each sound type maps to its library, and a clip is picked (explicit, single or random);
  - `ChangeMusic` and the singleton latch;
  - `AudioSender` forwards a request to `ChangeMusic` or `PlaySound`.
- **Inventory view** (`inventory_ui.dfy`). The I key toggles the panel. The rebuild empties the sprite dictionary and the slot list, then refills them from the inventory.
- **Flash effect** (`simple_flash.dfy`): the re-entrancy guard and the alternating material sequence.
- **Checkpoints** (`checkpoints.dfy`): the one-shot activation latch and the last-checkpoint store, which starts unset.
- **Pause menu** (`pause_menu.dfy`): the Escape toggle keeping `isPaused`, the pause UI and the time scale consistent.
- **Tutorial criteria** (`button_criterion.dfy`, `item_name_criterion.dfy`):
  - the listener search for a button's onClick;
  - item-name selection by match type, and the decision chain comparing it with a serialized string property.

The engine is reduced to inputs. These are the frame and physics time, key states, the ground and wall overlap tests, the wall raycast, the vertical velocity, the player distance, `Random.Range` (a nondeterministic choice in range) and the result of a serialized-property lookup. Nullable references are `Option` values or nullable class references. C# exceptions are explicit outcomes (`Fault`, `Raised`, or an `ok` flag).

## Model

Paths are relative to the repository root.

| member | source | states |
|---|---|---|
| PlayerMovement.MoveInput | FCV-Engine-Dev/Assets/Scripts/Movement.cs:163-172 | The right arrow gives 1, else the left arrow gives -1, else the axis value is used |
| PlayerMovement.CanJump | FCV-Engine-Dev/Assets/Scripts/Movement.cs:305-315 | A jump needs the buffer time to have passed since the last one. With extra jumps it is allowed exactly when the count is below `JumpLimit`. Without them it is allowed exactly when coyote time remains and no jump is under way |
| PlayerMovement.CanWallJump | FCV-Engine-Dev/Assets/Scripts/Movement.cs:321-327 | A wall jump is allowed exactly when sliding and, with `finiteWallJumps > 0`, below that many wall jumps |
| PlayerMovement.WallJumped | FCV-Engine-Dev/Assets/Scripts/Movement.cs:247-274 | No change unless touching a wall, airborne, and the direction (-1 with the wall to the right, else 1) differs from the last. Otherwise: the direction is stored, the sprite faces right exactly for direction 1, the coyote and slide timers are zeroed, `isJumping` is set and `walljumpsAmount` grows by exactly 1. The input, sensors, slide flag, gravity, jump count and timestamp are kept |
| PlayerMovement.JumpAt | FCV-Engine-Dev/Assets/Scripts/Movement.cs:174-218 | A callback performs at most one jump. A jump comes at least `jumpBufferTime` after the stored timestamp, records its time as the new timestamp and adds 1 to `jumpsAmount`. Without a jump the timestamp is unchanged |
| PlayerMovement.WallJumpAt | FCV-Engine-Dev/Assets/Scripts/Movement.cs:148-154 | A callback performs at most one wall jump, and only in `Update`. Its direction is ±1 and becomes `lastWallJumpDirection`. In the air it differs from the previous direction, and `walljumpsAmount` grows by the number of wall jumps |
| PlayerMovement.InitialInv | FCV-Engine-Dev/Assets/Scripts/Movement.cs:115-126 | The state after `Awake`/`Start` satisfies the controller invariant. A jump is possible there exactly when extra jumps are enabled |
| PlayerMovement.GroundedFrameResets | FCV-Engine-Dev/Assets/Scripts/Movement.cs:135-146 | A grounded frame sets `lastGroundedTime` to `jumpCoyoteTime`, clears `isJumping`, and zeroes `jumpsAmount`, the slide timer, `lastWallJumpDirection` and `walljumpsAmount` |
| PlayerMovement.JumpCountsOne | FCV-Engine-Dev/Assets/Scripts/Movement.cs:305-315 | An allowed jump adds exactly 1 and stays within `JumpLimit`. It respects the buffer gap and records the time. Without extra jumps, no further jump is allowed at any later time |
| PlayerMovement.WallJumpNeedsSlide | FCV-Engine-Dev/Assets/Scripts/Movement.cs:148-154 | A wall jump that fires in `Update` needs the feature on, the jump key down, a wall and no ground. The player was sliding and, with `finiteWallJumps > 0`, below the cap. The count grows by one |
| PlayerMovement.GroundedJumpFires | FCV-Engine-Dev/Assets/Scripts/Movement.cs:128-218 | After a grounded frame with positive coyote time, a physics step with the key held and the buffer time passed performs a jump, and it is the first since landing |
| PlayerMovement.SlideIff | FCV-Engine-Dev/Assets/Scripts/Movement.cs:223-242 | After a physics step, the player slides exactly when touching a wall, airborne, with the slide timer ≤ `wallSlideDurationSec`. While sliding, the timer grows by the fixed step |
| PlayerMovement.GravityRule | FCV-Engine-Dev/Assets/Scripts/Movement.cs:280-290 | The gravity scale is `fastFallingGravityMult * gravityScale` exactly when velocity.y < -0.3 and not sliding. Otherwise it is `gravityScale` |
| PlayerMovement.UpdatePreservesInv | FCV-Engine-Dev/Assets/Scripts/Movement.cs:128-159 | `Update` preserves the invariant: jump count within `JumpLimit` and only after the coyote time is cleared, wall-jump count within the cap, direction in {-1,0,1} and 0 exactly when there were no wall jumps, no sliding when the feature is disabled |
| PlayerMovement.FixedUpdatePreservesInv | FCV-Engine-Dev/Assets/Scripts/Movement.cs:174-183 | `FixedUpdate` preserves the same invariant |
| PlayerMovement.RunPreservesInv | FCV-Engine-Dev/Assets/Scripts/Movement.cs:128-183 | The invariant holds after any sequence of callbacks whose frame times are non-negative |
| PlayerMovement.JumpCounterCountsJumps | FCV-Engine-Dev/Assets/Scripts/Movement.cs:140-217 | Between landings, `jumpsAmount` grows by exactly the number of jumps performed |
| PlayerMovement.JumpsBoundedWithoutLanding | FCV-Engine-Dev/Assets/Scripts/Movement.cs:309-312 | Between two landings there are at most `extraJumps + 1` jumps, and one without extra jumps |
| PlayerMovement.NoSecondGroundJump | FCV-Engine-Dev/Assets/Scripts/Movement.cs:213-214 | Without extra jumps (`extraJumps ≤ 0`), a player who has jumped performs no jump before the next grounded frame |
| PlayerMovement.JumpsRespectBuffer | FCV-Engine-Dev/Assets/Scripts/Movement.cs:216 | Over any callbacks, every jump comes at least `jumpBufferTime` after the previous one. The last jump's time is the stored timestamp |
| PlayerMovement.WallJumpsAlternate | FCV-Engine-Dev/Assets/Scripts/Movement.cs:252-257 | Between landings, successive wall jumps go in opposite directions, the first opposite to the stored one. The last direction is the stored one |
| PlayerMovement.WallJumpsBoundedWithoutLanding | FCV-Engine-Dev/Assets/Scripts/Movement.cs:321-327 | Between landings, `walljumpsAmount` counts the wall jumps. With `finiteWallJumps > 0` there are at most that many |
| PlayerMovement.Movement.constructor | FCV-Engine-Dev/Assets/Scripts/Movement.cs:115-126 | Fields at their defaults, rigid-body gravity set to `gravityScale`, invariant established |
| PlayerMovement.Movement.Update | FCV-Engine-Dev/Assets/Scripts/Movement.cs:128-159 | The new state is `AfterUpdate` of the old one, and the invariant is kept |
| PlayerMovement.Movement.Sense | FCV-Engine-Dev/Assets/Scripts/Movement.cs:130-134 | The coyote timer decreases by the frame time, the input is read and the ground sensor is stored |
| PlayerMovement.Movement.ResetOnGround | FCV-Engine-Dev/Assets/Scripts/Movement.cs:135-146 | The grounded-frame reset, as `Landed` |
| PlayerMovement.Movement.WallCheck | FCV-Engine-Dev/Assets/Scripts/Movement.cs:148-154 | Wall sensing and the wall-jump trigger, only with the feature enabled |
| PlayerMovement.Movement.CheckInputs | FCV-Engine-Dev/Assets/Scripts/Movement.cs:163-172 | `moveX` becomes `MoveInput` of the axis and arrow keys |
| PlayerMovement.Movement.FixedUpdate | FCV-Engine-Dev/Assets/Scripts/Movement.cs:174-183 | Slide step if enabled, then a jump when `CanJump` holds and the key is held. The invariant is kept |
| PlayerMovement.Movement.Jump | FCV-Engine-Dev/Assets/Scripts/Movement.cs:206-218 | Coyote time 0, `isJumping` set, the time recorded, `jumpsAmount` + 1 |
| PlayerMovement.Movement.WallSliding | FCV-Engine-Dev/Assets/Scripts/Movement.cs:223-242 | Slide flag, slide timer and `isJumping` as in `Slid` |
| PlayerMovement.Movement.WallJump | FCV-Engine-Dev/Assets/Scripts/Movement.cs:247-274 | The three outcomes of `WallJumped` |
| PlayerMovement.Movement.GravityScaling | FCV-Engine-Dev/Assets/Scripts/Movement.cs:280-290 | Only the gravity scale changes, to `GravityFor` |
| PlayerMovement.Movement.Flip | FCV-Engine-Dev/Assets/Scripts/Movement.cs:332-343 | `flipX` is set above 0.01 and cleared below -0.01. Otherwise it is kept |
| AudioManagement.Ordinal | FCV-Engine-Dev/Assets/Scripts/Audio/AudioManager.cs:193-208 | Each sound type's integer value is below the enum size. It indexes the sound-effect array exactly when the type is neither Music nor Extras |
| AudioManagement.OrdinalNamesType | FCV-Engine-Dev/Assets/Scripts/Audio/AudioManager.cs:193-208 | The enum name list at a type's value is that type's name. Distinct types have distinct values |
| AudioManagement.Realigned | FCV-Engine-Dev/Assets/Scripts/Audio/AudioManager.cs:27-34 | After `OnEnable` there are `|SoundType| - 2` entries. Entry i is named with the i-th enum name and keeps the old entry's source and clips (default ones beyond the old length) |
| AudioManagement.RealignedFindsEveryType | FCV-Engine-Dev/Assets/Scripts/Audio/AudioManager.cs:111-116 | Every sound-effect type's value indexes an entry named after that type |
| AudioManagement.RealignedIdempotent | FCV-Engine-Dev/Assets/Scripts/Audio/AudioManager.cs:27-34 | Running `OnEnable` again changes nothing |
| AudioManagement.WithSource | FCV-Engine-Dev/Assets/Scripts/Audio/AudioManager.cs:63-74 | After initialization a library has a source. It outputs to the sound-effect group when one is set and keeps its old output otherwise. A source's other settings are kept, and a new source starts from the defaults |
| AudioManagement.WithSourceIdempotent | FCV-Engine-Dev/Assets/Scripts/Audio/AudioManager.cs:63-98 | Initializing twice is initializing once |
| AudioManagement.Resolve | FCV-Engine-Dev/Assets/Scripts/Audio/AudioManager.cs:141-148 | As written: "no sound" exactly when the index exceeds the clip count. A clip plays exactly when the index is in range and a source exists, and it is the clip at that index |
| AudioManagement.GuardAdmitsOutOfRange | FCV-Engine-Dev/Assets/Scripts/Audio/AudioManager.cs:142 | The index equal to the clip count, and -2, both pass the guard and fail on the array access |
| AudioManagement.ResolveChecked | FCV-Engine-Dev/Assets/Scripts/Audio/AudioManager.cs:141-148 | With the guard corrected: never an out-of-range access. "No sound" exactly for indices outside the clips. Otherwise the clip at the index plays when a source exists |
| AudioManagement.ResolveAgreesInRange | FCV-Engine-Dev/Assets/Scripts/Audio/AudioManager.cs:141-148 | The written and the corrected guard differ exactly on the clip count and on negative indices |
| AudioManagement.MusicChanged | FCV-Engine-Dev/Assets/Scripts/Audio/AudioManager.cs:151-159 | `ChangeMusic` succeeds exactly when a source exists and the index is in range. It then plays that clip. An out-of-range index leaves the music stopped, and a missing source changes nothing |
| AudioManagement.AudioRegistry.constructor | FCV-Engine-Dev/Assets/Scripts/Audio/AudioManager.cs:12 | No instance at first |
| AudioManagement.AudioManager.constructor | FCV-Engine-Dev/Assets/Scripts/Audio/AudioManager.cs:13-20 | The inspector settings |
| AudioManagement.AudioManager.OnEnable | FCV-Engine-Dev/Assets/Scripts/Audio/AudioManager.cs:27-34 | The array's new contents are `Realigned` of the old. The array is the old one or a fresh one. The music and extras libraries are unchanged, and the inspector settings are constants |
| AudioManagement.AudioManager.Resize | FCV-Engine-Dev/Assets/Scripts/Audio/AudioManager.cs:30 | `Array.Resize` keeps the array when its length fits. Otherwise it returns a fresh array with the common prefix and default entries after it |
| AudioManagement.AudioManager.InitializeAudioSources | FCV-Engine-Dev/Assets/Scripts/Audio/AudioManager.cs:58-99 | Every sound effect, the music and the extras become `WithSource` of the sound-effect group. The music source's `loop` becomes `_MusicLoop` |
| AudioManagement.AudioManager.AttachSource | FCV-Engine-Dev/Assets/Scripts/Audio/AudioManager.cs:65-73 | The per-library block yields `WithSource` |
| AudioManagement.AudioManager.Start | FCV-Engine-Dev/Assets/Scripts/Audio/AudioManager.cs:45-51 | Every sound effect and the extras become `WithSource` of the sound-effect group. The music becomes `WithSource` too, with `loop` set to `_MusicLoop`, and it is playing when `_playMusicAtStart` is set (it keeps its old `playing` flag otherwise) |
| AudioManagement.AudioManager.Library | FCV-Engine-Dev/Assets/Scripts/Audio/AudioManager.cs:111-125 | Music maps to `_music`, Extras to `_extras`, and any other type to the array entry at its enum position. There is no library only for a sound-effect type beyond the end of the array |
| AudioManagement.AudioManager.PlaySound | FCV-Engine-Dev/Assets/Scripts/Audio/AudioManager.cs:104-149 | The outcome satisfies `PlaySoundOutcome`. A missing array entry faults, and a library without clips plays nothing. An explicit index resolves as given, as written. With -1 the only clip is used, or some index in range |
| AudioManagement.AudioManager.ChangeMusic | FCV-Engine-Dev/Assets/Scripts/Audio/AudioManager.cs:151-159 | The music library and the fault become `MusicChanged`. The sound-effect array (contents included) and the extras are unchanged, and the settings are constants |
| AudioManagement.AudioManager.SingletonCheck | FCV-Engine-Dev/Assets/Scripts/Audio/AudioManager.cs:162-170 | The first manager becomes the instance. A later one leaves the instance as it is and destroys itself |
| AudioManagement.AudioManager.Awake | FCV-Engine-Dev/Assets/Scripts/Audio/AudioManager.cs:40-43 | The instance afterwards is the first manager. This one is destroyed exactly when another came first |
| AudioSending.RequestFor | FCV-Engine-Dev/Assets/Scripts/Audio/AudioSender.cs:30-31 | With `_changeMusic`, a music change with `_index`. Otherwise a sound request for `_soundType`: with `_useIndex` its index is `_index`, and without it -1 |
| AudioSending.DefaultSelectionInRange | FCV-Engine-Dev/Assets/Scripts/Audio/AudioSender.cs:31 | Any outcome `PlaySound` may give for index -1 on an existing library is never out of range and never "no sound". It finds no clips exactly when there are none. Otherwise it plays exactly when a source exists, and then plays one of the library's clips through that source |
| AudioSending.AudioSender.constructor | FCV-Engine-Dev/Assets/Scripts/Audio/AudioSender.cs:13-22 | The configured request settings |
| AudioSending.AudioSender.SendAudio | FCV-Engine-Dev/Assets/Scripts/Audio/AudioSender.cs:26-33 | Nothing without an instance. With `_changeMusic`, only the music changes, as `MusicChanged`. Otherwise the manager is unchanged and the outcome satisfies `PlaySoundOutcome` for the library of `_soundType` and the index of `RequestFor`. It is never out of range without `_useIndex` when the library exists |
| InventoryView.NonNull | FCV-Engine-Dev/Assets/Scripts/UI/InventoryUI.cs:46-49 | The non-null entries, no more than the inventory. Each item occurs exactly as often as it does in the inventory |
| InventoryView.NonNullAppend | FCV-Engine-Dev/Assets/Scripts/UI/InventoryUI.cs:46-49 | The entries keep the inventory's order: those of a concatenation are those of the first part followed by those of the second |
| InventoryView.SlotFor | FCV-Engine-Dev/Assets/Scripts/UI/InventoryUI.cs:58-64 | A slot has an image exactly when the prefab has one. That image shows the item's sprite and is enabled |
| InventoryView.SlotsFor | FCV-Engine-Dev/Assets/Scripts/UI/InventoryUI.cs:46-65 | One slot per non-null item, in order, each `SlotFor` its item |
| InventoryView.SpriteIndex | FCV-Engine-Dev/Assets/Scripts/UI/InventoryUI.cs:51-56 | An item is a key exactly when it is a non-null inventory item with a sprite, and it maps to that sprite |
| InventoryView.RebuildStep | FCV-Engine-Dev/Assets/Scripts/UI/InventoryUI.cs:46-65 | One more entry appends at most one slot, and adds a dictionary entry only for a new item with a sprite |
| InventoryView.IndexedItemsHaveSlots | FCV-Engine-Dev/Assets/Scripts/UI/InventoryUI.cs:51-58 | Every dictionary key also received a slot |
| InventoryView.Inventory.constructor | FCV-Engine-Dev/Assets/Scripts/UI/InventoryUI.cs:39 | The inventory's entries |
| InventoryView.InventoryUI.constructor | FCV-Engine-Dev/Assets/Scripts/UI/InventoryUI.cs:9-15 | The serialized fields, no inventory found yet |
| InventoryView.InventoryUI.Start | FCV-Engine-Dev/Assets/Scripts/UI/InventoryUI.cs:17-21 | The found inventory is kept and the panel is hidden |
| InventoryView.InventoryUI.OpenInventory | FCV-Engine-Dev/Assets/Scripts/UI/InventoryUI.cs:34-66 | The panel is shown and the dictionary emptied. With an inventory, the dictionary becomes `SpriteIndex` and the slots become `SlotsFor` of its contents, with old slots gone. Without one, the access faults after that |
| InventoryView.InventoryUI.CloseInventory | FCV-Engine-Dev/Assets/Scripts/UI/InventoryUI.cs:68-71 | Only the panel is hidden |
| InventoryView.InventoryUI.Update | FCV-Engine-Dev/Assets/Scripts/UI/InventoryUI.cs:23-32 | Without the key nothing changes. The inventory reference is always kept. With the key the panel flips. Closing keeps the contents. Opening rebuilds them as `SpriteIndex` and `SlotsFor` of the inventory, and without an inventory it leaves an empty dictionary and the old slots |
| Flashing.SpriteRenderer.constructor | FCV-Engine-Dev/Assets/Scripts/SimpleFlash.cs:10 | A renderer with its material and no assignments yet |
| Flashing.SpriteRenderer.SetMaterial | FCV-Engine-Dev/Assets/Scripts/SimpleFlash.cs:49-52 | Assigning a material records it |
| Flashing.FlashSequence | FCV-Engine-Dev/Assets/Scripts/SimpleFlash.cs:47-54 | `2 * flashAmount` assignments (none for `flashAmount ≤ 0`): flash at even positions, base at odd ones |
| Flashing.FlashEndsOnBase | FCV-Engine-Dev/Assets/Scripts/SimpleFlash.cs:52 | A flash of at least one flash ends on the base material |
| Flashing.SimpleFlash.constructor | FCV-Engine-Dev/Assets/Scripts/SimpleFlash.cs:10-16 | The serialized fields, no base material, no flash running |
| Flashing.SimpleFlash.Start | FCV-Engine-Dev/Assets/Scripts/SimpleFlash.cs:18-25 | The object's own renderer is used only when none is assigned. The base material is captured only when a renderer exists |
| Flashing.SimpleFlash.Flash | FCV-Engine-Dev/Assets/Scripts/SimpleFlash.cs:40-58 | Without a renderer nothing changes. Otherwise the renderer receives `FlashSequence`, ends on the base material (after at least one flash) and the handle is cleared |
| Flashing.SimpleFlash.PlayFlash | FCV-Engine-Dev/Assets/Scripts/SimpleFlash.cs:30-34 | A call while a flash runs is a no-op. Otherwise the flash runs. Afterwards the guard is open again exactly when a renderer exists and `flashAmount ≥ 1` |
| CheckPoints.LastReportWins | FCV-Engine-Dev/Assets/Scripts/GameplaySystems/CheckPointManager.cs:26-29 | After any reports the store holds the last one, or its old value when there were none |
| CheckPoints.Player.constructor | FCV-Engine-Dev/Assets/Scripts/GameplaySystems/CheckPointManager.cs:14 | The player's transform and rigid body |
| CheckPoints.CheckPointManager.constructor | FCV-Engine-Dev/Assets/Scripts/GameplaySystems/CheckPointManager.cs:8 | The store starts at the unset sentinel |
| CheckPoints.CheckPointManager.CheckPointReached | FCV-Engine-Dev/Assets/Scripts/GameplaySystems/CheckPointManager.cs:26-29 | Unconditional overwrite |
| CheckPoints.CheckPointManager.ResetPlayerVelocity | FCV-Engine-Dev/Assets/Scripts/GameplaySystems/CheckPointManager.cs:35-42 | Velocity zero with a rigid body, unchanged without one. The position is unchanged |
| CheckPoints.CheckPointManager.PlaceAtCheckPoint | FCV-Engine-Dev/Assets/Scripts/GameplaySystems/CheckPointManager.cs:14-20 | A reload is requested exactly when the store is unset. The position is still set to the store, and the velocity is reset |
| CheckPoints.Activations | FCV-Engine-Dev/Assets/Scripts/GameplaySystems/CheckPoint.cs:25-29 | Over any frames a checkpoint activates at most once, and never once activated |
| CheckPoints.ActivatedIffClose | FCV-Engine-Dev/Assets/Scripts/GameplaySystems/CheckPoint.cs:27 | A fresh checkpoint activates exactly when some frame has the player within `CheckPointAcquiredDistance` (1) |
| CheckPoints.CheckPoint.constructor | FCV-Engine-Dev/Assets/Scripts/GameplaySystems/CheckPoint.cs:10 | Not activated |
| CheckPoints.CheckPoint.Start | FCV-Engine-Dev/Assets/Scripts/GameplaySystems/CheckPoint.cs:15-20 | The player's position becomes the latest checkpoint |
| CheckPoints.CheckPoint.ActivateCheckPoint | FCV-Engine-Dev/Assets/Scripts/GameplaySystems/CheckPoint.cs:34-41 | Latched, the store holds this checkpoint, and the animator flag is set only with an animator |
| CheckPoints.CheckPoint.Update | FCV-Engine-Dev/Assets/Scripts/GameplaySystems/CheckPoint.cs:25-29 | Activates exactly when not yet activated and within the distance. The latch only rises, and otherwise nothing changes |
| Pausing.OnEscape | FCV-Engine-Dev/Assets/PauseMenu.cs:8-15 | Without Escape the state is kept. With it, `isPaused` flips and the three values become consistent |
| Pausing.TwoPressesRestore | FCV-Engine-Dev/Assets/PauseMenu.cs:8-29 | From a consistent state, two presses restore it |
| Pausing.FramesKeepConsistent | FCV-Engine-Dev/Assets/PauseMenu.cs:8-29 | Any frames keep a consistent state consistent. The game is paused exactly when an odd number of presses flipped the initial state |
| Pausing.GameObject.constructor | FCV-Engine-Dev/Assets/PauseMenu.cs:5 | The UI object's active flag |
| Pausing.TimeSettings.constructor | FCV-Engine-Dev/Assets/PauseMenu.cs:19 | Time runs at normal speed |
| Pausing.PauseMenu.constructor | FCV-Engine-Dev/Assets/PauseMenu.cs:5-6 | Not paused |
| Pausing.PauseMenu.Resume | FCV-Engine-Dev/Assets/PauseMenu.cs:17-22 | UI inactive, time scale 1, not paused |
| Pausing.PauseMenu.Pause | FCV-Engine-Dev/Assets/PauseMenu.cs:24-29 | UI active, time scale 0, paused |
| Pausing.PauseMenu.Update | FCV-Engine-Dev/Assets/PauseMenu.cs:8-15 | The state becomes `OnEscape` of the old one |
| ButtonCriterion.TargetButton | FCV-Engine-Dev/Assets/Scripts/Tutorial/Criterions/ButtonHasCorrectOnClickCriterion.cs:21-28 | Nothing without a resolved object. A game object gives its Button component, a button gives itself, and any other component gives nothing |
| ButtonCriterion.ExpectedTarget | FCV-Engine-Dev/Assets/Scripts/Tutorial/Criterions/ButtonHasCorrectOnClickCriterion.cs:30-37 | Present exactly when the reference resolves: the game object itself, or the one a component sits on |
| ButtonCriterion.CompletedMonotone | FCV-Engine-Dev/Assets/Scripts/Tutorial/Criterions/ButtonHasCorrectOnClickCriterion.cs:54-71 | Extra listeners never undo completion, and a button without listeners never completes |
| ButtonCriterion.ComponentTargetNeverMatches | FCV-Engine-Dev/Assets/Scripts/Tutorial/Criterions/ButtonHasCorrectOnClickCriterion.cs:63 | A listener aimed at a component, not the game object, does not match |
| ButtonCriterion.CreatedIfMissing | FCV-Engine-Dev/Assets/Scripts/Tutorial/Criterions/ButtonHasCorrectOnClickCriterion.cs:96-106 | An existing reference is kept. A missing one becomes a new unresolved reference with the given name |
| ButtonCriterion.CreatedIfMissingIdempotent | FCV-Engine-Dev/Assets/Scripts/Tutorial/Criterions/ButtonHasCorrectOnClickCriterion.cs:94-109 | A second creation pass changes nothing |
| ButtonCriterion.ButtonHasCorrectOnClickCriterion.constructor | FCV-Engine-Dev/Assets/Scripts/Tutorial/Criterions/ButtonHasCorrectOnClickCriterion.cs:15-19 | The serialized fields |
| ButtonCriterion.ButtonHasCorrectOnClickCriterion.EvaluateCompletion | FCV-Engine-Dev/Assets/Scripts/Tutorial/Criterions/ButtonHasCorrectOnClickCriterion.cs:39-72 | True exactly when the button, the target and a non-empty method name are present and some persistent listener has that target and method |
| ButtonCriterion.ButtonHasCorrectOnClickCriterion.CreateFutureReferencesIfMissing | FCV-Engine-Dev/Assets/Scripts/Tutorial/Criterions/ButtonHasCorrectOnClickCriterion.cs:94-109 | Both references become `CreatedIfMissing` of their old values |
| ButtonCriterion.ButtonHasCorrectOnClickCriterion.GetFutureObjectReferences | FCV-Engine-Dev/Assets/Scripts/Tutorial/Criterions/ButtonHasCorrectOnClickCriterion.cs:88-91 | Exactly the button reference, then the target reference |
| ButtonCriterion.ButtonHasCorrectOnClickCriterion.AutoComplete | FCV-Engine-Dev/Assets/Scripts/Tutorial/Criterions/ButtonHasCorrectOnClickCriterion.cs:86 | Always true |
| ItemNameCriterion.ItemName | FCV-Engine-Dev/Assets/Scripts/Tutorial/Criterions/MatchItemNameCriterion.cs:22-37 | A name exists exactly when the list is non-empty (and, for Index, the index is in range). First and unknown types give the first name, Last the final one, Index that element |
| ItemNameCriterion.Compared | FCV-Engine-Dev/Assets/Scripts/Tutorial/Criterions/MatchItemNameCriterion.cs:85-101 | A string property compares its value. A non-empty array compares its first element when that is a string, and nothing otherwise. An empty array raises, and any other property compares nothing |
| ItemNameCriterion.Evaluation | FCV-Engine-Dev/Assets/Scripts/Tutorial/Criterions/MatchItemNameCriterion.cs:57-104 | True without a database, path or reference. False without the property. Otherwise true exactly when the compared string equals `ItemName` |
| ItemNameCriterion.EvaluationOfProperty | FCV-Engine-Dev/Assets/Scripts/Tutorial/Criterions/MatchItemNameCriterion.cs:77-104 | Other property types give false, an empty array raises, and a non-string first element gives false. A string, or an array whose first element is a string, gives its equality with `ItemName`, or raises when no name exists |
| ItemNameCriterion.MatchItemNameCriterion.constructor | FCV-Engine-Dev/Assets/Scripts/Tutorial/Criterions/MatchItemNameCriterion.cs:15-20 | The serialized fields, no database yet |
| ItemNameCriterion.MatchItemNameCriterion.StartTesting | FCV-Engine-Dev/Assets/Scripts/Tutorial/Criterions/MatchItemNameCriterion.cs:41-48 | The first database asset is taken. With none, the access faults and nothing changes |
| ItemNameCriterion.MatchItemNameCriterion.EvaluateCompletion | FCV-Engine-Dev/Assets/Scripts/Tutorial/Criterions/MatchItemNameCriterion.cs:57-104 | The if-chain yields `Evaluation` |
| ItemNameCriterion.MatchItemNameCriterion.AutoComplete | FCV-Engine-Dev/Assets/Scripts/Tutorial/Criterions/MatchItemNameCriterion.cs:107-110 | Always false |

## Left out

- Movement physics. These are not modelled:
  - the `Run` force (Movement.cs:188-201), including the acceleration rate that line 196 overwrites;
  - the jump and wall-jump impulses;
  - the wall-slide velocity change (Movement.cs:231-236).

  The rigid body's vertical velocity is an input of `GravityScaling`.
- Movement animation (`SetAnimation`, animator triggers), Gizmos and the static `PlayerTransform` are not modelled.
- Floating point: times, axis values and thresholds are reals. Float rounding of the timers is not modelled.
- `jumpsAmount` and `walljumpsAmount` are unbounded integers. C# `int` wrap-around after 2^31 increments is not modelled.
- PlayerMovement.Movement.Update: requires a non-negative frame time, which the engine always supplies. Only the invariant lemmas use it.
- Audio output is not modelled: `PlayOneShot`, `Play`/`Stop` beyond the source's `playing` flag, `AddComponent` hide flags, mixer internals and the logs. `Random.Range` is a nondeterministic choice in range.
- Unity's "fake null" (a destroyed object comparing equal to null) is not modelled.
- `OnEnable` runs only in the editor (`UNITY_EDITOR`), and `[ExecuteInEditMode]` scheduling is not modelled.
- AudioManagement.AudioManager.PlaySound: follows the guard as written. The corrected guard is `ResolveChecked`, and `ResolveAgreesInRange` bounds the difference.
- `_audioMixerMusic` and `_audioMixerExtras` are never read by the source. Music and extras are routed to the sound-effect group, as written.
- The `AudioManager` singleton is modelled by `AudioRegistry`. `Destroy` is modelled as membership in `destroyed`.
- Inventory.cs is not part of this model. The inventory is the sequence of its `ReadOnlyInventory` values in enumeration order.
- Item identity in the dictionary is modelled as value equality of `Item`. `Destroy` of old slots is immediate in the model; Unity defers it to the end of the frame.
- Flash timing (`flashDurationSec`, `WaitForSeconds`) is elided. A flash runs to its end inside the `PlayFlash` call.
- Frames that interleave with a running flash appear only as calls made while `running` is set.
- A flash that never waits (no renderer, or `flashAmount ≤ 0`) finishes inside `StartCoroutine`. Its handle is stored afterwards, so the guard stays closed. The model states this as the source has it.
- Checkpoint `Vector2.Distance` is an input. The unset sentinel (`Vector2.negativeInfinity`) is a constructor of its own, and the sentinel test is exact equality with it.
- CheckPoints.CheckPointManager.PlaceAtCheckPoint: models the intended sentinel test, not Unity's approximate vector `==`. That operator compares the squared length of the difference, and the difference of two negative-infinity vectors is NaN. So in the source `lastCheckPoint == Vector2.negativeInfinity` (CheckPointManager.cs:16) is never true: the scene is never reloaded, and for a player with no checkpoint the source attempts to set the position to (-inf, -inf).
- Unity's approximate `==` on vectors built from infinities is not modelled.
- The scene reload is a flag (`reloadRequested`).
- `DestroySelf` (CheckPoint.cs:46-49), an animation event, is not modelled.
- Tutorial editor machinery is not modelled:
  - `EditorApplication` subscription in `StartTesting`/`StopTesting`, the `Criterion` base class, `AssetDatabase`, `EditorUtility.SetDirty`;
  - the reflection inside `CreateFutureObjectReference` (a created reference is an unresolved one with its name);
  - the editor classes and the logs.
- Null and empty strings are the same value (`""`), as `IsNullOrEmpty` treats them.
- ItemNameCriterion.MatchItemNameCriterion.EvaluateCompletion: the serialized-property lookup on the referenced object is an input. A reference whose scene reference is missing is not modelled.
- The other scripts of the repository are not modelled: the other tutorial criteria, `MainMenuManager`, `QuitGame`, `JumpStrikeEliminator`, the enemy AI and the editors. They are outside the gameplay logic modelled here.

## Findings

| source | as written | input that shows it | evidently intended | confidence | as-written member | corrected member |
|---|---|---|---|---|---|---|
| FCV-Engine-Dev/Assets/Scripts/Audio/AudioManager.cs:142 | `if (indexToPlay > clips.Length)` rejects only indices above the clip count before `clips[indexToPlay]` | a library with 2 clips and explicit index 2 (or -2): the guard passes and the access is out of range | the comment at line 141 promises a clip exists at the index, so every index outside `0..clips.Length-1` should be refused | high; not executed | AudioManagement.GuardAdmitsOutOfRange | AudioManagement.ResolveChecked |
