# ManaFuse core, modelled in Dafny

ManaFuse is a Unity action game. The player fights with a revolver of four
card chambers (NORTH, EAST, SOUTH, WEST). Every card costs mana. Mana is shown as
a green slider, with a red slider that trails behind it and drains down to it.

This project models the logic of the game, not the engine:

- **Card economy.** The `DeckManager` holds a draw pile and a discard pile.
  - The draw pile is shuffled by Fisher–Yates.
  - When the draw pile is empty, the discard pile is recycled into it.
- **Chambers.** The `CardManager` holds the four chambers.
  - Activating a chamber runs its card, discards that card and schedules a redraw.
  - Discarding a chamber empties it without a redraw.
- **Card asset.** The refactored `Card` issues mana, projectile, sprint and particle requests when activated.
- **Command bus.** `GameContext` maps token objects (`Ask<T>`, `Act<TArg>`) to handler delegates.
  - It also keeps a service registry keyed by type.
  - It has try-forms that return false, and must-forms that throw.
  - `TokenExtensions` forwards to it.
  - The `PlayerAPI` and `InputAPI` hubs pack their arguments into the token's argument type.
- **Save registry.** The `SaveGameManager` registry, and the record selection of Save and Load.
- **Persistent ids.** The static id lookup of `PersistentId`.
- **Small components.**
  - the object `Pool`;
  - the `PauseHandler`;
  - the two-digit `ManaUnitsDisplay`;
  - the `ManafuseBar` sliders with their `NoManaLeft` latch.

Each source file becomes a Dafny module with one file of its own. Code that changes state is modelled as Dafny classes with `modifies` clauses:

- `DeckManager` and `CardManager`;
- `GameContext`;
- `SaveGameManager` and `PersistentId`;
- `Pool` and `PauseHandler`;
- `ManaUnitsDisplay` and `ManafuseBar`.

Each method is proved to move its state exactly as a pure function of the old state does. The properties are then proved about those functions.

- **Cards** are values. The same asset can sit in a deck several times, so piles are sequences and card ownership is a multiset.
- **The central law is conservation.** Draw pile + discard pile + occupied chambers is one multiset, and every slot operation keeps it. `InitializeDecks` from empty chambers turns it into exactly the base deck.
- **Randomness.** `Random.Range(i, n)` is an oracle. `ShuffleDeck` takes any roll sequence with `i <= rolls[i] < n`, and callers derive one from a `noise` function.
- **Coroutines.** The delayed redraw (`AutoDrawAfterDelay`) becomes a FIFO of pending redraws. `RunPendingAutoDraw` fires the oldest one.
- **Handler code** that the bus calls is unseen. A handler is known by its identity and delegate type. A call is recorded in an invocation log, and the value a query handler returns is a parameter.
- **Engine state** the components touch has small stand-ins:
  - `GameObject` with `activeSelf` and `activeInHierarchy`;
  - `Time.timeScale`;
  - `UnityEngine.UI.Slider`, which clamps on `value` and `maxValue` and notifies listeners only when the value changes.

The repository has two copies of the bar and two of the pool:

- `Managers/HUDManager/ManafuseBar.cs` and `UI/ManafuseBar.cs` differ only in the red drain rate. One class `ManaBar.ManafuseBar` models both, and a `Version` field selects the drain rate. Each Model row cites the HUD copy; the UI/ copy has the same lines with the same behaviour (ChangeByTick 74-87, ChangeByUnit 88-92, SetManaUnits 93-106, the Update latch 31-37).
- `Patterns/Pool.cs` and `UI/Pool.cs` differ only in how the query is written. One class `Pools.Pool` models both, and `Pools.WhereThenFirstIsFirstInactive` shows the two queries agree.

Two features the code around the core relies on are absent from it, and the model follows the code:

- **No reload.** `CardSystem/CardInputHandler.cs:30` calls `_deckManager.ReloadSlots()`, but `DeckManager.cs` defines no `ReloadSlots`. There is no reload sequence, no input lock and no check for empty chambers, and `DiscardCard` (DeckManager.cs:142-148) only appends to the discard pile.
- **Conservation is relative to what is already chambered.** `InitializeDecks` (DeckManager.cs:77-78) clears both piles but not the chambers. So afterwards the total is the base deck plus whatever was already chambered (`Economy.InitializeConserves`). It equals the base deck only when the chambers start empty (`Economy.InitializeFromEmptySlots`).

## Model

| member | source | states |
|---|---|---|
| Cards.ActivateChargesCostFirst | Assets/Scripts/Refactor/CardSystem/Card.cs:55-60 | the first request of an activation is ChangeMana(-cardCost) on the green slider only |
| Cards.ActivateRunsOnlyItsTypeBranch | Assets/Scripts/Refactor/CardSystem/Card.cs:63-76 | after the cost, every request but the particle comes from the branch of the card's own type |
| Cards.ActivateNetMana | Assets/Scripts/Refactor/CardSystem/Card.cs:55-83 | the requested green-slider change of one activation is -cost, plus healAmount for a heal card |
| Cards.ActivateNetRed | Assets/Scripts/Refactor/CardSystem/Card.cs:55-83 | the cost never reaches the red slider: one activation asks red for healAmount on a heal card and for nothing otherwise |
| Cards.HealActivation | Assets/Scripts/Refactor/CardSystem/Card.cs:110-116 | a heal card asks for -cost on green, then +healAmount on both sliders |
| Cards.ActivateShootsIff | Assets/Scripts/Refactor/CardSystem/Card.cs:96-104 | a projectile is requested iff the card is an attack with spawning on and a prefab carrying a Projectile, and it is that prefab |
| Cards.ActivateSprintsIff | Assets/Scripts/Refactor/CardSystem/Card.cs:123-148 | a sprint is requested iff the card is a dash and a movement manager exists, with the card's distance and duration |
| Cards.ActivateParticleLast | Assets/Scripts/Refactor/CardSystem/Card.cs:79-82 | a particle is requested iff enabled with a prefab, and then it is the last request |
| Cards.OnHitTargetRefundsAttack | Assets/Scripts/Refactor/CardSystem/Card.cs:84-90 | a hit requests nothing for non-attack cards; for an attack card it is the single request ChangeMana(cardCost, true), so over activation plus hit the requested green changes sum to 0 and the requested red changes sum to cardCost |
| Piles.Rolls | Assets/Scripts/CardSystem/DeckManager.cs:178 | the indices drawn from a random source each lie in [i, Count) |
| Piles.EveryValidRollSequenceIsDrawn | Assets/Scripts/CardSystem/DeckManager.cs:178 | every roll sequence within [i, Count) is produced by some random source |
| Piles.SwapIsPermutation | Assets/Scripts/CardSystem/DeckManager.cs:177-180 | one swap keeps the length and multiset |
| Piles.FisherYatesPermutes | Assets/Scripts/CardSystem/DeckManager.cs:175-181 | the shuffle loop from any step is a permutation |
| Piles.ShuffledPermutes | Assets/Scripts/CardSystem/DeckManager.cs:173-182 | the shuffle is a permutation: same length, same multiset |
| Piles.DrawFromActive | Assets/Scripts/CardSystem/DeckManager.cs:116-119 | from a non-empty draw pile the front card is drawn, the rest stays, the discard pile is untouched |
| Piles.DrawRecyclesDiscard | Assets/Scripts/CardSystem/DeckManager.cs:103-106 | from an empty draw pile the discard pile is shuffled in and emptied, and the card is the front of that shuffle |
| Piles.DrawNoneIff | Assets/Scripts/CardSystem/DeckManager.cs:109-113 | no card is drawn iff both piles are empty, and then both stay empty |
| Piles.DrawConserves | Assets/Scripts/CardSystem/DeckManager.cs:100-120 | the piles after a draw plus the drawn card are the piles before, as a multiset |
| Economy.DrawToSlotConserves | Assets/Scripts/CardSystem/DeckManager.cs:126-136 | loading a chamber keeps draw + discard + chambers as a multiset |
| Economy.DrawToSlotWrites | Assets/Scripts/CardSystem/DeckManager.cs:126-136 | loading writes no other chamber, and a free chamber gets the front of a non-empty draw pile |
| Economy.DrawToSlotEmptyIff | Assets/Scripts/CardSystem/DeckManager.cs:131-135 | a free chamber stays empty iff both piles are empty, and then nothing changes |
| Economy.ActivateSlotConserves | Assets/Scripts/CardSystem/CardManager.cs:62-84 | activation keeps draw + discard + chambers as a multiset |
| Economy.ActivateEmptySlotIsNoOp | Assets/Scripts/CardSystem/CardManager.cs:64-66 | an empty or out-of-range chamber activates nothing and changes nothing |
| Economy.ActivateOccupiedSlot | Assets/Scripts/CardSystem/CardManager.cs:69-82 | activation empties the chamber, appends its card to the discard pile, keeps the rest, and runs exactly that card |
| Economy.DiscardSlotConserves | Assets/Scripts/CardSystem/CardManager.cs:92-108 | discarding a chamber keeps draw + discard + chambers as a multiset |
| Economy.DiscardSlotClears | Assets/Scripts/CardSystem/CardManager.cs:92-108 | an in-range chamber ends empty, the discard pile grows only by a card it held, out of range nothing changes |
| Economy.FillConserves | Assets/Scripts/CardSystem/DeckManager.cs:87-90 | the chamber-loading loop keeps the multiset |
| Economy.InitializeConserves | Assets/Scripts/CardSystem/DeckManager.cs:74-93 | after initialisation the player owns the base deck plus the cards already chambered |
| Economy.InitializeFromEmptySlots | Assets/Scripts/CardSystem/DeckManager.cs:74-93 | from empty chambers: discard empty, chamber j holds the j-th shuffled card, the draw pile holds the rest, one LoadCard per filled chamber, total = base deck, all filled when the deck is large enough |
| CardSystem.CardManager.constructor | Assets/Scripts/CardSystem/CardManager.cs:15 | four chambers, all empty |
| CardSystem.CardManager.SetCardInSlot | Assets/Scripts/CardSystem/CardManager.cs:42-53 | writes only the indexed chamber and sends LoadCard or DiscardCard to the UI; out of range nothing changes |
| CardSystem.CardManager.ActivateCardInSlot | Assets/Scripts/CardSystem/CardManager.cs:62-84 | follows Economy.ActivateSlot, issues that card's requests, and schedules the redraw of that chamber only when it was occupied |
| CardSystem.CardManager.DiscardCardFromSlot | Assets/Scripts/CardSystem/CardManager.cs:92-108 | follows Economy.DiscardSlot and schedules no redraw |
| CardSystem.DeckManager.constructor | Assets/Scripts/CardSystem/DeckManager.cs:15-25 | empty piles, four empty chambers, the given base deck |
| CardSystem.DeckManager.InitializeDecks | Assets/Scripts/CardSystem/DeckManager.cs:74-93 | follows Economy.Initialize: clear, copy, shuffle, load every chamber in index order |
| CardSystem.DeckManager.DrawCard | Assets/Scripts/CardSystem/DeckManager.cs:100-120 | follows Piles.Draw |
| CardSystem.DeckManager.DrawCardToSlot | Assets/Scripts/CardSystem/DeckManager.cs:126-136 | follows Economy.DrawToSlot: ignored out of range or on an occupied chamber |
| CardSystem.DeckManager.DiscardCard | Assets/Scripts/CardSystem/DeckManager.cs:142-148 | appends the card to the end of the discard pile; a null card is ignored |
| CardSystem.DeckManager.StartAutoDrawForSlot | Assets/Scripts/CardSystem/DeckManager.cs:154-157 | records one pending redraw for the chamber |
| CardSystem.DeckManager.RunPendingAutoDraw | Assets/Scripts/CardSystem/DeckManager.cs:163-167 | the oldest pending redraw runs DrawCardToSlot for its chamber |
| CardSystem.DeckManager.ShuffleDeck | Assets/Scripts/CardSystem/DeckManager.cs:173-182 | the in-place loop computes Piles.Shuffled, a permutation of the draw pile |
| CardSystem.DeckManager.ShuffleDiscardIntoActiveDeck | Assets/Scripts/CardSystem/DeckManager.cs:188-198 | the discard pile ends empty and the draw pile is the shuffle of both piles |
| CardSystem.DeckManager.GetActiveCount | Assets/Scripts/CardSystem/DeckManager.cs:203 | the size of the draw pile |
| CardSystem.DeckManager.GetDiscardCount | Assets/Scripts/CardSystem/DeckManager.cs:208 | the size of the discard pile |
| CardSystem.RecycleSingle | Assets/Scripts/CardSystem/DeckManager.cs:188-198 | recycling a one-card discard pile into an empty draw pile draws that card and leaves both piles empty |
| CardSystem.RefillCycle | Assets/Scripts/CardSystem/DeckManager.cs:100-120 | four cards and four empty chambers: every chamber is loaded, both piles stay empty, and activating then redrawing chamber 0 loads the same card back |
| CardSystem.RefillScenario | Assets/Scripts/CardSystem/CardManager.cs:62-84 | the same cycle through the two managers and the pending-redraw queue |
| GameTokens.Ask.constructor | Assets/Scripts/GameTokens.cs:10 | the name is stored as given, null included |
| GameTokens.Ask.ToString | Assets/Scripts/GameTokens.cs:11 | the name if there is one, else the generic type string of the query token |
| GameTokens.Act.constructor | Assets/Scripts/GameTokens.cs:18 | the name is stored as given, null included |
| GameTokens.Act.ToString | Assets/Scripts/GameTokens.cs:19 | the name if there is one, else the generic type string of the command token |
| GameTokens.Reply.constructor | Assets/Scripts/GameTokens.cs:26 | the name is stored as given |
| GameTokens.Reply.ToString | Assets/Scripts/GameTokens.cs:27 | the name if there is one, else the two-argument generic type string |
| GameTokens.UnnamedTokensPrintTheirKind | Assets/Scripts/GameTokens.cs:11-19 | an unnamed query and an unnamed command never print alike |
| GameTokens.SameNameTokens | Assets/Scripts/GameTokens.cs:7-12 | two tokens built with one name print alike and are still different objects |
| CommandBus.WithAskKeepsWellTyped | Assets/Scripts/GameContext.cs:96-101 | AddAsk keeps every query token mapped to a Func of its own type |
| CommandBus.WithActKeepsWellTyped | Assets/Scripts/GameContext.cs:120-127 | AddAct keeps every command token mapped to an Action of its own type |
| CommandBus.AskNeverMismatches | Assets/Scripts/GameContext.cs:103-110 | in a registry built by AddAsk/AddAct the wrong-delegate branch of TryAsk is unreachable; a token resolves iff registered |
| CommandBus.ActNeverMismatches | Assets/Scripts/GameContext.cs:129-135 | in a registry built by AddAsk/AddAct the wrong-delegate branch of TryAct is unreachable; a token resolves iff registered |
| CommandBus.ReplyTokensNeverRegistered | Assets/Scripts/GameContext.cs:96-141 | no reply token ever enters the registry |
| CommandBus.LastRegistrationWins | Assets/Scripts/GameContext.cs:100 | a second registration replaces the first and resolves to it; query and command registrations never touch each other |
| CommandBus.RegistrationIsPerToken | Assets/Scripts/GameContext.cs:92 | registering one token leaves every other token, same name or not, as it was |
| CommandBus.TryAskContract | Assets/Scripts/GameContext.cs:103-110 | unregistered: false, default(T), nothing invoked; resolved: true, the handler's value, one invocation |
| CommandBus.AskAgreesWithTryAsk | Assets/Scripts/GameContext.cs:112-116 | Ask succeeds iff TryAsk does, with its value and calls; else KeyNotFoundException naming the token |
| CommandBus.ActAgreesWithTryAct | Assets/Scripts/GameContext.cs:129-141 | Act passes iff TryAct does; TryAct invokes the handler once with the argument; else KeyNotFoundException naming the token |
| CommandBus.GameContext.constructor | Assets/Scripts/GameContext.cs:20 | empty registries, well typed |
| CommandBus.GameContext.RegisterService | Assets/Scripts/GameContext.cs:38-42 | a null or destroyed service throws ArgumentNullException and changes nothing; otherwise the entry for the type is overwritten |
| CommandBus.GameContext.TryGetService | Assets/Scripts/GameContext.cs:45-55 | true iff the type is registered and its service is not destroyed; the stored reference is handed out whenever registered, null otherwise |
| CommandBus.DestroyedServiceScenario | Assets/Scripts/GameContext.cs:45-55 | a service destroyed after registration is reported missing while its stale reference still comes out |
| CommandBus.GameContext.AddAsk | Assets/Scripts/GameContext.cs:96-101 | null token or handler throws and changes nothing; otherwise the entry is overwritten, keeping the registry well typed |
| CommandBus.GameContext.TryAsk | Assets/Scripts/GameContext.cs:103-110 | follows CommandBus.TryAskSpec |
| CommandBus.GameContext.Ask | Assets/Scripts/GameContext.cs:112-116 | follows CommandBus.AskSpec |
| CommandBus.GameContext.AddAct | Assets/Scripts/GameContext.cs:120-127 | null token or handler throws and changes nothing; otherwise the entry is overwritten, keeping the registry well typed |
| CommandBus.GameContext.TryAct | Assets/Scripts/GameContext.cs:129-135 | follows CommandBus.TryActSpec |
| CommandBus.GameContext.Act | Assets/Scripts/GameContext.cs:137-141 | follows CommandBus.ActSpec |
| GameApis.PlayerTokens.constructor | Assets/Scripts/Managers/PlayerManager.cs:57-78 | the player tokens with their names and type arguments |
| GameApis.InputTokens.constructor | Assets/Scripts/Input/InputManager.cs:76-85 | the input tokens with their names and type arguments |
| GameApis.PlayerAPI.constructor | Assets/Scripts/GameContext.cs:190 | the hub keeps its context |
| GameApis.PlayerAPI.ChangeMana | Assets/Scripts/GameContext.cs:193-197 | one Act on the ChangeMana token with the amount and flag packed in ManaArgs |
| GameApis.PlayerAPI.ChangeManaByTickUnit | Assets/Scripts/GameContext.cs:199-203 | one Act on the ChangeManaByTickUnit token with ManaArgsFloat |
| GameApis.PlayerAPI.Dash | Assets/Scripts/GameContext.cs:205-210 | one Act on the Dash token with DashArgs |
| GameApis.PlayerAPI.DefaultDash | Assets/Scripts/GameContext.cs:212-213 | one Act on the DefaultDash token with the input vector |
| GameApis.PlayerAPI.IsSprinting | Assets/Scripts/GameContext.cs:216-217 | one Ask on the SprintState token |
| GameApis.PlayerAPI.IsTimerTicking | Assets/Scripts/GameContext.cs:219-220 | one Ask on the TimerTicking token |
| GameApis.InputAPI.constructor | Assets/Scripts/GameContext.cs:164 | the hub keeps its context |
| GameApis.InputAPI.SetPlayerInputs | Assets/Scripts/GameContext.cs:167-168 | one Act on the SetPlayerInputs token with the flag |
| GameApis.InputAPI.SetCardInputs | Assets/Scripts/GameContext.cs:170-171 | one Act on the SetCardInputs token with the flag |
| GameApis.InputAPI.SetUIInputs | Assets/Scripts/GameContext.cs:173-174 | one Act on the SetUIInputs token with the flag |
| GameApis.InputAPI.IsPlayerInputsActive | Assets/Scripts/GameContext.cs:177-178 | one Ask on the PlayerInputsActive token |
| GameApis.InputAPI.IsCardInputsActive | Assets/Scripts/GameContext.cs:180-181 | one Ask on the CardInputsActive token |
| GameApis.InputAPI.IsUIInputsActive | Assets/Scripts/GameContext.cs:183-184 | one Ask on the UIInputsActive token |
| GameApis.ChangeManaDispatch | Assets/Scripts/GameContext.cs:193-197 | with a handler, ChangeMana calls it exactly once with exactly the amount and flag; without one it throws naming the token |
| GameApis.SameNameIsNotSameToken | Assets/Scripts/GameContext.cs:92 | a handler registered under one token is not found through another token of the same name |
| TokenExtensions.Invoke | Assets/Scripts/TokenExtensions.cs:11-12 | exactly GameContext.Act, throwing included |
| TokenExtensions.TryInvoke | Assets/Scripts/TokenExtensions.cs:14-15 | exactly GameContext.TryAct |
| TokenExtensions.RegisterAct | Assets/Scripts/TokenExtensions.cs:17-18 | exactly AddAct: the same null checks and overwrite |
| TokenExtensions.Ask | Assets/Scripts/TokenExtensions.cs:20-21 | exactly GameContext.Ask |
| TokenExtensions.TryAsk | Assets/Scripts/TokenExtensions.cs:23-24 | exactly GameContext.TryAsk |
| TokenExtensions.RegisterAsk | Assets/Scripts/TokenExtensions.cs:26-27 | exactly AddAsk: the same null checks and overwrite |
| SaveSystem.AllWhiteSpace | Assets/Scripts/SaveSystem/SaveGameManager.cs:109 | true iff every character is white space |
| SaveSystem.IsNullOrWhiteSpace | Assets/Scripts/SaveSystem/SaveGameManager.cs:109 | null, or white space only |
| SaveSystem.RegisterContract | Assets/Scripts/SaveSystem/SaveGameManager.cs:71-88 | null or null/empty id: unchanged; otherwise the id maps to the object, the other entries stay |
| SaveSystem.UnregisterOnlyRemovesSelf | Assets/Scripts/SaveSystem/SaveGameManager.cs:93-102 | Unregister removes at most the object's own entry, never another object's |
| SaveSystem.StaleUnregisterKeepsNewer | Assets/Scripts/SaveSystem/SaveGameManager.cs:98-101 | a late Unregister of a replaced object leaves its replacement registered |
| SaveSystem.RegisterThenUnregister | Assets/Scripts/SaveSystem/SaveGameManager.cs:71-102 | Register then Unregister removes the id and leaves the rest |
| SaveSystem.RestorePlanMembership | Assets/Scripts/SaveSystem/SaveGameManager.cs:181-193 | a record is restored iff its id is registered and it decodes, to the object under its id |
| SaveSystem.RestorePlanLength | Assets/Scripts/SaveSystem/SaveGameManager.cs:181-193 | no more restores than records, and all of them in file order when all apply |
| SaveSystem.SaveGameManager.constructor | Assets/Scripts/SaveSystem/SaveGameManager.cs:33 | an empty registry |
| SaveSystem.SaveGameManager.Register | Assets/Scripts/SaveSystem/SaveGameManager.cs:71-88 | follows SaveSystem.Registered |
| SaveSystem.SaveGameManager.Unregister | Assets/Scripts/SaveSystem/SaveGameManager.cs:93-102 | follows SaveSystem.Unregistered |
| SaveSystem.SaveGameManager.Save | Assets/Scripts/SaveSystem/SaveGameManager.cs:107-157 | a null or white-space slot name fails before any capture; otherwise every saveable is captured once and the written records are exactly the non-null states, one per id |
| SaveSystem.SaveGameManager.Load | Assets/Scripts/SaveSystem/SaveGameManager.cs:162-202 | no file, a read error or no record list: false, nothing restored. Otherwise true iff no registered record throws while decoding. Then exactly the RestorePlan, in file order. On a throw, false, with the records before the first throwing one already restored |
| PersistentIds.IdLookup.constructor | Assets/Scripts/SaveSystem/PersistentId.cs:16 | an empty lookup |
| PersistentIds.PersistentId.constructor | Assets/Scripts/SaveSystem/PersistentId.cs:15 | the serialized id, a live object |
| PersistentIds.PersistentId.RegisterId | Assets/Scripts/SaveSystem/PersistentId.cs:45-59 | a missing id is generated, an id held by another live object is replaced, the lookup maps the id to this object, and re-registering keeps the id |
| PersistentIds.PersistentId.UnregisterId | Assets/Scripts/SaveSystem/PersistentId.cs:61-67 | the entry is removed only when it maps to this object |
| PersistentIds.PersistentId.OnValidate | Assets/Scripts/SaveSystem/PersistentId.cs:36-43 | outside play mode a missing id is filled in; a present id never changes |
| PersistentIds.PersistentId.Awake | Assets/Scripts/SaveSystem/PersistentId.cs:20-26 | outside play mode nothing changes; in play mode exactly RegisterId: a missing id is generated, a clash with another live object takes the second GUID, and only this id's lookup entry changes, now mapping to this object |
| PersistentIds.PersistentId.OnDestroy | Assets/Scripts/SaveSystem/PersistentId.cs:28-34 | in play mode the object unregisters itself; it is destroyed either way |
| PersistentIds.DuplicateIdScenario | Assets/Scripts/SaveSystem/PersistentId.cs:52-56 | on an id clash the newcomer takes the fresh id and the holder keeps its entry |
| Pools.InactiveObjects | Assets/Scripts/UI/Pool.cs:21 | the Where keeps exactly the pooled objects inactive in the hierarchy |
| Pools.FirstOrDefault | Assets/Scripts/UI/Pool.cs:21 | the first element, or null iff empty |
| Pools.FirstInactiveIsLowest | Assets/Scripts/Patterns/Pool.cs:21 | the query finds the lowest-index inactive object, and null iff all are active |
| Pools.WhereThenFirstIsFirstInactive | Assets/Scripts/UI/Pool.cs:21 | Where then FirstOrDefault equals FirstOrDefault with the predicate |
| Pools.Pool.Awake | Assets/Scripts/Patterns/Pool.cs:10-17 | the pool is exactly the children, in child-index order |
| Pools.Pool.GetInactiveObject | Assets/Scripts/Patterns/Pool.cs:19-22 | the lowest-index inactive pooled object, null iff all active; a query that changes nothing |
| Pools.Pool.SetAllObjectsInactive | Assets/Scripts/Patterns/Pool.cs:23-29 | every pooled object ends inactive, so a second call changes nothing and the next query returns the first object |
| Pause.SwitchedLastWins | Assets/Scripts/UI/PauseHandler.cs:38-48 | an unreferenced object keeps its flag; a referenced one gets enableOnPause (paused) or its negation from its last reference |
| Pause.SwitchedIgnoresPrior | Assets/Scripts/UI/PauseHandler.cs:38-48 | a referenced object's new flag does not depend on its old one |
| Pause.SwitchIdempotent | Assets/Scripts/UI/PauseHandler.cs:25-29 | switching to the same pause state twice is the same as once |
| Pause.PauseThenResumeOpposite | Assets/Scripts/UI/PauseHandler.cs:38-48 | paused and unpaused give every referenced object opposite flags |
| Pause.PauseHandler.constructor | Assets/Scripts/UI/PauseHandler.cs:15-16 | the serialized references, not paused |
| Pause.PauseHandler.IsPaused | Assets/Scripts/UI/PauseHandler.cs:17 | the pause flag |
| Pause.PauseHandler.Start | Assets/Scripts/UI/PauseHandler.cs:18-24 | exactly the objects marked disableOnStart are switched off, the rest keep their flag |
| Pause.PauseHandler.SwitchObjectStates | Assets/Scripts/UI/PauseHandler.cs:36-57 | each referenced object gets its paused or unpaused flag, last reference winning; time scale 0 paused, 1 otherwise |
| Pause.PauseHandler.ChangePauseState | Assets/Scripts/UI/PauseHandler.cs:25-29 | the pause flag becomes the argument and the objects and time switch to it |
| Pause.PauseHandler.TogglePauseState | Assets/Scripts/UI/PauseHandler.cs:30-34 | the pause flag flips and the objects and time switch to the new flag |
| Pause.ToggleTwiceScenario | Assets/Scripts/UI/PauseHandler.cs:30-34 | two toggles restore the pause flag and time scale, and every referenced object has the flag of the original state |
| ManaDisplay.Clamp | Assets/Scripts/UI/ManaUnitsDisplay.cs:159 | the result lies in the range and is the value when the value is in range |
| ManaDisplay.DigitsRecompose | Assets/Scripts/UI/ManaUnitsDisplay.cs:174-175 | both digits of 0..99 lie in 0..9 and tens*10 + ones is the value |
| ManaDisplay.RenderCases | Assets/Scripts/UI/ManaUnitsDisplay.cs:164-191 | hidden zero hides both images; no leading zero below 10 hides tens and shows the ones sprite; otherwise both sprites show |
| ManaDisplay.RenderReadsBack | Assets/Scripts/UI/ManaUnitsDisplay.cs:164-191 | with distinct sprites the images read back the value, or nothing for a hidden zero |
| ManaDisplay.IndexOf | Assets/Scripts/UI/ManaUnitsDisplay.cs:12 | the position of a sprite among the digit sprites, or none when absent |
| ManaDisplay.SetDisplayValueSpec | Assets/Scripts/UI/ManaUnitsDisplay.cs:157-162 | the cached value is the input clamped to 0..99 |
| ManaDisplay.SetDisplayValueReadsBack | Assets/Scripts/UI/ManaUnitsDisplay.cs:157-192 | any set value reads back clamped, or nothing for a hidden zero |
| ManaDisplay.UpdateDisplaySpec | Assets/Scripts/UI/ManaUnitsDisplay.cs:97-138 | never touches the cache; without a PlayerManager nothing changes |
| ManaDisplay.UpdateOnlyOnChange | Assets/Scripts/UI/ManaUnitsDisplay.cs:80-92 | Update draws nothing for an unchanged value; a changed one is drawn and cached, so a repeat does nothing |
| ManaDisplay.SetThenUpdateSameValue | Assets/Scripts/UI/ManaUnitsDisplay.cs:80-92 | a value set by hand and then reported is not drawn again |
| ManaDisplay.ManaUnitsDisplay.constructor | Assets/Scripts/UI/ManaUnitsDisplay.cs:33 | ten sprites, nothing displayed yet |
| ManaDisplay.ManaUnitsDisplay.Draw | Assets/Scripts/UI/ManaUnitsDisplay.cs:164-191 | follows ManaDisplay.Render on the two images |
| ManaDisplay.ManaUnitsDisplay.UpdateDisplay | Assets/Scripts/UI/ManaUnitsDisplay.cs:97-138 | follows ManaDisplay.UpdateDisplaySpec |
| ManaDisplay.ManaUnitsDisplay.Start | Assets/Scripts/UI/ManaUnitsDisplay.cs:74-78 | one UpdateDisplay |
| ManaDisplay.ManaUnitsDisplay.Update | Assets/Scripts/UI/ManaUnitsDisplay.cs:80-92 | follows ManaDisplay.UpdateSpec |
| ManaDisplay.ManaUnitsDisplay.SetDisplayValue | Assets/Scripts/UI/ManaUnitsDisplay.cs:157-192 | follows ManaDisplay.SetDisplayValueSpec |
| ManaBar.Clamp | Assets/Scripts/Managers/HUDManager/ManafuseBar.cs:112 | the result lies in the range and is the value when the value is in range |
| ManaBar.CheckRecovery | Assets/Scripts/Managers/HUDManager/ManafuseBar.cs:62-69 | a disarmed latch with red above the minimum re-arms and reports false; otherwise nothing changes |
| ManaBar.SetRed | Assets/Scripts/Managers/HUDManager/ManafuseBar.cs:54 | setting red clamps it; the listener can only re-arm the latch and report false once |
| ManaBar.ChangeByTickContract | Assets/Scripts/Managers/HUDManager/ManafuseBar.cs:109-122 | green = clamp(green + amount); red >= green; red moves by the amount when included, else only up to green; the bar stays in range |
| ManaBar.ChangeByTickLatch | Assets/Scripts/Managers/HUDManager/ManafuseBar.cs:109-122 | ChangeByTick never disarms the latch and reports false exactly when it re-arms it |
| ManaBar.RefillRecovers | Assets/Scripts/Managers/HUDManager/ManafuseBar.cs:62-69 | an empty bar that gains mana on red reports the recovery and re-arms |
| ManaBar.WholeBarIsUnitDividersUnits | Assets/Scripts/Managers/HUDManager/ManafuseBar.cs:123-127 | spending unitDividers units empties green and gaining them fills it |
| ManaBar.UnitsMakeTheWholeBar | Assets/Scripts/Managers/HUDManager/ManafuseBar.cs:32 | unitDividers units of TicksPerUnit make the whole bar |
| ManaBar.SetManaUnitsContract | Assets/Scripts/Managers/HUDManager/ManafuseBar.cs:128-144 | both maxima become ticks; full bar with reset, values cut to the new maximum without |
| ManaBar.UpdateLatch | Assets/Scripts/Managers/HUDManager/ManafuseBar.cs:39-45 | an armed latch at empty red reports true once and disarms, after which Update does nothing |
| ManaBar.UpdateDrains | Assets/Scripts/Managers/HUDManager/ManafuseBar.cs:46-49 | a drain step lowers red by at most one frame's drain, not below the minimum, and leaves green |
| ManaBar.HudDrainTakesDrainTimePerUnit | Assets/Scripts/Managers/HUDManager/ManafuseBar.cs:48 | one unit drains in exactly redManaDrainTime seconds |
| ManaBar.LegacyDrainMissesDrainTime | Assets/Scripts/UI/ManafuseBar.cs:40 | one unit does not drain in redManaDrainTime seconds unless that time is 1 |
| ManaBar.DefaultDrainRates | Assets/Scripts/UI/ManafuseBar.cs:9-14 | with the defaults a unit is 10 ticks; the legacy rate is 5 ticks/s and the HUD rate 20 ticks/s |
| ManaBar.ManafuseBar.constructor | Assets/Scripts/Managers/HUDManager/ManafuseBar.cs:9-14 | the serialized defaults, an armed latch, no events |
| ManaBar.ManafuseBar.CheckRecoveryListener | Assets/Scripts/Managers/HUDManager/ManafuseBar.cs:62-69 | follows ManaBar.CheckRecovery |
| ManaBar.ManafuseBar.SetRedValue | Assets/Scripts/Managers/HUDManager/ManafuseBar.cs:54 | follows ManaBar.SetRed: the listener runs only when the value changes |
| ManaBar.ManafuseBar.ChangeByTick | Assets/Scripts/Managers/HUDManager/ManafuseBar.cs:109-122 | follows ManaBar.AfterChangeByTick |
| ManaBar.ManafuseBar.ChangeByUnit | Assets/Scripts/Managers/HUDManager/ManafuseBar.cs:123-127 | ChangeByTick of TicksPerUnit * n, with TicksPerUnit taken before the change |
| ManaBar.ManafuseBar.SetManaUnits | Assets/Scripts/Managers/HUDManager/ManafuseBar.cs:128-144 | stores units and ticks and follows ManaBar.AfterSetManaUnits |
| ManaBar.ManafuseBar.Update | Assets/Scripts/Managers/HUDManager/ManafuseBar.cs:37-51 | follows ManaBar.AfterUpdate with the drain rate of its version: the HUD formula, or for the UI/ copy (UI/ManafuseBar.cs:29-43) the legacy one |

## Left out

- **Reload controller.** The reload state machine, the input lock, the "any empty chamber" query and the reload indicator are called from the input handler. DeckManager.cs does not define them, so they are not part of this model.
- **Coroutine timing.** WaitForEndOfFrame and WaitForSeconds are not modelled beyond their order: the initial load runs when called, and each delayed redraw waits in a FIFO until `RunPendingAutoDraw`.
- **Random.Range** is an oracle. `ShuffleDeck` accepts any indices in [i, Count). No uniformity of the shuffle is claimed.
- CardSystem.CardManager.ActivateCardInSlot: assumes Card.Activate runs to completion, that is, a ChangeMana handler is registered. With none, `GameContext.Act` throws KeyNotFoundException (GameContext.cs:139-140) after the chamber was emptied (CardManager.cs:72-73) and before `DiscardCard` (CardManager.cs:79). The card would then be in neither pile nor chamber, and the conservation law would not hold. The model does not cover that path.
- **Card effects.** The card's collaborators (ProjectileManager, PlayerMovementManager, particle spawning) are not called. Activation returns the ordered list of requests instead. The direction vector of a dash is left out because it is built with sine and cosine; only the snapped angle is carried.
- **Card.Activate's player and user.** The `player` argument of `Cards.Activate`, `Economy.ActivationEffects` and `CardSystem.CardManager.ActivateCardInSlot` stands for `GameContext.Instance.Player`, which is where the dash reads `PlayerMovementManager` (Card.cs:125-127). The `user` GameObject only gives the particle its position and rotation (Card.cs:81), and that pose is not modelled: `SpawnParticle` carries only the prefab.
- **Card fields.** That Activate and OnHitTarget never modify the card's fields is not a lemma: a card is an immutable value here, so the property holds by construction.
- **The revolver UI.** It is a record of LoadCard/DiscardCard calls. The branch where the UI manager is missing is not modelled, and neither is the glow effect.
- **Ordering across logs.** The UI calls, the issued card requests and the pending redraws are three separate logs. Their relative order is not recorded.
- **Handler code on the bus.** It is opaque: an exception thrown by a handler is not modelled. A delegate's type must match exactly, so variance is not modelled.
- **Null tokens** in TryAsk, Ask, TryAct and Act are not modelled: the game's tokens are static readonly objects.
- **GameContext.GetService** is not modelled: its scene-search fallback, GameContext.Awake and the singleton are engine lookups. Debug logs are not modelled either.
- **Token wiring** in the managers is reduced to the token tables:
  - the handler bodies of PlayerManager and InputManager are not modelled;
  - what `base.ToString()` prints is approximated by the generic type string.
- **Save-file I/O.** What CaptureState returns, the time stamp, whether the write succeeds, the file contents and how each record decodes (type found, type missing, or a throw from Type.GetType or JsonUtility.FromJson) are all parameters. These are left out:
  - JSON serialisation and paths;
  - the save directory;
  - `HasSave`;
  - an exception thrown inside one RestoreState call (the saveable's own code). The source would catch it like a decoding throw and return false.
- **SaveSystem.SaveGameManager.Save:** states the written records as a set with distinct ids. Their order follows the dictionary's enumeration order, which C# does not fix.
- **PersistentIds.PersistentId.RegisterId:** the GUID generator is a parameter. Uniqueness of a fresh GUID is an assumption of the clash scenario, not something the code ensures.
- **Unity's destroyed-object equality.** The `destroyed` flag stands for it: on a PersistentId in the lookup, and on a service in GameContext's registry. Nothing else about object lifetime is modelled.
- Piles.DrawNoneIff: assumes `baseDeck` holds no null entries. It is a serialized `List<Card>`, and an empty inspector slot would be drawn and removed as null (DeckManager.cs:116-119), leaving a chamber empty although a pile was not (DeckManager.cs:131-135). Cards in the model are never null.
- Economy.DrawToSlotEmptyIff: rests on the same assumption of no null entries in `baseDeck`.
- **Pools.Pool.SetAllObjectsInactive:** does not state that only objects whose flag was on are written. Writing false to a flag that is already false cannot be observed.
- Pause.PauseHandler.SwitchObjectStates: assumes every `go` in the serialized `_objs` array (UI/PauseHandler.cs:15) is non-null. With an empty inspector slot, `obj.go.SetActive` throws NullReferenceException (lines 42 and 46). ChangePauseState and TogglePauseState have already written `_isPaused` by then, and the loop stops before the time scale is set (lines 49-56). The model does not cover that path.
- Pause.PauseHandler.Start: rests on the same assumption; an empty slot marked disableOnStart throws at line 22 and the remaining objects are not switched off.
- **Engine.GameObject.** `activeInHierarchy` is the object's flag and its ancestors' activity, and that ancestors' activity is a constant. The model does not relate GameObjects in a hierarchy. So, for example, a pause that switches off a pool's parent with SetActive (UI/PauseHandler.cs:38-48) does not change what the pool's query sees, although in the scene it would.
- **Engine time.** `Time.timeScale` is a small class, and `Time.deltaTime` is a parameter of `Update`.
- **ManaDisplay.ManaUnitsDisplay.constructor:** the check in Awake (missing images, not exactly ten sprites) becomes a precondition. The disable-and-log path is not modelled.
- **ManaDisplay.ManaUnitsDisplay.UpdateDisplay:** requires a value in 0..99 when a PlayerManager exists. The code indexes the ten sprites unclamped, and out of that range it throws IndexOutOfRangeException.
- **Images are values.** The digit images are modelled as values, so aliasing between the two images is not modelled. The logged PlayerManager lookup in GetCurrentManaUnits becomes a flag plus the reported value.
- **ManaBar.ManafuseBar.ChangeByUnit:** requires unitDividers != 0. The code divides floats and would produce an infinity or NaN; floating point is not modelled (values are Dafny reals).
- **ManaBar.ManafuseBar.Update:** requires a non-zero divider, and for the HUD copy a non-zero drain time, when it drains. This is for the same floating-point reason.
- **ManaBar.SetManaUnitsContract:** assumes ticks >= 0. A negative slider maximum is not meaningful in Unity.
- **ManaBar sliders.** The minimum is fixed at 0 and `wholeNumbers` is off, as in the scene.
- **ManafuseBar extras.** These are not part of this model:
  - ActivateDividers (laying out divider objects from the pool, including the exception when the pool is too small);
  - UpdateEdgeSpritePosition and RefreshEdgeSpritePosition;
  - OnDisable.
  The listeners OnEnable adds are assumed to be in place.
- **The static `NoManaLeft` event** is a log of its arguments. Its subscribers are not modelled.

## Findings

| source | as written | input that shows it | evidently intended | confidence | as-written member | corrected member |
|---|---|---|---|---|---|---|
| Assets/Scripts/UI/ManafuseBar.cs:40 | the red slider drains `TicksPerUnit * redManaDrainTime` ticks per second, although the field's tooltip (line 10) calls it the time one unit takes to drain | the defaults: maxValue 100, unitDividers 10, redManaDrainTime 0.5 give 5 ticks/s, so one unit (10 ticks) takes 2 s instead of 0.5 s | `TicksPerUnit * (1 / redManaDrainTime)`, as the HUD copy computes at Assets/Scripts/Managers/HUDManager/ManafuseBar.cs:48 | not executed | ManaBar.LegacyDrainMissesDrainTime | ManaBar.HudDrainTakesDrainTimePerUnit |
