# Settings homepage cards and battery change detection

A model of two pieces of the Android Settings application:

- **ContextualCardManager** (`contextual_card_manager.dfy`, module
  `ContextualCards`). This class keeps the homepage's list of contextual cards.
  Each card carries an integer card type. When loading finishes, the list is
  replaced by the loaded cards. Then a controller is set up for each card's type,
  in list order (a repeated type is set up again), and then for CONDITIONAL.
  When a controller reports new cards for one type, every card of that type is
  deleted with a backwards index loop, the new cards are appended, and the
  update listener, if one is set, is told about the merged list. The list is a
  `seq<Card>` field that the methods reassign. The controller pool is a total
  function from card type to an optional controller. Every call the manager
  makes into the pool, into a controller, into the lifecycle or into the
  listener is appended to a `log` field.
- **BatteryBroadcastReceiver** (`battery_broadcast_receiver.dfy`, module
  `BatteryReceiver`). This receiver remembers the last battery level and status
  strings it reported. Both start as null. It calls its listener in three cases:
  a battery-changed intent carries a different level or status, a
  battery-changed intent arrives in a forced update (on registration), or
  power-save mode changes. In every case a listener must be set and the intent
  must be non-null. The pure function `Update` is one step of this state machine. The class's methods are proved
  equal to it, and lemmas state its properties for one step and for whole runs.

Java `null` is modelled as `Option.None` (`wrappers.dfy`).

## Model

| member | source | states |
|---|---|---|
| ContextualCards.RemoveType | src/com/android/settings/homepage/ContextualCardManager.java:116-121 | removing a type never lengthens the list; every card left was in the list, and none has type t |
| ContextualCards.RemoveTypeMultiset | src/com/android/settings/homepage/ContextualCardManager.java:117-121 | each card of type t is gone; every other card occurs exactly as often as before |
| ContextualCards.RemoveTypeMembership | src/com/android/settings/homepage/ContextualCardManager.java:117-121 | a card remains if and only if it was in the list and its type differs from t |
| ContextualCards.RemoveTypeLength | src/com/android/settings/homepage/ContextualCardManager.java:117-121 | the list's length after removal is the old length minus the number of cards of type t |
| ContextualCards.RemoveTypeIdempotent | src/com/android/settings/homepage/ContextualCardManager.java:117-121 | removing the same type a second time changes nothing |
| ContextualCards.RemoveTypeIsSubsequence | src/com/android/settings/homepage/ContextualCardManager.java:117-121 | the remaining cards keep their relative order from the old list |
| ContextualCards.SubsequenceBound | src/com/android/settings/homepage/ContextualCardManager.java:117-121 | no order-keeping selection without type-t cards is longer than the removal's result |
| ContextualCards.RemoveTypeUnique | src/com/android/settings/homepage/ContextualCardManager.java:117-121 | the removal's result is the only order-keeping selection that drops exactly the type-t cards, so nothing else changes |
| ContextualCards.BackwardRemovalStep | src/com/android/settings/homepage/ContextualCardManager.java:117-121 | deleting index i when it has type t (keeping it otherwise) extends the filtered suffix by one index, which justifies walking backwards |
| ContextualCards.MergedLength | src/com/android/settings/homepage/ContextualCardManager.java:117-124 | after an update the length is the number of old cards of another type plus the number of new cards |
| ContextualCards.MergedIdempotent | src/com/android/settings/homepage/ContextualCardManager.java:117-124 | if every new card has the updated type, the same update applied twice gives the list it gives once |
| ContextualCards.SetupAllRequests | src/com/android/settings/homepage/ContextualCardManager.java:79-103 | setting up controllers asks the pool exactly once per card type, in visiting order |
| ContextualCards.LoadRequests | src/com/android/settings/homepage/ContextualCardManager.java:54-90 | loading asks the pool once per loaded card in list order, then once for CONDITIONAL |
| ContextualCards.ObserverAddedOnlyIf | src/com/android/settings/homepage/ContextualCardManager.java:92-103 | a controller is added to the lifecycle only if the pool returned it for a visited type, it is a lifecycle observer and the lifecycle is non-null |
| ContextualCards.ObserverAddedIf | src/com/android/settings/homepage/ContextualCardManager.java:92-103 | every non-null observer controller for a visited type is added to a non-null lifecycle |
| ContextualCards.ContextualCardManager.constructor | src/com/android/settings/homepage/ContextualCardManager.java:64-69 | a new manager has an empty list, no listener and has made no calls |
| ContextualCards.ContextualCardManager.SetListener | src/com/android/settings/homepage/ContextualCardManager.java:147-149 | the listener becomes the given one, which may be null |
| ContextualCards.ContextualCardManager.SortCards | src/com/android/settings/homepage/ContextualCardManager.java:105-108 | the list and the calls made are left unchanged |
| ContextualCards.ContextualCardManager.SetupController | src/com/android/settings/homepage/ContextualCardManager.java:92-103 | the calls made are `SetupEvents` of the type: the pool request, then for a non-null controller its listener registration, then lifecycle registration if it observes and the lifecycle is non-null |
| ContextualCards.ContextualCardManager.SetupControllers | src/com/android/settings/homepage/ContextualCardManager.java:79-90 | the calls made are `SetupAll` of the given types: the setups for each given type, one after the other in order (the loop both loops of loadCardControllers use) |
| ContextualCards.ContextualCardManager.LoadCardControllers | src/com/android/settings/homepage/ContextualCardManager.java:79-90 | the calls made are `SetupAll(LoadedTypes(cards))`: the setups for each card's type in list order, then for each type in SETTINGS_CARDS |
| ContextualCards.ContextualCardManager.RemoveCardsOfType | src/com/android/settings/homepage/ContextualCardManager.java:116-121 | the backwards remove-by-index loop leaves exactly `RemoveType` of the old list, that is, the old list without its type-t cards |
| ContextualCards.ContextualCardManager.OnContextualCardUpdated | src/com/android/settings/homepage/ContextualCardManager.java:110-131 | the new list is `Merged(old list, t, update list)`: the old list without type-t cards followed by the update list; exactly one notification with INVALID and the merged list if a listener is set, none otherwise; a null update list throws after the removal, leaving the list without type-t cards and notifying no one |
| ContextualCards.ContextualCardManager.OnFinishCardLoading | src/com/android/settings/homepage/ContextualCardManager.java:133-145 | the list becomes the loaded list, or empty for null, discarding the old contents; then the calls made are `SetupAll(LoadedTypes(cards))` for it |
| BatteryReceiver.IgnoredWithoutIntentOrListener | src/com/android/settings/fuelgauge/BatteryBroadcastReceiver.java:75-76 | with a null intent or no listener, nothing is reported and the stored level and status are unchanged |
| BatteryReceiver.BatteryChangedReportsChange | src/com/android/settings/fuelgauge/BatteryBroadcastReceiver.java:77-86 | an unforced battery-changed intent is reported if and only if its level or status differs from the stored one; it is stored exactly when reported |
| BatteryReceiver.ForcedBatteryChangedReports | src/com/android/settings/fuelgauge/BatteryBroadcastReceiver.java:81-86 | a forced battery-changed intent is always reported and stored |
| BatteryReceiver.PowerSaveAlwaysReports | src/com/android/settings/fuelgauge/BatteryBroadcastReceiver.java:87-89 | a power-save change is always reported and leaves the stored values |
| BatteryReceiver.OtherActionIgnored | src/com/android/settings/fuelgauge/BatteryBroadcastReceiver.java:76-90 | any other action is neither reported nor stored |
| BatteryReceiver.UpdateStoresOnlyBatteryReadings | src/com/android/settings/fuelgauge/BatteryBroadcastReceiver.java:75-91 | the stored values either stay or become the values of a reported battery-changed intent |
| BatteryReceiver.RepeatedReadingNotReported | src/com/android/settings/fuelgauge/BatteryBroadcastReceiver.java:42-86 | from the initial null values the first battery intent is reported; the identical intent right after is not |
| BatteryReceiver.RunSnoc | src/com/android/settings/fuelgauge/BatteryBroadcastReceiver.java:75-91 | running one more delivery is one more update step on the stored values |
| BatteryReceiver.StoredIsLastReading | src/com/android/settings/fuelgauge/BatteryBroadcastReceiver.java:75-91 | after any run from the start, the stored values are those of the last battery intent the receiver saw while a listener was set, or null if it saw none |
| BatteryReceiver.ReportedIffDiffersFromLastSeen | src/com/android/settings/fuelgauge/BatteryBroadcastReceiver.java:81-86 | after any run, an unforced battery intent is reported if and only if it differs from the last battery reading seen |
| BatteryReceiver.BatteryBroadcastReceiver.constructor | src/com/android/settings/fuelgauge/BatteryBroadcastReceiver.java:42-51 | a new receiver has null level and status, no listener and has made no calls |
| BatteryReceiver.BatteryBroadcastReceiver.SetBatteryChangedListener | src/com/android/settings/fuelgauge/BatteryBroadcastReceiver.java:58-60 | the listener becomes the given one, which may be null |
| BatteryReceiver.BatteryBroadcastReceiver.UpdateBatteryStatus | src/com/android/settings/fuelgauge/BatteryBroadcastReceiver.java:75-91 | the new stored values and the listener call, if any, are those the step function `Update` (the branches of lines 76-89) gives for the old values, the intent, the force flag and whether a listener is set |
| BatteryReceiver.BatteryBroadcastReceiver.OnReceive | src/com/android/settings/fuelgauge/BatteryBroadcastReceiver.java:53-56 | a broadcast is an unforced update |
| BatteryReceiver.BatteryBroadcastReceiver.Register | src/com/android/settings/fuelgauge/BatteryBroadcastReceiver.java:62-69 | the intent returned by registration, possibly null, is applied as a forced update |
| BatteryReceiver.RepeatedBroadcast | src/com/android/settings/fuelgauge/BatteryBroadcastReceiver.java:53-86 | on a fresh receiver with a listener, the first broadcast of a reading calls the listener and the identical second broadcast does not |

## Left out

- Loader plumbing (`loadContextualCards`, `CardContentLoaderCallbacks`): this is the framework's asynchronous loader. `OnFinishCardLoading` is the entry point it would call.
- The `prevCards` local: it aliases the live list and is never read.
- `getControllerRendererPool` and the pool's internals: the pool is modelled only as the controller it returns for each card type. It is fixed for the manager's lifetime.
- What `setCardUpdateListener` and `Lifecycle.addObserver` do inside the controller and the lifecycle: only the calls are recorded.
- `ContextualCardManager.OnContextualCardUpdated`: the listener receives the live list object. The model records the list's value at the time of the call. Later changes seen through that alias, and a listener that calls back into the manager, are not modelled.
- ContextualCards.ContextualCardManager.OnContextualCardUpdated: a card in the update list is never null here. In the code, a null card already in the list throws at `getCardType()` during the removal loop (line 118), after the cards behind it have been removed. A null update list is modelled: it throws at `addAll` (line 124) after the removal, and no listener is notified.
- ContextualCards.ContextualCardManager.OnFinishCardLoading: a null card in the loaded list is not modelled. In the code it throws at `getCardType()` when controllers are set up (line 82), after the list has been replaced.
- The `mContextualCards != null` test in `loadCardControllers`: the field is final and set in the constructor, so the test always passes and the model has no branch for it.
- The values of `ContextualCard.CardType.INVALID` and `CONDITIONAL`: that file is not part of this model. The constants are placeholders, and no property depends on their values.
- Sorting: the code does not implement ranking, so `SortCards` changes nothing.
- `Utils.getBatteryPercentage` and `Utils.getBatteryStatus`: these are helpers outside the model. A battery-changed intent carries their (non-null) results.
- `register`'s intent filter and receiver registration IPC, and `unRegister`: only the forced update on the returned sticky intent is modelled.
- The `Context`, and the other files of the repository (Wi-Fi saved networks screen, work-profile keyboard preference controller, ambient display test): they are fragment and preference glue outside this core.
