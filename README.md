# Baggage tracking at the logistics center, in Dafny

This project models the server-side baggage tracking of the logistics center.
Passengers drop off baggage for a flight. Each item carries a tracking number
and a current status. It also keeps a history ledger that records every status
it has passed through.

Dropping an item off starts an automated ground-handling chain:
DROPPED_OFF, SECURITY_CLEARED, SORTED, CBR_READY, LOADED. Each step records
one new ledger entry. An administrator can hold an item for inspection, which
stops the chain. Releasing the item records DROPPED_OFF again and restarts the
chain from the start. A manual override records any status.

The model has seven modules, one per file:

- `options.dfy`: `Options`, an option type. It stands for Java's nullable values.
- `baggage_status.dfy`: `BaggageStatuses`. The twelve statuses (BaggageStatus.java), their declaration order, their display names, and the five ground stages.
- `history_entry.dfy`: `HistoryEntries`. A ledger entry as a value (BaggageHistoryEntry.java), and `Ledger`, which says what a well-kept ledger is.
- `baggage.dfy`: `BaggageRecords`. The baggage entity (Baggage.java). It exists twice:
  - `Record`, the value that is stored and handed out as a detached copy;
  - class `Baggage`, whose constructor and methods update its fields in place.
- `pipeline.dfy`: `BaggagePipeline`. The bean's per-record logic as functions:
  - `RecordStatus` for recordBaggageStatus;
  - `ProcessFrom` for the processX chain;
  - `StartProcessing` for startBaggageProcessing;
  - `SetHold` for setBaggageHoldStatus.

  A closed-form `Chain` serves as the independent reference for what processing appends. The lemmas relate all of these.
- `store_invariant.dfy`: `StoreInvariants`. The invariant the store keeps between operations, and lemmas showing that each kind of update preserves it.
- `store.dfy`: `BaggageManagement`. The bean (BaggageManagementBean.java) as class `Store`. Its methods change the stored records, which live in a `map` from tracking number to `Record`. Each method is specified by the functions above.

## Design choices

**Java features**
- **Nulls.** A Java `null` (an absent record, absent details, an identity not yet generated) is `None`.
- **The history entry's back-reference.**
  - It is the owning baggage's tracking number. That number is the store's key.
  - In the source an entry holds the baggage object, so renaming the baggage renames what every entry refers back to. `Baggage.SetBaggageNumber` therefore re-points every entry at the new number (`Renumber`, `Restamp`), and the ledger invariant survives it (`RenumberKeepsConsistent`).
  - Entries are never compared by their back-reference.

**Data**
- **Time.**
  - `LocalDateTime.now()` is a store-wide counter, `clock`.
  - Every history entry takes the current reading, and the counter then moves on by one.
  - So "entries appended later have later timestamps" is strict in the model. `Ledger` states it, together with each entry's back-reference.
- **Identities.**
  - The generated `IDENTITY` value is `nextId`, which moves on by one per persisted baggage.
  - A ghost map `owners` records which tracking number each identity went to. The invariant uses it to prove that no two records share an identity.
- **Flights.**
  - Flight management's flights are the map `flights`, from flight identity to flight number.
  - The map is fixed when the store is built. Flight management can register flights at any time, but the model cannot: a drop for a flight added later is refused.
  - A Flight is reduced to its identity and its flight number (`Flight`).
- **Weight.** The weight is a `real`. It is stored, never computed on.

**Operations**
- **Atomic operations.** Every public operation is one atomic step on the store. An operation that calls another, as dropBaggage does with startBaggageProcessing, calls the other method. Each such call is a separate update of the model's store. The bean is a stateless session bean with the default transaction attribute, and those calls are calls on itself. So the bean runs them all inside the caller's one transaction, committed once at its end. The model cannot tell the two apart, because it leaves out the failure paths that would roll a transaction back.
- **The processing chain becomes a loop.** The bean's processSecurity, processSorting, processCBR and processLoading call one another, at most four deep. `Store.StartBaggageProcessing` runs them as a loop. Each iteration does what one processX does:
  - reload the record;
  - return if the record is held or not in the expected stage;
  - record the next stage through `RecordBaggageStatus`;
  - hand over to the next step, unless the step just done was loading.

  The loop is proved equal to `StartProcessing`, which is written with the same recursion as the Java methods.
- **dropBaggage's creating branch.**
  - `Store.Persist` covers `new Baggage`, `persist` and `flush`. It runs the `Baggage` constructor and assigns the identity with `SetId`. Then it files the snapshot.
  - `Store.DropNew` covers the rest of the branch after the unknown-flight check: persisting, processing, and returning the processed record.
- **The heldForInspection flag.** No operation of the bean sets it, so the store invariant includes `!heldForInspection` for every record. Holding works through the HELD_FOR_INSPECTION status only.
- **A duplicate drop.** The remote interface documents that dropBaggage returns null for a tracking number already in use, and passenger management relies on that. The bean instead returns the existing record, and the model follows the bean (the first case of `Store.DropBaggage`).
- **Returned records.** updateBaggageStatus and dropBaggage return the object they loaded before the update. Within one persistence context that object is the managed instance the updates changed. Both methods therefore return the record after the update.

## Model

| member | source | states |
|---|---|---|
| BaggageStatuses.Ordinal | server_template/st.cbse.LogisticsCenter.server/src/main/java/st/cbse/logisticscenter/baggagemgmt/server/start/data/BaggageStatus.java:6-17 | each constant's position in the declaration, with `AllStatuses[Ordinal(s)] == s` |
| BaggageStatuses.DisplayName | server_template/st.cbse.LogisticsCenter.server/src/main/java/st/cbse/logisticscenter/baggagemgmt/server/start/data/BaggageStatus.java:6-27 | each constant's display name, as declared; never empty |
| BaggageStatuses.NextStage | server_template/st.cbse.LogisticsCenter.server/src/main/java/st/cbse/logisticscenter/baggagemgmt/server/start/beans/BaggageManagementBean.java:302-379 | the stage each processing step moves to is a ground stage one place further in the declaration |
| BaggageStatuses.OrdinalOfIndex | server_template/st.cbse.LogisticsCenter.server/src/main/java/st/cbse/logisticscenter/baggagemgmt/server/start/data/BaggageStatus.java:6-17 | the ordinal of the constant at position k is k, so ordinals and positions are a bijection |
| BaggageStatuses.TwelveDistinctStatuses | server_template/st.cbse.LogisticsCenter.server/src/main/java/st/cbse/logisticscenter/baggagemgmt/server/start/data/BaggageStatus.java:6-17 | exactly twelve constants, pairwise distinct, and every status is one of them |
| BaggageStatuses.GroundStagesLeadTheDeclaration | server_template/st.cbse.LogisticsCenter.server/src/main/java/st/cbse/logisticscenter/baggagemgmt/server/start/data/BaggageStatus.java:6-10 | the ground stages are the first five constants, in declaration order |
| BaggageStatuses.DisplayNameInjective | server_template/st.cbse.LogisticsCenter.server/src/main/java/st/cbse/logisticscenter/baggagemgmt/server/start/data/BaggageStatus.java:6-17 | equal display names mean equal statuses |
| HistoryEntries.LedgerIsOrdered | server_template/st.cbse.LogisticsCenter.server/src/main/java/st/cbse/logisticscenter/baggagemgmt/server/start/data/Baggage.java:36-38 | in a well-kept ledger the timestamps strictly ascend in stored order, so the timestamp ordering the entity declares is insertion order; every entry refers back to its baggage and precedes the clock |
| HistoryEntries.LedgerAppend | server_template/st.cbse.LogisticsCenter.server/src/main/java/st/cbse/logisticscenter/baggagemgmt/server/start/data/BaggageHistoryEntry.java:32-37 | an entry built for this baggage at the current clock reading extends a well-kept ledger to a well-kept ledger |
| HistoryEntries.LedgerExtend | server_template/st.cbse.LogisticsCenter.server/src/main/java/st/cbse/logisticscenter/baggagemgmt/server/start/data/BaggageHistoryEntry.java:32-37 | a run of such entries at consecutive clock readings keeps the ledger well kept |
| HistoryEntries.LedgerLater | server_template/st.cbse.LogisticsCenter.server/src/main/java/st/cbse/logisticscenter/baggagemgmt/server/start/data/BaggageHistoryEntry.java:35 | a ledger well kept at one clock reading stays so at any later reading |
| HistoryEntries.Restamp | server_template/st.cbse.LogisticsCenter.server/src/main/java/st/cbse/logisticscenter/baggagemgmt/server/start/data/BaggageHistoryEntry.java:16-18 | an entry holds its baggage object: re-pointed at a new number, every entry refers back to it, with the same status, timestamp and details, and the same length and statuses in order |
| HistoryEntries.LedgerRestamp | server_template/st.cbse.LogisticsCenter.server/src/main/java/st/cbse/logisticscenter/baggagemgmt/server/start/data/BaggageHistoryEntry.java:16-18 | a well-kept ledger re-pointed at another tracking number is a well-kept ledger for that number |
| BaggageRecords.Append | server_template/st.cbse.LogisticsCenter.server/src/main/java/st/cbse/logisticscenter/baggagemgmt/server/start/data/Baggage.java:112-116 | addHistoryEntry on a value: exactly one new entry at the end (this baggage, the status, the clock reading, the details), the status set to it, earlier entries and all other fields unchanged |
| BaggageRecords.AppendKeepsConsistent | server_template/st.cbse.LogisticsCenter.server/src/main/java/st/cbse/logisticscenter/baggagemgmt/server/start/data/Baggage.java:112-116 | after addHistoryEntry the history is non-empty, a well-kept ledger, and its last entry's status is the current status |
| BaggageRecords.Renumber | server_template/st.cbse.LogisticsCenter.server/src/main/java/st/cbse/logisticscenter/baggagemgmt/server/start/data/Baggage.java:69-71 | setBaggageNumber on a value: the new tracking number, every entry referring back to it, and identity, weight, status, flight and held flag unchanged |
| BaggageRecords.RenumberKeepsConsistent | server_template/st.cbse.LogisticsCenter.server/src/main/java/st/cbse/logisticscenter/baggagemgmt/server/start/data/Baggage.java:69-71 | renumbering keeps the ledger invariant |
| BaggageRecords.Initial | server_template/st.cbse.LogisticsCenter.server/src/main/java/st/cbse/logisticscenter/baggagemgmt/server/start/data/Baggage.java:46-54 | the constructor's record: no identity, DROPPED_OFF, not flagged as held, one history entry (DROPPED_OFF, "Baggage initially dropped off."), and the ledger invariant |
| BaggageRecords.SameBaggage | server_template/st.cbse.LogisticsCenter.server/src/main/java/st/cbse/logisticscenter/baggagemgmt/server/start/data/Baggage.java:137-140 | equals on two other objects: by identity when the receiver has one (never equal to an object without one), by tracking number otherwise |
| BaggageRecords.SameBaggageReflexive | server_template/st.cbse.LogisticsCenter.server/src/main/java/st/cbse/logisticscenter/baggagemgmt/server/start/data/Baggage.java:132-141 | equals is reflexive |
| BaggageRecords.SameBaggageNotSymmetric | server_template/st.cbse.LogisticsCenter.server/src/main/java/st/cbse/logisticscenter/baggagemgmt/server/start/data/Baggage.java:137-140 | equals is not symmetric: an object without identity can equal one with it, but not the other way round |
| BaggageRecords.Baggage.constructor | server_template/st.cbse.LogisticsCenter.server/src/main/java/st/cbse/logisticscenter/baggagemgmt/server/start/data/Baggage.java:46-54 | the new object's value is `Initial`: DROPPED_OFF, not held, one initial entry |
| BaggageRecords.Baggage.AddHistoryEntry | server_template/st.cbse.LogisticsCenter.server/src/main/java/st/cbse/logisticscenter/baggagemgmt/server/start/data/Baggage.java:112-116 | the history grows by exactly the new entry, the status is set to it, all other fields are unchanged, and the object's new value is `Append` of its old one |
| BaggageRecords.Baggage.SetId | server_template/st.cbse.LogisticsCenter.server/src/main/java/st/cbse/logisticscenter/baggagemgmt/server/start/data/Baggage.java:61-63 | only the identity changes |
| BaggageRecords.Baggage.SetBaggageNumber | server_template/st.cbse.LogisticsCenter.server/src/main/java/st/cbse/logisticscenter/baggagemgmt/server/start/data/Baggage.java:69-71 | the object's new value is `Renumber` of its old one: the new tracking number, every entry referring back to it, all else unchanged |
| BaggageRecords.Baggage.SetWeightKg | server_template/st.cbse.LogisticsCenter.server/src/main/java/st/cbse/logisticscenter/baggagemgmt/server/start/data/Baggage.java:77-79 | only the weight changes |
| BaggageRecords.Baggage.SetStatus | server_template/st.cbse.LogisticsCenter.server/src/main/java/st/cbse/logisticscenter/baggagemgmt/server/start/data/Baggage.java:85-87 | only the status changes, with no history entry |
| BaggageRecords.Baggage.SetFlight | server_template/st.cbse.LogisticsCenter.server/src/main/java/st/cbse/logisticscenter/baggagemgmt/server/start/data/Baggage.java:93-95 | only the flight changes |
| BaggageRecords.Baggage.SetHeldForInspection | server_template/st.cbse.LogisticsCenter.server/src/main/java/st/cbse/logisticscenter/baggagemgmt/server/start/data/Baggage.java:102-104 | only the held flag changes |
| BaggageRecords.Baggage.Equals | server_template/st.cbse.LogisticsCenter.server/src/main/java/st/cbse/logisticscenter/baggagemgmt/server/start/data/Baggage.java:132-141 | the same object is equal, null is not, and two distinct objects are equal exactly when `SameBaggage` holds of their values |
| BaggagePipeline.RecordStatus | server_template/st.cbse.LogisticsCenter.server/src/main/java/st/cbse/logisticscenter/baggagemgmt/server/start/beans/BaggageManagementBean.java:244-257 | recordBaggageStatus on a record: the status afterwards is the requested one; the history is unchanged when the request is redundant, and otherwise grows by exactly one entry at the end carrying the status and details; other fields unchanged |
| BaggagePipeline.RecordStatusSkipsOnlyRedundant | server_template/st.cbse.LogisticsCenter.server/src/main/java/st/cbse/logisticscenter/baggagemgmt/server/start/beans/BaggageManagementBean.java:247-250 | the record is left unchanged exactly when the status is the current one and the details are null or empty |
| BaggagePipeline.RecordStatusKeepsConsistent | server_template/st.cbse.LogisticsCenter.server/src/main/java/st/cbse/logisticscenter/baggagemgmt/server/start/beans/BaggageManagementBean.java:244-257 | recording a status keeps the ledger invariant, with the clock moved on by the entries added |
| BaggagePipeline.StepDetails | server_template/st.cbse.LogisticsCenter.server/src/main/java/st/cbse/logisticscenter/baggagemgmt/server/start/beans/BaggageManagementBean.java:316-376 | each automated step records non-empty details, so no automated step is ever redundant |
| BaggagePipeline.ProcessFrom | server_template/st.cbse.LogisticsCenter.server/src/main/java/st/cbse/logisticscenter/baggagemgmt/server/start/beans/BaggageManagementBean.java:302-379 | the chain from a step keeps the fixed fields, keeps the old entries as a prefix, and appends at most one entry per remaining stage |
| BaggagePipeline.StartProcessing | server_template/st.cbse.LogisticsCenter.server/src/main/java/st/cbse/logisticscenter/baggagemgmt/server/start/beans/BaggageManagementBean.java:213-241 | startBaggageProcessing keeps the fixed fields and the old entries, and appends at most four entries |
| BaggagePipeline.ChainUnfolds | server_template/st.cbse.LogisticsCenter.server/src/main/java/st/cbse/logisticscenter/baggagemgmt/server/start/beans/BaggageManagementBean.java:302-379 | the closed-form chain from a stage is that stage's step followed by the chain from the next stage |
| BaggagePipeline.ProcessFromStep | server_template/st.cbse.LogisticsCenter.server/src/main/java/st/cbse/logisticscenter/baggagemgmt/server/start/beans/BaggageManagementBean.java:302-320 | a step in its expected stage appends its entry and hands over to the next step, except after loading |
| BaggagePipeline.ProcessFromOneStep | server_template/st.cbse.LogisticsCenter.server/src/main/java/st/cbse/logisticscenter/baggagemgmt/server/start/beans/BaggageManagementBean.java:302-320 | a step outside its expected stage changes nothing; in it, the step records a non-redundant status and hands over |
| BaggagePipeline.ProcessFromResumes | server_template/st.cbse.LogisticsCenter.server/src/main/java/st/cbse/logisticscenter/baggagemgmt/server/start/beans/BaggageManagementBean.java:316-319 | after one step has updated the store, the processing still to do is the chain from the next stage |
| BaggagePipeline.ProcessFromRunsChainStep | server_template/st.cbse.LogisticsCenter.server/src/main/java/st/cbse/logisticscenter/baggagemgmt/server/start/beans/BaggageManagementBean.java:302-379 | if the steps after a stage run their closed-form chain, so does the step for that stage |
| BaggagePipeline.ProcessFromRunsChain | server_template/st.cbse.LogisticsCenter.server/src/main/java/st/cbse/logisticscenter/baggagemgmt/server/start/beans/BaggageManagementBean.java:302-379 | a step in its expected stage appends exactly the closed-form chain and ends at LOADED |
| BaggagePipeline.StartProcessingOutcome | server_template/st.cbse.LogisticsCenter.server/src/main/java/st/cbse/logisticscenter/baggagemgmt/server/start/beans/BaggageManagementBean.java:213-241 | from DROPPED_OFF, SECURITY_CLEARED, SORTED or CBR_READY processing appends the closed-form chain and ends at LOADED; from HELD_FOR_INSPECTION, LOADED, TRANSIT, ARRIVED, DELIVERED, LOST, DAMAGED or MISROUTED it changes nothing, and these are exactly the other statuses |
| BaggagePipeline.ChainMovesForward | server_template/st.cbse.LogisticsCenter.server/src/main/java/st/cbse/logisticscenter/baggagemgmt/server/start/beans/BaggageManagementBean.java:302-379 | chain entry i is the ground stage i + 1 places on, stamped at clock reading now + i: at most four entries, stages never skipped or repeated, ending at LOADED |
| BaggagePipeline.ChainFromDroppedOff | server_template/st.cbse.LogisticsCenter.server/src/main/java/st/cbse/logisticscenter/baggagemgmt/server/start/beans/BaggageManagementBean.java:316-376 | the chain from DROPPED_OFF is the four entries with the bean's exact details, with the flight number in the sorting and loading details |
| BaggagePipeline.GroundRunStatuses | server_template/st.cbse.LogisticsCenter.server/src/main/java/st/cbse/logisticscenter/baggagemgmt/server/start/beans/BaggageManagementBean.java:302-379 | DROPPED_OFF followed by its chain runs through the five ground stages in order |
| BaggagePipeline.GroundRunDetails | server_template/st.cbse.LogisticsCenter.server/src/main/java/st/cbse/logisticscenter/baggagemgmt/server/start/beans/BaggageManagementBean.java:336-376 | in that run the SORTED entry names the gate conveyor for the flight and the LOADED entry names the flight |
| BaggagePipeline.NewBaggageIsLoaded | server_template/st.cbse.LogisticsCenter.server/src/main/java/st/cbse/logisticscenter/baggagemgmt/server/start/beans/BaggageManagementBean.java:78-110 | a freshly dropped-off record, processed, is LOADED with history statuses exactly DROPPED_OFF, SECURITY_CLEARED, SORTED, CBR_READY, LOADED, with the flight number in the SORTED and LOADED details, and other fields unchanged |
| BaggagePipeline.ProcessingKeepsConsistent | server_template/st.cbse.LogisticsCenter.server/src/main/java/st/cbse/logisticscenter/baggagemgmt/server/start/beans/BaggageManagementBean.java:213-241 | processing keeps the ledger invariant, with the clock moved on by the entries added |
| BaggagePipeline.SetHold | server_template/st.cbse.LogisticsCenter.server/src/main/java/st/cbse/logisticscenter/baggagemgmt/server/start/beans/BaggageManagementBean.java:277-299 | a hold request keeps the fixed fields (so never the held flag) and only appends to the history |
| BaggagePipeline.SetHoldSteps | server_template/st.cbse.LogisticsCenter.server/src/main/java/st/cbse/logisticscenter/baggagemgmt/server/start/beans/BaggageManagementBean.java:284-299 | a hold request either does nothing, records HELD_FOR_INSPECTION, or records DROPPED_OFF and processes from the next clock reading |
| BaggagePipeline.ReleaseRecordsThenProcesses | server_template/st.cbse.LogisticsCenter.server/src/main/java/st/cbse/logisticscenter/baggagemgmt/server/start/beans/BaggageManagementBean.java:296-298 | a release records a non-redundant DROPPED_OFF and then processes |
| BaggagePipeline.HoldAppendsOneEntry | server_template/st.cbse.LogisticsCenter.server/src/main/java/st/cbse/logisticscenter/baggagemgmt/server/start/beans/BaggageManagementBean.java:284-290 | holding an item that is not held appends exactly one (HELD_FOR_INSPECTION, "Held by administrator.") entry from any stage, and processing then changes nothing |
| BaggagePipeline.HeldIsFrozen | server_template/st.cbse.LogisticsCenter.server/src/main/java/st/cbse/logisticscenter/baggagemgmt/server/start/beans/BaggageManagementBean.java:231-232 | processing leaves a held item unchanged, and holding it again is a no-op |
| BaggagePipeline.ReleaseNeedsHold | server_template/st.cbse.LogisticsCenter.server/src/main/java/st/cbse/logisticscenter/baggagemgmt/server/start/beans/BaggageManagementBean.java:292-295 | releasing an item that is not held is a no-op |
| BaggagePipeline.ReleaseRestartsChain | server_template/st.cbse.LogisticsCenter.server/src/main/java/st/cbse/logisticscenter/baggagemgmt/server/start/beans/BaggageManagementBean.java:291-299 | releasing a held item appends DROPPED_OFF ("Released by administrator.") and the whole chain from it, ending at LOADED |
| BaggagePipeline.ReleaseAppendsGroundStages | server_template/st.cbse.LogisticsCenter.server/src/main/java/st/cbse/logisticscenter/baggagemgmt/server/start/beans/BaggageManagementBean.java:291-299 | a release appends exactly five entries, the ground stages in order, whatever stage the item had reached |
| BaggagePipeline.ManualUpdateAlwaysAppends | server_template/st.cbse.LogisticsCenter.server/src/main/java/st/cbse/logisticscenter/baggagemgmt/server/start/beans/BaggageManagementBean.java:168 | the manual override's note is never blank, so it always appends one entry, even for an unchanged status |
| StoreInvariants.IdentitiesAreDistinct | server_template/st.cbse.LogisticsCenter.server/src/main/java/st/cbse/logisticscenter/baggagemgmt/server/start/data/Baggage.java:15-17 | distinct filed records have distinct generated identities |
| StoreInvariants.InvariantFilesByNumber | server_template/st.cbse.LogisticsCenter.server/src/main/java/st/cbse/logisticscenter/baggagemgmt/server/start/data/Baggage.java:19-20 | the invariant files every record under its own tracking number |
| StoreInvariants.InvariantAfterUpdate | server_template/st.cbse.LogisticsCenter.server/src/main/java/st/cbse/logisticscenter/baggagemgmt/server/start/beans/BaggageManagementBean.java:251-252 | merging a later state of a record, with the clock moved on, keeps the store invariant |
| StoreInvariants.InvariantAfterAppend | server_template/st.cbse.LogisticsCenter.server/src/main/java/st/cbse/logisticscenter/baggagemgmt/server/start/beans/BaggageManagementBean.java:251-252 | an entry appended and merged is the recorded status, and keeps the store invariant with the clock one on |
| StoreInvariants.InvariantAfterInsert | server_template/st.cbse.LogisticsCenter.server/src/main/java/st/cbse/logisticscenter/baggagemgmt/server/start/beans/BaggageManagementBean.java:78-84 | persisting a new record under a fresh number with the next identity keeps the store invariant |
| StoreInvariants.ReleaseRestarts | server_template/st.cbse.LogisticsCenter.server/src/main/java/st/cbse/logisticscenter/baggagemgmt/server/start/beans/BaggageManagementBean.java:296-298 | the release's two successive updates of the store (record DROPPED_OFF, then process) together are the value-level release |
| StoreInvariants.DropComposes | server_template/st.cbse.LogisticsCenter.server/src/main/java/st/cbse/logisticscenter/baggagemgmt/server/start/beans/BaggageManagementBean.java:78-110 | filing the new record and then processing it files a LOADED record with the five ground stages, four clock readings after the initial entry |
| BaggageManagement.Store.constructor | server_template/st.cbse.LogisticsCenter.server/src/main/java/st/cbse/logisticscenter/baggagemgmt/server/start/beans/BaggageManagementBean.java:25-26 | the store starts empty over the known flights and keeps its invariant |
| BaggageManagement.Store.GetBaggageByNumber | server_template/st.cbse.LogisticsCenter.server/src/main/java/st/cbse/logisticscenter/baggagemgmt/server/start/beans/BaggageManagementBean.java:143-160 | a copy of the record filed under the number, exactly when there is one; it carries that number, keeps the ledger invariant and is not flagged as held |
| BaggageManagement.Store.GetBaggageHistory | server_template/st.cbse.LogisticsCenter.server/src/main/java/st/cbse/logisticscenter/baggagemgmt/server/start/beans/BaggageManagementBean.java:259-274 | the empty list for an unknown number, otherwise the stored ledger in stored order, non-empty, ending at the current status, timestamps strictly ascending and before the clock, every entry referring back to the number |
| BaggageManagement.Store.GetAllBaggage | server_template/st.cbse.LogisticsCenter.server/src/main/java/st/cbse/logisticscenter/baggagemgmt/server/start/beans/BaggageManagementBean.java:183-211 | a copy of every record exactly once: as many as are stored, each one stored, none missing, no number twice |
| BaggageManagement.Store.RecordBaggageStatus | server_template/st.cbse.LogisticsCenter.server/src/main/java/st/cbse/logisticscenter/baggagemgmt/server/start/beans/BaggageManagementBean.java:243-257 | an unknown number changes nothing; otherwise the record becomes `RecordStatus` of it and the clock moves on by one exactly when an entry was added; the invariant is kept |
| BaggageManagement.Store.StartBaggageProcessing | server_template/st.cbse.LogisticsCenter.server/src/main/java/st/cbse/logisticscenter/baggagemgmt/server/start/beans/BaggageManagementBean.java:213-241 | an unknown number changes nothing; otherwise the record becomes `StartProcessing` of it, the clock moves on by the entries added, and no other record changes |
| BaggageManagement.Store.Persist | server_template/st.cbse.LogisticsCenter.server/src/main/java/st/cbse/logisticscenter/baggagemgmt/server/start/beans/BaggageManagementBean.java:76-84 | the constructor's record, with the next identity, is filed under the new number; clock and identity counter move on by one |
| BaggageManagement.Store.DropBaggage | server_template/st.cbse.LogisticsCenter.server/src/main/java/st/cbse/logisticscenter/baggagemgmt/server/start/beans/BaggageManagementBean.java:55-141 | a number in use returns its record with the store untouched; an unknown flight returns null with the store untouched; otherwise the new record, processed, is filed and returned, with five clock readings used and one identity |
| BaggageManagement.Store.DropNew | server_template/st.cbse.LogisticsCenter.server/src/main/java/st/cbse/logisticscenter/baggagemgmt/server/start/beans/BaggageManagementBean.java:76-126 | the new record is filed processed and returned: LOADED with the five ground stages |
| BaggageManagement.Store.UpdateBaggageStatus | server_template/st.cbse.LogisticsCenter.server/src/main/java/st/cbse/logisticscenter/baggagemgmt/server/start/beans/BaggageManagementBean.java:162-181 | null for an unknown number; otherwise exactly one entry with the new status is appended, with no further processing, and the updated record is returned |
| BaggageManagement.Store.SetBaggageHoldStatus | server_template/st.cbse.LogisticsCenter.server/src/main/java/st/cbse/logisticscenter/baggagemgmt/server/start/beans/BaggageManagementBean.java:276-300 | an unknown number changes nothing; otherwise the record becomes `SetHold` of it and the clock moves on by the entries added |
| BaggageManagement.NumbersAreUnique | server_template/st.cbse.LogisticsCenter.server/src/main/java/st/cbse/logisticscenter/baggagemgmt/server/start/data/Baggage.java:19-20 | a tracking number names at most one stored record, and distinct records have distinct identities |

## Left out

- **JPA.**
  - The entity manager is not modelled: queries, `LEFT JOIN FETCH`, `persist`, `flush`, `merge`, `detach`.
  - The store is a map of values, and a detached copy is that value.
  - The model assumes every change is flushed before the record is detached. updateBaggageStatus and dropBaggage detach right after their last merge, with no flush in between. Under the entity manager's detach contract, unflushed changes are then not written, so the stored record could stay one step behind what was returned. The model does not capture that.
- **Failure paths.** The branches that catch exceptions and return null or an empty list are persistence failures.
  - This includes dropBaggage's failed re-read after persisting, which cannot fail on a map.
- **The null flight.** The null-pointer path of dropBaggage for a null flight is not modelled. The flight argument is a value and is never null.
- **Time.** `LocalDateTime.now()` is replaced by the counter `clock`. Timestamps are therefore distinct and strictly increasing. A real clock only guarantees non-decreasing readings. The history is read back ordered by timestamp, so entries stamped at the same instant (easily the five of one dropBaggage) may come back in any order among themselves. So getBaggageHistory's "stored order" and "the last entry is the current status" hold in the source only when the timestamps are distinct.
- **Weight.** The weight is a `real`, not a double. It is never computed on.
- **Flights.**
  - Flight internals beyond identity and flight number are not modelled.
  - Flight management, passenger management, the remote interfaces and the client are not modelled.
- **Accessors and object methods.**
  - The getters of both entities and the history entry's setters are not modelled. The history entry is a value whose fields are those getters, and no core code calls the setters.
  - Neither the entities' default constructors nor toString and hashCode are modelled.
- **Logging, EJB transactions and concurrency.** None of these is modelled. Every operation is one sequential step.
- **Null arguments and duplicate rows.**
  - The types rule out null arguments other than the flight: a null tracking number, a null status. In the bean these fail at the not-null column or with a null-pointer exception.
  - A flight is never without an identity (`Flight.id` is a `nat`). In the bean, a non-null flight with a null id makes the flight lookup at the start of dropBaggage throw. That lookup comes before the `try`, so the exception reaches the caller instead of a null result.
  - getAllBaggage's fetch join has no DISTINCT. Depending on the persistence provider, it may return a baggage once per history row. The model returns each record once.
- **Result order.** The order of getAllBaggage's result is unspecified, as in the query, which has no ORDER BY.
- **The original entity objects.** Returned records are values, so the model does not capture later changes made through the original managed objects.
- BaggageManagement.Store.GetAllBaggage: requires only that records are filed under their own numbers, which the store invariant implies (`StoreInvariants.InvariantFilesByNumber`), rather than the whole invariant.
