# Verified model of the agent control plane

The program shares one upstream Hermes agent between several browsers. This project models the parts of it
that keep state over long runs, and proves what they keep: in every run, over every interleaving of the
stretches between two awaits, and after every crash or failed call where those can happen.

- **Skill ownership** (`SkillLedger`, `LedgerHistory`, `GlobalInheritance`, `Outcomes`). Office enables skills in Hermes on the
  users' behalf and must remember which of them it owns. Two write-ahead journals guard every change. Each
  store write and each call to Hermes may succeed, fail, or be the last thing the process does; a call that
  failed may still have taken effect; anything outside Office may toggle a skill at any time. The field
  `quiet` says that nothing outside does, and only the clauses about Hermes' own flags ask for it; `steady` and
  `line` say that the store or Hermes does not fail by itself, and only clauses about success, or about one
  particular failure, ask for those. With all three the world is `Calm`, and operations are proved to succeed.
  The store keeps a ghost history of its writes, Hermes one of its toggles.
- **Chat leases** (`LeaseRegistry`, `ChatSessionCoordinators`). `LeaseRegistry` is the simple form: one set of
  lease records. `ChatSessionCoordinator` is the form with mutable lease objects and five maps that refer to
  them; every method is proved to do to the maps what the simple form does to the records.
- **The shared upstream** (`EarlyEvents`, `LostEarlyEvents`, `ChatUpstreamHubs`). Events for live sessions that
  nobody owns yet are buffered under several limits, and handed over or replaced by a resync notice later.
- **History paging** (`Base64Url`, `HistoryCursors`, `HistoryPager`, `HistoryLoaders`). A signed cursor, the
  server's pages, and the client that puts them together again.
- **Byte budgets** (`Utf16`, `LiveTranscripts`, `WireBudget`). The transcript keeps JSON and UTF-8 sizes by
  increments; the serializer searches for the longest text that fits.
- **Resources and rates** (`ProfilePools`, `ApprovalQueues`, `ChatApprovals`, `AttemptLimiters`,
  `KanbanRefreshes`).
- **Collectors and scanners** (`SessionInventories`, `TerminalTexts`).

Code that changes state in place is a class, or a method with the source's loop, and its contract ties the new
state to a specification function of the old one; the properties are lemmas about those functions, or
invariants (`Valid`, `Sound`, `Safe`, `Wired`, `Within`) that every method keeps. A method called `Run` or `Do`
is the environment: it takes the given steps, and ends where the pure `Steps` of the same sequence ends; lemmas
about `Steps` are the results about whole runs. Symbols, random identifiers and the HMAC are fresh numbers
and an uninterpreted 32-byte function.

## Where the code does less than it says

- **All or resync** is not always kept. A reset of the generation with nothing connected finishes before its own
  promise is recorded (apps/server/src/chat-upstream-hub.ts:569-587), so the record of a running reset stays for
  good. When the tombstones are full later, the reset that would have made the loss visible does nothing, and the
  oldest session's events are dropped without a trace. The exact condition is that no reset is requested while
  nothing is connected: over any run that meets it no step loses anything (`EarlyEvents.ServedLossless`) and all or
  resync holds (`EarlyEvents.ServedAllOrResync`), and every request that breaks it can be followed by events that
  end in a proper suffix and no notice (`LostEarlyEvents.SuffixDelivered`). Both sides take events to come over a
  connection and not while a reset runs, which apps/server/src/chat-upstream-hub.ts:458 waits for.
  Callers that compare the generation they started with are safe, as losing the connection moves it; so is
  `closeDuplicateSession`, whose check at line 383 shuts out a failed attempt to connect. Unguarded are the public
  `resetAmbiguousSessionResult` (lines 390-392), whose one caller has just had an answer over the connection
  (apps/server/src/chat-gateway.ts:235), and the cleanup of an owner whose session start outlives its bound (line
  281). That start may be waiting for a connection to finish closing after a request timed out (line 230), and a
  bad frame may have reported the same connection closed already (apps/server/src/hermes-chat.ts:177-200).
  Step by step, `EarlyEvents.StepFaithful` says which steps lose events: the ones that need a reset to make room
  while a reset is recorded. After every one of them the lost session's next owner is handed nothing
  (`LostEarlyEvents.LossShows`), or only what came later (`LostEarlyEvents.LossDeliversSuffix`), and no notice.
- **The record can outgrow its own reader.** The store checks the sizes of its lists when it reads, not when it
  prepares or commits. Over any run, the record can be read afterwards if and only if its last write was not a
  prepare that found its journal full or a commit that found its provenance list full
  (`GlobalInheritance.RunReadable`); once it cannot, no operation returns normally or writes again
  (`GlobalInheritance.RunUnreadable`). The input is 1,001 user toggles of different skills whose answers are lost:
  nothing reconciles them in between (`GlobalInheritance.GlobalInheritanceCoordinator.LoseAnswers`).
- **One owner's answer can add to another owner's lease.** A lease without a live id whose answer collides with just
  one other lease in its Profile leaves its aliases to that lease, whoever owns it
  (apps/server/src/chat-session-coordinator.ts:91-107). It is the only way an operation for one owner changes a lease
  of another (`LeaseRegistry.ForeignKept`); `LeaseRegistry.ForeignTouched` is an input.
- **A cursor tells sessions and Profiles apart** only by the text that is signed, in which they are set apart by zero
  characters: exactly if the requested ids hold none (`HistoryCursors.SignedApart`, `HistoryCursors.SignedTogether`).
- **A complete inventory has as many rows as its total only up to 2000 rows**, and then exactly
  (`SessionInventories.TotalIsRows`). An upstream that answers with more than the 100 rows asked for can report a
  larger total and still leave the answer unmarked: one page of 2,001 sessions does
  (`SessionInventories.OverfullPage`).

## Model

| member | source | states |
|---|---|---|
| `SkillLedger.RecordedConsistent` | apps/server/src/hermes-settings.ts:475-573 | Making an intent durable keeps ownership and overrides disjoint, at most one journal in use, one intent per key, and every pending global change justified under the current revision |
| `SkillLedger.AbortedConsistent` | apps/server/src/hermes-settings.ts:535-601 | Withdrawing an intent keeps the same invariant |
| `SkillLedger.SettledConsistent` | apps/server/src/hermes-settings.ts:508-590 | Committing an intent keeps the same invariant |
| `SkillLedger.RecordedThenSettled` | apps/server/src/hermes-settings.ts:475-590 | Recording and then committing leaves the journal as it was, and recording and then aborting leaves the whole record as it was |
| `SkillLedger.SettleCommutes` | apps/server/src/global-inheritance.ts:186-274 | Reconciling two intents for different keys gives the same world in either order |
| `SkillLedger.SettleAllForgetsFlag` | apps/server/src/global-inheritance.ts:225-266 | Whether or not an ambiguous call took effect, reconciling its intent ends in the same world |
| `SkillLedger.SettleAllLedger` | apps/server/src/global-inheritance.ts:186-274 | What reconciling makes of the record does not depend on the state of Hermes |
| `SkillLedger.StillRecovers` | apps/server/src/global-inheritance.ts:225-266 | Reconciling any one intent of a journal, or only its flag, leaves the world that recovery of the journal reaches |
| `SkillLedger.SettleAllApart` | apps/server/src/global-inheritance.ts:186-239 | Recovering one journal leaves the other |
| `SkillLedger.RecoveryEqualsCompletion` | apps/server/src/global-inheritance.ts:186-274 | From any point at which an intent was durable, reconciling reaches the flags, ownership, overrides and journal that the uninterrupted run reaches |
| `SkillLedger.RecoverTwice` | apps/server/src/global-inheritance.ts:186-239 | Reconciling empties the journal, and reconciling again changes nothing |
| `SkillLedger.OverrideRecovers` | apps/server/src/global-inheritance.ts:146-184 | Whatever became of a user's toggle, recovering both journals reaches what the uninterrupted toggle reaches if its intent was durable, and what the world without the toggle reaches if it was not |
| `SkillLedger.RecoveredKey` | apps/server/src/global-inheritance.ts:186-274 | Afterwards a pending key has the desired flag, is owned exactly if it was a global enable, and overridden exactly if it was a user's toggle |
| `SkillLedger.OtherKeysKept` | apps/server/src/global-inheritance.ts:186-274 | Reconciling touches the flag, the ownership and the override of no other key, nor the revision |
| `SkillLedger.SettledReadable` | apps/server/src/hermes-settings.ts:508-590 | A commit leaves a record the store can read again if and only if it does not add the one key too many to a provenance list |
| `SkillLedger.RecordedReadable` | apps/server/src/hermes-settings.ts:475-573 | A prepare leaves a readable record if and only if the journal was not already full |
| `SkillLedger.AccountedRecovers` | apps/server/src/global-inheritance.ts:186-239 | If every flag that moved is accounted for, by ownership that moved with it or by a pending intent, recovery leaves no orphan: no flag moved without its ownership |
| `SkillLedger.AppliedAccounted` | apps/server/src/global-inheritance.ts:193-216 | A change of a pair, cut anywhere, keeps every moved flag accounted for |
| `SkillLedger.RecoverSameBut` | apps/server/src/global-inheritance.ts:186-274 | Worlds that agree on every pair but one, with one journal, still do so after recovery |
| `SkillLedger.CompletedOverride` | apps/server/src/global-inheritance.ts:146-184 | A completed user's toggle, once recovered, has taken over its pair and moved no other |
| `SkillLedger.RecoveredEither` | apps/server/src/global-inheritance.ts:186-223 | The order in which the two journals are recovered does not matter |
| `LedgerHistory.ChangedConsistent` | apps/server/src/hermes-settings.ts:424-601 | Every write the store allows keeps the record's invariant |
| `LedgerHistory.HistoryConsistent` | apps/server/src/hermes-settings.ts:424-601 | After every history of writes, wherever it ends, the invariant holds |
| `LedgerHistory.Continued` | apps/server/src/hermes-settings.ts:424-601 | A history splits at any point into two |
| `LedgerHistory.ChangedReadable` | apps/server/src/hermes-settings.ts:475-590 | A write leaves a readable record if and only if it is not a prepare into a full journal or a commit into a full provenance list |
| `LedgerHistory.HistoryReadable` | apps/server/src/hermes-settings.ts:424-601 | Of every history only the last write can make the record unreadable, and it does so exactly under that condition |
| `LedgerHistory.ReadBeforeWrite` | apps/server/src/hermes-settings.ts:424-601 | Nothing is written over a record that cannot be read |
| `LedgerHistory.LostAnswersLeave` | apps/server/src/global-inheritance.ts:167-182 | n toggles whose answers are lost leave n intents |
| `LedgerHistory.TooManyLostAnswers` | apps/server/src/hermes-settings.ts:681-703 | After 1,001 of them the record cannot be read, and no history goes on |
| `GlobalInheritance.OfficeGlobalSettingsStore.Read` | apps/server/src/hermes-settings.ts:409-422 | A read that returns gives the durable record, and only if that passes the size rules; a steady store returns exactly then |
| `GlobalInheritance.OfficeGlobalSettingsStore.Write` | apps/server/src/hermes-settings.ts:424-601 | A write happens whole or not at all, not at all if it is seen to fail, and is entered in the history if it happens |
| `GlobalInheritance.OfficeGlobalSettingsStore.BeginMaterialization` | apps/server/src/hermes-settings.ts:424-441 | Staging needs the expected revision, raises it by one, takes over the given settings and keeps the provenance; a failure changes nothing |
| `GlobalInheritance.OfficeGlobalSettingsStore.FinishMaterialization` | apps/server/src/hermes-settings.ts:443-460 | Closing a synchronization replaces provenance and outcome together or not at all, and keeps every pending intent justified |
| `GlobalInheritance.OfficeGlobalSettingsStore.Prepare` | apps/server/src/hermes-settings.ts:475-572 | Adds exactly one intent with a new id, or returns the identical pending one; refuses a key that another intent already holds; the same for the global journal, whose intents carry the current revision |
| `GlobalInheritance.OfficeGlobalSettingsStore.Commit` | apps/server/src/hermes-settings.ts:508-590 | However it ends, the record is as before or the intent is settled, and settled if the call returned |
| `GlobalInheritance.OfficeGlobalSettingsStore.Abort` | apps/server/src/hermes-settings.ts:535-601 | However it ends, the record is as before or without the intent |
| `GlobalInheritance.HermesSettings.ListProfiles` | apps/server/src/global-inheritance.ts:64-73 | The list names each Profile once and is logged; asking changes nothing in a quiet world; on a clear line it does not fail |
| `GlobalInheritance.HermesSettings.ListSkills` | apps/server/src/global-inheritance.ts:75-82 | The listing misreports no skill of the Profile; on a clear line it does not fail and misses none; otherwise it may miss some, where the code misses only unreadable rows and rows past the 1,000th |
| `GlobalInheritance.HermesSettings.SetSkillEnabled` | apps/server/src/hermes-settings.ts:157-168 | A toggle checks what was expected; success means it took effect, a definite precondition failure means it did not, and any other failure may be either; every one is logged, and one of the global sync must be rightful |
| `GlobalInheritance.GlobalInheritanceCoordinator.SendGlobalToggle` | apps/server/src/global-inheritance.ts:193-239 | Every toggle of the global sync is logged with the record as it stands, in which its pair is not overridden, and owned exactly if it is disabled |
| `GlobalInheritance.GlobalInheritanceCoordinator.SendUserToggle` | apps/server/src/global-inheritance.ts:146-184 | A user's toggle is logged as one |
| `GlobalInheritance.KeptAfterApply` | apps/server/src/global-inheritance.ts:75-127 | Dealing with one pair keeps the working maps, the record and Hermes in step, whichever way the attempt ended short of a crash |
| `GlobalInheritance.TrackedAttempt` | apps/server/src/global-inheritance.ts:100-125 | The attempt to change one pair, cut anywhere, keeps every moved flag accounted for, by its ownership or by a pending intent, in the record and in the working maps |
| `GlobalInheritance.TrackedWithoutCall` | apps/server/src/global-inheritance.ts:88-118 | A pair that is given up without a call was not switched on before |
| `GlobalInheritance.LeftElsewhere` | apps/server/src/global-inheritance.ts:146-184 | However a user's toggle ended, once recovered every other pair is as it would be without it, and the pair itself as well, or taken over with the flag asked for |
| `GlobalInheritance.GlobalInheritanceCoordinator.Reconcile` | apps/server/src/global-inheritance.ts:225-281 | Reconciling one intent settles it or leaves the record alone; in a quiet world every exit leaves the world as it was, with the flag made right, or with the intent settled as well; in a calm world it succeeds if Hermes has the skill as it was or as it is to be |
| `GlobalInheritance.GlobalInheritanceCoordinator.ReconcileJournal` | apps/server/src/global-inheritance.ts:186-223 | A successful pass settles the whole journal, oldest first; however it ends, in a quiet world recovery is heading where it was before; nothing happens to an empty journal, and nothing at all over an unreadable record; in a calm world it succeeds if that holds of every intent and there is room |
| `GlobalInheritance.GlobalInheritanceCoordinator.ApplyGlobalSkillMutation` | apps/server/src/global-inheritance.ts:193-216 | However it ends, the world is untouched or cut after the durable intent; when it returns, the change is complete and no intent is left |
| `GlobalInheritance.GlobalInheritanceCoordinator.EnableSkill` | apps/server/src/global-inheritance.ts:85-111 | One desired skill of one Profile ends enabled, taken over by its user, or reported, and no other key is moved; cut anywhere, it leaves no flag that recovery does not account for; with nothing in the way exactly what the settings ask for happens to it |
| `GlobalInheritance.GlobalInheritanceCoordinator.DisableSkill` | apps/server/src/global-inheritance.ts:113-126 | One owned skill that is no longer desired ends given up or reported, and no other key is moved; the same for every cut; with nothing in the way exactly what the settings ask for happens to it |
| `GlobalInheritance.GlobalInheritanceCoordinator.EnableDesired` | apps/server/src/global-inheritance.ts:85-111 | The first inner loop deals with every desired skill of the Profile and with nothing else, and with nothing in the way exactly as the settings ask |
| `GlobalInheritance.GlobalInheritanceCoordinator.DisableRest` | apps/server/src/global-inheritance.ts:113-126 | The second inner loop deals with every owned skill that is no longer desired, and with nothing in the way exactly as the settings ask |
| `GlobalInheritance.GlobalInheritanceCoordinator.SyncProfile` | apps/server/src/global-inheritance.ts:75-127 | After one Profile every desired pair and every owned pair of it is dealt with, also when its skills could not be listed; with nothing in the way exactly as the settings ask |
| `GlobalInheritance.GlobalInheritanceCoordinator.SyncProfiles` | apps/server/src/global-inheritance.ts:75-127 | After the outer loop every desired pair of every listed Profile and every owned pair is dealt with; with nothing in the way exactly as the settings ask |
| `GlobalInheritance.GlobalInheritanceCoordinator.Materialize` | apps/server/src/global-inheritance.ts:59-137 | A finished synchronization leaves every pair of the Profiles Hermes named in line with the settings, taken over or reported; it returns normally only without failures; however it ends, in a quiet world a flag has moved only with its ownership, or a pending intent accounts for it; with nothing in the way and within the size limits it finishes with exactly the flags, the ownership, the overrides and the failures that the settings ask for |
| `GlobalInheritance.GlobalInheritanceCoordinator.Close` | apps/server/src/global-inheritance.ts:130-137 | The end of a synchronization: closed, it leaves every pair in line, taken over or reported; cut before that, no flag that recovery does not account for |
| `GlobalInheritance.GlobalInheritanceCoordinator.Update` | apps/server/src/global-inheritance.ts:55-139 | However it ends, crashes included, in a quiet world no flag is orphaned: once recovered, every flag that differs from the recovered world before belongs to a pair whose ownership moved with it. A finished one has brought the Profiles Hermes named in line, with the revision raised by one and the given settings in force. In a calm world, with journals that can be reconciled and within the size limits, it finishes with exactly the flags, ownership, overrides and failures that the settings ask for, and returns normally unless a wanted skill is missing. Over an unreadable record nothing happens |
| `GlobalInheritance.GlobalInheritanceCoordinator.SettleBoth` | apps/server/src/global-inheritance.ts:57-58 | Both journals are settled or recovery is heading where it was; in a calm world both are, if Hermes has every pending skill as it was or as it is to be and there is room |
| `GlobalInheritance.IdealMeans` | apps/server/src/global-inheritance.ts:75-137 | What the settings ask for: every wanted skill that is there is on or taken over, newly owned exactly if it was off and nobody's; what is owned and not wanted is off and given up; nothing else is touched; and a failure is reported only for a wanted skill that is missing |
| `GlobalInheritance.SmoothAfterApply` | apps/server/src/global-inheritance.ts:104-125 | A pair that was changed is as the settings ask, and every other one as before |
| `GlobalInheritance.SmoothWithoutCall` | apps/server/src/global-inheritance.ts:88-103 | So is a wanted pair that needs no call |
| `GlobalInheritance.NextReconcilable` | apps/server/src/global-inheritance.ts:186-239 | After one intent is reconciled the rest of its journal can still be |
| `GlobalInheritance.GlobalInheritanceCoordinator.ApplyProfileSkillOverride` | apps/server/src/global-inheritance.ts:146-184 | After a user's toggle the pair is overridden, not owned, pending in neither journal, and in a quiet world has the flag asked for; in a quiet world every exit leaves recovery of the global journal where it was heading, or the world cut after the durable intent, or an older intent of the pair on its way; with nothing in the way it succeeds, or leaves exactly its intent when the answer is lost; in a calm world a toggle of any pair on which both sides agree succeeds, also of one taken over or pending before, and one of a free pair that Hermes has not as expected is refused and leaves no trace |
| `GlobalInheritance.GlobalInheritanceCoordinator.TakeOver` | apps/server/src/global-inheritance.ts:155-183 | The part after the global journal is recovered, with the same for every exit |
| `GlobalInheritance.GlobalInheritanceCoordinator.ToggleTaken` | apps/server/src/global-inheritance.ts:158-165 | A pair taken over before: the record stays, and only the flag may change; in a calm world it succeeds if Hermes has the flag as it was or as it is to be |
| `GlobalInheritance.GlobalInheritanceCoordinator.ToggleFree` | apps/server/src/global-inheritance.ts:166-184 | Any other pair: every exit leaves the world as it was, cut after the durable intent, or an older intent on its way |
| `GlobalInheritance.GlobalInheritanceCoordinator.CarryOut` | apps/server/src/global-inheritance.ts:171-184 | A recorded toggle ends settled, withdrawn with no flag changed, or still pending with the flag either way |
| `GlobalInheritance.GlobalInheritanceCoordinator.ChangeThenReconcile` | apps/server/src/global-inheritance.ts:193-239 | However a change of the global sync was interrupted, a later pass that returns reaches what the uninterrupted change reaches if its intent was durable, and what the world without it reaches if not |
| `GlobalInheritance.GlobalInheritanceCoordinator.ToggleThenReconcile` | apps/server/src/global-inheritance.ts:146-274 | The same for a user's toggle and a later pass over both journals |
| `GlobalInheritance.GlobalInheritanceCoordinator.Take` | apps/server/src/global-inheritance.ts:55-184 | One operation of a run, with what it wrote and was given, is as the operations promise: in a quiet world a finished update is in line, every update leaves no orphan, and every toggle moves no other pair |
| `GlobalInheritance.RunConsistent` | apps/server/src/global-inheritance.ts:55-274 | Over any run, cut short anywhere, the record is consistent after every single write: ownership and overrides disjoint, one journal in use, every pending global change justified under the current revision |
| `GlobalInheritance.RunReadable` | apps/server/src/hermes-settings.ts:424-601 | Over any run the record stays readable exactly unless the last write was a prepare or commit that met the guard |
| `GlobalInheritance.RunKeepsFlag` | apps/server/src/global-inheritance.ts:55-274 | Over any run in a quiet world, a skill that Office never comes to own and no user toggles keeps its flag, once recovered, wherever operations were cut short |
| `GlobalInheritance.RunUnreadable` | apps/server/src/hermes-settings.ts:603-612 | Once the record is unreadable no operation returns normally or writes again |
| `GlobalInheritance.GlobalInheritanceCoordinator.LoseAnswers` | apps/server/src/global-inheritance.ts:167-182 | The coordinator's own operations reach that record: 1,001 user toggles whose answers are lost, from the first start |
| `GlobalInheritance.GlobalInheritanceCoordinator.Run` | apps/server/src/global-inheritance.ts:55-274 | Any run is a chain of turns that follow one another as the operations promise, made exactly the writes and were given exactly the Profiles they report, and sent no toggle of the global sync that was wrongful |
| `LeaseRegistry.StepSound` | apps/server/src/chat-session-coordinator.ts:37-298 | Every operation keeps: no shared live id or durable id, bound exactly with one live id, unbound only with a pending attempt, at most 4 leases per owner and 256 in all |
| `LeaseRegistry.RunSound` | apps/server/src/chat-session-coordinator.ts:37-298 | The same over any sequence of operations |
| `LeaseRegistry.BindSound` | apps/server/src/chat-session-coordinator.ts:58-112 | Binding keeps all of that, keeps the reservations, and routes no reserved live id to a lease it was not routed to before |
| `LeaseRegistry.AnsweredSound` | apps/server/src/chat-session-coordinator.ts:74-112 | The same for a bind whose identities were accepted, in each of its outcomes |
| `LeaseRegistry.MergeSound` | apps/server/src/chat-session-coordinator.ts:94-107 | Merging a lease into the one it conflicts with keeps all of that |
| `LeaseRegistry.ResumeSound` | apps/server/src/chat-session-coordinator.ts:44-56 | Claiming a resume keeps all of that and never adds a route |
| `LeaseRegistry.ReservationKept` | apps/server/src/chat-session-coordinator.ts:190-235 | An operation other than its own finish or the release of everything keeps a close reservation, and routes its live id to its original lease or to none |
| `LeaseRegistry.NoReplacementWhileClosing` | apps/server/src/chat-session-coordinator.ts:74-111 | The same over any run: while the reservation is outstanding no replacement lease ever hears the live id |
| `LeaseRegistry.StaleKept` | apps/server/src/chat-session-coordinator.ts:190-235 | A reservation token that is out of use never comes back into use |
| `LeaseRegistry.StaleFinishClearsNothing` | apps/server/src/chat-session-coordinator.ts:204-219 | A finish with such a token clears nothing, however much later it comes |
| `LeaseRegistry.CreateExactly` | apps/server/src/chat-session-coordinator.ts:37-42 | A create gives the owner a live claim on a new, empty lease of its own in that Profile, exactly unless a limit is reached, and changes nothing else |
| `LeaseRegistry.ResumeExactly` | apps/server/src/chat-session-coordinator.ts:44-56 | A resume gives the owner a live claim on the lease of its own that has the id in that Profile, or on a new one if nobody has it; it gives none exactly if the id is another owner's, or nobody's and a limit is reached; no other lease changes |
| `LeaseRegistry.BindExactly` | apps/server/src/chat-session-coordinator.ts:58-112 | An answer binds exactly if its claim is live, it is complete, no other lease has one of its ids, its live id is not being closed, and the lease has no other live id; bound, the lease has just these ids, and otherwise no live id moves and a bound lease takes the aliases only if nobody else has one |
| `LeaseRegistry.ForeignKept` | apps/server/src/chat-session-coordinator.ts:37-240 | No operation for one owner changes another owner's lease, except an answer for an unbound lease that collides with that one alone in the same Profile, which then also has its aliases |
| `LeaseRegistry.ForeignTouched` | apps/server/src/chat-session-coordinator.ts:91-107 | The exception happens: an owner that resumed one id and is answered with the id of another owner's session leaves that owner's lease with both |
| `LeaseRegistry.ForeignRunKeeps` | apps/server/src/chat-session-coordinator.ts:37-240 | Over any run in which nothing is done for an owner, and not everything is released, its leases keep their live ids, attempts and Profile and lose no alias |
| `LeaseRegistry.GoesExactly` | apps/server/src/chat-session-coordinator.ts:58-240 | A lease goes exactly if it is released, has no live id and its last attempt fails, or is unbound and its answer collides with just one other |
| `LeaseRegistry.BoundStays` | apps/server/src/chat-session-coordinator.ts:58-240 | Over any run a bound lease keeps owner, Profile and live id and loses no alias, until its owner releases it or everything is released |
| `LeaseRegistry.AnswerSpends` | apps/server/src/chat-session-coordinator.ts:58-120 | A complete answer, bound or not, and giving up both end the attempt |
| `LeaseRegistry.SpentForGood` | apps/server/src/chat-session-coordinator.ts:58-120 | A claim whose attempt has ended is never live again, over any run |
| `LeaseRegistry.AttemptsKept` | apps/server/src/chat-session-coordinator.ts:58-120 | Every other attempt stays live as long as its lease is there |
| `LeaseRegistry.ReserveThenFinish` | apps/server/src/chat-session-coordinator.ts:190-208 | The owner of a bound lease can reserve it as it is unless its live id is being closed, under a new token, and finishing that leaves no trace |
| `LeaseRegistry.ReserveUnownedThenFinish` | apps/server/src/chat-session-coordinator.ts:210-219 | The same for a live id that no lease has |
| `LeaseRegistry.ClosingExactly` | apps/server/src/chat-session-coordinator.ts:190-235 | A live id is being closed exactly from a reservation to its finish or the release of everything |
| `ChatSessionCoordinators.OneDurableHolder` | apps/server/src/chat-session-coordinator.ts:267-270 | The durable map finds, for a Profile and an id, the only lease that carries them |
| `ChatSessionCoordinators.WiredAfterAlias` | apps/server/src/chat-session-coordinator.ts:255-265 | Adding durable aliases keeps the five maps exact inverses of the leases' alias sets |
| `ChatSessionCoordinators.WiredAfterLive` | apps/server/src/chat-session-coordinator.ts:271-276 | So does binding a live id |
| `ChatSessionCoordinators.WiredAfterRelease` | apps/server/src/chat-session-coordinator.ts:286-298 | So does releasing a lease |
| `ChatSessionCoordinators.WiredAfterMerge` | apps/server/src/chat-session-coordinator.ts:94-107 | So does releasing a lease whose durable aliases another lease has taken over just before |
| `ChatSessionCoordinators.AnsweredAlone` | apps/server/src/chat-session-coordinator.ts:77-92 | Without conflicts, binding is: aliases added, live id bound, attempt finished, and each branch of the code takes exactly those of the steps the simple form takes |
| `ChatSessionCoordinators.AnsweredMerge` | apps/server/src/chat-session-coordinator.ts:94-107 | With one conflict, an unbound lease hands its aliases to the other one of the same Profile and goes |
| `ChatSessionCoordinators.AnsweredCollided` | apps/server/src/chat-session-coordinator.ts:85-92 | A bound lease with conflicts keeps its aliases and only drops its attempt |
| `ChatSessionCoordinators.AnsweredForget` | apps/server/src/chat-session-coordinator.ts:94-112 | An unbound lease with several conflicts, or whose live id is being closed, drops its attempt and goes with its last one |
| `ChatSessionCoordinators.ChatSessionCoordinator.CreateClaim` | apps/server/src/chat-session-coordinator.ts:37-42 | Opens a lease with its first attempt within the limits, as the simple form does |
| `ChatSessionCoordinators.ChatSessionCoordinator.ResumeClaim` | apps/server/src/chat-session-coordinator.ts:44-56 | Joins the owner's lease for the id, opens one, or refuses, as the simple form does |
| `ChatSessionCoordinators.ChatSessionCoordinator.BindClaim` | apps/server/src/chat-session-coordinator.ts:58-112 | Result and leases are those of the simple form, over the claim's checks, the conflicts and all branches |
| `ChatSessionCoordinators.ChatSessionCoordinator.Answer` | apps/server/src/chat-session-coordinator.ts:74-112 | The same for accepted identities |
| `ChatSessionCoordinators.ChatSessionCoordinator.CollectConflicts` | apps/server/src/chat-session-coordinator.ts:65-75 | The leases found through the maps are as many as those that share an identity, and the same when there is one |
| `ChatSessionCoordinators.ChatSessionCoordinator.MergeInto` | apps/server/src/chat-session-coordinator.ts:94-107 | The other lease takes the aliases if it is of the same Profile, and this one is released |
| `ChatSessionCoordinators.ChatSessionCoordinator.BindDurableAliases` | apps/server/src/chat-session-coordinator.ts:255-265 | Exactly the given aliases are added to the lease and to the durable map, which stays its inverse when they were free |
| `ChatSessionCoordinators.ChatSessionCoordinator.BindLiveAlias` | apps/server/src/chat-session-coordinator.ts:271-276 | The live id is added to lease and map; no caller can reach the throw, which is its precondition |
| `ChatSessionCoordinators.ChatSessionCoordinator.NewLease` | apps/server/src/chat-session-coordinator.ts:237-248 | Registers one new empty lease object under a new symbol |
| `ChatSessionCoordinators.ChatSessionCoordinator.NewClaim` | apps/server/src/chat-session-coordinator.ts:249-254 | Adds one new attempt to the lease and names it in the claim |
| `ChatSessionCoordinators.ChatSessionCoordinator.ReleaseRegistered` | apps/server/src/chat-session-coordinator.ts:286-298 | The lease leaves all maps, and nothing else does |
| `ChatSessionCoordinators.ChatSessionCoordinator.ReleaseFailedClaim` | apps/server/src/chat-session-coordinator.ts:114-120 | The attempt is gone, and with it an unbound lease that has no other |
| `ChatSessionCoordinators.ChatSessionCoordinator.LeaseFor` | apps/server/src/chat-session-coordinator.ts:281-285 | Finds the lease of a claim exactly while the claim is live |
| `ChatSessionCoordinators.ChatSessionCoordinator.LiveLease` | apps/server/src/chat-session-coordinator.ts:122-126 | The live map answers with the one lease that carries the live id |
| `ChatSessionCoordinators.ChatSessionCoordinator.DurableLease` | apps/server/src/chat-session-coordinator.ts:267-270 | The durable map answers with the one lease that carries the durable id |
| `ChatSessionCoordinators.ChatSessionCoordinator.LiveLeaseToken` | apps/server/src/chat-session-coordinator.ts:127-132 | Names the lease that the live id routes to, if it is the owner's and not being closed |
| `ChatSessionCoordinators.ChatSessionCoordinator.RoutingLeaseToken` | apps/server/src/chat-session-coordinator.ts:133-137 | Names the lease that the live id routes to, if it is the owner's, also while it is being closed |
| `ChatSessionCoordinators.ChatSessionCoordinator.OwnerLeaseCount` | apps/server/src/chat-session-coordinator.ts:156-159 | The owner index counts exactly the owner's registered leases |
| `ChatSessionCoordinators.ChatSessionCoordinator.CanCreateLease` | apps/server/src/chat-session-coordinator.ts:160-164 | True exactly below both limits |
| `ChatSessionCoordinators.ChatSessionCoordinator.ReleaseLease` | apps/server/src/chat-session-coordinator.ts:183-189 | Releases the token's lease if it is the owner's, and says whether it did |
| `ChatSessionCoordinators.ChatSessionCoordinator.ClaimOwnedLeaseClose` | apps/server/src/chat-session-coordinator.ts:190-203 | Reserves all live ids of an unchanged owned lease under one new symbol, or none |
| `ChatSessionCoordinators.ChatSessionCoordinator.ClaimUnownedLiveClose` | apps/server/src/chat-session-coordinator.ts:210-216 | Reserves a live id that no lease carries and nobody is closing |
| `ChatSessionCoordinators.ChatSessionCoordinator.FinishClose` | apps/server/src/chat-session-coordinator.ts:204-219 | Clears exactly the reservations made with that symbol |
| `ChatSessionCoordinators.ChatSessionCoordinator.ReleaseOwner` | apps/server/src/chat-session-coordinator.ts:221-224 | Releases exactly the owner's leases |
| `ChatSessionCoordinators.ChatSessionCoordinator.ReleaseUnboundOwnerLeases` | apps/server/src/chat-session-coordinator.ts:225-231 | Releases exactly the owner's leases without a live id |
| `ChatSessionCoordinators.ChatSessionCoordinator.ReleaseAll` | apps/server/src/chat-session-coordinator.ts:232-236 | Releases every lease and drops every reservation |
| `ChatSessionCoordinators.ChatSessionCoordinator.Do` | apps/server/src/chat-session-coordinator.ts:37-298 | Every method refines its step of the simple form and keeps the five maps and the leases sound |
| `ChatSessionCoordinators.ChatSessionCoordinator.Run` | apps/server/src/chat-session-coordinator.ts:37-298 | Any run of methods refines the run of the simple form |
| `EarlyEvents.DiscardedTotals` | apps/server/src/chat-upstream-hub.ts:544-550 | Dropping a session takes exactly its events and bytes off the totals |
| `EarlyEvents.GrownWithin` | apps/server/src/chat-upstream-hub.ts:517-533 | Taking or refusing one event keeps the totals equal to the sums and all limits |
| `EarlyEvents.StoredWithin` | apps/server/src/chat-upstream-hub.ts:501-533 | Buffering keeps at most 64 sessions, 32 events each, 128 events, 256 KiB and 128 tombstones, with tombstoned and buffered ids disjoint |
| `EarlyEvents.StepWithin` | apps/server/src/chat-upstream-hub.ts:490-603 | Every step keeps that |
| `EarlyEvents.RunWithin` | apps/server/src/chat-upstream-hub.ts:490-603 | Every run keeps that |
| `EarlyEvents.OverrunFaithful` | apps/server/src/chat-upstream-hub.ts:559-587 | When neither a session nor a tombstone has room, a fresh reset forgets everything together; a recorded one loses the oldest session's events |
| `EarlyEvents.StoredFaithful` | apps/server/src/chat-upstream-hub.ts:501-533 | Otherwise what is buffered for a session stays all that was routed early, or is marked for a resync |
| `EarlyEvents.StepFaithful` | apps/server/src/chat-upstream-hub.ts:490-603 | A step keeps that for every session if and only if it does not need a reset to make room while one is recorded as running |
| `EarlyEvents.RunFaithful` | apps/server/src/chat-upstream-hub.ts:490-603 | The same over any run without such a step |
| `EarlyEvents.FlushDelivers` | apps/server/src/chat-upstream-hub.ts:245-264 | Flushing an owned live id hands its attached owner all early events in order, or one resync notice |
| `EarlyEvents.AllOrResync` | apps/server/src/chat-upstream-hub.ts:245-269 | All or resync at the end of any run without a losing step, for any interleaving of events, evictions, discards, binds and resets |
| `EarlyEvents.StuckStep` | apps/server/src/chat-upstream-hub.ts:569-587 | A record of a reset stays if and only if the reset was requested with nothing connected, until the hub is closed; only while it stays can a step lose events |
| `EarlyEvents.ServedLossless` | apps/server/src/chat-upstream-hub.ts:490-603 | Over any run in which no reset is requested while nothing is connected, no step loses events |
| `EarlyEvents.ServedAllOrResync` | apps/server/src/chat-upstream-hub.ts:245-269 | All or resync at the end of any such run |
| `EarlyEvents.StepSent` | apps/server/src/chat-upstream-hub.ts:245-264 | What a step hands an owner about a live id: the event, if it was routed while the owner had the id and was attached; what a flush of its own takes; and nothing else |
| `EarlyEvents.WaitsOwed` | apps/server/src/chat-upstream-hub.ts:490-499 | While nobody owns a live id, all that comes for it in the current generation is owed, in order, and nobody is sent any of it |
| `EarlyEvents.OwnsSent` | apps/server/src/chat-upstream-hub.ts:490-499 | While an attached owner has it, that owner is sent all that comes for it, each once and in order, nobody else is sent any, and nothing more is owed |
| `EarlyEvents.SessionSent` | apps/server/src/chat-upstream-hub.ts:245-499 | Over a whole run of a session: what came before it was owned is handed over or noticed at its first flush, what comes while it is owned is sent as it comes, in order, to its owner alone |
| `EarlyEvents.AllSent` | apps/server/src/chat-upstream-hub.ts:245-533 | As long as there was room for every event, a flush hands over all of them and no notice |
| `EarlyEvents.EndsGeneration` | apps/server/src/chat-upstream-hub.ts:438-455 | Losing the connection, a reset and closing leave nothing owned, buffered or connected |
| `EarlyEvents.LateEventsIgnored` | apps/server/src/chat-upstream-hub.ts:490-491 | After that, late events of the old generation make no difference to what is sent or to the state, over any run |
| `EarlyEvents.ResetThenNew` | apps/server/src/chat-upstream-hub.ts:569-587 | A reset of a connected hub that has run its course leaves it as new, in a later generation |
| `EarlyEvents.DetachedSentNothing` | apps/server/src/chat-upstream-hub.ts:117-119 | A detached owner is sent nothing until it is attached again, over any run |
| `EarlyEvents.UnownedSentNothing` | apps/server/src/chat-upstream-hub.ts:490-499 | About a live id that nobody owns nobody is sent anything until somebody does, over any run |
| `EarlyEvents.TurnsExactly` | apps/server/src/chat-upstream-hub.ts:98-119 | Attaching, detaching, binding and unbinding take effect at once and on nobody else |
| `LostEarlyEvents.LossyRunFills` | apps/server/src/chat-upstream-hub.ts:501-587 | After any reset requested with nothing connected, one event each for 192 sessions fills buffer and tombstones |
| `LostEarlyEvents.FullOverruns` | apps/server/src/chat-upstream-hub.ts:559-587 | The next session's event loses the oldest session's |
| `LostEarlyEvents.SuffixRunLoses` | apps/server/src/chat-upstream-hub.ts:501-587 | A second event for that session is buffered as if it were the first |
| `LostEarlyEvents.SuffixDelivered` | apps/server/src/chat-upstream-hub.ts:245-264 | Whenever a reset is requested with nothing connected, there is a run from there, its events all over a connection, after which binding, attaching and flushing a session delivers its second event alone, without a notice |
| `LostEarlyEvents.LosingStep` | apps/server/src/chat-upstream-hub.ts:559-587 | A losing step drops the oldest session's events, which were some, and leaves no mark |
| `LostEarlyEvents.LossShows` | apps/server/src/chat-upstream-hub.ts:245-264 | After any losing step, binding, attaching and flushing the lost session delivers nothing and no notice |
| `LostEarlyEvents.LossDeliversSuffix` | apps/server/src/chat-upstream-hub.ts:245-264 | With a further event that fits in between, it delivers that event alone: a proper suffix |
| `ChatUpstreamHubs.ChatUpstreamHub.BufferUnbound` | apps/server/src/chat-upstream-hub.ts:501-533 | The maps and running totals end as the specified buffer does |
| `ChatUpstreamHubs.ChatUpstreamHub.Append` | apps/server/src/chat-upstream-hub.ts:517-533 | One event is added, or the session is emptied and marked, with the totals to match |
| `ChatUpstreamHubs.ChatUpstreamHub.TakeBuffered` | apps/server/src/chat-upstream-hub.ts:535-542 | Returns and forgets what is held; a tombstone's precedence never matters |
| `ChatUpstreamHubs.ChatUpstreamHub.DiscardBuffered` | apps/server/src/chat-upstream-hub.ts:544-550 | Exactly this session leaves the buffer and the totals |
| `ChatUpstreamHubs.ChatUpstreamHub.ClearBuffered` | apps/server/src/chat-upstream-hub.ts:552-557 | Buffer, tombstones and totals are empty |
| `ChatUpstreamHubs.ChatUpstreamHub.MarkDropped` | apps/server/src/chat-upstream-hub.ts:559-567 | Leaves a tombstone, or asks for a reset when there is no room for one |
| `ChatUpstreamHubs.ChatUpstreamHub.RouteEvent` | apps/server/src/chat-upstream-hub.ts:490-499 | Delivers to the attached owner, buffers for nobody's session, ignores another generation |
| `ChatUpstreamHubs.ChatUpstreamHub.FlushLiveSession` | apps/server/src/chat-upstream-hub.ts:245-264 | Sends what is specified for the flush and forgets the session |
| `ChatUpstreamHubs.ChatUpstreamHub.DiscardBufferedSession` | apps/server/src/chat-upstream-hub.ts:266-269 | Forgets the session and sends nothing |
| `ChatUpstreamHubs.ChatUpstreamHub.ResetGeneration` | apps/server/src/chat-upstream-hub.ts:569-587 | Acts once per generation; with nothing connected its record stays |
| `ChatUpstreamHubs.ChatUpstreamHub.UpstreamUnavailable` | apps/server/src/chat-upstream-hub.ts:589-603 | Clears buffer and routes and starts a new generation, unless stopping or late |
| `ChatUpstreamHubs.ChatUpstreamHub.Close` | apps/server/src/chat-upstream-hub.ts:438-455 | Clears everything and accepts nothing afterwards |
| `ChatUpstreamHubs.ChatUpstreamHub.Do` | apps/server/src/chat-upstream-hub.ts:245-603 | Every method is its specified step, and keeps the buffer faithful to what was routed exactly when the step is not a losing one |
| `ChatUpstreamHubs.ChatUpstreamHub.Run` | apps/server/src/chat-upstream-hub.ts:245-603 | Any run sends exactly what the specified steps send, and owes what they owe |
| `Base64Url.DecodeEncode` | apps/server/src/history-http.ts:219-258 | Decoding what was encoded gives the bytes back (section 5 of RFC 4648) |
| `Base64Url.CanonicalExactly` | apps/server/src/history-http.ts:250-258 | The canonical decoder accepts a text for some bytes if and only if it is the encoding of these bytes and not empty |
| `Base64Url.EncodedLength` | apps/server/src/history-http.ts:219-258 | The encoding has four letters for every three bytes, rounded up, without padding |
| `Base64Url.Vectors` | apps/server/src/history-http.ts:249-258 | The test vectors of section 10 of RFC 4648, without padding |
| `HistoryCursors.DigitsAreNumeral` | apps/server/src/history-http.ts:219-248 | A printed number is a numeral of the cursor's grammar that reads back as the number |
| `HistoryCursors.NumeralIsDigits` | apps/server/src/history-http.ts:226-248 | An accepted numeral is the printed form of its value |
| `HistoryCursors.SplitOfJoin` | apps/server/src/history-http.ts:219-248 | Splitting joined fields at the colons gives the fields back |
| `HistoryCursors.JoinOfSplit` | apps/server/src/history-http.ts:226-248 | Joining split fields gives the text back |
| `HistoryCursors.FieldsMatch` | apps/server/src/history-http.ts:219-248 | The fields of a state within the limits pass the pattern and are read as the state |
| `HistoryCursors.CursorFits` | apps/server/src/history-http.ts:219-224 | A cursor of a state within the limits is at most 354 characters, so within the 512 allowed |
| `HistoryCursors.PrintedParses` | apps/server/src/history-http.ts:219-262 | An emitted cursor decodes to the state under the same session, profile, limits and key |
| `HistoryCursors.ParsedIsPrinted` | apps/server/src/history-http.ts:226-262 | Any accepted cursor is the emitted one of a state within the limits |
| `HistoryCursors.DecodeExactly` | apps/server/src/history-http.ts:219-262 | A text decodes to a state if and only if the state is within the limits and the text is its cursor |
| `HistoryCursors.CursorBound` | apps/server/src/history-http.ts:219-262 | A cursor made for one session and Profile is accepted for another exactly if the two are signed alike |
| `HistoryCursors.SignedApart` | apps/server/src/history-http.ts:260-262 | What is signed differs for different sessions or Profiles, as long as the requested ids hold no zero character |
| `HistoryCursors.SignedTogether` | apps/server/src/history-http.ts:260-262 | With a zero in them, a cursor of one is accepted for another pair as well |
| `HistoryPager.NormalizedShape` | apps/server/src/hermes-chat.ts:476-504 | Normalization keeps order and positions and loses exactly the unreadable rows |
| `HistoryPager.WindowSplit` | apps/server/src/history-http.ts:50-79 | Adjacent windows of the history join without gap or repetition |
| `HistoryPager.WindowFrom` | apps/server/src/history-http.ts:102-150 | Cutting a window at a message leaves the window that starts at that message's row |
| `HistoryPager.Stop` | apps/server/src/history-http.ts:115-129 | Everything from the stopping point on joined within all budgets, and the message before it does not |
| `HistoryPager.TakeNewest` | apps/server/src/history-http.ts:111-129 | The loop keeps exactly the messages from the stopping point on, with their size, and names the budget that stopped it |
| `HistoryPager.FitPage` | apps/server/src/history-http.ts:102-193 | Answers with the page of these messages, or with the error when not one fits or the page's metadata does not |
| `HistoryPager.ServePage` | apps/server/src/history-http.ts:50-79 | The same behind the checks of what the upstream returned, which are answered with an error |
| `HistoryPager.ContinuingPage` | apps/server/src/history-http.ts:102-193 | A page with more to come strictly lowers the offset, counts the messages as end less offset, and holds exactly the rows between the two offsets |
| `HistoryPager.LastPage` | apps/server/src/history-http.ts:102-193 | A last page without a reason reaches row 0, and every row of the window was readable |
| `HistoryPager.PageWithinLimits` | apps/server/src/history-http.ts:102-193 | Pages, messages, bytes and the response's size stay within their limits |
| `HistoryPager.PageJustified` | apps/server/src/history-http.ts:115-149 | A page gives a limit as its reason only if it met it or the next message would have, and dropped rows exactly if there were any; without a reason it met none, and has more to come or reached the start of the whole history |
| `HistoryPager.ErrorJustified` | apps/server/src/history-http.ts:144-148 | The error about an oversized message is raised only if not one message of the page fits |
| `HistoryPager.ReasonMet` | apps/server/src/history-http.ts:115-149 | The reason a page of a run carries is true of the history: pages used up, at least as many rows as the message limit, at least the byte limit in all, or an unreadable row |
| `HistoryPager.RoomyPage` | apps/server/src/history-http.ts:102-149 | Over a readable history within the limits, every page takes all rows it asked for, and only the number of pages can end the load before row 0 |
| `HistoryLoaders.HistoryAccumulator.AcceptOlder` | apps/web/src/history-loader.ts:45-56 | Of an older page the client keeps the longest suffix that fits, with the reason for stopping |
| `HistoryLoaders.HistoryAccumulator.AcceptNewer` | apps/web/src/history-loader.ts:45-56 | Of a newer page it keeps the longest prefix that fits, with the reason for stopping |
| `HistoryLoaders.HistoryAccumulator.Take` | apps/web/src/history-loader.ts:45-58 | What was kept is put before or after what was there, in order |
| `HistoryLoaders.HistoryAccumulator.Append` | apps/web/src/history-loader.ts:45-70 | Asks for more exactly when the server has more and no limit was met, and records the first reason |
| `HistoryLoaders.TurnPage` | apps/server/src/history-http.ts:50-193 | One page of a valid cursor: the rows just below its offset, a valid next cursor, or the end; over a readable history within the limits it is full |
| `HistoryLoaders.LoadHistory` | apps/web/src/history-loader.ts:45-89 | Following the cursors to any end, through encoding and decoding, the client holds a gap-free newest window in order; with no reason and no failure it holds every row of the history; a load ends with a reason only if that is true of the history or of its pages, and a readable history within the limits of both sides is loaded whole, without a failure or a reason |
| `HistoryLoaders.StopMet` | apps/web/src/history-loader.ts:45-72 | The client stops for a reason that is true of the history, or of the pages it took |
| `HistoryLoaders.AmpleAppend` | apps/web/src/history-loader.ts:45-72 | Of a history within its limits the client takes every page whole and goes on |
| `HistoryLoaders.JoinedLow` | apps/web/src/history-loader.ts:45-58 | A kept suffix of an older page and the window above it are one window again |
| `Utf16.ApartPoints` | apps/web/src/live-transcript.ts:139-169 | Appending where no surrogate pair is joined appends the code points |
| `Utf16.JoinedPoints` | apps/web/src/live-transcript.ts:165-169 | Appending where a pair is joined makes one code point of two units |
| `Utf16.AppendedBytes` | apps/web/src/live-transcript.ts:139-147 | Sizes of an appended text add up, less 8 JSON bytes or 2 UTF-8 bytes when a pair is joined (section 25.5.2 of ECMA-262, section 3 of RFC 3629) |
| `Utf16.JsonStringContentBytes` | apps/web/src/live-transcript.ts:149-163 | The counting loop equals the sum over the code points, lone surrogates and escapes included |
| `LiveTranscripts.BytesReplaced` | apps/web/src/live-transcript.ts:77-95 | Replacing one row moves the total by the difference of the two rows |
| `LiveTranscripts.SuffixIsLongest` | apps/web/src/live-transcript.ts:112-129 | The window contains every other suffix that fits |
| `LiveTranscripts.SuffixFound` | apps/web/src/live-transcript.ts:112-129 | A fitting suffix that cannot be extended is the window |
| `LiveTranscripts.WindowedWithinLimits` | apps/web/src/live-transcript.ts:178-184 | An accepted window is within 500 rows and 8 MiB, keeps every row it must preserve, and says whether it cut |
| `LiveTranscripts.AcceptedWithinLimits` | apps/web/src/live-transcript.ts:45-75 | After an accepted delta the transcript is within its limits, holds the row, and the streamed body is within 1 MiB |
| `LiveTranscripts.AppendedExactly` | apps/web/src/live-transcript.ts:36-43 | A new row is accepted if and only if it breaks no limit by itself and the transcript was within 500 rows; it is the last row then, and older rows make room |
| `LiveTranscripts.ReplacedWithinLimits` | apps/web/src/live-transcript.ts:77-95 | After an accepted replacement the transcript is within its limits and holds the row, whose body is within 1 MiB where that is enforced |
| `LiveTranscripts.AllReplacedWithinLimits` | apps/web/src/live-transcript.ts:97-110 | After all rows are replaced the transcript is within its limits, has lost no row to preserve, and no streaming or preserved row is over 1 MiB |
| `LiveTranscripts.WindowedExactly` | apps/web/src/live-transcript.ts:178-184 | The window is accepted exactly if all rows fit or each row to preserve is among the newest that do, and then is those; otherwise the limit that was broken is named |
| `LiveTranscripts.DeltaIs` | apps/web/src/live-transcript.ts:45-58 | A delta goes to the first row with its id, whose body is the old one and the delta, or to a new row at the end; every other row is as it was |
| `LiveTranscripts.ExtendedExactly` | apps/web/src/live-transcript.ts:45-75 | Within the limits a row has by itself, a delta leaves exactly the newest of those rows that fit; over the streaming limit it asks for a resync |
| `LiveTranscripts.ReplacedExactly` | apps/web/src/live-transcript.ts:77-95 | The same for one row replaced |
| `LiveTranscripts.AllReplacedExactly` | apps/web/src/live-transcript.ts:97-110 | The same for all rows replaced |
| `LiveTranscripts.LiveTranscript.ChatMessageBytes` | apps/web/src/live-transcript.ts:20-26 | The cached size is the recount |
| `LiveTranscripts.LiveTranscript.Utf8BodyBytes` | apps/web/src/live-transcript.ts:131-137 | The cached body size is the recount |
| `LiveTranscripts.LiveTranscript.ChatTranscriptBytes` | apps/web/src/live-transcript.ts:28-34 | The cached total is the recount |
| `LiveTranscripts.LiveTranscript.BoundedTranscriptSuffix` | apps/web/src/live-transcript.ts:112-129 | Finds the longest fitting suffix and says whether it is shorter |
| `LiveTranscripts.LiveTranscript.NewestWindow` | apps/web/src/live-transcript.ts:178-184 | Windows as specified by a full recount, or asks for a resync when a row to preserve would go |
| `LiveTranscripts.LiveTranscript.AppendLiveMessage` | apps/web/src/live-transcript.ts:36-43 | Appends as specified by a full recount |
| `LiveTranscripts.LiveTranscript.ReplaceLiveMessage` | apps/web/src/live-transcript.ts:77-95 | Replaces as specified by a full recount |
| `LiveTranscripts.LiveTranscript.AppendLiveDelta` | apps/web/src/live-transcript.ts:45-75 | The incremental path answers as a full recount would, surrogate pairs split over deltas included |
| `LiveTranscripts.LiveTranscript.ExtendStreaming` | apps/web/src/live-transcript.ts:58-75 | The part of it that works on cached sizes leaves all caches equal to the recount |
| `LiveTranscripts.LiveTranscript.ReplaceLiveMessages` | apps/web/src/live-transcript.ts:97-110 | Replaces all rows as specified by a full recount |
| `WireBudget.PrefixPoints` | apps/server/src/chat-gateway.ts:685-698 | A prefix by code points never splits a pair and the whole is its own last prefix |
| `WireBudget.PrefixGrows` | apps/server/src/chat-gateway.ts:689-697 | A longer prefix never encodes shorter, which the binary search relies on |
| `WireBudget.LongestFitFound` | apps/server/src/chat-gateway.ts:689-698 | A prefix that fits and whose successor does not is the longest |
| `WireBudget.LongestFitIs` | apps/server/src/chat-gateway.ts:689-698 | The longest prefix fits and its successor does not |
| `WireBudget.OrderHolds` | apps/server/src/chat-gateway.ts:679-681 | Every present text field is tried exactly once |
| `WireBudget.OrderDescends` | apps/server/src/chat-gateway.ts:679-681 | Larger fields come first, equal ones in their listed order |
| `WireBudget.LongestPrefix` | apps/server/src/chat-gateway.ts:689-698 | The binary search finds the longest prefix that fits |
| `WireBudget.Serialize` | apps/server/src/chat-gateway.ts:672-716 | Exact when it fits, else cut as specified, else the notice, else the minimal notice |
| `WireBudget.CutFits` | apps/server/src/chat-gateway.ts:682-700 | A cut event is within the budget |
| `WireBudget.CutTouches` | apps/server/src/chat-gateway.ts:682-700 | Only the fields tried before are emptied, one field is a prefix of itself, and all others are whole |
| `WireBudget.WithinBudget` | apps/server/src/chat-gateway.ts:672-716 | The output is within budget whenever the minimal notice is |
| `WireBudget.SerializedMost` | apps/server/src/chat-gateway.ts:672-716 | The event goes out whole exactly when it fits; otherwise one field keeps the longest prefix that fits, the larger ones nothing and the smaller ones all, and the larger ones alone would not have been enough; a notice goes out only when emptying no field is enough |
| `ProfilePools.JoinedSafe` | apps/server/src/hermes-profile-pool.ts:49-69 | Counting a caller on an entry keeps the pool safe: never over its size, no profile both running and starting, every lease count, of entries and of starts, equal to the handles and callers owed |
| `ProfilePools.JoinedStartSafe` | apps/server/src/hermes-profile-pool.ts:61-65 | So does counting it on a start |
| `ProfilePools.StartedSafe` | apps/server/src/hermes-profile-pool.ts:136-158 | So does starting a backend |
| `ProfilePools.SucceededSafe` | apps/server/src/hermes-profile-pool.ts:139-149 | So does a start that succeeds |
| `ProfilePools.SucceededCounts` | apps/server/src/hermes-profile-pool.ts:139-149 | The start's own counter becomes the entry's, which from then on counts exactly the callers that were counted on the start |
| `ProfilePools.FailedSafe` | apps/server/src/hermes-profile-pool.ts:150-155 | So does a start that fails, together with all its callers |
| `ProfilePools.HandedOverSafe` | apps/server/src/hermes-profile-pool.ts:203-217 | So does handing a counted caller its lease |
| `ProfilePools.ReleasedSafe` | apps/server/src/hermes-profile-pool.ts:208-214 | So does a release, before which the count is at least 1, so that its clamp at 0 never acts |
| `ProfilePools.HeardSafe` | apps/server/src/hermes-profile-pool.ts:101-104 | So does the announcement that a backend has exited |
| `ProfilePools.DroppedSafe` | apps/server/src/hermes-profile-pool.ts:49-60 | So does taking out an entry, as long as a waiting allocation will be told |
| `ProfilePools.DiedSafe` | apps/server/src/hermes-profile-pool.ts:101-104 | So does a process that exits |
| `ProfilePools.DecidedSafe` | apps/server/src/hermes-profile-pool.ts:127-158 | So does a turn of the allocation loop, evicting or starting |
| `ProfilePools.OldestIs` | apps/server/src/hermes-profile-pool.ts:164-170 | The search in insertion order finds an unleased entry none of the unleased ones was used before, and none only if there is none |
| `ProfilePools.DecidedExactly` | apps/server/src/hermes-profile-pool.ts:127-161 | With room the profile is started and its caller counted; full, an idle entry goes that no idle one was used before; without an idle one the allocation waits; closed, it ends |
| `ProfilePools.ResolvedExactly` | apps/server/src/hermes-profile-pool.ts:49-69 | A running backend is leased and counted, one whose process is gone goes, a starting one is joined and counted, and otherwise nothing changes |
| `ProfilePools.AcquiredExactly` | apps/server/src/hermes-profile-pool.ts:108-125 | Under the lock the same for a caller served later, and a closed pool gives nothing |
| `ProfilePools.UsedExactly` | apps/server/src/hermes-profile-pool.ts:206-214 | An entry is used when it comes up and when a lease on it is released, and at no other time |
| `ProfilePools.ServedExactly` | apps/server/src/hermes-profile-pool.ts:203-205 | A counted caller of a backend that is up is handed a lease on it, and nobody else anything |
| `ProfilePools.HeardExactly` | apps/server/src/hermes-profile-pool.ts:101-104 | After its exit is announced a backend is no entry, every other entry is, and a waiting allocation is woken |
| `ProfilePools.GoneNeverLeased` | apps/server/src/hermes-profile-pool.ts:49-69 | A backend whose process has exited is never leased again, over any run |
| `ProfilePools.ClosedStartsNothing` | apps/server/src/hermes-profile-pool.ts:71-113 | A closed pool stays closed and starts nothing, over any run |
| `ProfilePools.ClosingCloses` | apps/server/src/hermes-profile-pool.ts:71-80 | Closing closes, and its end leaves nothing |
| `ProfilePools.StepSafe` | apps/server/src/hermes-profile-pool.ts:49-217 | So does every step |
| `ProfilePools.RunSafe` | apps/server/src/hermes-profile-pool.ts:49-217 | So does any interleaving |
| `ProfilePools.StaysOver` | apps/server/src/hermes-profile-pool.ts:71-80 | A pool that was closed and cleared holds no backend ever after |
| `ProfilePools.RelockedSafe` | apps/server/src/hermes-profile-pool.ts:108-161 | So does passing on the allocation lock; it waits only while none of the pool is idle, and the pool is full or an exit is still to be announced |
| `ProfilePools.HermesProfileBackendPool.Resolve` | apps/server/src/hermes-profile-pool.ts:49-69 | Leases the running backend, takes out one whose process is gone, then joins the start or must allocate |
| `ProfilePools.HermesProfileBackendPool.BeginAllocate` | apps/server/src/hermes-profile-pool.ts:108-125 | Under the lock it looks again in the same way, and refuses once the pool is closed |
| `ProfilePools.HermesProfileBackendPool.OldestIdle` | apps/server/src/hermes-profile-pool.ts:164-170 | Finds what the search in insertion order finds |
| `ProfilePools.HermesProfileBackendPool.Decide` | apps/server/src/hermes-profile-pool.ts:127-137 | Starts if there is room, else evicts an oldest idle entry, else waits |
| `ProfilePools.HermesProfileBackendPool.Resume` | apps/server/src/hermes-profile-pool.ts:172-195 | After an eviction the holder decides again; after a timeout it gives the lock up |
| `ProfilePools.HermesProfileBackendPool.StartSucceeded` | apps/server/src/hermes-profile-pool.ts:139-149 | The start becomes an entry with the leases counted so far |
| `ProfilePools.HermesProfileBackendPool.StartFailed` | apps/server/src/hermes-profile-pool.ts:150-155 | The start and its callers are gone, and a waiter is woken |
| `ProfilePools.HermesProfileBackendPool.PublicLease` | apps/server/src/hermes-profile-pool.ts:203-217 | The counted caller holds a lease, and no count moves |
| `ProfilePools.HermesProfileBackendPool.Release` | apps/server/src/hermes-profile-pool.ts:206-214 | The first release of a handle takes one lease off and wakes a waiter; a second one does nothing |
| `ProfilePools.HermesProfileBackendPool.ChildExited` | apps/server/src/hermes-profile-pool.ts:101-104 | Only the entry of that very backend is dropped, and a waiter is woken |
| `ProfilePools.HermesProfileBackendPool.ProcessExited` | apps/server/src/hermes-profile-pool.ts:101-104 | From then on the process is gone, and if it was an entry its exit is still to be announced |
| `ProfilePools.HermesProfileBackendPool.Close` | apps/server/src/hermes-profile-pool.ts:71-80 | The first close wakes a waiter, after which nothing is allocated |
| `ProfilePools.HermesProfileBackendPool.FinishClose` | apps/server/src/hermes-profile-pool.ts:71-80 | Takes every entry out and stops exactly their processes |
| `ProfilePools.HermesProfileBackendPool.Do` | apps/server/src/hermes-profile-pool.ts:49-217 | Every event is its specified step |
| `ProfilePools.HermesProfileBackendPool.Run` | apps/server/src/hermes-profile-pool.ts:49-217 | Any interleaving ends where the specified steps end, and safe |
| `ApprovalQueues.HeadLeftSound` | apps/server/src/chat-gateway.ts:580-652 | When a head leaves, the next one is shown, and still: one lease per queue, ids in order of arrival, exactly the head shown, one claim at most |
| `ApprovalQueues.ArrivedSound` | apps/server/src/chat-gateway.ts:456-478 | An arrival keeps that, whether it joins its lease's queue, replaces another's or overflows |
| `ApprovalQueues.AnsweredSound` | apps/server/src/chat-gateway.ts:280-304 | Processing an answer keeps that, claimed or refused |
| `ApprovalQueues.FinishedSound` | apps/server/src/chat-gateway.ts:580-616 | Consuming, giving back or expiring a claim keeps that and ends the claim |
| `ApprovalQueues.LeavingOnce` | apps/server/src/chat-gateway.ts:581-625 | What leaves a queue has not left before, was not consumed before, and is in no queue afterwards |
| `ApprovalQueues.StepSound` | apps/server/src/chat-gateway.ts:280-304 | Every step keeps all of it, including that approvals are shown in order of arrival and those gone stay gone |
| `ApprovalQueues.ReceivedBeforeShown` | apps/server/src/chat-gateway.ts:280-296 | A frame received while an approval was not yet shown is too early for it |
| `ApprovalQueues.StaleKept` | apps/server/src/chat-gateway.ts:280-296 | A frame that came too early or too late stays so after every step |
| `ApprovalQueues.StaleNeverClaims` | apps/server/src/chat-gateway.ts:280-304 | Such a frame claims nothing after any further run, however late it is processed |
| `ApprovalQueues.ArrivedExactly` | apps/server/src/chat-gateway.ts:456-478 | An arrival waits last behind those of its lease or, the first of its lease, is shown at once with its time; it is turned away exactly when it is one session or one approval too many |
| `ApprovalQueues.AnsweredExactly` | apps/server/src/chat-gateway.ts:280-304 | An answer claims the approval exactly if it is for the one shown, unclaimed, of the live lease, came after it was shown and in time, and its choice was offered; one that came too late takes it off, and one for another lease the queue |
| `ApprovalQueues.FinishedExactly` | apps/server/src/chat-gateway.ts:580-622 | An accepted answer is consumed and leaves, a refused one is given back while there is time and leaves unconsumed after that, and whenever one leaves the next is shown |
| `ApprovalQueues.TimelyAnswerClaims` | apps/server/src/chat-gateway.ts:280-304 | Whatever happens in between, an answer that came in time with an offered choice claims the approval shown |
| `ApprovalQueues.PurgedExactly` | apps/server/src/chat-gateway.ts:142-145 | A purge empties that session's queue and touches no other |
| `ApprovalQueues.ReceivedLater` | apps/server/src/chat-gateway.ts:418-431 | A frame comes after everything shown or received before it |
| `ChatApprovals.ChatApprovalDesk.Receive` | apps/server/src/chat-gateway.ts:430-430 | A received frame is the next event of the socket's chronology |
| `ChatApprovals.ChatApprovalDesk.ApprovalRequested` | apps/server/src/chat-gateway.ts:456-478 | Queues, replaces or overflows as specified; ignored without a routing lease |
| `ChatApprovals.ChatApprovalDesk.ActivateApproval` | apps/server/src/chat-gateway.ts:646-652 | The head is shown with the next chronology number and its expiry |
| `ChatApprovals.ChatApprovalDesk.ShiftHead` | apps/server/src/chat-gateway.ts:618-624 | The head leaves, and the next one is shown or the queue is gone |
| `ChatApprovals.ChatApprovalDesk.Respond` | apps/server/src/chat-gateway.ts:280-304 | Claims exactly an acceptable head of the live lease; drops a queue of another lease, lets an expired head go |
| `ChatApprovals.ChatApprovalDesk.Settle` | apps/server/src/chat-gateway.ts:381-392 | Consumes, gives back or expires exactly the approval that the request holds |
| `ChatApprovals.ChatApprovalDesk.PurgePendingLease` | apps/server/src/chat-gateway.ts:142-152 | Drops exactly the queues with an approval of the lease |
| `ChatApprovals.ChatApprovalDesk.Shutdown` | apps/server/src/chat-gateway.ts:158-164 | Drops every queue; claims in flight keep nothing alive |
| `AttemptLimiters.SpentLedgered` | apps/server/src/office-auth.ts:435-450 | A window's count stays the number of admissions made in it |
| `AttemptLimiters.SpentCapped` | apps/server/src/office-auth.ts:435-450 | Whatever is spent next, a window that was current once has admitted at most the key's limit |
| `AttemptLimiters.AttemptedSound` | apps/server/src/office-auth.ts:419-433 | A whole attempt keeps the account, and caps every window its keys have before, in between or after it |
| `AttemptLimiters.RestCapped` | apps/server/src/office-auth.ts:419-450 | From any account with a cap on a window, the rest of a run stays under it |
| `AttemptLimiters.KeyLimit` | apps/server/src/office-auth.ts:419-450 | Of all attempts of any run under a non-decreasing clock, those answered yes that needed a key within any one window it ever has number at most its limit |
| `AttemptLimiters.AdmittedOpens` | apps/server/src/office-auth.ts:435-450 | Every attempt answered yes falls in such a window of each key it needs |
| `AttemptLimiters.BelowIsAdmitted` | apps/server/src/office-auth.ts:419-450 | Over any run, an attempt is answered yes if in the last minute each key it needs was needed by fewer attempts than its limit |
| `AttemptLimiters.AllowsWhenFew` | apps/server/src/office-auth.ts:435-450 | A share is granted if fewer than its limit were granted in the last minute |
| `AttemptLimiters.SpentAccounted` | apps/server/src/office-auth.ts:435-450 | A further key is paid for by an admission of the current or the previous global window |
| `AttemptLimiters.GlobalAccounted` | apps/server/src/office-auth.ts:419-433 | A new global window starts a new account with the previous one's keys |
| `AttemptLimiters.AttemptLimiter.FewKeys` | apps/server/src/office-auth.ts:23-29 | At most 401 keys are ever held, so the eviction at 512 never fires |
| `AttemptLimiters.AttemptLimiter.ConsumeAttempt` | apps/server/src/office-auth.ts:435-450 | With room for the key, expired windows go and one attempt is spent or refused, and nothing is evicted |
| `AttemptLimiters.AttemptLimiter.ConsumeGlobal` | apps/server/src/office-auth.ts:419-433 | The global window admits at most 100, the admission is recorded, and it pays for the keys of an attempt in advance |
| `AttemptLimiters.AttemptLimiter.ConsumeKey` | apps/server/src/office-auth.ts:419-450 | A client or credential key admits exactly below its limit within its window, and the admission is recorded |
| `AttemptLimiters.AttemptLimiter.Attempt` | apps/server/src/office-auth.ts:419-433 | The three limits in order, each consulted only if those before admitted, though the clock may move in between |
| `AttemptLimiters.Run` | apps/server/src/office-auth.ts:419-450 | The answers and the map are those of the specified steps, and the map never holds more than 401 keys |
| `AttemptLimiters.RunBoth` | apps/server/src/office-auth.ts:23-29 | Both maps from empty: enrolment answers yes at most 5 times a client and credential in each of their windows, renewal 6 times a client and 8 a device |
| `SessionInventories.AddRows` | apps/server/src/hermes-inventory.ts:156-167 | Rows are taken once each, in order, up to the row limit; without a failure all of them are, and distinct named rows bring none |
| `SessionInventories.TakeTotal` | apps/server/src/hermes-inventory.ts:130-149 | A total is flagged exactly when it is unreadable, missing among reported ones, different from the last, or too small |
| `SessionInventories.CheckPage` | apps/server/src/hermes-inventory.ts:117-155 | Every failure a page brings marks the answer; an unmarked page had only records, a list of errors and a total in agreement; an orderly page brings none |
| `SessionInventories.TakePage` | apps/server/src/hermes-inventory.ts:106-180 | While nothing is marked, every row that was sent is held, and collection ends only at the reported total; an orderly page that fits is taken whole and unmarked |
| `SessionInventories.CollectPages` | apps/server/src/hermes-inventory.ts:106-181 | After the loop the same holds of all pages that came, and of an orderly history everything was taken |
| `SessionInventories.CollectSessions` | apps/server/src/hermes-inventory.ts:87-188 | Whatever the upstream sends, the rows are distinct; an unmarked answer has no failures and the rows as sent; if a total was reported, every page reported it and the rows are that many, up to 2000, and exactly that many when no page exceeds 100 rows; an orderly history always comes back unmarked and whole up to that limit; an unmarked answer met no listed error, nor does one without failures, and without totals it ends at a page that was not full; an upstream without totals that sends full pages and a last one comes back whole and unmarked |
| `SessionInventories.FailuresNext` | apps/server/src/hermes-inventory.ts:150-155 | The failed profiles are those that some page that came names, an entry without a name counting as one |
| `SessionInventories.TotalIsRows` | apps/server/src/hermes-inventory.ts:183-188 | An unmarked answer has as many rows as its total if and only if the total is at most 2000 |
| `SessionInventories.OverfullPage` | apps/server/src/hermes-inventory.ts:156-188 | One page of 2,001 sessions comes back unmarked with 2,000 of them |
| `SessionInventories.MappedKeeps` | apps/server/src/hermes-inventory.ts:206-213 | Mapping keeps "failures mean truncated", an unmarked answer keeps its rows and total, and it marks an answer exactly if a row is lost |
| `TerminalTexts.SequenceUnique` | apps/server/src/secret-scrubber.ts:81-162 | At most one sequence starts at a position, it is not empty, and it does not start where text is clean (section 5.4 of ECMA-48) |
| `TerminalTexts.ReadsUniquely` | apps/server/src/secret-scrubber.ts:60-79 | A text reads in at most one way as clean text and whole sequences |
| `TerminalTexts.KeptIsClean` | apps/server/src/secret-scrubber.ts:60-79 | What is kept of such a reading contains no rejected control |
| `TerminalTexts.CleanReadsAsItself` | apps/server/src/secret-scrubber.ts:60-79 | Clean text reads as itself |
| `TerminalTexts.SgrIs` | apps/server/src/secret-scrubber.ts:121-144 | Every SGR sequence within the length limit is one, with either introducer and any parameters |
| `TerminalTexts.OscIs` | apps/server/src/secret-scrubber.ts:146-162 | Every OSC string within it is one, with either introducer and any terminator |
| `TerminalTexts.SequenceIsDropped` | apps/server/src/secret-scrubber.ts:60-79 | A sequence in front of a text changes nothing about what is kept of it |
| `TerminalTexts.ControlSequenceEnd` | apps/server/src/secret-scrubber.ts:121-144 | Finds the whole SGR sequence at this place if there is one, and otherwise there is none of any length |
| `TerminalTexts.TerminalStringEnd` | apps/server/src/secret-scrubber.ts:146-162 | The same for OSC strings and their terminators |
| `TerminalTexts.EscapeSequenceEnd` | apps/server/src/secret-scrubber.ts:96-119 | The same behind an escape |
| `TerminalTexts.TerminalSequenceAt` | apps/server/src/secret-scrubber.ts:81-94 | Says nothing exactly where the text is clean, and otherwise finds the whole sequence or that there is none |
| `TerminalTexts.NormalizeTerminalText` | apps/server/src/secret-scrubber.ts:60-79 | Returns a text if and only if the input reads as clean text and whole SGR and OSC sequences, and then exactly the clean text |
| `TerminalTexts.HasRejectedInputControl` | apps/server/src/secret-scrubber.ts:252-264 | True exactly when some position is not clean |
| `TerminalTexts.FixedPoint` | apps/server/src/secret-scrubber.ts:60-79 | Normalized text passes the control check and normalizes to itself |
| `KanbanRefreshes.AnsweredByLoad` | apps/web/src/kanban-store.ts:97-111 | A load answers each request it covers with an outcome from a load begun no earlier than the request |
| `KanbanRefreshes.AskedKeeps` | apps/web/src/kanban-store.ts:80-95 | A request made while a load is running is not covered by that load |
| `KanbanRefreshes.AskedSound` | apps/web/src/kanban-store.ts:80-95 | A request keeps: at most one drain, outcomes only from loads begun no earlier than the request, never more loads than requests |
| `KanbanRefreshes.EndedSound` | apps/web/src/kanban-store.ts:97-140 | So does the end of a load |
| `KanbanRefreshes.StepSound` | apps/web/src/kanban-store.ts:64-140 | So does every step |
| `KanbanRefreshes.RunSound` | apps/web/src/kanban-store.ts:64-140 | Over any interleaving, a drain runs exactly while a request is open, and loads never outnumber requests |
| `KanbanRefreshes.TellsFresh` | apps/web/src/kanban-store.ts:80-95 | Whenever in a run a caller resumes, its outcome comes from a load begun at or after its request; told of success it has the board of the current runtime, which is the one it asked under |
| `KanbanRefreshes.TellsExactly` | apps/web/src/kanban-store.ts:80-140 | Over any run, a caller is told of success exactly if the load that answered it fetched a board and no runtime has been activated since it asked |
| `KanbanRefreshes.TwoLoadsAnswerAll` | apps/web/src/kanban-store.ts:97-111 | However many requests are open, the load in flight and one more answer them all |
| `KanbanRefreshes.NothingToAsk` | apps/web/src/kanban-store.ts:80-81 | Without a runtime the answer is no at once, and no request is made |
| `KanbanRefreshes.KanbanBoard.ActivateRuntime` | apps/web/src/kanban-store.ts:64-78 | The runtime is the next one, and nothing outstanding is touched |
| `KanbanRefreshes.KanbanBoard.RefreshKanbanBoard` | apps/web/src/kanban-store.ts:80-95 | A request starts a load only if none is running, and none is made without a runtime; the state is as specified |
| `KanbanRefreshes.KanbanBoard.LoadEnded` | apps/web/src/kanban-store.ts:97-140 | Exactly the covered requests get the load's outcome, which is a success only if the runtime is still the same; the drain goes on while a request is open; the state is as specified |
| `KanbanRefreshes.KanbanBoard.Resume` | apps/web/src/kanban-store.ts:80-95 | The caller is told of success exactly if its load succeeded and its runtime is still the current one |
| `KanbanRefreshes.KanbanBoard.Do` | apps/web/src/kanban-store.ts:64-140 | Every event is its specified step, and answers as specified |
| `KanbanRefreshes.KanbanBoard.Run` | apps/web/src/kanban-store.ts:64-140 | Any interleaving ends where the specified steps end, and tells its callers what they tell |

## Left out

Whole parts:

- HTTP and WebSocket plumbing, processes, files, timers and the user interface: foreign input and output, which
  the models see as steps that succeed or fail.
- HMAC, digests and random bytes: an uninterpreted function and fresh numbers. That a forged cursor or a guessed
  id is unlikely is not stated.
- Liveness: success is stated of operations in a calm world, but nothing says that they, an allocation or a cleanup
  are ever started or finished.
- The promise queues that run operations one at a time (`KeyedOperationQueue` and the `#queue` fields): the models
  assume their order.
- The `HermesInventoryCache` pages and their cursor, the profile collector and row mapping of the inventory.
- Regular-expression redaction of credentials in the scrubber, the profile-name pattern of the pool, parsing of
  the forwarded client address of the limiter.
- Clarification requests, event budgets and rate tokens of the chat socket.
- Task mutations, comments and published signals of the board.

Within the models:

- `noteProfileSkillOverride` and the store's direct `update`: not reached while a coordinator exists; neither
  settles the global journal first.
- Ownership, override and failure lists are sets: their order, and that the failure list is cut after 100 entries,
  are not modelled.
- The hub sees the coordinator only through its live-id routes; notices of unavailability, the chains of requests,
  cleanups and attachments, and the close of a lease (apps/server/src/chat-upstream-hub.ts:394-436) are only steps
  that bind, unbind and reset. Live ids in the hub are numbers that are only compared.
- Cursor bytes that are not ASCII are rejected without being decoded as UTF-8, as no such session id passes the
  pattern anyway; the two error messages for a bad cursor are one.
- The JSON lengths of messages, pages and envelopes are parameters where the code takes them from `JSON.stringify`.
- Transcript caches are keyed by value, where the code keys them by object identity.
- The serializer's output is described by its fields and its length, not by its text.
- A start whose process is gone is a failed start; which process an eviction or a close stops is known, but not
  when it ends.
- `GlobalInheritance.HermesSettings.ListSkills`: unless the line is clear a listing may miss any skill, where the
  code misses only unreadable rows and rows past the 1,000th; which those are is up to Hermes.
- Approvals are values in sequences rather than shared objects; a claim names its approval by id.
- The end offsets of escape sequences that are refused anyway are not modelled.
- `ApprovalQueues.StepSound`: speaks of an open socket; what a closed one does with its claims is stated by
  `ApprovalQueues.FinishedSound` alone.
