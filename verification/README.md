# Verified model of ferrl's protocols and exact algorithms

This Dafny project models the parts of ferrl whose correctness is a matter of every run, every crash
point or every input, and proves what they promise. `dafny verify dfyconfig.toml` checks all of it.

| files | models |
|---|---|
| `Disk`, `CheckpointWriter`, `CheckpointReplies`, `CheckpointHistory` | crash-safe replacement of a checkpoint: stage, move aside, publish, fence, clean up, roll back, recover |
| `Digest`, `CheckpointPackage`, `PackageMeaning` | the length-prefixed digests, the state envelope, saving and loading a checkpoint |
| `Discovery`, `DiscoveryMeaning` | finding the newest checkpoint to resume from |
| `NoReplace` | the writer that never replaces a destination |
| `Rendezvous`, `RendezvousAgreement`, `RendezvousFailures`, `RendezvousProgress`, `RoundTable` | the N-rank rendezvous behind the in-process collectives, its poison cell and the tensor sums |
| `Ratios`, `CountdownLexer`, `CountdownParser`, `CountdownGenerator`, `CountdownDraws` | Countdown: exact rationals, tokenizer, parser, checker and the generator of solvable problems |
| `Attention`, `CachedDecoding`, `GroupedAttention` | decoding with key-value caches against the uncached forward, and both against the definition of grouped-query attention |
| `DataSplit`, `HeldOut` | the semantic and the deduplicating train/eval split |
| `ManifestLast` | publishing an artifact with its manifest last |
| `Common`, `Decimal`, `Shuffles` | shared vocabulary, decimal numerals, the Fisher-Yates shuffle |

## How the state is modelled

**Checkpoint replacement.** A destination has a canonical name, `.old-*` asides and `.tmp-*` stages. Name
changes queue up until the parent directory is synced, a crash keeps any prefix of the queue, and removing
contents is durable at once. A plan of faults, an argument of every call, says how each of its steps ends:
done, failed without effect, or failed after taking effect; the results are for all plans. `Logical` is the
canonical package, else the sole aside, else nothing. A writer is a method over that disk; a ghost monitor
records whether any crash at any step so far could have left something not allowed.

**Publishing.** The artifact publication and the no-replace writer take such plans too. The output of the
first is a tree of links of which a crash keeps the synced ones and any of the others, and a ghost set records
every state it has been in. The destination of the second may be changed by an outsider between any two
steps, also between two reads of one verification; those moves are part of the plan, and a ghost sequence
records its states.

**Rendezvous.** A transition is one step other threads cannot see inside of: taking or leaving a round
lock, one access to the poison cell, or a stretch under a held lock that touches nothing else. Any number
of rendezvous share one cell. A wait may time out whenever it is reached, and may wake without reason. The
progress results leave those two out. `RoundTable` holds the same operations in imperative form.

**Cached decoding.** Norms, projections, rotary embedding, MLP and the exponential are uninterpreted.
Scores, the mask, softmax and the weighted sum are real arithmetic, so that "minus infinity means weight
zero" is proved. `GroupedAttention.LogitsOf` is the independent reference, over un-repeated key-value heads and
without masks or caches: every position sees itself and the earlier ones.

**Digests.** SHA-256 is an arbitrary function. Where the source relies on it, the result is "equal, or
these two inputs collide". JSON and safetensors are encodings that may fail and that distinguish whatever
they encode (`CheckpointPackage.Faithful`).

## What does not hold as documented or expected

- Recovery removes stages without a fence when neither a canonical package nor an aside is visible. After a
  *first* publication whose rollback could not be fenced, a crash during it can then show the canonical name
  with destroyed contents. With every step of the recovery working, that is possible exactly in the states
  `Exposed` (`CheckpointWriter.Destination.Reconcile`); `CheckpointHistory.RecoveryCanBreakAFirstSave` runs the
  writer into one. A caller can rule it out: the state follows only an ambiguous outcome without a prior
  package (`remount` in `CheckpointHistory.SaveOnce`). Replacing an existing package is not affected.
- A rank that passed the poison check can still deposit after the other rendezvous has poisoned the world,
  exactly if it holds the lock of an open round at that moment (`RendezvousAgreement.DepositsFollowPoisonExactly`,
  with a run in `DepositsCanFollowPoison`); such a deposit never completes a round.
- The saturating fallback of the Countdown fold is unreachable for every configuration, not only for modest
  ones (`CountdownGenerator.SomeOperatorApplies`). Targets are documented as positive; over all streams of
  draws they are exactly if neither configured bound is zero (`CountdownGenerator.PositiveTargetsExactly`), and
  so they are over all seeds where the stream can be followed (`PositiveSeedsExactly`).
- `gcd` alone can return `i128::MIN`; never when called from `Ratio::new`.
- The step found by discovery does not depend on the listing order, but the directory does, exactly if the
  greatest step is listed under two names, as in `step-7` and `step-007` (`Discovery.OrderFreeExactly`).
- Saving does not check the moments against the variables. A save with unfitting moments succeeds, and its
  package loads nowhere (`CheckpointPackage.SaveThenLoad`, both directions; `MissingMomentsAreSaved`).
- Steps that report a failure after taking effect are not recognised. A claim of the no-replace writer then
  leaves an empty directory after a plain error (`NoReplace.EmptyClaimStays`). A manifest rename has its visible
  package removed, with a plain error (`NoReplace.VisiblePackageRemoved`), or half way, with the manifest left
  without its payload (`NoReplace.ManifestWithoutPayload`). A manifest link of an artifact is a plain failure
  beside a visible manifest (`ManifestLast.FailureBesideManifest`). The contracts name these cases, and only
  these.
- The no-replace writer verifies what is visible by four reads one after the other. With an outsider acting in
  between, all four can match although no state of the destination did (`NoReplace.PiecesPassVerification`).
- Between the ownership check and the removal of an uncommitted claim an outsider can swap the directory; only
  then is a foreign directory removed (`hitForeign ==> swapped` in `NoReplace.Destination.Valid`).
- A decoder without layers accepts no second chunk: its cached length stays zero.

## Model

| member | source | states |
|---|---|---|
| Ratios.GcdLoop | crates/ferrl/src/countdown.rs:272-280 | the remainder loop on `u128` magnitudes computes the greatest common divisor |
| Ratios.GcdDivides | crates/ferrl/src/countdown.rs:272-280 | the result divides both arguments (with `CommonDivisorDividesGcd`: and every common divisor divides it) |
| Ratios.CommonDivisorDividesGcd | crates/ferrl/src/countdown.rs:272-280 | every common divisor divides the result, so it is the greatest one |
| Ratios.DivisorAtMost | crates/ferrl/src/countdown.rs:293-304 | inside `Ratio::new` the divisor is positive and at most the denominator, so the cast back to `i128` cannot wrap |
| Ratios.GcdCastWrapsExactlyAtTwoTo127 | crates/ferrl/src/countdown.rs:272-280 | called on its own, the cast wraps exactly when the divisor is 2^127: both arguments are `i128::MIN` or zero, and not both zero |
| Ratios.NewIsExact | crates/ferrl/src/countdown.rs:293-304 | no result exactly for a zero denominator or a sign flip of `i128::MIN`; otherwise lowest terms, positive denominator, the same rational |
| Ratios.AddIsExact | crates/ferrl/src/countdown.rs:307-313 | on reduced operands a result exactly when no intermediate leaves `i128`, and then the reduced exact sum |
| Ratios.SubIsExact | crates/ferrl/src/countdown.rs:315-321 | as for the sum, for the exact difference |
| Ratios.MulIsExact | crates/ferrl/src/countdown.rs:323-325 | as for the sum, for the exact product |
| Ratios.DivIsExact | crates/ferrl/src/countdown.rs:327-332 | a result exactly when the divisor is non-zero and nothing overflows, and then the reduced exact quotient |
| Ratios.CanonicalFormsAreUnique | crates/ferrl/src/countdown.rs:262-266 | structural equality of reduced ratios is equality of rationals |
| Ratios.EqualsIntIsExact | crates/ferrl/src/countdown.rs:334-336 | comparing with an integer is exact |
| CountdownLexer.LexNumber | crates/ferrl/src/countdown.rs:357-368 | the digit loop returns the whole run and its value, or nothing when it exceeds `u32` |
| CountdownLexer.Tokenize | crates/ferrl/src/countdown.rs:370-400 | the index loop computes the left-to-right specification `Lex` |
| CountdownLexer.LexFailsExactly | crates/ferrl/src/countdown.rs:370-400 | tokenizing fails exactly for a character outside the alphabet or a maximal digit run beyond `u32` |
| CountdownLexer.LexConcat | crates/ferrl/src/countdown.rs:357-400 | texts tokenize piecewise wherever no literal straddles the seam |
| CountdownLexer.LexShow | crates/ferrl/src/countdown.rs:357-400 | printed tokens without adjacent literals read back as themselves |
| CountdownParser.Parser.Expr | crates/ferrl/src/countdown.rs:421-438 | the loop over `+` and `-` consumes exactly the longest left-associative sum from the current position and appends its leaves in order |
| CountdownParser.Parser.Term | crates/ferrl/src/countdown.rs:440-457 | the same for `*` and `/` |
| CountdownParser.Parser.Factor | crates/ferrl/src/countdown.rs:459-473 | a literal or a closed parenthesised expression |
| CountdownParser.EvalExpression | crates/ferrl/src/countdown.rs:480-495 | the whole evaluator computes `EvalText`; input left over or nothing to read is a rejection |
| CountdownParser.DeriveIsTheTree | crates/ferrl/src/countdown.rs:402-473 | a token list has at most one derivation tree and the parser finds exactly it |
| CountdownParser.ExprEvaluatesExactly | crates/ferrl/src/countdown.rs:402-473 | a tree has a value exactly when no divisor is zero and no intermediate leaves `i128`; the value is the denoted rational in lowest terms |
| CountdownParser.EvalTextIsTheTreesValue | crates/ferrl/src/countdown.rs:480-495 | a text evaluates to a value and leaves exactly when it spells a tree with that value and those leaves in order |
| CountdownParser.EvalTextFailsExactly | crates/ferrl/src/countdown.rs:480-495 | rejection happens exactly when the text spells no tree that can be evaluated |
| CountdownParser.PrintedTreesEvaluate | crates/ferrl/src/countdown.rs:480-495 | printing any tree and evaluating the text gives back the tree's value and leaves |
| CountdownGenerator.LegalIsMultisetEquality | crates/ferrl/src/countdown.rs:245-253 | comparing sorted copies is multiset equality |
| CountdownGenerator.CheckIsExact | crates/ferrl/src/countdown.rs:88-95 | the checker accepts exactly the texts of trees over each number once whose exact value is the target and whose intermediates stay in `i128` |
| CountdownGenerator.SplitKeyIdentifiesPermutations | crates/ferrl/src/countdown.rs:78-82 | two problems share a split key exactly when one is a permutation of the other |
| CountdownGenerator.SplitMix64.NextU64 | crates/ferrl/src/countdown.rs:511-522 | each call advances the state and returns the next draw of the seed's stream, with wrapping arithmetic |
| CountdownDraws.XorIsBitwise | crates/ferrl/src/countdown.rs:516-521 | the exclusive or in the output function, bit by bit |
| CountdownDraws.ScaleTakesTheRemainder | crates/ferrl/src/countdown.rs:526-531 | a draw is brought between the two bounds, in either order, by taking whole ranges away |
| CountdownGenerator.Shuffled | crates/ferrl/src/countdown.rs:544-551 | the in-place swaps produce the order that `Shuffles.ShuffleFrom` says, which the draws decide (`OneChoicePerOrder`), a permutation of the input |
| Shuffles.ShufflePermutes | crates/ferrl/src/countdown.rs:544-551 | for every stream, start and length the shuffle is a permutation |
| Shuffles.ShuffleArranges | crates/ferrl/src/countdown.rs:544-551 | each position from the back takes the element its draw points to among those not yet placed, one draw a position but the first |
| Shuffles.OneChoicePerOrder | crates/ferrl/src/countdown.rs:544-551 | of distinct elements, every order comes from exactly one choice of draws modulo the positions left |
| Shuffles.EveryOrderIsDrawn | crates/ferrl/src/data.rs:166-169 | for every permutation of the input there are draws that produce it |
| CountdownGenerator.TryOpIsExact | crates/ferrl/src/countdown.rs:559-566 | an operator that applies in the `i64` fold gives the same integer as the exact rational operation |
| CountdownDraws.TryOpExactly | crates/ferrl/src/countdown.rs:559-566 | an operator applies exactly if its exact result is an integer that fits, for subtraction a positive one, and gives that |
| CountdownDraws.StepTakesTheFirst | crates/ferrl/src/countdown.rs:572-579 | of the four operators in the order three draws give them, the step takes the first that applies |
| CountdownGenerator.SomeOperatorApplies | crates/ferrl/src/countdown.rs:572-579 | for every configuration, seed and accumulator some operator applies, so the saturating fallback is never taken |
| CountdownGenerator.FoldOp | crates/ferrl/src/countdown.rs:572-579 | one step takes the first applicable operator of a fresh shuffle and keeps the accumulator in 0..`i64::MAX` |
| CountdownGenerator.BuildOne | crates/ferrl/src/countdown.rs:583-597 | draws, shuffles and folds exactly as specified, consuming the stream in that order |
| CountdownGenerator.GenerateProblem | crates/ferrl/src/countdown.rs:601-610 | 64 attempts at a preferred target and then one more taken as it comes |
| CountdownGenerator.GenerateDataset | crates/ferrl/src/countdown.rs:134-139 | the data set of a seed, problem by problem on one running stream |
| CountdownGenerator.SolutionSolves | crates/ferrl/src/countdown.rs:583-597 | the printed left fold over the shuffled order passes the checker: tokenizer, parser, rationals and multiset test together |
| CountdownGenerator.GeneratedProblemsAreSolvable | crates/ferrl/src/countdown.rs:126-139 | for every stream, count, configuration and index the problem has a text the checker accepts |
| CountdownGenerator.ProblemShape | crates/ferrl/src/countdown.rs:583-589 | each problem has max(1, num_count) numbers, all between the two configured bounds in either order |
| CountdownDraws.ProblemHoldsItsDraws | crates/ferrl/src/countdown.rs:583-587 | a problem holds its numbers in the order drawn, each scaled from its own draw |
| CountdownDraws.TargetFromDraws | crates/ferrl/src/countdown.rs:588-597 | its target is the left fold of the order that the following draws arrange the numbers in; a build of n numbers uses 5n - 4 draws |
| CountdownDraws.FoldAppends | crates/ferrl/src/countdown.rs:589-592 | the fold works through the numbers from the left, three draws a number |
| CountdownDraws.FirstPreferredIsReturned | crates/ferrl/src/countdown.rs:601-610 | the first of the attempted builds with a target in 1..=max_target is returned, or else the one after all attempts |
| CountdownGenerator.PreferredUnlessAllMissed | crates/ferrl/src/countdown.rs:601-610 | the target is in 1..=max_target exactly unless every build up to and including the last missed it |
| CountdownGenerator.PositiveTargetsExactly | crates/ferrl/src/countdown.rs:581-610 | the problem returned has a positive target on every stream of draws exactly if neither bound is zero; the documentation calls targets positive without condition |
| CountdownGenerator.PositiveDatasetsExactly | crates/ferrl/src/countdown.rs:126-139 | so it is for every non-empty data set: all targets positive, whatever is drawn, exactly if neither bound is zero |
| CountdownGenerator.PositiveSeedsExactly | crates/ferrl/src/countdown.rs:497-610 | over the real seeds, for problems of one number with no preferred target: every seed gives a positive target exactly if neither bound is zero; otherwise one is computed that gives zero |
| CountdownGenerator.TargetsArePositiveWithoutZero | crates/ferrl/src/countdown.rs:581-597 | every single build has a positive target when neither bound is zero |
| CountdownGenerator.TargetsCanBeZero | crates/ferrl/src/countdown.rs:581-597 | when both bounds are zero every single build has target zero |
| Disk.DestroySafeExactly | crates/ferrl/src/checkpoint.rs:828-833 | destroying a directory's contents keeps every crash outcome allowed exactly if no crash can make that directory decide |
| Disk.RemovalSafe | crates/ferrl/src/checkpoint.rs:828-833 | behind a fence, removing a hidden directory is safe at both of its steps |
| Disk.CrashIsSafe | crates/ferrl/src/checkpoint.rs:881-1001 | after a crash that keeps any prefix of the name changes the names are good and hold one of the allowed packages |
| Disk.FencedCrashLogics | crates/ferrl/src/checkpoint.rs:2048-2073 | once the parent is synced every crash leaves exactly the visible package |
| CheckpointWriter.Destination.Reconcile | crates/ferrl/src/checkpoint.rs:881-1001 | recovery keeps the held package under every fault and ends with no hidden sibling when it succeeds; no crash during it can show anything new if the disk is not `Exposed`, and one can if it is and the recovery goes through |
| CheckpointWriter.Destination.RestoreSoleAside | crates/ferrl/src/checkpoint.rs:881-1001 | a sole prior aside becomes canonical again, fenced; the held package never changes |
| CheckpointWriter.Destination.PrepareStage | crates/ferrl/src/checkpoint.rs:1003-1018 | reconciles and opens the one hidden stage; the held package never changes |
| CheckpointWriter.Destination.Rollback | crates/ferrl/src/checkpoint.rs:1020-1051 | restores the prior package, or absence, fenced; crash-safe at every step |
| CheckpointWriter.Destination.RollbackError | crates/ferrl/src/checkpoint.rs:1053-1070 | a plain error exactly after a complete fenced rollback, otherwise ambiguous |
| CheckpointWriter.Destination.ReconcilePriorAside | crates/ferrl/src/checkpoint.rs:1072-1132 | a failed move of the prior package, before or after taking effect, ends in a plain error with the prior fenced, or ambiguous with the prior still held |
| CheckpointWriter.Destination.ReconcilePublish | crates/ferrl/src/checkpoint.rs:835-879 | goes on only if the publishing rename provably took effect, and then fenced |
| CheckpointWriter.Destination.Publish | crates/ferrl/src/checkpoint.rs:1134-1221 | after the prior is fenced aside: the new package canonical and fenced without aside, or the prior restored, or ambiguous between the two |
| CheckpointWriter.Destination.CommitStage | crates/ferrl/src/checkpoint.rs:1134-1221 | success, plain error and ambiguity leave new, old, and one of the two, each exactly for the plans of faults named |
| CheckpointWriter.Destination.WriteStaged | crates/ferrl/src/checkpoint.rs:1223-1254 | one save, for every plan of faults, refines one write of an atomic register; success, plain error and ambiguity each exactly for the plans named by `Saves`, `Refuses` or `Undoes`, and neither; after an undone save only the held package is visible, fenced; crash-safe at every step outside `Exposed`, and in it not, if the recovery goes through; only an ambiguous outcome without a prior package can leave `Exposed`, and a first save whose publication and undoing both stay unfenced does |
| CheckpointReplies.AmbiguousExactly | crates/ferrl/src/checkpoint.rs:1223-1254 | the reply is ambiguous exactly if recovery fails, or a later step fails together with a step that should undo it, or the publishing rename cannot be proved, or the prior package cannot be cleaned away |
| CheckpointReplies.FailuresBeforePublicationAreUndone | crates/ferrl/src/checkpoint.rs:1134-1254 | whatever fails between opening the stage and the publishing rename, with or without effect: if the undoing steps work, the save is undone |
| CheckpointReplies.OneFaultIsAmbiguousExactly | crates/ferrl/src/checkpoint.rs:1134-1254 | on a destination without residue a single fault is ambiguous exactly if it is a publishing rename without effect or hits the cleaning away of the prior package |
| CheckpointHistory.RunHistory | crates/ferrl/src/checkpoint.rs:1223-1254 | every history of saves and crashes, with any faults, is a chain of atomic register operations, crash-safe throughout; an ambiguous first publication is remounted before the next save |
| CheckpointHistory.RunUntilExposed | crates/ferrl/src/checkpoint.rs:1223-1254 | without any remount the same chain, crash-safe throughout, holds up to the first save that would start from an exposed disk |
| CheckpointHistory.RunLive | crates/ferrl/src/checkpoint.rs:1223-1254 | a process that never crashes needs no remount: every sequence of saves, with any faults, is a chain of register operations on the visible package |
| CheckpointHistory.LiveReads | crates/ferrl/src/checkpoint.rs:1223-1254 | what such a process holds was written by its last successful save or an ambiguous one after it, or was there at the start and nothing has succeeded |
| CheckpointHistory.OnlySavedPackagesAppear | crates/ferrl/src/checkpoint.rs:1223-1254 | no crash in any history leaves a broken package or one that was neither there before nor saved |
| CheckpointHistory.SuccessfulSaveIsDurable | crates/ferrl/src/checkpoint.rs:1134-1221 | after `Ok` no sequence of crashes changes the held package |
| CheckpointHistory.FailedSavesChangeNothing | crates/ferrl/src/checkpoint.rs:1053-1070 | any run of plain errors leaves the held package as it was |
| CheckpointHistory.NeverLost | crates/ferrl/src/checkpoint.rs:881-1254 | once a package is held, no history of saves and crashes loses everything |
| CheckpointHistory.CleaningExposesExactly | crates/ferrl/src/checkpoint.rs:828-833 | with nothing visible, destroying one of the visible stages breaks crash safety exactly in `Exposed` (the whole recovery: `Reconcile`) |
| CheckpointWriter.UnfencedRollbackIsExposed | crates/ferrl/src/checkpoint.rs:1020-1070 | publishing a first stage and taking it back, neither of them fenced, leaves an exposed disk |
| CheckpointHistory.RecoveryCanBreakAFirstSave | crates/ferrl/src/checkpoint.rs:881-1254 | the writer itself, run on an empty destination with just those two syncs failing, ends ambiguous, safe so far and exposed; the recovery after it, in which every step works, is not crash-safe |
| Rendezvous.StepKeeps | crates/ferrl/src/comm.rs:296-399 | every critical-section step of every rank keeps the invariant over all rendezvous, the poison cell and the finished calls |
| Rendezvous.RunKeeps | crates/ferrl/src/comm.rs:296-399 | so does every run, under any interleaving, timeout and re-entry |
| RendezvousAgreement.RoundsAgree | crates/ferrl/src/comm.rs:296-338 | if one rank collects from a round, every finished call of that round has the same outcome, never a timeout or a poisoned error |
| RendezvousAgreement.FinishedRoundCombinesItsOwnDeposits | crates/ferrl/src/comm.rs:296-338 | a finished round was returned from exactly once by every rank with the combine of that round's own deposits in rank order |
| RendezvousAgreement.FirstMessageIsKept | crates/ferrl/src/comm.rs:214-223 | over every run the cell keeps the first message |
| RendezvousAgreement.PoisoningStep | crates/ferrl/src/comm.rs:296-399 | if a step poisons the world, it is a timeout, and then nobody is publishing, or a failed combine, and then that failure is the only thing being published (that every timeout does: `RendezvousFailures.TimeoutPoisons`) |
| RendezvousFailures.TimeoutPoisons | crates/ferrl/src/comm.rs:377-392 | in every wait loop, a call that times out leaves the cell set, to the timeout's message if it was clear |
| RendezvousFailures.TimeoutWakes | crates/ferrl/src/comm.rs:377-392 | and has notified every rank that sleeps on its rendezvous |
| RendezvousFailures.EveryFailureIsExplained | crates/ferrl/src/comm.rs:296-399 | over every run each finished call that did not return a sum has its failure in the cell: the message itself, or for a timeout an earlier one |
| RendezvousFailures.PoisonHasCause | crates/ferrl/src/comm.rs:214-223 | over every run a set cell holds the message of a call that timed out or collected a failed combine, or of one on its way to the first rank |
| RendezvousFailures.LaterCallsFail | crates/ferrl/src/comm.rs:231-236 | from a poisoned world on, every call that any rank begins later names the first message and deposits nothing |
| RendezvousFailures.TimeoutEndsTheWorld | crates/ferrl/src/comm.rs:296-399 | over every run from a timeout on the cell keeps its message and every call begun later by any rank fails with it, without depositing |
| RendezvousFailures.PoisonedCallsEnd | crates/ferrl/src/comm.rs:342-373 | over every run from a poisoned world a rank inside a call has returned by its fourth own step at the latest |
| RendezvousFailures.NobodyIsStuck | crates/ferrl/src/comm.rs:296-399 | in every world that keeps the invariant a rank inside a call can step, or the rank that holds the lock it needs can |
| RendezvousAgreement.FailureIsPublishedLast | crates/ferrl/src/comm.rs:314-320 | publishing the failure is the last publication |
| RendezvousAgreement.NothingPublishesAfterPoison | crates/ferrl/src/comm.rs:296-399 | from any poisoned state on, no run combines anything on any rendezvous, and at most one step publishes: the failure itself, by the rank that was about to |
| RendezvousAgreement.OnlyOldOutcomesAreCollected | crates/ferrl/src/comm.rs:296-399 | every outcome collected from any poisoned state on was there already, in the current round of its rendezvous, or is that failure |
| RendezvousAgreement.CallsAfterPoisonFail | crates/ferrl/src/comm.rs:231-236 | a call begun in a poisoned world returns the first message without depositing, whatever else runs |
| RendezvousAgreement.DepositsCanFollowPoison | crates/ferrl/src/comm.rs:296-357 | a call begun earlier can still deposit after the poisoning: a run in which the other rendezvous times out between the check and the deposit |
| RendezvousAgreement.DepositsFollowPoisonExactly | crates/ferrl/src/comm.rs:296-357 | from a poisoned state some run deposits exactly if some rank has already read a clear cell and holds the lock of a round without an outcome |
| RendezvousAgreement.LateDepositsNeverComplete | crates/ferrl/src/comm.rs:296-357 | such a deposit is never the last of its round |
| RendezvousProgress.SomebodyMoves | crates/ferrl/src/comm.rs:296-399 | without timeouts and spurious wake-ups, as long as somebody has work left somebody can step: no deadlock, no lost notification |
| RendezvousProgress.NeverMoreThanOneApart | crates/ferrl/src/comm.rs:11-33 | while no combine has failed, no two ranks are more than one call apart |
| RendezvousProgress.RunsEndFinished | crates/ferrl/src/comm.rs:296-373 | every such run is bounded by the work in the script and can stop only when every rank has finished every call |
| RendezvousProgress.CallsReturnTheWholeWorldsSum | crates/ferrl/src/comm.rs:13-33 | the i-th call of every rank returns the combine of everybody's i-th value, although rounds carry no identity |
| RoundTable.PoisonCell.Set | crates/ferrl/src/comm.rs:214-223 | only the first message is recorded |
| RoundTable.Table.Deposit | crates/ferrl/src/comm.rs:306-324 | the slot table after a deposit, and for the last arrival the drained table with its outcome and the poison of a failed combine |
| RoundTable.Table.Collect | crates/ferrl/src/comm.rs:326-337 | the last departure resets the table for the next round |
| RoundTable.LastArrivalDecides | crates/ferrl/src/comm.rs:306-324 | the three steps the state machine takes for a last arrival have together the effect of that one critical section |
| RoundTable.SumIsTheLastTotal | crates/ferrl/src/comm.rs:518-539 | the sum is the last of the running totals over all ranks in order, and exists exactly if every addition works |
| RoundTable.SumOneSlot | crates/ferrl/src/comm.rs:518-539 | the loop adds left to right in rank order, or reports the first shape or dtype that differs from rank 0, or a failed addition |
| RoundTable.SumTensorSlots | crates/ferrl/src/comm.rs:504-514 | all or nothing: every column's rank-order sum, or the first disagreement in count, shape or dtype |
| Attention.FillMask | crates/ferrl/src/blocks.rs:266-276 | the nested loops fill the row-major causal mask |
| Attention.CausalMaskAt | crates/ferrl/src/blocks.rs:259-277 | read with its shape, the mask has query i see exactly the keys up to i + offset |
| Attention.SoftmaxTail | crates/ferrl/src/dense.rs:331-336 | minus infinity at the end of a score row gets weight zero and changes no other weight |
| Attention.SoftmaxSumsToOne | crates/ferrl/src/dense.rs:335-335 | the weights of a row that shows something add up to one |
| Attention.AttendIsWeightedAverage | crates/ferrl/src/dense.rs:330-336 | without a mask, attention is the values' average weighted with the exponentials of the scores; the row maximum cancels |
| Attention.MaskedIsPrefix | crates/ferrl/src/dense.rs:329-336 | attention under a causal row equals unmasked attention over the visible prefix |
| CachedDecoding.UncachedLayerIsCausal | crates/ferrl/src/dense.rs:276-351 | each position of the uncached layer, masked or the maskless single position, is causal attention over the positions up to itself |
| CachedDecoding.CachedLayerIsCausal | crates/ferrl/src/dense.rs:1323-1396 | with the earlier positions cached, a chunk at any offset computes the same causal outputs |
| CachedDecoding.ForwardPrefix | crates/ferrl/src/dense.rs:802-815 | later tokens never change earlier logits |
| CachedDecoding.WindowIsSlice | crates/ferrl/src/dense.rs:926-935 | narrowing before the head is slicing the full logits, with the same bounds |
| CachedDecoding.DenseCachedDecoder.LayerForward | crates/ferrl/src/dense.rs:1323-1363 | appends the chunk's un-repeated keys and values and attends to all of them; past the rotary tables it fails before appending |
| CachedDecoding.DenseCachedDecoder.WalkLayers | crates/ferrl/src/dense.rs:1728-1734 | only the first layer can reject a chunk, before any cache changed; otherwise all caches grow by the chunk |
| CachedDecoding.DenseCachedDecoder.Forward | crates/ferrl/src/dense.rs:1702-1739 | accepts exactly a chunk at the cached length, with known tokens, within the rotary tables; returns the uncached logits of its positions, which are the reference's (`GroupedAttention.UncachedIsReference`); an error leaves every cache as it was |
| GroupedAttention.RepeatedInBlocks | crates/ferrl/src/blocks.rs:91-100 | each key-value head serves one block of consecutive query heads |
| GroupedAttention.QueryHeadUsesItsGroup | crates/ferrl/src/dense.rs:276-340 | query head `j * groups + t` attends to the keys and values of key-value head `j` of every position up to its own |
| GroupedAttention.UncachedIsReference | crates/ferrl/src/dense.rs:802-815 | the uncached forward, with masks and repeated heads, computes the logits of the definition over un-repeated heads |
| GroupedAttention.ForwardIsReference | crates/ferrl/src/dense.rs:1702-1739 | so does the cached decoder, chunk by chunk |
| CachedDecoding.DenseCachedDecoder.ResetCache | crates/ferrl/src/dense.rs:1823-1827 | all caches become empty |
| CachedDecoding.DecodeInChunks | crates/ferrl/src/dense.rs:1690-1739 | for every chunking the concatenated outputs are the uncached logits of what was decoded: all of it, or everything before the first chunk with an unknown token or past the rotary tables, and the error says which |
| CachedDecoding.NoLayersNoOffset | crates/ferrl/src/dense.rs:1706-1716 | without layers the cached length stays zero, so a second chunk at its running offset is rejected |
| DataSplit.GroupByKey | crates/ferrl/src/data.rs:197-207 | one group per key in the order keys first occur, holding exactly that key's samples in input order |
| DataSplit.CutForTarget | crates/ferrl/src/data.rs:215-224 | holds out the fewest groups from the back that reach the target |
| DataSplit.TrainEvalSplitByKey | crates/ferrl/src/data.rs:185-228 | train and eval are a permutation of the input, share no key, keep the input order within every key; eval reaches min(eval_n, total) and would not without its last-added group; the groups are in the order the draws give them |
| DataSplit.TrainEvalSplit | crates/ferrl/src/data.rs:137-172 | no sample twice across both halves, exactly the distinct samples, and min(eval_n, distinct) of them in eval; together they are the deduplicated input in the order the draws give it |
| HeldOut.AnyGroupCanBeHeldOut | crates/ferrl/src/data.rs:208-227 | for some draws every split by key that asks for one row holds out exactly the group of a given sample |
| HeldOut.AnySampleCanBeHeldOut | crates/ferrl/src/data.rs:162-175 | for some draws every split that asks for one sample holds out exactly the given one |
| HeldOut.GroupsInOrder | crates/ferrl/src/data.rs:197-207 | groups stand in the order in which their keys first occur |
| HeldOut.DeduplicatedInOrder | crates/ferrl/src/data.rs:154-161 | deduplication keeps first occurrences, in their order |
| Digest.FeedDomain | crates/ferrl/src/checkpoint.rs:447-456 | the hasher is fed the length-prefixed domain and fields in order |
| Digest.UnframeFrames | crates/ferrl/src/checkpoint.rs:447-456 | the framed fields can be read back |
| Digest.PreimageInjective | crates/ferrl/src/checkpoint.rs:447-456 | the preimage determines the domain, the number of fields and every field |
| Digest.DigestIdentifies | crates/ferrl/src/artifact.rs:2237-2246 | equal digests mean equal domains and fields, or a SHA-256 collision of exactly these two preimages |
| Digest.PrefixIsLittleEndian | crates/ferrl/src/checkpoint.rs:447-456 | a length prefix is eight bytes, the least significant first |
| PackageMeaning.DomainsSeparate | crates/ferrl/src/checkpoint.rs:466-612 | digests of two different kinds agree only in a collision of the two inputs |
| PackageMeaning.DigestFieldIsHex | crates/ferrl/src/checkpoint.rs:434-445 | a digest field is exactly the lower-case hexadecimal of 32 bytes |
| PackageMeaning.ReadableExactly | crates/ferrl/src/checkpoint.rs:1377-1495 | a manifest can be read exactly if it has the fields its version requires and none it forbids, and a v4 one its kind, digests in hexadecimal and the digest of its own envelope |
| PackageMeaning.AcceptedExactly | crates/ferrl/src/checkpoint.rs:2236-2330 | a package is accepted exactly if it is a readable v4 one with the caller's recipe, policy, trainer, variable count and schema, the payloads its digests name, and tensors that fit |
| PackageMeaning.FloatsInOrder | crates/ferrl/src/checkpoint.rs:2173-2176 | the variables with moments are exactly those of a floating-point type, in order |
| CheckpointPackage.SourceNamesDistinguish | crates/ferrl/src/checkpoint.rs:416-424 | zero-padded tensor and moment keys are pairwise distinct, also beyond five digits |
| CheckpointPackage.PrepareAdapterTensors | crates/ferrl/src/checkpoint.rs:1497-1539 | succeeds exactly if the key set is the expected one and every tensor has the live shape and dtype; a misfit is reported at its first tensor |
| CheckpointPackage.PrepareOptimizerState | crates/ferrl/src/checkpoint.rs:2167-2229 | succeeds exactly if there is one fitting pair of moments for each float variable |
| CheckpointPackage.PrepareCheckpoint | crates/ferrl/src/checkpoint.rs:2236-2330 | accepts exactly the loadable packages and returns what they hold, else the first failed manifest or payload check; the live variables are only read |
| CheckpointPackage.LoadCheckpoint | crates/ferrl/src/checkpoint.rs:2340-2346 | a rejected load leaves every live variable as it was; an accepted one restores all of them |
| CheckpointPackage.RootDeterminesPackage | crates/ferrl/src/checkpoint.rs:524-641 | two accepted packages with the same state-envelope digest are equal in every manifest field and payload byte, or one of their own digests collides |
| CheckpointPackage.SaveThenLoad | crates/ferrl/src/checkpoint.rs:1915-2040 | saving and loading under one binding succeeds exactly if the moments match the float variables, and then restores tensors, both moments, counter, sampler, recipe and step |
| CheckpointPackage.EncodesOneSave | crates/ferrl/src/checkpoint.rs:1915-2040 | every save whose moments are paired, fitting or not, goes through under some faithful codec |
| CheckpointPackage.MissingMomentsAreSaved | crates/ferrl/src/checkpoint.rs:1915-2040 | a save without moments for a float variable goes through under such a codec, and its package does not load back |
| CheckpointPackage.OnlyLoadsWhereItBelongs | crates/ferrl/src/checkpoint.rs:2236-2290 | a saved package loads only under its own binding and, short of a collision, only into variables of its own schema |
| Discovery.LatestCheckpoint | crates/ferrl/src/checkpoint.rs:2436-2565 | an answer only without aborting entries and without a malformed name newer than every candidate; then the first candidate of the greatest step; what aborts, is malformed or a candidate is spelled out in `DiscoveryMeaning.JudgedExactly` |
| DiscoveryMeaning.FinalNamesExactly | crates/ferrl/src/checkpoint.rs:2479-2489 | `step-<digits>` and nothing else is a final name, and never an aside |
| DiscoveryMeaning.AsideNamesExactly | crates/ferrl/src/checkpoint.rs:2448-2463 | `step-<digits>.old-<suffix>` and nothing else is an aside |
| DiscoveryMeaning.JudgedExactly | crates/ferrl/src/checkpoint.rs:2445-2551 | each entry's verdict from its name and manifest fields: fatal, suspicious for a step, or a complete package of one |
| DiscoveryMeaning.RefusesExactly | crates/ferrl/src/checkpoint.rs:2436-2565 | discovery refuses exactly if an entry is unlisted, has a step beyond `u64`, is a readable v2 or v3 manifest, a foreign continuation or a package of another step, or is suspicious for a step beyond every package |
| DiscoveryMeaning.AnswerHoldsPackage | crates/ferrl/src/checkpoint.rs:2536-2565 | an answer's directory holds a readable v4 manifest with identity, without continuation and of that step, the greatest one listed |
| DiscoveryMeaning.NothingFoundExactly | crates/ferrl/src/checkpoint.rs:2436-2565 | nothing is found exactly if no entry is fatal, suspicious or a package |
| DiscoveryMeaning.PassedOver | crates/ferrl/src/checkpoint.rs:2514-2544 | then every final name holds a v1 manifest, a separated continuation, or a v4 manifest without identity |
| DiscoveryMeaning.PassedOverAsides | crates/ferrl/src/checkpoint.rs:2463-2476 | and no aside is without its canonical name |
| Discovery.NewestMalformed | crates/ferrl/src/checkpoint.rs:2553-2556 | the last malformed entry of the greatest step |
| Discovery.StepIsIndependentOfListing | crates/ferrl/src/checkpoint.rs:2436-2565 | whether there is an answer, and its step, do not depend on the listing order |
| Discovery.OrderFreeExactly | crates/ferrl/src/checkpoint.rs:2546-2551 | an answer is the same for every order of the listing exactly if all candidates of the greatest step are listed under one name |
| Discovery.OneSpellingFixesDirectory | crates/ferrl/src/checkpoint.rs:2546-2551 | then the directory, too, is the same for any listing of the same entries |
| Discovery.NoLeadingZerosOneSpelling | crates/ferrl/src/checkpoint.rs:2467-2492 | which holds when no listed step name has leading zeros |
| Discovery.SecondSpellingChangesDirectory | crates/ferrl/src/checkpoint.rs:2546-2551 | otherwise listing the other spelling first makes that directory the answer |
| Discovery.TwoSpellingsOfSeven | crates/ferrl/src/checkpoint.rs:2546-2551 | a directory with `step-7` and `step-007`: each order of the two returns its own first |
| Discovery.NeverSilentlyReplays | crates/ferrl/src/checkpoint.rs:2436-2565 | in every state and crash state of the ordinary writer: if step n logically holds a package, discovery refuses or returns a step of at least n, also when the canonical entry is unreadable, of unknown type or no directory |
| ManifestLast.CommitSurvivesCrash | crates/ferrl/src/artifact.rs:994-1076 | after any crash of a committed output a surviving manifest still comes with every promised file |
| ManifestLast.ArtifactPublication.Claim | crates/ferrl/src/artifact.rs:764-854 | an output that is already claimed refuses every later claim |
| ManifestLast.ArtifactPublication.StageBytes | crates/ferrl/src/artifact.rs:868-891 | stages a new valid path once and never replaces staged content |
| ManifestLast.ArtifactPublication.LinkStagedManifestLast | crates/ferrl/src/artifact.rs:994-1076 | for every plan of faults and whatever the outcome, a manifest that becomes visible comes with every other listed file as staged, also after a crash of any state on the way, which can lose only data whose own sync had failed; done, indeterminate and failed say exactly how the manifest link and the sync after it ended, and on an empty output the manifest is linked exactly if every step before it works; what is done survives every crash |
| ManifestLast.ArtifactPublication.PublishManifestLast | crates/ferrl/src/artifact.rs:897-916 | without a staged manifest nothing is published; otherwise as the commit above |
| ManifestLast.ArtifactPublication.PublishSimple | crates/ferrl/src/artifact.rs:941-990 | a claimed output is left exactly as it is; otherwise a visible manifest comes with the given bytes of every file, whatever the outcome and after a crash of any state on the way; a fresh output gets its manifest exactly if the claim, every write and every step before the manifest link work; what is done survives every crash |
| ManifestLast.FailureBesideManifest | crates/ferrl/src/artifact.rs:1064-1076 | a manifest link that takes effect but reports a failure: the publication fails beside a visible manifest |
| NoReplace.ManifestSurvivesWithPayload | crates/ferrl/src/checkpoint.rs:1694-1711 | the sync before the manifest rename makes every surviving manifest keep its payload |
| NoReplace.Destination.CleanupUncommittedClaim | crates/ferrl/src/checkpoint.rs:1840-1884 | removes only behind a marker check, and without outsiders does exactly what the plan of faults says; a plain error means the claim is gone |
| NoReplace.Destination.VerifyVisibleOwnedPackage | crates/ferrl/src/checkpoint.rs:1744-1795 | marker and files are read one after another with outsiders in between: success means exactly that every read worked and each part matched when it was read; if nothing changed meanwhile, exactly that all of them match now |
| NoReplace.PiecesPassVerification | crates/ferrl/src/checkpoint.rs:1744-1795 | a verification that runs into success under an outsider's moves although no state of the destination ever matched |
| NoReplace.Destination.SaveNoReplace | crates/ferrl/src/checkpoint.rs:1631-1742 | an existing destination is refused unchanged; success means the writer's marker and fingerprinted files each matched when verified; without outsiders success, plain error and ambiguity each exactly for the plans named, success durably; a plain error leaves nothing of this writer, except the empty directory of a claim that took effect but reported a failure, and after the manifest rename nothing is removed |
| NoReplace.EmptyClaimStays | crates/ferrl/src/checkpoint.rs:1653-1653 | that claim: a plain error beside an empty directory nobody owns |
| NoReplace.VisiblePackageRemoved | crates/ferrl/src/checkpoint.rs:1704-1711 | a manifest rename that takes effect but reports a failure: the visible package is removed with a plain error |
| NoReplace.ManifestWithoutPayload | crates/ferrl/src/checkpoint.rs:1704-1711 | if that removal stops half way, the manifest can stay visible without its payload, with an ambiguous reply |
| NoReplace.Destination.RunWriters | crates/ferrl/src/checkpoint.rs:1631-1742 | among any number of coordinated writers at most one succeeds, and its package stays |

## Left out

- CheckpointHistory.RunHistory: after an *ambiguous first* publication it crashes and recovers the destination before the next save; without that step crash safety fails, as `RecoveryCanBreakAFirstSave` shows. What holds without it are `RunUntilExposed` and `RunLive`.
- CountdownGenerator.PositiveTargetsExactly: over arbitrary streams of draws; which of them some 64-bit seed produces is followed only for one number and no preferred target (`PositiveSeedsExactly`).
- CountdownGenerator.PositiveDatasetsExactly: as for single problems.
- Attention.SoftmaxTail: over the reals; floating-point rounding and NaN are not modelled.
- Attention.MaskedIsPrefix: over the reals; floating-point rounding and NaN are not modelled.
- CachedDecoding.DenseCachedDecoder.Forward: merged and live projections are one uninterpreted function, a batch is one row, and tensor operations that the shapes allow do not fail.
- Discovery.NeverSilentlyReplays: a manifest that can be read at `step-n` is the ordinary one saved for step n, as the trainer does; file types and names are those the listing reports.
- RendezvousAgreement.RoundsAgree: each rank makes one call at a time and no thread panics while holding a lock, as the rank handles and the trainer guarantee.
- RendezvousProgress.CallsReturnTheWholeWorldsSum: assumes that every rank issues the same sequence of collectives, which the source makes the caller's obligation.
- CheckpointPackage.LoadCheckpoint: overwriting a variable with a tensor of its own shape and type does not fail; device transfers are the identity.
- ManifestLast.ArtifactPublication.LinkStagedManifestLast: the ownership check is an arbitrary answer, and outsiders do not edit the output between a passed check and the next step.
- NoReplace.Destination.RunWriters: coordinated writers run one after the other, which is what the advisory lock is for.
- A directory sync that succeeds makes its entries durable; silent loss after a successful `fsync` is not modelled.
- Advisory-lock system calls, creation of missing parent directories, process identifiers in hidden names.
- JSON and safetensors encodings, manifest fields that only legacy formats use, the per-tensor value digests used to compare live state across ranks.
- Separated rollout-ledger discovery, `save_adapter`'s and `load_adapter`'s version-1 payloads, which go through the same writer and the same tensor checks.
- The scalar all-reduce, whose floating-point sum is a foreign operation, and the NCCL communicator.
- Tensor-parallel sharding, rematerialization, LoRA merging, other model families.
- Countdown prompts, answer extraction and the floating-point reward tiers; stack depth of the recursive-descent parser.
- The artifact's report text, its alternating audit schedule, which one byte of the audit identifier decides, and the nine-of-eleven count over floating-point speedups.
- Reading JSONL data sets.
