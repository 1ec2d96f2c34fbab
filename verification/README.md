# Verified model of the doltswarm core

doltswarm synchronizes Dolt databases between peers. Every commit carries a hybrid logical clock timestamp (HLC).
A peer that fetches a diverged branch rebuilds `main` by replaying the user commits of both sides, in timestamp order,
onto a base commit. Heartbeats tell peers how far the others have come, and a peer finalizes what everyone it hears
from has passed. This project models that core in Dafny 4.11 and proves what it guarantees, and where it does not.

`dafny verify dfyconfig.toml` checks everything.

## Layout

| file | content |
|---|---|
| Text.dfy, Sorting.dfy | Go's string order and `%d`; the contract of `sort.Slice` and uniqueness of strict sorting |
| Hlc.dfy | timestamps, their order and rendering, the clock with its int32 counter |
| Index.dfy | the in-memory commit index |
| Dag.dfy, Walk.dfy, Breadth.dfy | the commit graph, reachability, the base-bounded walk and what its order means |
| Collect.dfy | filter, deduplication and sort: the replay list |
| Replay.dfy | the fold onto a temporary branch, and the reconciler |
| History.dfy | steps of the fold, lists without no-op merges, rejections |
| Fate.dfy | what becomes of the base and of the old history, under every Dolt and on the graph alone |
| Stamps.dfy, Forecast.dfy | which timestamps a replay loses: by its outcomes, and on the graph before it starts |
| Worst.dfy, Every.dfy | which timestamps and which old commits survive every three-way merge, conflicts included |
| Loss.dfy, Order.dfy | no silent loss, exactly; whether timestamps stay in order, exactly |
| Counterexamples.dfy | histories for which those promises fail |
| Convergence.dfy, Exchange.dfy | two replays agree; two peers that exchange heads agree |
| Safety.dfy | synchronization passes and whole runs of one node |
| Peer.dfy, Node.dfy | the handlers of a node as functions, and the node as a class that refines them |
| Rebuild.dfy | what the rebuilt index says: which commit it names, what stays pending or rejected |
| Swarm.dfy, Stability.dfy | runs of many peers; which runs are in order and which peers can still undercut a base, exactly |
| Advert.dfy, Finality.dfy | runs of one node under arbitrary messages; finalization and replay |
| ChunkStore.dfy | the cached, batched presence test |

## Main results

- **Convergence.** Two replays of the same list from the same base are bisimilar: same branch at every step, same
  old ancestors, same root, same rejections, same count, although every amended commit has a different hash on each
  peer. Two peers that each synchronize with the other's head therefore end on the same database root, in the first
  exchange and in every later one; a peer that synchronizes afterwards and is behind ends on the same commit.
- **The base.** A replay keeps its base under every behaviour of Dolt's merges if and only if, in the list, every
  ancestor of the base comes after a descendant of it. The proper ancestors of the base are always kept.
- **The old history.** An old commit that is neither the base nor replayed stays if and only if it lies below the base
  or below a folded commit; on the graph alone: some Dolt keeps it if and only if it lies below the base or below a
  listed commit, and then every Dolt that never conflicts does. Every Dolt keeps it if and only if the replay that
  conflicts throughout keeps it and so does each replay that merges once and conflicts from then on.
- **No silent loss.** If no listed commit is an ancestor of the base or of an earlier one, every user timestamp above the
  finalized base is in the new history or was reported: after one pass of any kind, and over whole runs while the base
  advances. Without that hypothesis the timestamp of a listed commit is lost exactly when its fold only moved the head,
  the next fold was a no-op, and no other commit that stays carries it. For every Dolt that never conflicts this is a
  condition on the graph before the call, and so is the loss of nothing at all. The same holds
  over all three-way merges, conflicts included: whether some merge loses something is a condition on the graph, and
  the worst merge is the one that always conflicts.
- **Order.** A replay leaves timestamps in order along ancestry unless it merges a commit older than something at or
  below its base, which a finalized base excludes; which lists are safe under every Dolt is a condition on the graph.
- **Finalization.** In every run whose replays onto a finalized base meet the condition above, the finalized commit is an
  ancestor of main; once a base moves, no peer that counted and not the node itself ever issues a timestamp at or below
  it, and which of the other peers still can is known exactly.
- **The index.** A rebuild is determined by main's history and the entries before. The entry of a timestamp names a
  commit of main that carries it, and none that carries it is further from main, so a base that moves right after a
  rebuild is the furthest commit with its timestamp. Nothing pending or rejected is forgotten, and a commit that was
  reported as conflicting is decided if its timestamp is above zero: advertisements of it change nothing afterwards.
- **Clocks.** In every run, of any length, in which no event overflows an int32 counter, happens-before implies less,
  timestamps are unique, and walls are readings somebody took. Clocks and messages are in order along a run if and only
  if nothing overflows in it. Runs of at most 2^31 events overflow nothing; one event more can. A clock always takes the
  least reading it may take, modulo the width of its counter.

Properties the code does not have. Each has a witness and the exact condition:

- `Counterexamples.DisorderLosesATimestamp`: imports do not update the clock, so timestamps can decrease along ancestry.
  Then a merge can be a no-op, and the amend after it overwrites the timestamp of the commit folded before. When that
  happens: `Stamps.StampAccountedIff` and `Stamps.BaseStampAccountedIff` by the outcomes; on the graph
  `Forecast.StampLostIff`, `Forecast.BaseStampLostIff` and `Loss.LosesNothingIff` without conflicts, and
  `Worst.AllAccountIff`, `Worst.AllAccountBaseIff` and `Loss.AllLoseNothingIff` over all merges. The comment that merge
  commits are ignored by later replays (core/reconciler_core.go:80) does not hold either: they are written with kind
  "user".
- `Counterexamples.FinalizedCommitIsDropped`: finalized history can be rewritten, contrary to the comment at
  core/reconciler_core.go:83-84. The base is one commit, and what lies at or below it in time but not in ancestry is
  left out by the next replay unless a replayed commit has it as an ancestor: `Safety.FinalizedKeptIff` without
  conflicts, `Safety.FinalizedKeptByAllIff` over all merges.
- `Counterexamples.SecondExchangeBreaksOrder`: a replay can itself put an older commit on top of a newer one, from
  histories in order. When it does: `Order.OrderKeptIff` by the outcomes, `Order.OrderKeptForecast` on the graph without
  conflicts, `Order.AllKeepOrderIff` over all merges.
- `Advert.FullCounterWraps`: a full counter in an advertisement wraps the clock. When an accepted advertisement still
  lies below the next local timestamp: `Advert.AdBelowNextIff`.
- `Advert.HeartbeatSkewIsUnbounded`: heartbeats are not checked for skew. When the wall exceeds the limit:
  `Advert.SkewExceededIff`.
- `Stability.StalledClockWraps`: a counter that overflows makes a clock go back. A run is in order if and only if that
  never happens in it: `Stability.OrderedIffSteady`.
- `Stability.UnheardPeerUndercuts`: a peer that was never heard can still issue a timestamp below the base. Exactly those
  peers can that have not started or whose least next timestamp is not above the base: `Stability.CanUndercutIff`; the
  node and the peers it had heard are never among them: `Stability.BaseUndercutIff`.

## Assumptions

- A hash determines its commit, and new hashes collide with nothing the peer has (`names` in a replay job).
- Commits lie above their parents in height, as Dolt stores them, and every parent is present after a fetch.
- Dolt's choice of a merge base is a function of the common ancestors, and its three-way merge a function of three
  roots. Commit metadata is given as parsed: a timestamp for user commits, nothing for others.
- Handlers are atomic steps; a pass and the index rebuild after it are one step. Physical readings, message delivery
  and cache eviction are arbitrary.
- `OrderedTo` (no listed commit is an ancestor of the base or of an earlier one) is the hypothesis of the no-loss
  theorems. `InOrder` (timestamps do not decrease along ancestry) with a base that no listed commit is below implies it.
  The code establishes neither: an import leaves the clock alone, and a replay without a finalized base can break the
  order. Whole-run finalization safety needs only `BaseStays` of the passes that replay onto a finalized base, which
  holds when no ancestor of the finalized commit has a greater timestamp.
- The conditions on the graph are for repositories with one initial commit, and those about timestamps for lists without
  zero timestamps. Each is stated for every Dolt that never conflicts, and once more over all three-way merges.

## Model

| member | source | states |
|---|---|---|
| Text.LexLessIff | protocol/hlc.go:89 | one string is less than another if and only if it is a proper prefix of it or has the smaller character where they first differ |
| Hlc.LessIff | protocol/hlc.go:82-90 | the wall decides, then the counter, then the first difference of the peer names |
| Hlc.LessTrichotomy | protocol/hlc.go:82-95 | any two timestamps are equal or ordered one way only |
| Hlc.LessTransitive | protocol/hlc.go:82-90 | the order is transitive |
| Hlc.ReadRender | protocol/hlc.go:103-105 | "wall:logical:peer" reads back as the timestamp, with negative numbers and colons in peer names |
| Hlc.RenderInjective | protocol/hlc.go:103-105 | so it identifies the timestamp |
| Hlc.NowAdvancesIff | protocol/hlc.go:40-58 | a local event moves the clock forward, and agrees with the unbounded reference clock, exactly when the int32 counter does not overflow |
| Hlc.UpdateAdvancesIff | protocol/hlc.go:61-79 | a received timestamp puts the clock past itself and past the old clock exactly when no counter overflows |
| Hlc.TickIsLeast | protocol/hlc.go:40-58 | a local event takes the least reading later than the clock and not behind the physical clock, with a counter from zero where the wall moves, for all counters; the clock differs only by int32 wraparound |
| Hlc.ObserveIsLeast | protocol/hlc.go:61-79 | a received timestamp gives the least reading later than the clock and than itself and not behind the physical clock, likewise |
| Hlc.NowIsLeast | protocol/hlc.go:40-58 | without an overflow the clock itself takes that least reading |
| Hlc.UpdateIsLeast | protocol/hlc.go:61-79 | likewise for a received timestamp |
| Hlc.HLC.constructor | protocol/hlc.go:28-37 | a new clock stands at the physical reading |
| Hlc.HLC.Now | protocol/hlc.go:40-58 | the new clock is the reference tick, wrapped at int32, and the result stamps it with the peer |
| Hlc.HLC.Update | protocol/hlc.go:61-79 | the new clock is the reference observation, wrapped at int32 |
| Swarm.HappensBeforeImpliesLess | protocol/hlc.go:40-90 | along any chain of local events and accepted messages, in any run without an overflow, the later issued timestamp is greater |
| Swarm.IssuedTimestampsDiffer | protocol/hlc.go:40-58 | no two timestamps issued in a run without an overflow are equal, whatever the physical clocks do |
| Swarm.ClockBounds | protocol/hlc.go:40-79 | every wall is at most any bound on the physical readings taken anywhere, every counter is below the number of steps |
| Swarm.ShortIsSteady | protocol/hlc.go:40-79 | a run of at most 2^31 events overflows no counter |
| Stability.StalledClockWraps | protocol/hlc.go:14-58 | that length is exact: one event more and a stalled peer issues a timestamp below its previous one |
| Stability.OrderedIffSteady | protocol/hlc.go:40-90 | for every run: clocks never go back and accepted messages are overtaken if and only if no event overflows a counter |
| Swarm.RunKeeps | core/node.go:339-456 | the invariant behind these, for every run without an overflow: monotone clocks, accepted messages overtaken, small counters, grounded walls, heard timestamps and base behind the clock |
| Swarm.CausalStability | core/node.go:339-456 | after a base moved, neither the node nor any peer it had heard issues a timestamp at or below it again, for any loss, repetition or reordering |
| Swarm.CommitIsAboveBase | core/sql.go:134-155 | a local commit that does not overflow the counter is above the base its node holds |
| Swarm.RunAdvances | core/node.go:363-456 | over every run neither a node's base nor its entry for any peer decreases |
| Swarm.HeardIsGreatest | core/node.go:363-378 | in every run the entry for a peer is the greatest heartbeat taken in from it, and exists only if there was one |
| Stability.CanUndercutIff | protocol/hlc.go:40-79 | after any run without an overflow, some continuation without one has a peer issue a timestamp at or below a given one if and only if the peer has not started or its least next timestamp is not above it |
| Stability.BaseUndercutIff | core/node.go:388-456 | after a base moved, exactly the peers behind it at that moment can still issue a timestamp at or below it; the node and the peers it had heard are not behind |
| Stability.UnheardPeerUndercuts | core/node.go:393-407 | a run in which a peer that was never heard is behind the new base |
| Peer.FinalizeMovesToGreatest | core/node.go:388-448 | finalization moves the base to the greatest applied timestamp above it that every heard peer has passed, and leaves it exactly when there is none |
| Peer.AdMeaning | core/node.go:475-568 | an undecided advertisement from another peer that is too far ahead, or whose metadata or signatures do not match, is recorded as rejected and repeating it changes nothing; one without user metadata is ignored; the rest are recorded as pending and move the clock |
| Peer.DecidedIsIgnored | core/node.go:475-490 | an advertisement of an applied or rejected timestamp, or of our own, changes nothing |
| Advert.SkewExceededIff | core/node.go:363-501 | under any advertisements and heartbeats the wall gets beyond the skew limit over the largest local reading if and only if a heartbeat taken in has its own wall there |
| Advert.SkewIsBounded | core/node.go:492-501 | under any advertisements alone the wall stays within the skew limit of the largest local reading |
| Advert.DecidedStays | core/node.go:475-484 | an applied or rejected entry is never changed by advertisements or heartbeats |
| Advert.AdBelowNextIff | core/node.go:554-563 | an accepted advertisement lies below the next local timestamp if and only if the reading or the wall has moved on, or no counter overflowed, or its counter is as low as a wrapped one |
| Advert.PendingIsBelowNext | core/node.go:554-563 | whatever is left pending in a run lies below the next local timestamp, as long as no step of the run overflows a counter |
| Advert.RoomyIsSteady | core/node.go:554-563 | counters that leave room for the length of the run overflow nowhere in it |
| Advert.FullCounterWraps | core/node.go:554-563 | an accepted advertisement with the largest counter ends up above the next local timestamp |
| Advert.HeartbeatSkewIsUnbounded | core/node.go:363-384 | a single heartbeat moves the wall to any value |
| Finality.LocalCommitIsCollectedOnce | core/reconciler_core.go:146-172 | the timestamp of a local commit appears exactly once in every list filtered by the base its node held |
| Index.ViewFaithful | core/index_mem.go:33-49 | the string-keyed index is a map keyed by timestamps |
| Index.MemoryCommitIndex.constructor | core/index_mem.go:19-23 | a new index is empty and has no base |
| Index.MemoryCommitIndex.ResetForRebuild | core/index_mem.go:27-31 | drops the entries and keeps the base |
| Index.MemoryCommitIndex.Upsert | core/index_mem.go:33-42 | replaces the entry of one timestamp and no other |
| Index.MemoryCommitIndex.Get | core/index_mem.go:44-49 | finds the entry of the timestamp if there is one |
| Index.MemoryCommitIndex.ListAfter | core/index_mem.go:51-68 | lists in strict order the entries after a timestamp, cut to the smallest `limit` |
| Index.MemoryCommitIndex.SetFinalizedBase | core/index_mem.go:81-97 | the base only advances |
| Dag.ReachIffPath | core/reconciler_core.go:407-449 | reachability is the existence of a path that avoids the base |
| Walk.GetCommitsSince | core/reconciler_core.go:407-449 | the walk terminates, lists no commit twice, returns exactly what is reachable without entering the base, in the order in which the listed commits have the others as parents, and fails exactly when one of those is missing |
| Breadth.WalkGoesByDistance | core/reconciler_core.go:416-446 | what the walk lists earlier is no further from the head |
| Breadth.WithinIffPath | core/reconciler_core.go:416-446 | that distance is the length of a shortest path that avoids the base |
| Breadth.WalkIsUnique | core/reconciler_core.go:416-446 | only one list has that order |
| Walk.WalkFindsTheRest | core/reconciler_core.go:407-449 | every ancestor of the head that is not one of the base is found |
| Walk.WalkCanFindAncestorsOfTheBase | core/reconciler_core.go:438-445 | an ancestor of the base with a second way up is found too |
| Collect.BeforeIsOrder | core/reconciler_core.go:451-468 | the comparison is a strict order |
| Collect.KeepUserCommits | core/reconciler_core.go:148-157 | keeps exactly the user commits above the finalized base |
| Collect.DeduplicateByHLC | core/reconciler_core.go:118-144 | keeps, for each timestamp, exactly the commit with the smallest hash |
| Collect.SortCommitsByHLC | core/reconciler_core.go:451-468 | sorts in place, keeping the commits |
| Collect.CollectUserCommits | core/reconciler_core.go:146-172 | the list is the strictly sorted set of survivors of both inputs together |
| Collect.CollectionIsUnique | core/reconciler_core.go:146-172 | the list depends only on the set of commits, not on order, split, map iteration or sort |
| Collect.CollectedIff | core/reconciler_core.go:118-172 | a commit is listed if and only if it is a user commit, above the finalized base, and no other with its nonzero timestamp has a smaller hash, compared character by character |
| Collect.ZerosComeLast | core/reconciler_core.go:451-468 | commits without a timestamp come last, by their hashes |
| Collect.CollectionMeaning | core/reconciler_core.go:118-172 | strictly increasing timestamps, smallest hashes, exactly the user timestamps above the base |
| Replay.StepMeaning | core/reconciler_core.go:201-263 | one turn of the fold, told from the two commits: a commit whose first parent is the head becomes the head; if one descends from the other a copy of the later one with the new timestamp goes on the branch; otherwise the roots of base, head and commit are merged into a commit with parents [head, commit], or the commit is reported |
| Replay.RefoldIsReset | core/reconciler_core.go:201-215 | folding a merge commit onto the head it was made from is a reset: no new commit, no count |
| Replay.FoldOntoParent | core/reconciler_core.go:201-215 | onto its first parent a merge commit is a reset, onto its second a fast-forward with a copy |
| Replay.Reconciler.FoldOne | core/reconciler_core.go:201-263 | one turn of the fold: reset, no-op, forward, merge or conflict, with the amend and the rejection |
| Replay.Reconciler.BuildTempBranch | core/reconciler_core.go:197-263 | the loop leaves the fold of the list: its graph, head, count, rejections and whether a merge failed |
| Replay.Reconciler.ReplayToTempBranchThenUpdateMain | core/reconciler_core.go:176-284 | the branch is the fold of the list; main moves there unless a merge failed or main advanced; rejections are reported in any case |
| Replay.Reconciler.ReplayImportedCommits | core/reconciler_core.go:85-116 | the list is the collection of the local walk from the effective base and the imports, and main is its replay |
| Replay.Reconciler.Append | core/sql.go:134-177 | a local commit goes on top of main |
| History.ReplayKeepsHistory | core/reconciler_core.go:197-263 | in an ordered list no merge is a no-op, the base and its ancestors stay, every commit without a conflict survives as itself or as an amended copy |
| History.NoOpFreeIff | core/reconciler_core.go:197-263 | no merge is a no-op under any Dolt behaviour if and only if no listed commit is an ancestor of the base or of an earlier one |
| Fate.NoOpIff | core/reconciler_core.go:197-263 | for every Dolt a merge is a no-op if and only if its commit is an ancestor of the base or of a commit folded before it |
| Fate.NoOpAtIff | core/reconciler_core.go:197-263 | without conflicts a merge is a no-op if and only if its commit is an ancestor of the base or of an earlier one of the list |
| Fate.BaseIsKept | core/reconciler_core.go:197-263 | when every ancestor of the base in the list comes after a descendant of it, no Dolt behaviour takes the base out of the history |
| Fate.BaseKeptIff | core/reconciler_core.go:197-263 | and only then: otherwise some behaviour of the three-way merge takes it out |
| Fate.BaseAncestorIsKept | core/reconciler_core.go:197-263 | the proper ancestors of the base are kept for every list and every Dolt |
| Fate.OldHistoryKeptIff | core/reconciler_core.go:197-263 | for every list and every Dolt an old commit that is neither the base nor replayed stays if and only if it is below the base or below a commit folded without conflict |
| Fate.KeptIffFed | core/reconciler_core.go:197-263 | the same on the graph before the call, for every Dolt that never conflicts: it stays if and only if it is below the base or below a listed commit |
| Fate.SomeDoltKeepsIff | core/reconciler_core.go:197-263 | over all Dolts: one that lies below neither is dropped by each of them, one that lies below either is kept by some |
| Stamps.StampAccountedIff | core/reconciler_core.go:201-263 | for every list and every Dolt, the timestamp of a listed commit is in the new history or reported unless its fold was a reset or a fast-forward, the next fold was a no-op, and no other commit that stays carries it |
| Stamps.BaseStampAccountedIff | core/reconciler_core.go:201-263 | likewise for the timestamp of the base, when the first fold was a no-op |
| Forecast.StampLostIff | core/reconciler_core.go:201-263 | on the graph before the call, for every Dolt that never conflicts: lost if and only if the list is a chain of first parents up to the commit, which descends from the one before, the next one is its ancestor, and nothing else below the base or the list carries the timestamp |
| Forecast.BaseStampLostIff | core/reconciler_core.go:201-263 | likewise for the timestamp of the base: the list starts with an ancestor of it and nothing else carries the timestamp |
| Worst.AllAccountIff | core/reconciler_core.go:201-263 | over all three-way merges, conflicts included, on the graph before the call: every one of them keeps or reports a listed timestamp unless the steps before only go up along first parents or need a merge, the commit only moves the head, an ancestor of it follows before anything that covers it, and no proper ancestor of it has the timestamp |
| Worst.AllAccountBaseIff | core/reconciler_core.go:201-263 | likewise for the timestamp of the base: safe from every merge if and only if every ancestor of the base in the list comes after a descendant of it, or a listed commit or a proper ancestor of the base has the timestamp |
| Every.AllKeepIff | core/reconciler_core.go:197-263 | over all three-way merges, before the call: an old commit that is neither the base nor replayed always stays if and only if it is below the commit that the branch reaches when everything conflicts, and each merge that can come first has it on one of its sides |
| History.RejectedAreConflicts | core/reconciler_core.go:217-233 | the reported rejections are exactly the commits that met a conflict |
| History.MergesAreAmendments | core/reconciler_core.go:237-262 | the returned count is the number of amended heads |
| Convergence.ReplaysAreBisimilar | core/reconciler_core.go:197-263 | two replays of a list take the same branch at every step and share root, old ancestors, rejections and count |
| Convergence.PeersConverge | core/reconciler_core.go:85-284 | peers with the same base, finalized base and commits replay the same list to the same root with the same rejections |
| Exchange.EverythingAboveTheBase | core/reconciler_core.go:95-110 | what is replayed is every user commit of both histories that passes the filter and is not below the base |
| Exchange.ExchangeConverges | core/node.go:663-705 | two peers that synchronize with each other's heads, whatever their histories, end on the same root and reject the same commits; a finalized base has to be shared, with nothing replayed below it |
| Exchange.LaterPeerFollows | core/node.go:663-733 | a peer whose head is an ancestor of the remote head ends on that very commit |
| Loss.FilterClearsBase | core/reconciler_core.go:153-166 | with a finalized base the filter alone keeps ancestors of the base out, if none has a greater timestamp |
| Loss.CollectedIsOrdered | core/reconciler_core.go:146-172 | ordered timestamps and a clear base give an ordered list |
| Loss.ReplayLosesNothing | core/reconciler_core.go:85-284 | after a replay of an ordered list every user timestamp above the base is in the new history or was reported |
| Loss.LosesNothingIff | core/reconciler_core.go:85-284 | on the graph before the call, for every Dolt that never conflicts: every user timestamp of both histories is accounted for if and only if no commit is undone by the next one, nor the base by the first, as the only source of its timestamp |
| Loss.AllLoseNothingIff | core/reconciler_core.go:85-284 | over all three-way merges, conflicts included, on the graph before the call: no merge loses a user timestamp of either history if and only if each listed timestamp, and the base's own if it is above the finalized base, is safe as above |
| Order.OrderKeptIff | core/reconciler_core.go:197-263 | a replay of an ordered list leaves timestamps in order along ancestry if and only if it merged no commit older than a user commit at or below the base |
| Order.OrderKeptForecast | core/reconciler_core.go:197-263 | the same on the graph before the call, for every Dolt that never conflicts |
| Order.AllKeepOrderIff | core/reconciler_core.go:197-263 | over all three-way merges, conflicts included: every replay of an ordered list leaves timestamps in order if and only if each listed commit that is older than something at or below the base is reached, like those before it, along first parents |
| Order.AnchoredKeepsOrder | core/reconciler_core.go:95-116 | from histories with timestamps in order, a replay onto a finalized base in main's history leaves them in order |
| Counterexamples.DisorderLosesATimestamp | core/reconciler_core.go:215-262 | with decreasing timestamps a timestamp is lost without report |
| Counterexamples.FinalizedCommitIsDropped | core/reconciler_core.go:95-115 | a commit finalized before a concurrent base is dropped by the next replay |
| Counterexamples.SecondExchangeBreaksOrder | core/reconciler_core.go:95-115 | two peers that merged the same commits synchronize again and put the earlier on top of the later |
| Safety.PassLosesNothing | core/node.go:663-705 | no silent loss after any successful pass over shared history whose list, if it replays, is ordered |
| Safety.OrderlyPassLosesNothing | core/node.go:663-705 | likewise for every pass over timestamps in order whose base no listed commit is below |
| Safety.PassLosesNothingIff | core/node.go:663-705 | the exact condition for a pass, on the graph before it, for every Dolt that never conflicts |
| Safety.AllPassesLoseNothingIff | core/node.go:663-705 | the exact condition over all three-way merges, conflicts included |
| Safety.RunLosesNothing | core/node.go:388-705 | over every run of such passes, local commits, failures, rebuilds and finalizations: a user timestamp of main still above the base at the end is in main's history or was reported in between |
| Safety.DatedBaseStays | core/reconciler_core.go:95-116 | a finalized base whose ancestors have no greater timestamp is kept by every pass |
| Safety.FinalizedKeptIff | core/reconciler_core.go:82-116 | for every Dolt that never conflicts a finalized commit of main stays if and only if it is an ancestor of the base or of a replayed commit |
| Safety.FinalizedKeptByAllIff | core/reconciler_core.go:82-116 | over all three-way merges, conflicts included: exactly which finalized commits of main every one of them keeps |
| Safety.MoveIsSafe | core/node.go:388-705 | every step of a node keeps the base and all applied entries in main's history, given only that a replay onto a finalized base keeps it under every Dolt |
| Safety.FinalizedIsAncestorOfMain | core/node.go:388-456 | at every point of every such run the finalized commit is an ancestor of main and carries its timestamp |
| Node.StableTimestamp | core/node.go:393-407 | the smallest heard timestamp, in any map order |
| Node.BestEntry | core/node.go:421-438 | the eligible entry with the greatest timestamp, or none if there is none |
| Node.Node.PublishHeartbeat | core/node.go:339-359 | takes a fresh local timestamp |
| Node.Node.OnHeartbeat | core/node.go:363-384 | raises the sender's entry and the clock, ignoring our own and other repositories |
| Node.Node.TryFinalize | core/node.go:388-456 | performs the finalization step on the node's state |
| Node.Node.OnCommitAd | core/node.go:458-568 | performs the advertisement step, and asks for a pass exactly when it accepts |
| Node.Node.CheckAd | core/node.go:475-552 | the checks in source order accept, refuse or ignore an advertisement exactly as specified |
| Node.Node.InitIndexFromDB | core/node.go:570-622 | a timestamp is applied exactly when a commit of main carries it, and names the last one of the walk that does; other pending and rejected entries above zero stay; the base is untouched |
| Rebuild.RebuiltNamesFarthest | core/node.go:570-622 | the entry of a timestamp names a commit of main that carries it, and no commit of main that carries it is further from main |
| Rebuild.HeadIsNotNamed | core/node.go:590-609 | a head that shares its timestamp with an older commit, as an amended merge does, is not the one named |
| Rebuild.RebuildIsUnique | core/node.go:570-622 | main's history and the entries before determine the rebuilt index |
| Rebuild.BaseIsFarthest | core/node.go:388-448 | a base that moves right after a rebuild is the furthest commit of main with its timestamp |
| Rebuild.RebuildKeeps | core/node.go:575-619 | of the timestamps that main does not carry, exactly the pending and rejected ones above zero keep their entries |
| Rebuild.UndecidedStays | core/node.go:570-622 | whatever a node does, a pending or rejected timestamp above zero keeps its entry until it is applied, rejected or advertised again, and a rejected one stays decided |
| Rebuild.PassAppliesMain | core/node.go:663-733 | after every pass that found something, the applied timestamps are exactly those that a commit of main carries |
| Rebuild.FailureMeaning | core/node.go:663-705 | a pass that fails leaves the base, the old history and, unless it advanced meanwhile, main alone; exactly what it reported until then is recorded as rejected |
| Rebuild.RejectionsMeaning | core/node.go:140-151 | the hooks mark exactly the reported nonzero timestamps as rejected, each naming the commit reported last under it |
| Rebuild.ReportedIsDecided | core/node.go:140-622 | after a merged pass a reported timestamp is decided if and only if it is above zero or main carries it: applied if main does, otherwise rejected and naming a reported commit |
| Rebuild.ReportedIsIgnored | core/node.go:475-484 | whatever advertises a reported timestamp above zero after the pass, the node stays as it is |
| Node.Node.RecordRejections | core/node.go:140-151 | the hook marks each reported timestamp as rejected |
| Node.Node.TryFastForward | core/node.go:708-733 | succeeds exactly when one head is an ancestor of the other, and then stands on the later one |
| Node.Node.SyncOnce | core/node.go:633-706 | every result is one of: no remote, bootstrap, a pass as specified, or a failed replay that leaves main alone |
| Node.Node.Commit | core/node.go:201-220 | takes a timestamp, commits on main (core/sql.go:134-177) and indexes it as applied |
| ChunkStore.MapChunkCache.InsertHas | core/cache.go:70-74 | adds only what was inserted, may forget anything |
| ChunkStore.MapChunkCache.GetCachedHas | core/cache.go:76-84 | returns exactly the hashes that are not cached |
| ChunkStore.Classify | core/remote_chunk_store.go:199-216 | the two-index loop separates a batch into absent and present hashes |
| ChunkStore.RemoteChunkStore.HasMany | core/remote_chunk_store.go:177-227 | exactly the requested hashes the provider lacks, for any batch size, eviction and answer order, with bounds when it grows meanwhile; the cache holds only the provider's chunks; a failed call fails the request |
| ChunkStore.RemoteChunkStore.Has | core/remote_chunk_store.go:168-175 | a single chunk is reported present if the provider had it before the call, and only if it has it after; the cache holds only the provider's chunks; a failed call fails the request |

## Left out

- Swarm.HappensBeforeImpliesLess: orders only messages whose handler updates the clock; an ignored or refused advertisement orders nothing. Runs with an overflow are excluded because they are not in order (`Stability.OrderedIffSteady`).
- Forecast.StampLostIff: is stated for Dolt behaviours that never conflict; when a given Dolt conflicts on some roots only, `Stamps.StampAccountedIff` states it by the outcomes, and `Worst.AllAccountIff` says when no Dolt loses the timestamp.
- Peers that never stop exchanging: two peers with equal roots but different commits replay again in every later exchange; each one ends on equal roots, and no settling on a common commit is claimed.
- The algorithm of `sort.Slice`: an in-place insertion sort stands for it, and uniqueness of the result makes the choice irrelevant.
- SQL text, connections, transactions, temporary branches and their cleanup, and errors of the database itself: foreign calls; of their failures only a merge of unrelated histories and a missing commit are modelled.
- JSON metadata, signatures and identities: their verdicts are fields of an advertisement, and a commit's parsed timestamp is given.
- Goroutine interleavings inside a handler: handlers are atomic; finalization does not take the node's lock in the source.
- Bootstrap reset of main in whole runs: it discards history on purpose; `Node.Node.SyncOnce` states its effect.
- int64 overflow of `now + skew`, and restarts of a peer, which begin a new clock.
- Several providers sharing the global chunk cache: presence would be relative to their union.
- Chunk download, table files, transports, gossip, the UI and the deployment scripts: plumbing.
- The planned Merkle-clock protocol and its Quint model: the Go core does not implement it.
