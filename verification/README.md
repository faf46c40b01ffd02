# A verified model of the chain-keeping core

This project models the part of the node that decides which chain it is on and what a block does to
the accounts, and proves the laws that part lives by. The Go code is cited by path and line; nothing
in here depends on it.

- **Canonical chain** (`Headers`, `ForkChoice`, `HeaderChain`, `Reorg`, `Rewind`, `BlockChain`,
  `ChainRuns`, `Evm`, `TrieGc`). Headers form a table linked by parent hash down to genesis. The
  canonical index, the head markers, the total difficulties and the transaction lookups are derived
  data that extending, switching and rewinding have to keep right. The central law: the index is
  exactly the ancestor path of the head.
- **Section indexer** (`ChainIndexer`). A worker indexes sections of the canonical chain without the
  lock while reorg notices shrink the index. Checking only the last section head is enough.
- **Event feed** (`CaseList`, `FeedProtocol`, `Feed`). Subscribing, unsubscribing and sending
  interleave over two slices that share one array. The protocol is a machine of atomic steps; the
  class updates the array in place and every method of it is shown to be a run of that machine.
- **Transaction accounting** (`Accounts`, `GasPool`, `Messages`, `StateTransition`,
  `StateProcessor`). Wei, gas and nonces through single messages, whole blocks and runs of blocks
  (section 6 of the Ethereum Yellow Paper, EIP-1559, EIP-3529, EIP-4844, EIP-7702).
- **Remote verification** (`Verifier`). A manager, per-block tasks and peers exchange messages; what
  can ever be recorded as verified is pinned down. The manager is a machine of atomic steps, and every
  method of the class is shown to take exactly those.

Hashes are opaque identifiers and do not collide. The database is a set of maps; a batch is a pending
copy that replaces them at the end. What the code reads from outside (clocks, coin flips, channel
readiness, peers, the consensus engine, the virtual machine, the engine's justified number) is a
parameter or a nondeterministic choice. The virtual machine is any function of the message, the block's
context, the gas given and the world that returns no more gas than it got, makes no wei, and neither
lowers the nonce of an account that has signed something nor turns such an account into a contract.
Total supply is below 2^256.

Where a promise does not hold of the code as it is, the code was kept, the exact condition proved, and
a concrete failing state given in `Counterexamples`:

- A rewind to a number removes everything above it if and only if the head header is above it, or
  nothing is (`HeaderChain.SetHead`): a head at or below the target ends the loop before any wipe.
- Fork choice is a strict partial order unless a terminal difficulty is set; two heads replace each
  other exactly when they are equally justified and both have reached it (`MutualPreference`).
- Putting a block on the head block gives its path if and only if no header marker reaches above it
  (`ExtendIndex`, `ImportOne`, `MakeHead`); a reorg always does.
- A reorg that stops at a missing body leaves the path of some header if and only if all it wrote was
  there before or the old index did not reach to the missing block (`InterruptedReorg`); index and
  markers are in order if and only if it wrote nothing or the old index did not reach, and the
  lookups are right if and only if it wrote nothing or rewrote every transaction of the old branch
  (`WriteKnownBlock`).
- A rewind leaves the transaction lookups right if and only if no transaction of the old head's path
  lies above the new head block (`SetHeadBeyondRoot`, `RewindTo`).
- The sections reported are none, and the last header number 2^64 - 1, if and only if no stored
  section is canonical (`Sections`).
- The list costs of the intrinsic gas are added without an overflow check; the sum is exact if and
  only if it fits 64 bits (`IntrinsicGas`), and cumulative gas strictly increases if and only if every
  receipt after the first shows gas used (`CumulativeStrict`, `UsesGas`).
- Asked for an ancestor of a hash it does not know under the number, the lookup fails if and only if
  the hash is not zero, the distance is one, or the number is not above the head (`GetAncestor`).

## Model

| member | source | states |
|---|---|---|
| `Headers.NoGaps` | core/headerchain.go:678-686 | if a number is stored then some header is stored at every number below it, which makes the upward probe of a rewind complete |
| `Headers.SwitchBranch` | core/headerchain.go:171-211 | an index that follows the old path up to a shared ancestor and the new head above it, with nothing beyond, is the new head's path |
| `Headers.TdInsert` | core/blockchain.go:1754-1771 | parent's total difficulty plus own difficulty keeps every recorded difficulty equal to the sum along the path to genesis |
| `ForkChoice.VerdictIsPrefers` | core/forkchoice.go:83-163 | with correct difficulty records the verdict with its database reads, also for a header not stored yet, is the comparison of the true path sums |
| `ForkChoice.PrefersTransitive` | core/forkchoice.go:83-163 | preference is transitive for any chooser, terminal difficulty and preserve hook included |
| `ForkChoice.MutualPreference` | core/forkchoice.go:98-103 | two heads are preferred to each other if and only if they are equally justified and both have reached the terminal difficulty |
| `ForkChoice.StrictPartialOrder` | core/forkchoice.go:83-163 | without a terminal difficulty the choice is irreflexive, asymmetric and transitive over all headers |
| `ForkChoice.SwitchRaisesRank` | core/forkchoice.go:104-163 | whatever the coin, a switch never lowers (justified number, difficulty, -number, -time) lexicographically |
| `ForkChoice.RankDecides` | core/forkchoice.go:104-163 | without hook and terminal difficulty, of two headers of different rank the better one is chosen if and only if it is the external one, whatever the coin |
| `ForkChoice.TieBreak` | core/forkchoice.go:125-139 | at equal rank the external header is chosen if and only if its hash is smaller, for one validator, or the coin says so, for two |
| `ForkChoice.HookDecides` | core/forkchoice.go:120-141 | the hook matters only at equal justification, difficulty and number, where an own current header stays and an own external one wins against another |
| `ForkChoice.TerminalDecides` | core/forkchoice.go:98-103 | an equally justified external header that has reached the terminal difficulty is chosen; otherwise the terminal difficulty does not matter |
| `ForkChoice.OutweighsWins` | core/forkchoice.go:104-163 | a header that is more justified, or as justified and heavier, is chosen whatever hook, terminal difficulty and coin; without terminal difficulty one that the current header outweighs is not |
| `ForkChoice.NoWorseIsTotalOrder` | core/forkchoice.go:104-163 | ranks are totally ordered |
| `HeaderChains.WriteStep` | core/headerchain.go:251-267 | a header that the skip-known shortcut passes over was stored with its parent from the start, and writing it would change nothing |
| `HeaderChains.PrepareHeaders` | core/headerchain.go:236-268 | the batch loop grows the table by exactly the batch, counts exactly the new headers, and keeps links and path sums right |
| `HeaderChains.StoredAbove` | core/headerchain.go:681-686 | probing upwards until the first empty number finds exactly numbers above that carry a header, and all of them on all forks |
| `HeaderChains.MarkersAbove` | core/headerchain.go:173-179 | probing upwards until the first gap finds exactly the index entries above |
| `HeaderChains.CrossLink` | core/headerchain.go:183-198 | the walk back stops at the highest shared ancestor and collects exactly the path entries above it |
| `HeaderChains.Redirect` | core/headerchain.go:157-221 | for any stored batch the rewritten index is exactly the last header's ancestor path |
| `HeaderChains.HeavierIsChosen` | core/headerchain.go:304-313 | measured by true path sums, a heavier or more justified header is chosen and, without terminal difficulty, a lighter one is not |
| `HeaderChains.HeaderChain.WriteHeaders` | core/headerchain.go:227-279 | fails exactly for an unknown parent or an interrupt, with nothing changed; otherwise stores exactly the batch with correct difficulties |
| `HeaderChains.HeaderChain.Insert` | core/blockchain.go:1760-1772 | storing one header with its difficulty keeps links, path sums and the canonical index |
| `HeaderChains.HeaderChain.Reorg` | core/headerchain.go:157-221 | afterwards the index is exactly the ancestor path of the new head header |
| `HeaderChains.HeaderChain.WriteHeadersAndSetHead` | core/headerchain.go:288-324 | keeps index and difficulties, moves the head to the last header of the batch exactly when the chooser prefers it and it is not canonical already, reports a side chain exactly when it stored something that is not preferred, and without hook and terminal difficulty never lowers the head's rank |
| `HeaderChains.StepBack` | core/headerchain.go:642-687 | one round steps to the parent and notes every number above it that carries a header |
| `HeaderChains.StepDown` | core/headerchain.go:642-687 | the loop ends at the highest ancestor that meets the target, with every number above it noted |
| `HeaderChains.RewoundMeans` | core/headerchain.go:629-642 | a rewind to a number below the head ends at the head's ancestor with just that number; one to a time at the highest ancestor no later than it |
| `HeaderChains.HeaderChain.Flush` | core/headerchain.go:689-710 | the batched deletions leave exactly the headers, difficulties and index entries at or below the new head |
| `HeaderChains.HeaderChain.SetHead` | core/headerchain.go:617-715 | the head becomes its highest ancestor meeting the target and everything above goes on all forks; everything above the target is gone if and only if the head was above it or nothing was |
| `HeaderChains.WalkBack` | core/headerchain.go:448-467 | the walk gives the ancestor exactly when the non-canonical stretch or the distance fits the budget, and charges exactly the steps walked |
| `HeaderChains.HeaderChain.GetAncestor` | core/headerchain.go:436-468 | the canonical jump gives the ancestor of the parent walk, succeeds if and only if the non-canonical stretch or the distance fits the budget, and charges exactly the steps walked; for a hash not stored under the number it fails if and only if the hash is not zero, the distance is one or the number is not above the head |
| `Reorganisation.Branches` | core/blockchain.go:2701-2740 | both walks meet at the highest common ancestor and collect exactly the two branches, for any lengths |
| `Reorganisation.UndoOld` | core/blockchain.go:2800-2817 | succeeds exactly when all bodies of the old branch are there, and collects exactly its transactions |
| `Reorganisation.ApplyNew` | core/blockchain.go:2818-2838 | writes the new branch without its head, oldest first, up to the first missing body, and collects exactly its transactions |
| `Reorganisation.LookupsMean` | core/blockchain.go:1288-1298 | right lookups find a transaction at a number if and only if the block there on the head's path has a body with the transaction in it |
| `Reorganisation.LookupsAfterReorg` | core/blockchain.go:2842-2850 | deleting the old-only transactions leaves exactly the lookups of the new branch below its head; shared ones survive and move |
| `Reorganisation.InterruptedLookups` | core/blockchain.go:2818-2838 | after a reorg stopped at a missing body the lookups are those of the last written block if and only if every transaction of the old branch is in one of the new blocks written |
| `Reorganisation.LookupsWithHead` | core/blockchain.go:1288-1298 | the caller's head write completes the lookups, also of transactions only in the new head that the reorg deleted |
| `Reorganisation.CanonAfterReorg` | core/blockchain.go:2851-2864 | deleting the markers above the last written block leaves exactly the path of the reorg's target |
| `Reorganisation.Unmark` | core/blockchain.go:2851-2864 | the upward probe finds exactly those markers |
| `Reorganisation.Reorg` | core/blockchain.go:2695-2878 | succeeds exactly when the bodies of both branches are there, then index and lookups are those of the target; with a body missing, exactly what index, lookups and head are left as |
| `Reorganisation.ExtendIndex` | core/blockchain.go:1918-1932 | a plain extension gives the block's path if and only if no marker reaches above it |
| `Reorganisation.MoveHead` | core/blockchain.go:1739-1748 | reorg and head write together leave exactly the head's path for any two branches, an ancestor of the old head included, and exactly its lookups |
| `Reorganisation.InterruptedReorg` | core/blockchain.go:2818-2824 | the index after a reorg stopped at a missing body is some header's path if and only if all that was written was there before or the old index, header markers included, did not reach to the missing block |
| `Reorganisation.StoppedOnPath` | core/blockchain.go:2818-2838 | that index is the path of the last written block if and only if the old index did not reach to the missing block |
| `Reorganisation.MoveMarkers` | core/blockchain.go:1739-1748 | a head move succeeds exactly when it extends or the bodies are there; when it fails, what it leaves is stated: index and markers are in order exactly when nothing was written or the old index did not reach to the first missing body, the lookups are right exactly when nothing was written or every transaction of the old branch was rewritten |
| `Reorganisation.LookupsAfterRewind` | core/blockchain.go:1088-1108 | on the wiped tables, lookups that a rewind leaves alone are right if and only if no transaction of the old path lies above the new head block |
| `Rewinding.RewindHash` | core/blockchain.go:814-887 | terminates at the highest searched ancestor with state at or below the crossing of the root, genesis if there is none, with the root's highest number |
| `Rewinding.RewindPath` | core/blockchain.go:890-962 | the same for the path scheme, with recoverable states, the pivot bound and the fallback for an unattainable root |
| `Rewinding.SearchReach` | core/blockchain.go:823-840 | with a pivot everything from the pivot up is searched, otherwise the last 90000 blocks |
| `BlockChains.BlockChain.WriteKnownBlock` | core/blockchain.go:1739-1748 | makes any stored block the head exactly when it extends the head or the bodies are there, with the index its path (condition stated) and the lookups its transactions; when it fails, exactly what the interrupted reorg leaves of index, lookups and markers and when those are in order; covers the end of SetCanonical, lines 2911-2918 |
| `BlockChains.IndexedFrame` | core/blockchain.go:1752-1772 | storing more blocks leaves the lookups of the head exactly right, unless a stored header gets a body it lacked |
| `BlockChains.BlockChain.GrowFrame` | core/blockchain.go:1752-1772 | growing the tables disturbs neither the canonical index nor the place of the head block on it nor the lookups |
| `BlockChains.BlockChain.WriteBlockWithState` | core/blockchain.go:1752-1772 | refuses exactly an unknown parent; otherwise stores block, correct difficulty and state, wherever the index points, and disturbs neither index nor lookups |
| `BlockChains.BlockChain.WriteBlockAndSetHead` | core/blockchain.go:1904-1932 | the block becomes the head exactly when the chooser prefers it by true path sums, so always if it is more justified, or as justified and heavier, and its bodies are there, and never, without terminal difficulty, if the head outweighs it; index and lookups are then exactly its own; a failed move leaves exactly what the interrupted reorg does |
| `BlockChains.StoredReady` | core/blockchain.go:1720-1735 | a side block stored with its parent's difficulty plus its own keeps links and path sums, and storing a known one changes nothing |
| `BlockChains.WriteSideBlocks` | core/blockchain.go:2488-2533 | exactly the blocks before the first that claims the canonical state root at its number are stored, each with its true total difficulty, canonical re-imports included |
| `BlockChains.SideGrown` | core/blockchain.go:2488-2533 | the tables only grow, and bodies that were there stay |
| `BlockChains.NoGhostState` | core/blockchain.go:2488-2533 | no side block at or below the head gets stored that is not canonical and claims the state root of the canonical block at its number; the block at which a side chain stops does claim it |
| `BlockChains.BlockChain.WriteSideChain` | core/blockchain.go:2488-2533 | the same on the chain itself, wherever its index points: headers, bodies and difficulties are exactly those of the blocks before the first that shadows, and index and lookups are undisturbed |
| `BlockChains.WriteSideBlock` | core/blockchain.go:2488-2533 | refuses exactly a block that shadows; otherwise the block is stored and the carried difficulty is its recorded one |
| `BlockChains.UpdateMarks` | core/blockchain.go:1016-1068 | the head block becomes the highest usable ancestor of the new head header unless it is lower already, has its state unless it is genesis, and no state appears that was not usable before; the snap block follows; the number returned is the highest of the requested root |
| `BlockChains.LandsOnRoot` | core/blockchain.go:814-962 | a rewind in search of a root whose state can be had lands exactly on the highest block with that root that the search gets to |
| `BlockChains.NeverStrands` | core/blockchain.go:814-962 | without a root, or in the path scheme with one that cannot be had, the head block does not fall below a block with its state that the search gets to |
| `BlockChains.BlockChain.WipeAbove` | core/blockchain.go:1088-1108 | exactly the bodies and headers above go, and the head and snap blocks stay on the canonical chain |
| `BlockChains.SettleDown` | core/blockchain.go:1016-1043 | round by round the head block stays as high as the last header that moved it allows, and a lower one is left alone |
| `BlockChains.SnapDown` | core/blockchain.go:1054-1068 | the snap block follows the header down exactly as long as the bodies are there and falls to genesis otherwise |
| `BlockChains.SettledIsBest` | core/blockchain.go:1016-1043 | without a root or pivot, and in the hash scheme from a head numbered at most 90000, such a head block is the highest with usable state |
| `BlockChains.RewindRound` | core/headerchain.go:642-676 | one round updates the marks for the parent and keeps all of this |
| `BlockChains.RewindDown` | core/headerchain.go:642-687 | ends at the highest ancestor meeting the target, with the markers on its path, and carries the above through all rounds |
| `BlockChains.RewoundLookups` | core/blockchain.go:1088-1108 | the lookups after a rewind are right if and only if no transaction of the old head's path lies above the new head block |
| `BlockChains.BlockChain.SetHeadBeyondRoot` | core/blockchain.go:1002-1125 | terminates with head and snap block on the canonical chain at or below the head header; everything above is gone on all forks with exactly its bodies; a moved head block has its state, out of the states usable before, unless it is genesis, and is the highest searched one for the last header that moved it; without root, pivot and search limit it is the highest of all; the returned number is a place of the requested root, not below a moved head block if the root can be had; lookups are right if and only if no transaction of the old head's path lies above the new head block |
| `ChainRuns.ChosenRank` | core/blockchain.go:1904-1932 | a head the chooser picked is ranked no worse than the one it replaced |
| `ChainRuns.ImportOne` | core/blockchain.go:1904-1932 | an import stores the block and moves all markers to it exactly when the chooser prefers it, changes nothing else, and keeps right lookups right; it keeps the index the head header's path with the head block on it, except exactly for a preferred block put on the head block below the header head |
| `ChainRuns.StoreSideChain` | core/blockchain.go:2488-2533 | of any side chain with a known parent exactly the blocks before the first that shadows are stored, nothing of one without, under any index |
| `ChainRuns.ImportSideChain` | core/blockchain.go:2488-2533 | so it is with an index in order, which stays in order with the head alone and right lookups right |
| `ChainRuns.MakeHead` | core/blockchain.go:2898-2918 | any stored block can be made the head with exactly its lookups; index and markers are in order if and only if it is not put on the head block below the header head |
| `ChainRuns.RewindTo` | core/blockchain.go:1002-1125 | a rewind has the stated effect, and keeps the index the head header's path with the head and snap blocks on it and every stored block its body; right lookups stay right if and only if no transaction of the old head's path lies above the new head block |
| `ChainRuns.EffectRank` | core/blockchain.go:1904-1932 | an import or side chain never lowers the rank of the head |
| `ChainRuns.RunFrom` | core/blockchain.go:1904-1932 | nor does any run of them, from any point on |
| `ChainRuns.ImportDecides` | core/blockchain.go:1904-1932 | an imported block that outweighs the head becomes head and snap block; one that the head outweighs leaves the head |
| `ChainRuns.ImportRank` | core/blockchain.go:1904-1932 | after an import the head ranks no worse than the block |
| `ChainRuns.HeadIsBest` | core/blockchain.go:1904-1932 | after any run of imports and side chains the head ranks no worse than every block imported on the way under a known parent |
| `ChainRuns.Step` | core/blockchain.go:1904-1932 | each operation has exactly its effect on headers, bodies, markers and states, and keeps the invariants unless it puts a block on the head block below the header head |
| `ChainRuns.Run` | core/blockchain.go:1904-1932 | after every run of imports, side chains, head moves and rewinds, given with the states it went through step by step, the index is exactly the head header's path and every difficulty the path sum, up to the first block put on the head block below the header head; without rewinds nothing stops the run and the lookups are exactly the head's transactions; imports never lower the rank |
| `ChainRuns.HeaderStep` | core/headerchain.go:288-324 | a header batch is stored as a whole or not at all and moves the head exactly when it is chosen and not canonical, a rewind goes exactly to the highest ancestor meeting the target; either keeps the index the head header's path, and a batch never lowers the rank |
| `ChainRuns.HeaderRun` | core/headerchain.go:288-324 | the same after every run of batches, known, partly known or interrupted, and rewinds (lines 617-715 as well), given step by step |
| `ChainRuns.WriteTables` | core/headerchain.go:227-279 | a header batch, a block or a side chain has exactly its effect on the tables and keeps every difficulty the path sum, whatever the index is |
| `ChainRuns.TableRun` | core/blockchain.go:1720-1772 | after every run of all three writers of the difficulty table every stored difficulty is the path sum, wherever the index points |
| `HashLookups.WalkIsAncestor` | core/evm.go:112-127 | a fresh walk answers with the ancestor by parent links |
| `HashLookups.FreshIsAncestor` | core/evm.go:94-130 | the answer is the ancestor of the reference header's parent at the number, the parent itself one below, and nothing at or above the header |
| `HashLookups.ParentIsKnown` | core/evm.go:94-130 | the parent is answered even if it is not stored |
| `HashLookups.HashLookup.Query` | core/evm.go:94-130 | the growing cache answers as a fresh walk from the reference header would |
| `HashLookups.HashLookup.QueryAll` | core/evm.go:94-130 | so does any sequence of queries |
| `TrieGc.Collector.WriteBlock` | core/blockchain.go:1826-1886 | references equal releases plus queue entries for every root; exactly the entries at least TriesInMemory below the written block are released, none in the first TriesInMemory blocks |
| `TrieGc.Collector.Collect` | core/blockchain.go:1873-1885 | releases exactly the entries at or below the chosen number, whatever order they were queued in |
| `TrieGc.ReleasedFarBelow` | core/blockchain.go:1830-1885 | a write releases exactly the entries at least 128 blocks below it, and none in the first 128 blocks |
| `TrieGc.Collector.Drain` | core/blockchain.go:1394-1396 | afterwards every root was released as often as referenced |
| `TrieGc.Session` | core/blockchain.go:1826-1886 | over any sequence of writes and the final drain each root is released exactly as often as it was written |
| `ChainIndexers.VerifyLastKeeps` | core/chain_indexer.go:422-429 | dropping sections keeps the links and the heads of the remaining ones |
| `ChainIndexers.StartKeeps` | core/chain_indexer.go:317-337 | taking the next section links the worker to the last stored head |
| `ChainIndexers.ReadKeeps` | core/chain_indexer.go:388-417 | a header read through an index that may have changed extends the worker's chain by one parent link, or ends the section |
| `ChainIndexers.FinishKeeps` | core/chain_indexer.go:348-368 | the recheck of the old head suffices: a completed section head descends from the stored one before by exactly sectionSize links |
| `ChainIndexers.NextKeeps` | core/chain_indexer.go:243-382 | every step, under any canonical index, keeps the linking invariant |
| `ChainIndexers.RunKeeps` | core/chain_indexer.go:304-382 | so does every interleaving of notices, worker steps and queries |
| `ChainIndexers.CanonicalBelow` | core/chain_indexer.go:422-429 | below a canonical section head lies a canonical one |
| `ChainIndexers.VerifyLastExact` | core/chain_indexer.go:422-429 | the check of the last head leaves exactly the longest prefix of canonical sections |
| `ChainIndexers.AskIsExact` | core/chain_indexer.go:434-440 | all sections kept by a query are canonical and none dropped was |
| `ChainIndexers.ReportedAreCanonical` | core/chain_indexer.go:434-440 | after every interleaving a query reports exactly the canonical sections |
| `ChainIndexers.NoticeCounts` | core/chain_indexer.go:243-300 | a head notice makes known exactly the sections whose last header has its confirmations; a reorg notice keeps known and stored exactly those that end at or below the head |
| `ChainIndexers.NoticeFrame` | core/chain_indexer.go:243-300 | a head notice changes nothing but what is known; a reorg notice keeps the heads of the sections that stay and the work under way |
| `ChainIndexers.CanonicalStays` | core/chain_indexer.go:243-440 | no event but a reorg notice or a failed reset drops a stored section that is canonical under the index it reads, and a head notice drops none |
| `ChainIndexers.CanonicalStaysOn` | core/chain_indexer.go:304-382 | so it is over every run |
| `ChainIndexers.FailRests` | core/chain_indexer.go:362-367 | after a failed section the worker does nothing until the next head notice |
| `ChainIndexers.OneAtATime` | core/chain_indexer.go:304-382 | a busy worker does not start another section, and an idle one has nothing to read, finish or fail |
| `ChainIndexers.WorkerIsExact` | core/chain_indexer.go:317-367 | a worker that wakes with something to do, or fails, leaves exactly the canonical sections; a failed reset leaves none |
| `ChainIndexers.SectionCompletes` | core/chain_indexer.go:317-368 | with a section to do and an index that stays some header's path, one round of the worker stores exactly one more section, and a canonical one |
| `ChainIndexers.RoundsComplete` | core/chain_indexer.go:304-382 | left undisturbed the worker stores every known section that the chain has, one a round, and all stored are canonical then |
| `ChainIndexers.ChainIndexer.SetValidSections` | core/chain_indexer.go:479-491 | cutting back removes exactly the heads above |
| `ChainIndexers.ChainIndexer.VerifyLastHead` | core/chain_indexer.go:422-429 | the loop computes the specified cut |
| `ChainIndexers.ChainIndexer.NewHeadNotice` | core/chain_indexer.go:243-300 | a head notice changes only what is known, to exactly what has its confirmations; a reorg notice keeps known and stored exactly what ends at or below the head, with its heads; the links are kept |
| `ChainIndexers.ChainIndexer.StartSection` | core/chain_indexer.go:317-337 | refines the start step and keeps the links |
| `ChainIndexers.ChainIndexer.ReadHeader` | core/chain_indexer.go:388-417 | refines the read step and keeps the links |
| `ChainIndexers.ChainIndexer.FinishSection` | core/chain_indexer.go:348-368 | refines the finish step and keeps the links |
| `ChainIndexers.ChainIndexer.Sections` | core/chain_indexer.go:434-440 | every reported section is canonical, no dropped one was, and the reported head is the canonical header at the reported number; nothing is reported, and the number wraps, if and only if no stored section is canonical |
| `CaseLists.CountSwapOut` | event/feed.go:218-222 | deactivating takes exactly one case out of the active prefix and keeps the whole list's contents |
| `CaseLists.PrefixDelete` | event/feed.go:161-167 | deleting from the shared array shrinks the active prefix by that case if it lies there and leaves it alone otherwise |
| `CaseLists.Find` | event/feed.go:203-210 | returns the first case of the channel, -1 exactly when there is none |
| `CaseLists.Delete` | event/feed.go:213-215 | the in-place shift removes exactly the indexed case |
| `CaseLists.Deactivate` | event/feed.go:218-222 | the in-place swap exchanges exactly the case and the last active one |
| `FeedProtocol.FindNeverMisses` | event/feed.go:109-115 | a remover past the inbox check always finds its case |
| `FeedProtocol.DeliverKeeps` | event/feed.go:145-151 | after a delivery the active prefix is still what is neither sent nor removed, for every channel |
| `FeedProtocol.RemoveKeepsTracked` | event/feed.go:161-167 | so it is after a removal from the shared array, wherever the removed case lay |
| `FeedProtocol.EndIsComplete` | event/feed.go:152-154 | a finished send delivered once per subscription of a channel, at most once for those removed meanwhile |
| `FeedProtocol.NextKeeps` | event/feed.go:73-180 | every atomic step keeps the accounting of subscriptions and no step deletes a missing case |
| `FeedProtocol.RunKeeps` | event/feed.go:73-180 | so does every interleaving of any number of goroutines |
| `FeedProtocol.SilentAfterUnsubscribe` | event/feed.go:95-116 | once every Unsubscribe of a channel is through, no step of any later run delivers to it before it is subscribed again |
| `FeedProtocol.SubscribeCounts` | event/feed.go:86-92 | subscribing enters the channel once in the inbox and among the subscriptions, and touches nothing else |
| `FeedProtocol.UnsubscribeCounts` | event/feed.go:95-107 | cancelling takes exactly one subscription of the channel away, out of the inbox if it waits there, otherwise onto the way out of the send list |
| `FeedProtocol.RemoveCounts` | event/feed.go:109-115 | a remover gets through exactly when nobody sends or a send has active cases, and then takes exactly one case of its channel off the list |
| `FeedProtocol.BeginCounts` | event/feed.go:130-133 | a send starts with all that is listed or waiting, all of it active and delivered to nobody |
| `FeedProtocol.DeliverCounts` | event/feed.go:145-151 | a delivery hands the value once to the channel of the case and makes one case inactive |
| `FeedProtocol.EndCounts` | event/feed.go:152-154 | a send ends exactly when only the removal slot is active, and while one is under way no other begins |
| `FeedProtocol.SubscriptionsBalance` | event/feed.go:73-180 | in every run the subscriptions of a channel are those it started with and those made, less those cancelled |
| `FeedProtocol.UnsubscribeEnds` | event/feed.go:95-116 | cancelling the only subscription of a channel and letting its remover through leaves the channel gone, during a send as well |
| `FeedProtocol.DeliveredOnceEach` | event/feed.go:120-180 | a send delivers to a channel exactly once for each subscription it had at the beginning, if none is cancelled before its end; subscriptions made meanwhile get nothing of it |
| `FeedProtocol.SelectRoundShrinks` | event/feed.go:155-172 | each select round strictly shrinks the send list and active prefix together |
| `Feeds.TrySends` | event/feed.go:145-151 | the non-blocking pass is a stretch of deliveries of the protocol |
| `Feeds.Select` | event/feed.go:155-172 | a blocking round is one delivery or removal of the protocol and strictly shrinks the lists |
| `Feeds.Interleave` | event/feed.go:73-107 | whatever subscriptions and cancellations other goroutines make between two rounds is a stretch of the protocol that leaves the array alone |
| `Feeds.SendAll` | event/feed.go:140-173 | the loop ends with every case of the shared array served, with any steps of other goroutines between the rounds |
| `Feeds.Feed.Subscribe` | event/feed.go:86-92 | is the protocol's step and enters exactly one subscription |
| `Feeds.Feed.Unsubscribe` | event/feed.go:95-107 | is the protocol's step and takes exactly one subscription of the channel away; waits for the send list exactly when the inbox does not hold the channel |
| `Feeds.Feed.RemoveIdle` | event/feed.go:109-115 | is the protocol's step on the array and takes exactly one case of the channel off it |
| `Feeds.Feed.Send` | event/feed.go:120-180 | is a protocol run from begin to end, with whatever other goroutines do meanwhile; the result is the number of deliveries, every channel that nobody cancels is served exactly once for each subscription, and the list is left with the survivors |
| `Accounts.TotalPut` | core/state_transition.go:289-290 | writing an account changes the sum of all balances by the change of its balance |
| `Accounts.SpendNonce` | core/state_transition.go:474-476 | taking the nonce an account stands at spends a pair that was never spent and keeps all earlier ones behind |
| `Accounts.StateDB.AddBalance` | core/state_transition.go:619-621 | the 256-bit addition is exact while the total stays below 2^256 |
| `Accounts.StateDB.SubBalance` | core/state_transition.go:289-290 | the 256-bit subtraction is exact for an amount within the balance |
| `GasPools.GasPool.AddGas` | core/gaspool.go:29-35 | exact, under the condition that excludes the panic |
| `GasPools.GasPool.SubGas` | core/gaspool.go:39-45 | takes the gas exactly when there is enough |
| `Messages.ToWordSize` | core/state_transition.go:125-131 | the rounded-up number of words, for every 64-bit size |
| `Messages.AddProduct` | core/state_transition.go:91-99 | the division guard refuses exactly the sums that leave 64 bits |
| `Messages.DataGasByByte` | core/state_transition.go:82-101 | each byte of the data is charged by itself, 4 gas for a zero and 16 for any other, 68 before EIP-2028 |
| `Messages.InitCodeByWord` | core/state_transition.go:103-109 | the code of a creation is charged 2 gas a started word since EIP-3860, a call's data never |
| `Messages.BaseAndLists` | core/state_transition.go:74-121 | a creation starts at 53000 gas since Homestead, all else at 21000; addresses, storage keys and authorizations have their price each |
| `Messages.IntrinsicGas` | core/state_transition.go:72-122 | overflow is reported exactly when base and data cost leave 64 bits; otherwise the exact sum, the list costs modulo 2^64 |
| `Messages.ToMessage` | core/state_transition.go:160-187 | the price is the smaller of tip plus base fee and fee cap, without a base fee the one given, and everything else is taken over; fails exactly without a valid sender |
| `Messages.TipAndBaseFee` | core/state_transition.go:507-514 | the two separately computed minimums agree: tip and base fee make up the price |
| `Messages.BlobGasAdds` | core/state_transition.go:640-642 | blob gas is additive over the blobs, 2^17 each |
| `StateTransitions.CostCovers` | core/state_transition.go:250-272 | prepayment and value together stay within the checked maximum |
| `StateTransitions.CostsAre` | core/state_transition.go:250-272 | in figures, the prepayment is gas limit times price and the checked maximum gas limit times fee cap plus value, each with 131072 times the blob price per blob since Cancun |
| `StateTransitions.IntrinsicIs` | core/state_transition.go:72-122 | in figures, what a message is charged by its own recipient, data, access list and authorizations and the rules of the block, modulo 2^64 |
| `StateTransitions.StateTransition.Amounts` | core/state_transition.go:251-272 | computes exactly the prepayment and the checked maximum, blob gas included |
| `StateTransitions.StateTransition.BuyGas` | core/state_transition.go:250-292 | succeeds exactly when balance and pool suffice; then exactly the sender loses exactly the prepayment and the value is still covered |
| `StateTransitions.StateTransition.PreCheck` | core/state_transition.go:294-386 | accepts exactly the acceptable messages, changes nothing when it refuses, and the error says what is wrong |
| `StateTransitions.StateTransition.ApplyAuthorization` | core/state_transition.go:548-603 | a valid authorization changes exactly its authority's code and nonce and the refund counter and spends the nonce once; any other changes nothing and spends nothing |
| `StateTransitions.StateTransition.ApplyAuthorizations` | core/state_transition.go:479-486 | all authorizations are tried in order, each in the world its predecessors left, and exactly the nonces of the valid ones are spent |
| `StateTransitions.AuthorizationCounts` | core/state_transition.go:548-575 | an authorization is applied and spends its nonce if and only if it was signed, for this chain or any, by an account that is no contract, with the nonce it stands at, short of 2^64 - 1; any other leaves the world unchanged |
| `StateTransitions.AuthorizationLeaves` | core/state_transition.go:577-603 | one that counts delegates its account to the target, or clears the code for the zero address, takes one nonce and raises the refund counter by 12500 exactly for an account that existed; nothing else changes |
| `StateTransitions.SpendsAreAuthorized` | core/state_transition.go:479-486 | every signature a list spends is that of one of its authorizations that counts where it stands |
| `StateTransitions.CountingAreSpent` | core/state_transition.go:479-486 | and every one that counts where it stands is spent |
| `StateTransitions.AuthsLeave` | core/state_transition.go:479-486 | a list raises the nonce of each account by exactly the number of signatures it spends of it, and changes no balance and no other account |
| `StateTransitions.AllAreTried` | core/state_transition.go:375-383 | of a message that passes the checks all authorizations are tried |
| `StateTransitions.StateTransition.Invoke` | core/state_transition.go:466-499 | the machine runs once, on the message and its block's context with the remaining gas, in the world with exactly the nonce taken and the valid authorizations applied; exactly the sender's signature and theirs are spent, self-authorization included |
| `StateTransitions.RefundCap` | core/state_transition.go:605-610 | net gas is at least half, after London four fifths, of gross gas |
| `StateTransitions.RefundIsLargest` | core/state_transition.go:605-616 | the refund is the most that the counter holds and that leaves four fifths, before London half, of the gross gas to be paid for |
| `StateTransitions.StateTransition.RefundGas` | core/state_transition.go:605-632 | the refund is the smaller of counter and cap; left-over gas goes back exactly to sender and pool and to nobody else, with no wrap and no panic |
| `StateTransitions.FeesFit` | core/state_transition.go:501-529 | the prepayment comes apart exactly into left-over, tips, paid-out blob fee and loss |
| `StateTransitions.FeesAre` | core/state_transition.go:501-529 | the tips are gas used times what the price leaves over the base fee; the loss is gas used times base fee and, outside Parlia, the blob fee |
| `StateTransitions.StateTransition.PayFees` | core/state_transition.go:507-530 | exactly tips and, under Parlia, blob fee reach the system account; the tips the coinbase elsewhere |
| `StateTransitions.WhoIsPaid` | core/state_transition.go:501-544 | account by account, a settled message pays the sender exactly the left-over gas and the collector exactly tips and, under Parlia, blob fee; nobody else, and no nonce or code, changes |
| `StateTransitions.StateTransition.Admit` | core/state_transition.go:398-463 | admits exactly the executable messages, with an error that says what is wrong otherwise; the later balance and value checks cannot fail |
| `StateTransitions.RefusedAnyway` | core/state_transition.go:322-463 | blacklisted parties, blobs or authorizations without recipient or in name only, blobs of another version, a tip above the cap since London and creation code beyond 48 KiB since Shanghai are refused whatever nonce, balance and pool |
| `StateTransitions.StateTransition.Settle` | core/state_transition.go:466-544 | the world after an admitted message is the one the run left with exactly sender and fee account credited; gas, wei and the signatures spent add up |
| `StateTransitions.StateTransition.Execute` | core/state_transition.go:398-545 | a message is applied exactly when it is executable, and rejected with an error that is true of it otherwise; the world it runs in, the refund and the world it leaves are exactly the specified ones; the total of all balances changes by exactly the burnt wei and gasUsed times base fee (outside Parlia also the blob fee), the pool by exactly gasUsed, and exactly the signatures of sender and valid authorizations are spent, none of them before |
| `StateTransitions.UsesGas` | core/state_transition.go:605-632 | a message uses gas if and only if gas is gone before the refund, which is at least its intrinsic gas |
| `StateTransitions.OutcomeIs` | core/state_transition.go:398-545 | these clauses fix the outcome: world, gas used, failure and burnt wei are a function of the message, the context, the world and the machine |
| `StateProcessing.ApplyMessage` | core/state_transition.go:196-199 | applies exactly the executable messages, with exactly the specified outcome and signatures, and at least half the base gas used |
| `StateProcessing.ApplyTransaction` | core/state_processor.go:189-213 | the same with the transaction closed, and the receipt, cumulative gas, wei and pool accounted for |
| `StateProcessing.ReceiptSays` | core/state_processor.go:245-255 | a receipt fails exactly when the run did, and shows the gas gone less the refund |
| `StateProcessing.CumulativeAppend` | core/state_processor.go:209-211 | each receipt's cumulative gas is the sum of the gas used up to and with it |
| `StateProcessing.CumulativeStrict` | core/state_processor.go:209-211 | cumulative gas strictly increases over the receipts if and only if every receipt after the first shows gas used |
| `StateProcessing.CumulativeIncreases` | core/state_processor.go:209-211 | it does for messages whose intrinsic gas is not zero |
| `StateProcessing.SiftOne` | core/state_processor.go:116-140 | a transaction is refused exactly when the block up to it is not in order |
| `StateProcessing.SortedMeans` | core/state_processor.go:116-140 | a block is in order if and only if every transaction is classified, every ordinary one signed and, since Cancun, the system ones come last |
| `StateProcessing.OrdinaryAt` | core/state_processor.go:116-148 | the messages are those of the ordinary transactions, each at the place the ordinary ones before it leave |
| `StateProcessing.MarkedAreDistinct` | core/state_transition.go:294-310 | no two applied messages, and no message twice, carry the same sender and nonce |
| `StateProcessing.MovedRight` | core/state_processor.go:136-148 | applying a message keeps gas, wei, cumulative gas and the ledger of signatures right |
| `StateProcessing.ReachedIff` | core/state_processor.go:116-148 | a block is carried through if and only if every transaction is applicable in the state and pool that the ones before it lead to from the block's start |
| `StateProcessing.ProcessOne` | core/state_processor.go:116-146 | one transaction leads exactly where the specified step does; pool and used gas make up the gas limit, cumulative gas is the running sum, the balances have lost exactly the fees, and all signatures spent are distinct |
| `StateProcessing.Process` | core/state_processor.go:116-148 | accepts a block exactly when its transactions lead through from its start, and then leaves exactly the state, receipts and ledger they lead to; the balances have lost exactly usedGas times base fee and the burnt wei; exactly the ordinary transactions were applied, in order |
| `StateProcessing.ProcessAll` | core/state_processor.go:60-184 | over any run of blocks the state and the ledger are exactly those of the blocks carried through; no signature of all their messages and authorizations is spent twice, no two of all the messages applied share sender and nonce, no nonce falls back and no wei appears |
| `StateProcessing.OneMoreBlock` | core/state_processor.go:60-184 | a block that is carried through is adopted and its ordinary messages are entered in the ledger in order; any other leaves state and ledger as they were |
| `Verifiers.CacheRecent` | core/remote_state_verifier.go:205-210 | caching one block pushes the others at most one place towards eviction |
| `Verifiers.VisitGood` | core/remote_state_verifier.go:160-199 | a visit caches only empty blocks and makes tasks only from the block's own header |
| `Verifiers.VisitNext` | core/remote_state_verifier.go:154-201 | one stop of the walk keeps all visited blocks covered and all cached ones justified |
| `Verifiers.NewBlockVerifyTask` | core/remote_state_verifier.go:153-203 | the loop is the specified walk; the new head and its recent ancestors end up verified or with a task unless there is no diff for them, even with a full cache; no task is lost or replaced |
| `Verifiers.GenesisIsRecorded` | core/remote_state_verifier.go:155-159 | genesis is recorded wherever the walk gets to it |
| `Verifiers.SeedCache` | core/remote_state_verifier.go:74-87 | the seeds are exactly the start block and the ten below it, short of genesis |
| `Verifiers.StartCache` | core/remote_state_verifier.go:63-88 | the start-up seeds are exactly the ancestors of the head from eleven to twenty-one below it, short of genesis |
| `Verifiers.VerifyManager.constructor` | core/remote_state_verifier.go:63-103 | a new manager records exactly the start-up seeds, has no tasks and no replies, sees the rewound chain and satisfies the invariant |
| `Verifiers.Passed` | core/remote_state_verifier.go:366-373 | a task that passes a block on was told the local root for that very block with an accepted status |
| `Verifiers.PassesIffConfirmed` | core/remote_state_verifier.go:306-373 | a task passes its block on if and only if the reply confirms it |
| `Verifiers.WhoIsBlamed` | core/remote_state_verifier.go:306-323 | a peer is blamed for a failure and for vouching for another root, never for a reply that is not ready or does not count |
| `Verifiers.BlameIsExact` | core/remote_state_verifier.go:306-373 | exactly that peer is added to those its task avoids, and nothing else changes |
| `Verifiers.ConfirmedIsRecorded` | core/remote_state_verifier.go:105-151 | a confirming reply for a block with a task, judged and with the channel read, leaves the block recorded and its task gone |
| `Verifiers.PruneKeepsRecent` | core/remote_state_verifier.go:124-133 | a prune keeps exactly the tasks whose blocks lie no more than fifteen below the head |
| `Verifiers.VerifyManager.OnNewBlock` | core/remote_state_verifier.go:113-114 | a new head keeps the invariant and covers its eleven recent ancestors |
| `Verifiers.VerifyManager.OnReply` | core/remote_state_verifier.go:134-139 | a reply reaches exactly the task of its block and is dropped without one |
| `Verifiers.VerifyManager.OnJudge` | core/remote_state_verifier.go:306-323 | a block is passed on exactly for an accepted status with the local root, by tasks dropped meanwhile as well; others only blame the peer |
| `Verifiers.VerifyManager.OnVerified` | core/remote_state_verifier.go:115-123 | records the block and drops its task |
| `Verifiers.VerifyManager.OnPrune` | core/remote_state_verifier.go:124-133 | drops exactly the tasks that lie too far behind |
| `Verifiers.VerifyManager.Step` | core/remote_state_verifier.go:105-151 | every step of any goroutine is exactly the machine's, keeps the invariant, and adds a reply to those heard exactly when one arrives |
| `Verifiers.VerifyManager.Run` | core/remote_state_verifier.go:105-151 | every run ends where the machine does; the replies heard are exactly those that arrived, and everything cached at any point of the run is a seed, genesis, an empty block, or confirmed by one of them for that very hash with the local root and an accepted status |
| `Verifiers.TasksAreNumbered` | core/remote_state_verifier.go:274-290 | in every run each task has its own list of blamed peers, which starts empty |
| `Verifiers.ElevenBelow` | core/remote_state_verifier.go:213-221 | on a canonical chain the block looked up is the head's ancestor eleven below the number; close to genesis, where the 64-bit subtraction wraps, there is none |
| `Verifiers.VerifyManager.AncestorVerified` | core/remote_state_verifier.go:213-240 | it says yes exactly for an ancestor that is missing or empty, or that is cached when asked or, if it had a task, after the events of the wait with that task closed in time; it leaves the state of that moment but for the use of the cache entry, and a yes is justified by a seed or a reply that arrived |
| `Counterexamples.RewindKeepsSideHeader` | core/headerchain.go:642-706 | on a chain with side headers whose head is genesis a rewind to genesis does not meet the condition for wiping everything above |
| `Counterexamples.HeadsSwapForEver` | core/forkchoice.go:98-103 | two heads past the terminal difficulty each replace the other |
| `Counterexamples.ExtensionLeavesMarkers` | core/blockchain.go:1918-1932 | a block put on genesis under a header head at three leaves an index that is not its path |
| `Counterexamples.InterruptionLeavesNoPath` | core/blockchain.go:2818-2824 | a reorg stopped at the second of three new blocks leaves an index that is no header's path |
| `Counterexamples.InterruptionLeavesLookup` | core/blockchain.go:2818-2838 | a transaction of the old branch that the new blocks written do not carry keeps its stale lookup when the reorg stops |
| `Counterexamples.RewindLeavesLookup` | core/blockchain.go:1088-1108 | the lookup of a rewound block's transaction is still there, so the lookups are wrong |
| `Counterexamples.NoSectionLeft` | core/chain_indexer.go:434-440 | an index of one section on the branch that a reorg left, and an empty index, meet the condition for reporting 2^64 - 1 |
| `Counterexamples.ListCostsWrap` | core/state_transition.go:114-121 | an access list whose cost passes 64 bits, longer than any that can be received, adds less than two thousand gas |
| `Counterexamples.IntrinsicGasVanishes` | core/state_transition.go:114-121 | for one such list the intrinsic gas wraps to zero |
| `Counterexamples.ZeroHashHasAncestor` | core/headerchain.go:436-468 | two above a chain of genesis alone, and three above a chain of three, the lookup does not give up on the zero hash |

## Left out

- Database encoding, the freezer, snapshots, header and body caches, batch sizes and flushing: the tables are plain maps.
- WriteHeaders fills its in-memory caches before the abort check; the model has no such caches.
- The virtual machine, state tries, signatures, blob commitments and the Parlia engine: parameters with stated laws.
- Self-destruction and the deletion of empty accounts: part of the virtual machine's and the closing step's laws, as burnt wei.
- insertChain's control flow, future blocks, re-execution of missing states in SetCanonical, prefetching, logs, metrics, tracing and events.
- Repair mode, forced rewinds below the freezer and the reload of the last state after a rewind.
- HeaderChains.HeaderChain.WriteHeadersAndSetHead: requires a non-empty batch, because the source indexes the last header of it.
- Headers.TdInsert: block numbers are unbounded; 64-bit wrap-around of block numbers is not modelled.
- BlockChains.BlockChain.SetHeadBeyondRoot: rewinding below genesis time is excluded, as it is fatal in the source. That the head block is the highest of all with usable state is stated for rewinds without a root or pivot and, in the hash scheme, from a head header numbered at most 90000; above that the search itself stops 90000 below each header, and it is the highest of those searched for the last header that moved it.
- TrieGc.Collector.WriteBlock: committing tries to disk on time or memory limits is not modelled, only references and releases.
- ChainIndexers.ChainIndexer.NewHeadNotice: checkpoints and child indexers are not modelled.
- Feeds.Feed.Send: locks are not modelled; other goroutines run between its rounds, and the protocol has the finer interleavings. Element types and their checks are left out; `event/feedof.go` repeats the same code with a type parameter.
- StateTransitions.StateTransition.PreCheck: messages that skip nonce or sender checks and a disabled base fee, which only simulated calls use, are left out.
- StateTransitions.StateTransition.RefundGas: the refund counter is unbounded, and the panic on a gas price beyond 256 bits, possible only with a zero gas limit, is not modelled.
- StateTransitions.StateTransition.Execute: access events of stateless mode and the preparation of access lists have no effect on the modelled state.
- StateProcessing.Process: fork-time code upgrades, system calls before and requests after the transactions, and finalization are left out.
- Verifiers.VerifyManager.OnJudge: which peers are asked and when requests are resent is left out.
- Timing, deadlock and lock-order questions.
- Transaction index windows, gas limit targets, account managers, networking and user interfaces: easier or peripheral.
