# Chain, pool and synchronisation of the Memero node, in Dafny

This project models the consensus core of the node and proves what its parts promise each other:

- **the chain store** (`Blockchain`): extending the main chain, popping blocks into the pool, keeping
  alternative blocks, switching to a heavier branch, and undoing a switch that fails;
- **the memory pool** (`tx_memory_pool`): stored transactions, key-image map, fee index and weight under
  adding, taking, pruning, expiring and filling a block template;
- **the caches** that must agree with the plain lookup: the sliding difficulty window, the difficulty kept
  under the tip hash, and the prefetched table of ring members;
- **the sync protocol**: short history, supplement, checking a chain reply, asking for spans of blocks, the
  block queue;
- **emission**: the decay curve, coinbase balance, and the emission report.

## How it is built

The state that the source changes in place is a class here (`TxPool`, `Blockchain`, `Difficulty`, `Scanner`,
`Queue`, `Peer`) with loops where the source has loops. Each method is proved to do what a function on
values says (`MemPool`, `PoolSteps`, `Reorg`, `Template`, `DifficultyCache`, `ScanTable`), and the theorems are
about those functions: single steps in `MainSteps`, `Branches`, `Switching` and `Nesting`, what a step will come to
in `Forecast`, `Falls`, `Once`, `Rebounds`, `Returns` and `Fates`, whole runs in `Runs`, `Fates` and `Reachable`. `Rivals`, `Flips`,
`Setback` and `Stalls` build, with the chains of `Trials`, the states in which a promise fails.

What is not modelled further is a parameter: the record `Rules` holds the block hash, proof of work, coinbase
form, input check and median as functions of what they look at. `Lawful` says that block hashes do not collide.
The clock and everything random or remote is a parameter of the call that uses it.
Numbers are unbounded unless the source's width matters: the difficulty rule, reward plus fees, relative
offsets, transaction age and the height subtractions of the sync code are modelled with their wrap-around.

## What turned out not to hold in general

Each of these has the failing family as a lemma and the condition under which the promise holds.

- A block on a branch is given the difficulty of the *current* main-chain length. The answer is the same for
  all windows exactly when both heights lie in one of the ranges 0, 1-146, 147-278, 279 and up
  (`Lwma.HeightMattersByBand`); a stored block has the work the main chain would give it exactly when the rule
  agrees on its own window (`Branches.NewNodeKnownIff`). Chain and pool stay consistent, no transaction is lost
  and a rollback restores the main chain for *every* block in *every* state (`Nesting.DeepAddKeeps`,
  `Reachable.RunsInOrder`).
- What a block comes to is told before the call, for every block in every state in which chain and pool are
  consistent and no block is kept in two places (`Fates.SwitchTold`): whether its branch is refused, how far it
  gets, what the blocks it disconnects are given at the length of the new main chain (`Returns.ReturnTold`), and
  whether one of them leads back. From that follow three exact conditions, for single blocks (`Fates.ApartIff`,
  `Fates.WorkFallsIff`, `Fates.HeaviestIff`) and over every run from the first block on (`Reachable.NodeKeepsApart`).
- The work of the tip can fall. It does for a main chain of 148 blocks and one block offered beside it: as an
  alternative that block is asked for ten times the difficulty it counts on the main chain, so the node switches
  to a lighter and shorter chain, and keeps nothing of the old one (`Setback.SetbackHappens`). It falls exactly
  when the branch counts less at its own heights than the tip, as far as it gets, or leads back to a part of the
  old main chain only (`Fates.WorkFallsIff`; for the switch itself, in any state, `Falls.OnBranchWorkIff`). Where the
  rule agrees that cannot be (`Fates.LevelIsNeat`), and it agrees within one range of heights
  (`Reachable.SameBandIsLevel`); there every switch gains work (`Runs.AddNewBlockKeeps`).
- A switch can be answered by a switch back in its middle. There is at most one such answer (`Once.NestsOnce`). It
  leads back along the old main chain, whose later blocks follow up to the first that is earlier than the median
  below it; the branch is forgotten, and the call reported as a switch. It throws exactly when the rule throws
  behind the old tip, or at a block of the branch asked with the length the old chain has then (`Rebounds.NestedReturns`,
  `Rebounds.RestReturns`, `Returns.JamIff`). In pure form this is `Flips.Flip`, at a real state `Flips.FlipHappens`.
- A switch over a fork at height 145 or less to a chain of 147 blocks or more throws after the branch is on,
  exactly when the first disconnected block is not earlier than its median, which from height 12 on it never
  is; otherwise none of the disconnected blocks comes back (`Bootstrap.EarlySwitch`,
  `Bootstrap.AcceptedIsTimely`; at a real state `Rivals.EarlySwitchHappens`).
- Adding a block computes the difficulty after it only to cache it. If that computation throws, the call
  reports a failure although the block is in place. What an attempt to connect a branch ends in can be told
  beforehand (`Switching.AttemptExact`), and when the rule throws is known exactly (`Lwma.NextNoneIff`). It comes
  to that even if every block takes exactly the 300 seconds that the rule aims at: it then always asks for less
  than the average, and throws at an average of one (`Lwma.OnTimeNext`, `Rivals.RunsDry`). A branch behind which it
  throws is put on and stays among the alternatives (`Switching.SwitchThrown`, at a real state
  `Rivals.TornSwitchHappens`).
- A block can end up in two places: when the rule throws behind a block of a branch that is being put on
  (`Rivals.TornSwitchHappens`), or at a disconnected block that is put back (`Rivals.EarlySwitchHappens`), or on the
  way back; and when a block of a branch is refused for the inputs of a pooled transaction while the rule throws
  behind the main chain (`Forecast.RefusedMarksIff`, at a real state `Stalls.StainHappens`). These four are all
  (`Fates.ApartIff`).
- The tip need not stay the heaviest block kept. A branch that is refused while the rule throws behind the main
  chain stays stored, heavier than the tip (`Stalls.StallHappens`); so may one that is on and whose stored work is
  more than it counts. When it does stay so is known exactly (`Fates.HeaviestIff`); where the rule agrees only the
  first can happen (`ForkChoice.TipStaysHeaviest`).
- Offering a transaction the pool already holds keeps the pool consistent exactly when it is not accepted
  (`PoolSteps.AddTxWFIff`); a privately held transaction that comes back from a peer is
  (`PoolSteps.ResubmittedLocalBreaks`).
- Only the last member of a ring has its height checked. On the chains with at most n outputs that is enough for
  a ring of 32 exactly when its last index is the greatest or one of its indices is n or more
  (`RingAge.SufficientIff`). Offsets that wrap around 2^64 break it: a ring of 32 with non-zero offsets, on a chain
  of 71 outputs (`RingAge.WrappedRing`).
- Conservation of coins does not need reward plus fees to stay below 2^64: the report subtracts in the same
  arithmetic (`Audit.Conservation`).

Where comments and code differ the model follows the code: the difficulty window is 145 blocks (a comment says
735); transactions held privately are not kept out of templates (a comment says they are); the test for
repeated key images while the ring table is built looks into a map that is still empty, so distinctness comes
from the order rule (`RingAge.SortedMeansDistinct`); on the path that asks for the next scheduled span the
request is empty (`Sync.GetNext`); and the last known hash kept after a delivery is that of an empty block.

## Model

| member | source | states |
|---|---|---|
| `MemPool.InsertWF` | src/cryptonote/core/tx_pool.cpp:282-308 | adding an id that is not stored keeps the key-image map the exact inverse of the stored transactions, the index exact, sorted and free of repetitions, and the weight their sum |
| `MemPool.RemoveWF` | src/cryptonote/core/tx_pool.cpp:524-578 | taking a stored id keeps all that, removes just this id, and the weight cannot run below zero |
| `MemPool.Place` | src/cryptonote/core/tx_pool.h:62 | a new slot goes behind every slot strictly before it and ahead of its ties |
| `PoolSteps.AddTxWF` | src/cryptonote/core/tx_pool.cpp:85-325 | offering a new id keeps the pool consistent, adds nothing else, loses nothing that came from a block, and a sound transaction from a block is always kept |
| `PoolSteps.AddTxWFIff` | src/cryptonote/core/tx_pool.cpp:85-325 | offering a transaction, pruning included, leaves a consistent pool exactly when its id was not stored or it is not accepted |
| `PoolSteps.ResubmittedLocalBreaks` | src/cryptonote/core/cryptonote_core.cpp:753-768 | a private transaction that arrives again, with valid inputs, a sufficient fee, not timed out and its images spent by no other, is accepted and leaves an inconsistent pool, whatever the limit |
| `PoolSteps.PruneThins` | src/cryptonote/core/tx_pool.cpp:349-430 | pruning keeps the pool consistent, changes no entry and removes none that came from a block |
| `PoolSteps.PruneShape` | src/cryptonote/core/tx_pool.cpp:361-417 | pruning keeps a front of the index and, behind it, only what came from blocks; it ends within the limit or with nothing removable behind the first slot, and the weight was above the limit before the last removal |
| `PoolSteps.PruneRanks` | src/cryptonote/core/tx_pool.cpp:361-417 | every removed transaction ranks behind every kept one that did not come from a block |
| `PoolSteps.ExpireDrops` | src/cryptonote/core/tx_pool.cpp:689-761 | expiry removes exactly the transactions that are too old, remembers exactly their ids, and keeps the pool consistent |
| `PoolObject.TxPool.constructor` | src/cryptonote/core/tx_pool.cpp:77-80 | an empty pool is consistent |
| `PoolObject.TxPool.InsertImages` | src/cryptonote/core/tx_pool.cpp:432-468 | records the id under its images up to the first image that is refused, and says which one that is |
| `PoolObject.TxPool.RemoveImages` | src/cryptonote/core/tx_pool.cpp:473-522 | forgets the id under its images up to the first one it does not hold; no empty set stays behind |
| `PoolObject.TxPool.HasSpentImage` | src/cryptonote/core/tx_pool.cpp:1032-1060 | whether some image is spent by another transaction, or by a public copy of this one |
| `PoolObject.TxPool.Check` | src/cryptonote/core/tx_pool.cpp:85-260 | the checks before anything is stored, in their order |
| `PoolObject.TxPool.Enter` | src/cryptonote/core/tx_pool.cpp:246-290 | the key images of a checked offer are entered all or not at all, exactly as acceptance says |
| `PoolObject.TxPool.AddTx` | src/cryptonote/core/tx_pool.cpp:85-325 | the in-place form does what the value form says, also for an id that is stored already |
| `PoolObject.TxPool.Prune` | src/cryptonote/core/tx_pool.cpp:349-430 | the loop over the index does what the value form says |
| `PoolObject.TxPool.TakeTx` | src/cryptonote/core/tx_pool.cpp:524-578 | hands out the stored transaction and removes it, or changes nothing |
| `PoolObject.TxPool.FindSlot` | src/cryptonote/core/tx_pool.cpp:679-686 | finds the slot of an id |
| `PoolObject.TxPool.MarkStuck` | src/cryptonote/core/tx_pool.cpp:689-726 | finds exactly the stale transactions, in whatever order they are visited, and takes out their slots |
| `PoolObject.TxPool.DeleteAll` | src/cryptonote/core/tx_pool.cpp:728-757 | deletes them with weights and key images, after which the pool is consistent again |
| `PoolObject.TxPool.RemoveStuck` | src/cryptonote/core/tx_pool.cpp:689-761 | the two passes together do what expiry says |
| `PoolObject.SamePool` | src/cryptonote/core/tx_pool.cpp:432-578 | stored transactions and index fix key-image map and weight of a consistent pool |
| `PoolObject.TxPool.FillTemplate` | src/cryptonote/core/tx_pool.cpp:1253-1415 | ids, weight, fees and reward are those of the greedy choice |
| `PoolObject.Consider` | src/cryptonote/core/tx_pool.cpp:1311-1382 | one transaction is taken exactly when it fits, passes the cut-off, is ready and spends nothing already chosen |
| `PoolObject.HasImage` | src/cryptonote/core/tx_pool.cpp:1140-1149 | whether a transaction spends an image that is already used |
| `Template.FillMinable` | src/cryptonote/core/tx_pool.cpp:1253-1415 | a template has pairwise different key images, none spent on chain, only usable transactions, and weighs at most the bound less 600 |
| `Template.FillInOrder` | src/cryptonote/core/tx_pool.cpp:1287-1388 | a template is a subsequence of the fee index |
| `Template.FillLeavesNothing` | src/cryptonote/core/tx_pool.cpp:1311-1382 | a ready transaction that is left out would overflow the finished template, spends a chosen image, or fell below the cut-off at its turn |
| `Mining.TemplateIsAdded` | src/cryptonote/core/blockchain.cpp:1211-1320 | a block with a passing header, the transactions of a template, a coinbase within the reserved size and paying what the template expects goes on the main chain |
| `Emission.CoinsBound` | src/math/consensus/consensus.hpp:65-71 | the counter never passes its resting value, below the cap and within 64 bits |
| `Emission.RewardsFall` | src/math/consensus/consensus.hpp:65-71 | rewards never grow, and the counter rises exactly until it rests |
| `Emission.EmissionEnds` | src/math/consensus/constant.hpp:31-40 | from some height on, and only from there on, the counter is exactly 2^19 - 1 below the cap and the reward zero |
| `Windows.MainLists` | src/cryptonote/core/blockchain.cpp:791-808 | the main-chain lists are those of the last 145 blocks, genesis left out |
| `Windows.TailLists` | src/cryptonote/core/blockchain.cpp:1092-1110 | the lists of a long branch are those of its last 145 blocks |
| `Windows.FillBack` | src/cryptonote/core/blockchain.cpp:1092-1110 | filling two fixed buffers backwards, newest block first, leaves them with the last blocks in order |
| `Windows.ShortLists` | src/cryptonote/core/blockchain.cpp:1056-1090 | the lists of a stretch of the main chain followed by a short branch |
| `Windows.AltLists` | src/cryptonote/core/blockchain.cpp:1053-1113 | for every fork point and branch length the lists for a branch block are those the main-chain routine would build there with the branch as main chain |
| `Lwma.WeightBounds` | src/math/blockchain/functional/difficulty.hpp:46-110 | the weighted solve time stays between its floor and its cap, whatever the timestamps |
| `Lwma.NextNoneIff` | src/math/blockchain/functional/difficulty.hpp:46-110 | on a full window, at every height from 147 on, the rule throws exactly when the scaled average work, cut to 64 bits below height 279, is less than the scaled solve time or 2^128 times as large |
| `Lwma.NextBounds` | src/math/blockchain/functional/difficulty.hpp:46-110 | at heights from 279 on the rule is defined for average work from 7 to 2^124, moves up by at most ten times and down by about seven |
| `Lwma.SlowNext` | src/math/blockchain/functional/difficulty.hpp:46-110 | after slow blocks only the rule asks for at most a sixth of the average and throws exactly from an average of 6 down |
| `Lwma.OnTimeNext` | src/math/blockchain/functional/difficulty.hpp:46-110 | after blocks in the time aimed at the rule asks for less than the average, and throws exactly from an average of 1 down |
| `Lwma.QuickNext` | src/math/blockchain/functional/difficulty.hpp:46-110 | at that average a last block one second after the one before makes it ask for 1 |
| `Lwma.DryWindow` | src/math/blockchain/functional/difficulty.hpp:46-110 | a full window on which the rule throws |
| `Lwma.FastNext` | src/math/blockchain/functional/difficulty.hpp:46-110 | after blocks of the first difficulty at up to twenty seconds each the rule asks for 10452992 |
| `Lwma.LateNext` | src/math/blockchain/functional/difficulty.hpp:46-110 | after such blocks at twenty seconds each and a last one after half an hour it asks for 6985730 |
| `Lwma.HeightMattersByBand` | src/math/blockchain/functional/difficulty.cpp:49-91 | two heights give the same answer on all lists exactly when they lie in the same band |
| `Lwma.ShortBranchThrows` | src/math/blockchain/functional/difficulty.cpp:75-79 | a chain of at most 145 blocks makes the rule throw when it is told a height of 147 or more; told its own length it gets the constant 2^20 |
| `Lwma.NodeRulesLawful` | src/math/blockchain/functional/difficulty.cpp:49-91 | the rules of the node satisfy what the reorganisation theorems ask |
| `Lwma.SameBandAgrees` | src/math/blockchain/functional/difficulty.cpp:49-91 | within a band the height makes no difference, for any chain |
| `Chain.PathUnique` | src/cryptonote/core/blockchain.cpp:2913-3181 | the last block fixes the whole chain below it, work included |
| `Chain.ReplaysPath` | src/cryptonote/core/blockchain.cpp:2913-3181 | every accepted chain is hash-linked, with height equal to position and work added by the rule |
| `Transit.TakeFacts` | src/cryptonote/core/blockchain.cpp:3009-3085 | what the taking loop took came from the pool in order, and success means all were new to the chain and valid |
| `Transit.TakeThenReturn` | src/cryptonote/core/blockchain.cpp:2864-2886 | taking and returning leaves the pool with all of them and no others |
| `MainSteps.MainKeeps` | src/cryptonote/core/blockchain.cpp:2913-3231 | offering a block to the main chain adds exactly that block with the right record or leaves chain and alternatives as they are; chain and pool stay consistent and disjoint, and nothing is lost |
| `MainSteps.RejectedKeeps` | src/cryptonote/core/blockchain.cpp:3009-3181 | a rejected block puts back everything it took |
| `MainSteps.MainReplays` | src/cryptonote/core/blockchain.cpp:2913-3231 | a block that fits, with its transactions in the pool, is added with the very same record |
| `MainSteps.PopKeeps` | src/cryptonote/core/blockchain.cpp:476-544 | popping keeps chain and pool consistent and loses no transaction |
| `MainSteps.ConnectShape` | src/cryptonote/core/blockchain.cpp:964-1002 | connecting a stored branch follows it node by node with its stored work, and can throw only behind its last block |
| `MainSteps.ConnectReplays` | src/cryptonote/core/blockchain.cpp:964-975 | blocks that fit one after the other, with their transactions in the pool, all go on with the very same records |
| `MainSteps.ConnectTook` | src/cryptonote/core/blockchain.cpp:964-975 | conversely, the transactions of every block that went on were in the pool before |
| `MainSteps.ReconnectRestores` | src/cryptonote/core/blockchain.cpp:908-914 | a disconnected stretch goes back on record by record, even if the difficulty behind it throws |
| `Branches.BuildAltLinked` | src/cryptonote/core/blockchain.cpp:1516-1537 | the branch collected backwards is linked, stored, and ends in the parent |
| `Branches.ParentPath` | src/cryptonote/core/blockchain.cpp:1516-1570 | an attached branch with the main chain below it is a chain that ends in the parent |
| `Branches.NewNodeKnownIff` | src/cryptonote/core/blockchain.cpp:1650-1720 | a stored block carries the work of its history exactly when the rule, asked with the length of the main chain, agrees |
| `Branches.PlaceFacts` | src/cryptonote/core/blockchain.cpp:1578-1750 | where it agrees, a block is stored with exactly the work the main chain would give it on that branch, or nothing changes |
| `Branches.ReaddFinishes` | src/cryptonote/core/blockchain.cpp:1004-1019 | putting back disconnected blocks for which the rule agrees starts no second switch, throws nothing and only adds alternatives |
| `Switching.AttemptExact` | src/cryptonote/core/blockchain.cpp:964-1002 | connecting a branch is refused, throws or succeeds exactly as records for its blocks and the difficulty behind it exist |
| `Forecast.GotThere` | src/cryptonote/core/blockchain.cpp:964-975 | a branch whose first blocks are acceptable, and are all or have the rule throw behind them, gets so far, each block counting what the rule asks at its own height |
| `Forecast.GetsSomewhere` | src/cryptonote/core/blockchain.cpp:964-975 | conversely, a branch that is not refused gets somewhere in this sense |
| `Forecast.MainMarksIff` | src/cryptonote/core/blockchain.cpp:3009-3085 | a block offered to the main chain is marked as invalid exactly when its header passes and the first of its transactions that will not do is new, in the pool, and has bad inputs |
| `Forecast.RefusedMarksIff` | src/cryptonote/core/blockchain.cpp:964-1002 | a refused branch leaves a mark exactly when the blocks before some block of it go on, and that one is marked so |
| `Switching.RollbackRestores` | src/cryptonote/core/blockchain.cpp:888-927 | rolling back restores the old main chain record for record and loses nothing, also where the next difficulty is not defined |
| `Switching.SwitchUndone` | src/cryptonote/core/blockchain.cpp:931-1002 | a refused branch leaves exactly the old main chain; the failing block and all later ones become invalid and leave the alternatives, earlier ones stay; everything stays in order |
| `Switching.SwitchStranded` | src/cryptonote/core/blockchain.cpp:966-1001 | if the difficulty behind the old chain is not defined, undoing throws: the old main chain is back, but the branch is not cleaned up |
| `Switching.SwitchDone` | src/cryptonote/core/blockchain.cpp:931-1038 | an acceptable heavier branch with a defined difficulty behind it becomes the main chain with strictly more work, old blocks become alternatives, ids stay apart, nothing is lost |
| `Switching.SwitchThrown` | src/cryptonote/core/blockchain.cpp:3225-3230 | an acceptable branch behind which the difficulty is not defined: the heavier chain is in place and nothing lost, but the branch is still among the alternatives |
| `Nesting.DeepAddKeeps` | src/cryptonote/core/blockchain.cpp:3243-3283 | for any block in any state, at any heights and however many switches nest: chain and pool stay consistent, no transaction is lost, and a rollback leaves the main chain as it was |
| `Nesting.AddIsPlain` | src/cryptonote/core/blockchain.cpp:1004-1019 | a block that calls for no nested switch is handled alike however many would be followed |
| `Nesting.AddDeeper` | src/cryptonote/core/blockchain.cpp:1004-1019 | once no nested switch is left, following more of them changes nothing |
| `Once.NestsOnce` | src/cryptonote/core/blockchain.cpp:1004-1019 | for any block in any state with a consistent chain and pool switches nest at most once |
| `Once.DeepIsEnough` | src/cryptonote/core/blockchain.cpp:1004-1019 | so following one nested switch is the same as following any number |
| `Once.RunKeyed` | src/cryptonote/core/blockchain.cpp:1700-1720 | no run stores a block under another hash |
| `Rebounds.NestedReturns` | src/cryptonote/core/blockchain.cpp:1004-1025 | a nested switch leads back to the old main chain up to the block that called for it; it throws exactly when putting back the blocks it disconnects does, or the rule does behind the old tip |
| `Rebounds.RestReturns` | src/cryptonote/core/blockchain.cpp:1004-1019 | the old blocks after it follow one by one up to the first that is earlier than the median below it; this throws exactly when they all follow and the rule throws behind the old tip |
| `Rebounds.ReachesAll` | src/cryptonote/core/blockchain.cpp:1538-1570 | from height 12 on they all follow, if the median does not depend on the order of the list |
| `Returns.JamIff` | src/cryptonote/core/blockchain.cpp:1115-1122 | putting back the blocks that the nested switch disconnects throws exactly when the rule does on one of them, timely on its branch, asked with the length the old chain has then |
| `Returns.ReturnTold` | src/cryptonote/core/blockchain.cpp:1004-1025 | putting back what a switch disconnects settles, throws or leads back exactly as a fold of the rule over the old blocks, asked with the length of the new main chain, tells beforehand; the blocks that stay are stored with the work of that fold |
| `Fates.AttemptTold` | src/cryptonote/core/blockchain.cpp:964-1002 | the attempt to put the branch on is refused, snaps behind its n-th block or succeeds as told, with the main chain it leaves |
| `Fates.SwitchTold` | src/cryptonote/core/blockchain.cpp:931-1038 | a switch ends as told beforehand, nested switch included: main chain, alternatives and invalid blocks |
| `Fates.ApartIff` | src/cryptonote/core/blockchain.cpp:3243-3283 | any block, in any state with no block in two places: that stays so exactly when its fate is a neat one, whatever the rule answers |
| `Fates.WorkFallsIff` | src/cryptonote/core/blockchain.cpp:3243-3283 | in such a state the work of the tip falls exactly when the branch counts less as far as it gets, or leads back to a part of the old main chain |
| `Fates.HeaviestIff` | src/cryptonote/core/blockchain.cpp:1700-1801 | in such a state a tip that is the heaviest block kept stays so exactly as the fate of the block tells |
| `Fates.LevelIsNeat` | src/cryptonote/core/blockchain.cpp:1115-1122 | where the rule agrees no work is lost, and a fate is neat exactly unless a branch goes on with an undefined difficulty behind it, or a block is refused for its inputs while that after the main chain is undefined |
| `Fates.RunApartIff` | src/cryptonote/core/blockchain.cpp:3243-3283 | over every run no block is ever kept in two places exactly when no block comes with another than a neat fate |
| `Fates.RunFallsIff` | src/cryptonote/core/blockchain.cpp:3243-3283 | over every such run without pops the work of the tip never falls exactly when no block lets it |
| `Fates.RunHeaviestIff` | src/cryptonote/core/blockchain.cpp:3243-3283 | and the tip stays the heaviest block kept exactly when no block takes the lead |
| `Bootstrap.SameBandIsSteady` | src/cryptonote/core/blockchain.cpp:1115-1122 | blocks of one band are put back with their own work |
| `Bootstrap.AcceptedIsTimely` | src/cryptonote/core/blockchain.cpp:1538-1570 | a block of an accepted chain from height 12 on is not earlier than the median of the blocks below it |
| `Bootstrap.EarlySwitch` | src/cryptonote/core/blockchain.cpp:1004-1025 | a switch over a fork at 145 or less to 147 blocks or more: it throws with the branch still stored exactly when the first disconnected block is timely; otherwise it ends and none of the disconnected blocks is kept |
| `Rivals.EarlySwitchHappens` | src/cryptonote/core/blockchain.cpp:1004-1025 | a main chain of 146 blocks, an alternative at 145 and a block at 146 for which that happens |
| `Rivals.RunsDry` | src/math/blockchain/functional/difficulty.hpp:46-110 | blocks that each take the time aimed at wear the difficulty down until the rule throws |
| `Rivals.TornSwitchHappens` | src/cryptonote/core/blockchain.cpp:3225-3230 | a state and a block that make a switch throw behind the last block of its branch |
| `Flips.Flip` | src/cryptonote/core/blockchain.cpp:1004-1025 | two blocks each heavier as an alternative than on the main chain: offering the one while the other is on top is reported as a switch, leaves the state exactly as it was and forgets the block |
| `Flips.FlipHappens` | src/cryptonote/core/blockchain.cpp:1042-1123 | a main chain of 147 blocks found one a second and a block for which that happens |
| `Setback.SetbackHappens` | src/cryptonote/core/blockchain.cpp:1115-1122 | a main chain of 148 blocks and a block that makes the node switch to a chain with less work and one block less, keeping no alternative |
| `Stalls.PartingExists` | src/math/blockchain/functional/difficulty.hpp:46-110 | blocks on time wear the difficulty down to where it depends on the last block alone whether the rule throws |
| `Stalls.StallHappens` | src/cryptonote/core/blockchain.cpp:966-1001 | a state with the heaviest tip and a block that leaves a branch stored that is heavier than the tip |
| `Stalls.StainHappens` | src/cryptonote/core/blockchain.cpp:3009-3085 | the same with a pooled transaction whose inputs are good on the main chain and not on the branch: the block is then both stored and marked as invalid |
| `Runs.AddNewBlockKeeps` | src/cryptonote/core/blockchain.cpp:3243-3283 | for every block for which the rule agrees: work at the tip never falls, a switch gains work, a failed switch changes no block, nothing nests, no transaction is lost; ids stay apart exactly when no branch with an undefined difficulty behind it goes on, and no block of a branch is refused for its inputs while the difficulty after the main chain is undefined |
| `Falls.SwitchWorkIff` | src/cryptonote/core/blockchain.cpp:931-1038 | for any fork below the tip and any branch, whatever the switch ends in, the tip keeps its work exactly unless the branch gets to where it counts less |
| `Falls.OnBranchWorkIff` | src/cryptonote/core/blockchain.cpp:931-1038 | a branch that is on to its last block counts what the rule asks at its own heights, and the tip keeps its work exactly when that is enough |
| `Falls.WorkFallsIff` | src/cryptonote/core/blockchain.cpp:3243-3283 | any block in any state, with or without blocks in two places, as long as no nested switch is called for: the work of the tip falls exactly when the branch it completes counts less at its own heights |
| `Falls.LevelLosesNot` | src/cryptonote/core/blockchain.cpp:1115-1122 | a block for which the rule agrees is none of these |
| `Runs.SubmitKeeps` | src/cryptonote/core/cryptonote_core.cpp:753-768 | a transaction from outside that is not accepted a second time keeps everything in order and loses nothing |
| `Runs.PopApart` | src/cryptonote/core/blockchain.cpp:436-471 | popping any number of blocks keeps ids apart, and a chain that lost blocks has a defined next difficulty |
| `Runs.RunHealthy` | src/cryptonote/core/blockchain.cpp:3243-3283 | after every run of blocks, transactions, sweeps and pops, chain and pool are consistent and disjoint |
| `Runs.RunLosesNothing` | src/cryptonote/core/blockchain.cpp:3243-3283 | without sweeps no run loses a transaction that was on the main chain, or safe in the pool |
| `Runs.RunSane` | src/cryptonote/core/blockchain.cpp:3243-3283 | after every run in which the rule agrees, each alternative carries the work of its history |
| `Runs.RunGainsWork` | src/cryptonote/core/blockchain.cpp:3243-3283 | in such a run without pops the work of the tip never falls |
| `ForkChoice.TipStaysHeaviest` | src/cryptonote/core/blockchain.cpp:1700-1801 | offering a block for which the rule agrees leaves the tip the heaviest block kept, exactly when no branch is refused while the difficulty after the main chain is undefined |
| `Reachable.FreshHealthy` | src/cryptonote/core/blockchain.cpp:292-305 | a store with the first block only is consistent |
| `Reachable.RunsInOrder` | src/cryptonote/core/blockchain.cpp:3243-3283 | under any rules, every run from the first block ends in a state whose chain is linked, ordered, bounded and free of double spends, whose coins follow the emission curve, and whose pool is consistent and disjoint from the chain |
| `Reachable.SameBandIsLevel` | src/cryptonote/core/blockchain.cpp:1115-1122 | with the rule of the node, a branch within one band of heights is one for which the rule agrees |
| `Reachable.NodeGainsWork` | src/cryptonote/core/blockchain.cpp:3243-3283 | with the rules of the node, from the first block on, the promises about work hold over every run in which the rule agrees |
| `Reachable.NodeKeepsApart` | src/cryptonote/core/blockchain.cpp:3243-3283 | the three exact conditions over every run from the first block on, under any lawful rules |
| `Reachable.NodeNestsOnce` | src/cryptonote/core/blockchain.cpp:1004-1019 | after every run from the first block on, a block offered next nests switches at most once |
| `Audit.ChainInOrder` | src/cryptonote/core/blockchain.cpp:2913-3181 | blocks of an accepted chain are linked, at their height, of growing work, within max(128 kB, height), and no transaction or key image comes twice |
| `Audit.CoinsByHeight` | src/cryptonote/core/blockchain.cpp:3101-3108 | the stored coin counter is a function of the height alone |
| `Audit.TipFixesChain` | src/cryptonote/core/blockchain.cpp:3101-3108 | two accepted chains with the same tip hash have the same blocks, work and coins |
| `Audit.CoinbaseSum` | src/cryptonote/core/cryptonote_core.cpp:664-697 | the report sums outputs less fees, and fees, over the requested heights |
| `Audit.MintedIsReward` | src/math/consensus/consensus.hpp:213-221 | each block mints exactly the step of the emission curve, also where reward plus fees wraps |
| `Audit.Conservation` | src/cryptonote/core/cryptonote_core.cpp:664-697 | the report over any range from height 1 on is the difference of the coin counters at its ends |
| `ChainObject.Blockchain.constructor` | src/cryptonote/core/blockchain.cpp:292-305 | a store with the first block only is consistent |
| `ChainObject.Blockchain.ReturnAll` | src/cryptonote/core/blockchain.cpp:2864-2886 | the loop gives transactions back as the value form says |
| `ChainObject.Blockchain.TakeAll` | src/cryptonote/core/blockchain.cpp:3009-3085 | the loop takes transactions as the value form says |
| `ChainObject.Blockchain.PopBlock` | src/cryptonote/core/blockchain.cpp:476-544 | pops as the value form says and keeps chain and pool consistent |
| `ChainObject.Blockchain.PopBlocks` | src/cryptonote/core/blockchain.cpp:436-471 | pops the requested number of blocks, never the first |
| `ChainObject.Blockchain.NextDifficulty` | src/cryptonote/core/blockchain.cpp:788-850 | the difficulty from the lists is that of the chain |
| `ChainObject.Blockchain.Settle` | src/cryptonote/core/blockchain.cpp:3101-3231 | coinbase and key-image checks, the stored record, and what goes back on a failure |
| `ChainObject.Blockchain.HandleMain` | src/cryptonote/core/blockchain.cpp:2913-3231 | adds to the main chain as the value form says and keeps chain and pool consistent |
| `ChainObject.Blockchain.BuildAltChain` | src/cryptonote/core/blockchain.cpp:1516-1537 | walks the alternatives back to the fork and lists their timestamps, newest first |
| `ChainObject.Blockchain.CompleteStamps` | src/cryptonote/core/blockchain.cpp:1486-1514 | fills the timestamps up from the main chain |
| `ChainObject.Blockchain.AltDifficulty` | src/cryptonote/core/blockchain.cpp:1042-1123 | the difficulty asked of a branch block, with the length of the main chain as height |
| `ChainObject.Blockchain.TimelyOn` | src/cryptonote/core/blockchain.cpp:1538-1570 | the connection checks and the median test of a branch block |
| `ChainObject.Blockchain.Store` | src/cryptonote/core/blockchain.cpp:1650-1720 | stores the block with the work of its parent plus its own and compares with the tip |
| `ChainObject.Blockchain.PlaceAlt` | src/cryptonote/core/blockchain.cpp:1578-1720 | checks and stores an alternative as the value form says |
| `ChainObject.Blockchain.ConnectAll` | src/cryptonote/core/blockchain.cpp:964-975 | connects blocks up to the first that is not added |
| `ChainObject.Blockchain.Disconnect` | src/cryptonote/core/blockchain.cpp:951-960 | pops to the parent of the branch and lists the popped blocks, oldest first |
| `ChainObject.Blockchain.Rollback` | src/cryptonote/core/blockchain.cpp:888-927 | undoes as the value form says |
| `ChainObject.Blockchain.Abandon` | src/cryptonote/core/blockchain.cpp:982-1001 | marks the rest of the branch as invalid and drops it from the alternatives, entry by entry; one that is not there throws |
| `ChainObject.Blockchain.ReaddAll` | src/cryptonote/core/blockchain.cpp:1004-1019 | puts disconnected blocks back as alternatives, carrying out the switches this calls for; only an exception stops it |
| `ChainObject.Blockchain.Forget` | src/cryptonote/core/blockchain.cpp:1021-1025 | drops the branch from the alternatives, entry by entry; one that is not there throws |
| `ChainObject.Blockchain.Switch` | src/cryptonote/core/blockchain.cpp:931-1038 | switches, or undoes, as the value form says and keeps chain and pool consistent |
| `ChainObject.Blockchain.HandleAlt` | src/cryptonote/core/blockchain.cpp:1578-1801 | handles a block beside the main chain as the value form says, nested switches included |
| `ChainObject.Blockchain.AddNewBlock` | src/cryptonote/core/blockchain.cpp:3243-3283 | handles any block as the value form says, with every nested switch carried out; chain and pool stay consistent, nothing is lost, a rollback changes no block |
| `ChainObject.Blockchain.AddNewTx` | src/cryptonote/core/cryptonote_core.cpp:753-768 | ignores a transaction that pool or chain have, and offers any other to the pool |
| `DifficultyCache.SlideIsRebuild` | src/cryptonote/core/blockchain.cpp:766-786 | sliding the cached window by one block gives exactly the window rebuilt from the chain |
| `DifficultyCache.AnswerIsCurrent` | src/cryptonote/core/blockchain.cpp:738-752 | a difficulty kept under the hash of the tip is the difficulty for this chain |
| `DifficultyCache.RunAgrees` | src/cryptonote/core/blockchain.cpp:734-871 | after every run of extending, rewriting, querying and ending batches both caches agree with the chain |
| `DifficultyCache.Difficulty.Slide` | src/cryptonote/core/blockchain.cpp:772-779 | pushes one block and drops from the front down to 145 |
| `DifficultyCache.Difficulty.Query` | src/cryptonote/core/blockchain.cpp:734-871 | answers with the difficulty of the chain, and neither comparison ever finds a difference |
| `DifficultyCache.Difficulty.Disturb` | src/cryptonote/core/blockchain.cpp:481-482 | a rewrite of the chain drops the window and raises the flag |
| `DifficultyCache.Difficulty.EndBatch` | src/cryptonote/core/blockchain.cpp:3306-3316 | the end of a batch lowers the flag and drops the window |
| `ScanTable.AbsoluteOffsets` | src/cryptonote/basic/functional/format_utils.cpp:468-474 | running sums in 64-bit arithmetic |
| `ScanTable.GetOutputs` | src/daemon/database/instance/lmdb/lmdb.cpp:3576-3628 | a bulk query answers up to the first index that does not exist |
| `ScanTable.BulkAnswers` | src/cryptonote/core/blockchain.cpp:3618-3656 | for sorted indices the bulk query answers exactly those that exist |
| `ScanTable.SortUnique` | src/cryptonote/core/blockchain.cpp:3618-3625 | the indices of an amount sorted without repetition |
| `ScanTable.PickOut` | src/cryptonote/core/blockchain.cpp:3679-3703 | one ring out of the bulk results is its members up to the first missing one |
| `ScanTable.FetchAll` | src/cryptonote/core/blockchain.cpp:3618-3656 | one bulk query per amount covers everything that was noted |
| `ScanTable.FillEntries` | src/cryptonote/core/blockchain.cpp:3676-3703 | the entries of a transaction; the first of two equal images counts |
| `ScanTable.Scanner.Register` | src/cryptonote/core/blockchain.cpp:3549-3616 | refuses exactly the batches with a repeated transaction and notes every needed output |
| `ScanTable.Scanner.Prepare` | src/cryptonote/core/blockchain.cpp:3531-3707 | the table holds, for every input of the batch, its ring up to the first missing member |
| `ScanTable.BuiltIsOk` | src/cryptonote/core/blockchain.cpp:3660-3707 | a table just built agrees with the chain for every transaction with distinct key images |
| `ScanTable.TableStays` | src/cryptonote/core/blockchain.cpp:129-140 | it stays right while the chain grows |
| `ScanTable.Scanner.Clear` | src/cryptonote/core/blockchain.cpp:534 | an emptied table is right for every chain |
| `ScanTable.Scanner.Fetch` | src/cryptonote/core/blockchain.cpp:129-190 | full, partial, empty or no entry: what is fetched are the first members of the ring, and a refusal means one is missing |
| `ScanTable.Scanner.Scan` | src/cryptonote/core/blockchain.cpp:114-246 | collecting a ring through the table gives what looking up every index directly gives |
| `ScanTable.RunKeepsTable` | src/cryptonote/core/blockchain.cpp:3531-3707 | after every run of growing, popping, preparing and ending batches the table is right |
| `RingAge.SortedMeansDistinct` | src/math/consensus/consensus.hpp:200-211 | the order rule accepts exactly the strictly decreasing lists, so no image comes twice |
| `RingAge.CheckSizes` | src/cryptonote/core/blockchain.cpp:3918-3987 | comparing the smallest and the largest ring with the one size accepts exactly the inputs, at least one, of 32 members each |
| `RingAge.CheckAges` | src/cryptonote/core/blockchain.cpp:3918-4076 | passes exactly when there is an input, all rings have 32 members, images are in order and unspent on the chain, all rings are complete and the newest last member is four blocks deep |
| `RingAge.PassesMeansDeep` | src/cryptonote/core/blockchain.cpp:194-230 | then every member of every ring is four blocks deep, if the last index of each ring is its greatest |
| `RingAge.NoWrap` | src/cryptonote/basic/functional/format_utils.cpp:468-474 | that holds for offsets whose sum fits 64 bits |
| `RingAge.SufficientIff` | src/cryptonote/core/blockchain.cpp:4073-4076 | on the chains with at most n outputs the check is enough for a ring of 32 exactly when its last index is the greatest, or some index is n or more |
| `RingAge.WrappedRing` | src/cryptonote/core/blockchain.cpp:4073-4076 | the ring of 32 with offsets 40, thirty times 1, and 2^64 - 35 is one for which it is not, on a chain of 71 outputs |
| `History.ShortHistory` | src/cryptonote/core/blockchain.cpp:592-632 | the ids at distances 1 to 11, 13, 17, 25, ... from the end, and the first block |
| `History.FindSplit` | src/cryptonote/core/blockchain.cpp:2053-2129 | the height of the first id that the responder has; refused exactly when the list does not end in its first block |
| `History.SplitIsClose` | src/cryptonote/core/blockchain.cpp:2098-2128 | the split is not above the last common height, at most twice as far back from the tip, and exact within eleven blocks |
| `History.Supplement` | src/cryptonote/core/blockchain.cpp:2333-2357 | the reply is the responder's ids from the split on, at most 10000 |
| `History.ReplyHasNews` | src/cryptonote/core/blockchain.cpp:2345-2357 | unless the chains part more than 10000 blocks back, the reply has the responder's first block above the last common one, which the requester's main chain has not |
| `History.Exchange` | src/cryptonote/core/blockchain.cpp:2333-2376 | the above for one whole exchange between two nodes |
| `BlockQueue.Queue.AddBlocks` | src/cryptonote/protocol/block_queue.cpp:45-58 | appends a batch unless it is empty |
| `BlockQueue.Queue.RemovePeer` | src/cryptonote/protocol/block_queue.cpp:60-76 | drops exactly the batches of a peer |
| `BlockQueue.Queue.RemoveUpTo` | src/cryptonote/protocol/block_queue.cpp:78-98 | drops exactly the batches of a peer up to a height |
| `BlockQueue.Queue.Reserve` | src/cryptonote/protocol/block_queue.cpp:100-199 | the span is the first min(max, size) hashes at the height of the first; when there is none |
| `BlockQueue.Queue.NextSpan` | src/cryptonote/protocol/block_queue.cpp:201-211 | the span of the batch in front |
| `BlockQueue.Queue.Drain` | src/cryptonote/protocol/cryptonote_protocol_handler.cpp:1392-1640 | draining ends, only removes batches, meets no empty one, and ends normally only with an empty queue |
| `Sync.CheckIds` | src/cryptonote/protocol/cryptonote_protocol_handler.cpp:2362-2427 | accepts exactly the lists without repetition whose first id is known and whose later known ids are valid, behind known ones and at their height |
| `Sync.Peer.SkipKnown` | src/cryptonote/protocol/cryptonote_protocol_handler.cpp:1869-1900 | drops the known blocks in front, and keeps the last one in mind if it drops all |
| `Sync.Peer.TakeSpan` | src/cryptonote/protocol/cryptonote_protocol_handler.cpp:2011-2054 | the span is the next stretch of the last reply; neither error branch can be reached |
| `Sync.Peer.FindSpan` | src/cryptonote/protocol/cryptonote_protocol_handler.cpp:1912-1990 | the span begins with the first unknown needed block; the inconsistency branch cannot be reached |
| `Sync.Peer.AskChain` | src/cryptonote/protocol/cryptonote_protocol_handler.cpp:2079-2170 | asks with the short history, led by the last known hash if there is another one, and is done only at the peer's height with nothing outstanding |
| `Sync.Peer.RequestMissing` | src/cryptonote/protocol/cryptonote_protocol_handler.cpp:1903-2188 | the needed list stays the end of the last reply; blocks are asked for in its order, 100 or all that are left, the first unknown and awaited at its own height |
| `Sync.Peer.Accept` | src/cryptonote/protocol/cryptonote_protocol_handler.cpp:2260-2427 | a reply is accepted exactly under the stated conditions, and then is the needed list; a score hit only when the height shrank |
| `Sync.Peer.HandleChainEntry` | src/cryptonote/protocol/cryptonote_protocol_handler.cpp:2260-2441 | a reply that is not acceptable ends the connection; otherwise the invariant holds afterwards and the height to aim for rises to that of the peer |
| `Sync.Peer.Deliver` | src/cryptonote/protocol/cryptonote_protocol_handler.cpp:1206-1289 | a delivery passes exactly when it has every requested block once and no other, each with a coinbase and as many transactions as it lists |
| `Sync.Peer.Receive` | src/cryptonote/protocol/cryptonote_protocol_handler.cpp:1112-1329 | a delivery is taken exactly when it was awaited, is not empty, not from a shrunken peer, not ahead of the awaited height, complete, and free of pruned data |
| `Sync.Peer.HandleObjects` | src/cryptonote/protocol/cryptonote_protocol_handler.cpp:1112-1360 | a delivery keeps the invariant, whatever becomes of the queued blocks, and raises the height to aim for |
| `Sync.HonestIsAcceptable` | src/cryptonote/protocol/cryptonote_protocol_handler.cpp:2273-2427 | an honest reply from a block the node has passes every check |
| `Sync.HonestExchange` | src/cryptonote/core/blockchain.cpp:2333-2376 | in particular the reply built from the node's own short history |

## Left out

- Signatures, range proofs, curve points, hashing and proof of work: functions of what they look at.
- The database: appends, pops and lookups happen as asked; batches that abort, and their effect on the caches, are not modelled.
- Locks and threads: calls run one after the other; where the source tries a lock the outcome is a parameter.
- Parsing of blobs: transactions and blocks are values.
- Coinbase transactions as transactions: their ids and outputs do not enter the transaction set or the output index of the chain model.
- The coin counter and the weight of alternative records: the main chain computes both anew.
- 128-bit overflow of cumulative work, the fixed-difficulty mode, and heights near 2^64.
- Failure flags of verification contexts, relay delays, double-spend marks, the cookie, and the readiness bookkeeping of pool entries.
- Peer lists, handshakes, scores beyond counting hits, miner threads, RPC, wallets.
- PoolObject.TxPool.FillTemplate: the acceptance threshold, a product with a float in the source, is an abstract function.
- Template.FillLeavesNothing: readiness is a predicate on the transaction and the chain; the memory of failed checks is not modelled.
- PoolObject.Consider: the same threshold function and readiness predicate as in the template.
- ChainObject.Blockchain.AltDifficulty: the fixed-difficulty mode is not modelled.
- ChainObject.Blockchain.Store: weight and coin counter of the alternative record are not kept; the main chain computes both anew.
- ChainObject.Blockchain.PlaceAlt: as for the store, weight and coin counter of the record are not kept.
- ScanTable.Scanner.Prepare: cancellation and transactions that do not parse are not modelled.
- RingAge.CheckAges: the number of outputs, the version and the signatures are not modelled.
- Switching.SwitchDone: asks that the rule weigh the disconnected blocks as before; `Fates.SwitchTold` says what comes of the others.
- Runs.AddNewBlockKeeps: asks that the rule agree; for all blocks there are `Nesting.DeepAddKeeps`, `Fates.ApartIff` and `Fates.WorkFallsIff`.
- Runs.RunGainsWork: asks that the rule agree on every block; `Fates.RunFallsIff` does not.
- Reachable.NodeGainsWork: the same.
- ForkChoice.TipStaysHeaviest: asks that the rule agree; `Fates.HeaviestIff` does not.
- Falls.WorkFallsIff: a nested switch is cut off; `Fates.WorkFallsIff` follows it, from states with no block in two places.
- Fates.ApartIff: no state of the node is built in which an exception stops the way back.
- BlockQueue.Queue.Drain: how the node takes a batch is a parameter; batches without parsable blocks do not occur.
- Sync.Peer.Receive: a node that is stopping, and the counters of bad spans, are not modelled.
- Sync.Peer.HandleObjects: what the node has after the queue is drained is a parameter.
- Runs.SubmitKeeps: a private transaction accepted a second time is excluded; `PoolSteps.AddTxWFIff` says what it does.
- Bootstrap.AcceptedIsTimely: asks that the median not depend on the order of the list, which the source sorts.
