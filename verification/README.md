# Clamor's pallets in Dafny

A model of the four pallets of the Clamor node (`fragments`, `protos`, `accounts`, `detach`) and proofs of what they keep
true over every run. Each pallet is modelled twice and the two are proved to agree:

- a **class** whose fields are the pallet's storage maps and whose methods change them in place, loop by loop and check by
  check, as the Rust code does (`FragmentsPallet`, `ProtosPallet`, `StakePallets`, `DetachPallet`);
- a **specification**: one immutable value holding all the maps, and for each call the value it leads to or the error it
  returns (`FragmentLedger`, `ProtoStore`, `StakeLedger`, `DetachDesk`). Every method ensures
  `View() == After(old(View()), <specification>)` together with the error returned.

Theorems are stated about the specification, over runs: `Run` applies any sequence of calls, in any order, with any
arguments, starting from empty storage.

Two kinds of theorem fix what a call does without speaking of its specification. `..Answers` say for each call, in terms of
storage and arguments alone, exactly when it is accepted and in which case it returns which error. `Run..` stories say what
each map holds after any run, told from the accepted calls alone: the proto as it was uploaded, patched and handed on, in
strings; the instance as it was minted, bought and given; the sale as it was published, less what was bought; the link, lock
and stake as last made; the nonce and export as last finalised. Everything else is about what holds in between.

| file | content |
|---|---|
| `Basics` | identifiers, results, vectors, storage maps from a key to a vector |
| `FragmentLedger`, `FragmentRights`, `FragmentStories`, `FragmentInvariants`, `FragmentAlways`, `FragmentTheorems`, `FragmentPromises`, `FragmentLists`, `FragmentSweep`, `FragmentSupply`, `FragmentOverflow`, `FragmentMoney`, `FragmentsPallet` | definitions, sales, instances, expiry |
| `ProtoStore`, `ProtoRights`, `ProtoStories`, `ProtoTheorems`, `ProtoPromises`, `ProtoCycles`, `ProtoQuery`, `ProtosPallet` | protos, interned strings, references, indexes, listings |
| `StakeLedger`, `StakeStories`, `StakeTheorems`, `VoteTheorems`, `StakePromises`, `StakeBudget`, `StakeRuns`, `StakePallets` | links, votes, locks, stakes |
| `Messages`, `DetachDesk`, `DetachRuns`, `DetachPallet` | signed byte strings, detach batches, nonces |

## What the proofs found

Promises that hold of every run: only the owner of an attached proto defines classes from it, opens and closes their sales,
and mints outside a purchase; nothing is referred to by anyone but its owner unless it is free or staked on enough; a proto
belongs to the receiver of its last transfer, or as its upload said, and lists name protos in the order they came; owner
lists and inventories are one table read two ways; no instance outlives its expiry, none may do more than its definition
allows, and only a definition with COPY has further copies; definitions are indexed under their protos; stakes are listed,
links are a bijection, a vote count is the number of accepted submissions and an event is carried out once; tags, metadata
keys, owners and categories are indexed exactly; upload-time references have no cycles; a page listing is exact, reversible
and complete; every purchase is paid once, price times quantity in full (neither the saturated price nor the unchecked sum
of the balance check changes what is accepted, except for a vault buying from itself, and no vault account signs); only what
its owner asked for is detached, and where it was asked to; signed messages decode uniquely.

Promises that hold of every run in which no u64 counter overflows, and together of no other: each live instance is in
exactly one list, that of the account it was minted for, sold or last given to, and is as its last gift asked; no expired
one is in any, nor does it return; live and expired instances add up to the copies counted; permissions only narrow; unique
data and editions correspond; nobody's list changes but by its owner, a gift, or time.

Promises the code does not keep, each with its witness and its exact condition:

- **Counters of fragments overflow.** `existing + quantity` is added in u64 without a check, and a class without a maximal
  supply, or an unlimited sale, takes any quantity. A mint keeps the ledger in order exactly while the sum fits
  (`FragmentInvariants.MintKeepsInvIff`), a gift of a copy exactly while its number does (`GiveKeepsInvIff`), a run exactly
  if no accepted call overflows (`RunKeepsInvIff`). Four calls from an empty chain list one instance twice
  (`FragmentOverflow.OverflowBreaksTheLedger`); a class whose doubled supply fits never gets there (`ScarceNeverOverflows`).
  Past an overflow the sweep, which takes one listing for each entry of the calendar, is no longer deleting what is due: in
  every reachable state it is so exactly if no due id is listed more often than the calendar names it
  (`FragmentSweep.RunSweepIsDeletionIff`), and a run leads to an expired id that stays listed
  (`FragmentOverflow.SweepLeavesOne`).
- **Max supply is not a maximum.** `mint` looks at the editions made but not at the units on sale. A successful mint breaks
  the bound on editions and units exactly when it makes more than supply minus editions minus units on sale
  (`FragmentSupply.StepKeepsSupplyIff`); the bound on editions alone is then broken by a purchase, exactly when the sum
  exceeds the supply and fits in u64 (`StepKeepsCountIff`). A run stays within either bound at every point exactly if it
  has no such step (`RunKeepsSupplyIff`, `RunKeepsCountIff`). For every supply m there is a run to 2m editions, modulo 2^64
  (`TwiceSupplyReached`), and none counts more (`RunWithinTwiceSupply`).
- **`FragUsage` never moves.** `stake` and `unstake` compute the new usage and drop it, so usage stays zero
  (`StakePromises.UsageStaysZero`) and the slashing branch is dead (`NeverSlashed`). Stakes stay within the locks exactly if
  no step stakes beyond what the account's other stakes leave, locks less than is staked, or links an account to an address
  that locked less than it still has staked (`StakeBudget.StepKeepsBudgetIff`, `RunKeepsBudgetIff`). A run from an empty
  chain stakes the lock n times over (`StakeRuns.OverStakingReached`). The variant that writes the sums back
  (`Intended`) keeps the budget (`StakeBudget.StakesWithinLock`). The tests at `pallets/protos/src/tests.rs:619-650`
  expect the usage to move, and are marked `#[ignore]`; the model follows the code.
- **Who can stake.** `stake` acts for an account derived from the signer, `link` and `unstake` for the signer. A run
  reaches a stake exactly if some account and its derived account can both sign and the derived one can link itself to an
  address with an acceptable event (`StakeRuns.StakingReachableIff`). Derived accounts are meant to be out of users' reach;
  over-staking, and the panic below, presuppose one that signs.
- **`unstake` can panic**: exactly for a matured stake of an account without a usage entry (`StakePromises.UnstakePanicsIff`),
  which is what unlinking and unstaking within one block makes. A run gets there under exactly the condition above
  (`StakeRuns.PanicReachableIff`).
- **Patch references may be circular.** An accepted patch closes a circle exactly if it has data and refers to its proto or
  to one that leads back to it (`ProtoCycles.PatchClosesIff`); no other call does (`StepKeepsAcyclicIff`).
- **Pages wrap** where a usize has 32 bits: right for every listing of fewer than 2^32 entries exactly when `from` and
  `limit` are below 2^32, or what wraps makes no difference (`ProtoQuery.PagesRightIff`).
- **One bad request blocks its batch**: a detach batch is worked off exactly if every request in it is serviceable
  (`DetachDesk.WorkedOffIff`); until then the requests before the bad one are signed and sent anew in every block.
- **A batch can be lost.** At the end of a block a request off chain is forgotten exactly if other requests were made in
  that block (`DetachRuns.ForgottenIff`), and is then never announced unless made again (`ForgottenForGood`). Two blocks
  with a request each and no worker in between do it (`BatchIsLost`).
- **A signed payload can repeat**: exactly for the same request, when the nonce stored has come to be one below the one it
  was finalised with (`DetachDesk.PayloadRepeatsIff`); as long as no nonce is set back, never (`NoPayloadTwice`). Eight
  steps from the start get there (`DetachRuns.PayloadRepeats`).
- **A proto can be exported again and again**: once a detachment of it was announced, any number of times, detached already
  or not, and without an announcement never (`DetachRuns.ExportableIff`). A request outlives a transfer of its proto, so the
  account its first owner named may be the one it is exported to in the end (`FirstOwnerMayGetIt`).

The third check of `give` (`pallets/fragments/src/lib.rs:835-840`) can never fail, since TRANSFER was required just before.

## How the model reads the code

- A call that returns an error leaves storage as it was. Inside `mint_fragments` nothing is written before the last check;
  `buy` transfers after writing, and the method rolls back.
- Hash functions, signature recovery, derived accounts, vault accounts and class ids are functions without further
  properties (`Hashing`, `Params`, `Worker`): the theorems hold whatever they answer. Identifiers are only compared.
- Block n is finalised once, then block n+1 begins. `extrinsic_index` is always there.
- `FragmentPerms` is the set of the three flags `give` tests.
- What another pallet answers is a parameter of the step and arbitrary at each step: owners and detached hashes for
  fragments (`ProtoView`), owners for `detach`, stakes for references (`Stakes`), stored protos for staking, the order in
  which storage yields owners (`EndBlock`). Balances are u128 values in a map in the fragment storage, and all an account
  has in a currency. A transfer leaves the payer the least balance, which is not zero, and fails if the receiver's balance
  would overflow; a transfer to oneself succeeds without a look at the balance; `Funds` says what that least balance is
  and whether the balances pallet allows the transfer at all, and the call `Outside` changes any balance at any time.
- Quantities, units and supplies are u64 values (`Unit`). Sums of u64 and u128 that the code does not check wrap, as in a
  release build, and are written with `% U64` and `% U128`. The next interning number is taken to fit.
- Some fields record history and are never read by a call: who holds an instance, what expired, which data an edition was
  minted with (`Book`); a proto's tags and metadata in strings and its place in the order of uploads (`plain`, `rank`);
  names in the order met (`met`); requests accepted and announcements sent (`Yard`).
- `UniqueData2Edition` stores the edition less one, restaking overwrites the earlier stake, and an empty patch drops its
  references, as in the code.

## Model

| member | source | states |
|---|---|---|
| FragmentsPallet.Pallet.constructor | pallets/fragments/src/lib.rs:191-314 | all storage maps start empty: the class starts at `Genesis`, where the invariant holds |
| FragmentsPallet.Pallet.CheckProto | pallets/fragments/src/lib.rs:418-432 | passed exactly by the account that owns the proto while it is attached; each error exactly when its case applies |
| FragmentRights.CreateAnswers | pallets/fragments/src/lib.rs:409-446 | a definition is made exactly for the owner of an attached proto, once, with a reserved deposit; every error in its case |
| FragmentRights.PublishAnswers | pallets/fragments/src/lib.rs:488-523 | a sale is opened exactly by that owner, one at a time, of a scarce class in numbers within what is left; every error in its case |
| FragmentRights.UnpublishAnswers | pallets/fragments/src/lib.rs:554-574 | a sale is closed exactly by that owner, if there is one; every error in its case |
| FragmentRights.MintAnswers | pallets/fragments/src/lib.rs:602-646 | minting outside a purchase is accepted exactly from that owner, for data not used before exactly of a unique class, within the supply; every error in its case |
| FragmentRights.GiveAnswers | pallets/fragments/src/lib.rs:796-853 | a gift is accepted exactly from an account listing the live instance, with TRANSFER, for no more than its permissions and a later expiry; every error in its case |
| FragmentRights.OnlyTheOwner | pallets/fragments/src/lib.rs:418-432 | at any step a class is defined, a sale opened or closed and an edition counted outside a purchase only by the owner of the attached proto at that moment |
| FragmentRights.RunDefines | pallets/fragments/src/lib.rs:446-458 | after any run the definitions are exactly those that owners of attached protos made, with proto, metadata, permissions, uniqueness, supply, creator and block as then |
| FragmentRights.RunSellsAsOffered | pallets/fragments/src/lib.rs:525-533 | after any run a class is on sale iff published and not unpublished since, at that price, expiry and amount, with the units published less those bought since |
| FragmentStories.RunTells | pallets/fragments/src/lib.rs:785-925 | after any run without overflow an instance is live iff minted, bought or copied and not expired since; it is as it was made or its source was when given, restricted by each gift to just what was asked, and in the list and inventory of its last receiver only |
| FragmentsPallet.Pallet.Create | pallets/fragments/src/lib.rs:409-463 | ties the update in place to `Created`: same error or the same new storage |
| FragmentsPallet.Pallet.Publish | pallets/fragments/src/lib.rs:479-541 | ties it to `Published`: a scarce class only in limited numbers within what is left, one sale at a time |
| FragmentsPallet.Pallet.Unpublish | pallets/fragments/src/lib.rs:553-581 | ties it to `Unpublished` |
| FragmentsPallet.Pallet.Mint | pallets/fragments/src/lib.rs:602-646 | ties it to `MintedByOwner`, for any quantity |
| FragmentsPallet.Pallet.Buy | pallets/fragments/src/lib.rs:667-757 | ties it to `Bought`, for any quantity: the transfer to the vault after the mint, and the roll-back of a mint whose payment fails |
| FragmentsPallet.Pallet.CheckMint | pallets/fragments/src/lib.rs:1066-1098 | these checks refuse iff any mint would be refused before supply is looked at, with that error, and give the data hash |
| FragmentsPallet.Pallet.MintFragments | pallets/fragments/src/lib.rs:1054-1176 | the loop up to the u64 sum, with counters written after it, leaves what minting one edition at a time leaves, and past 2^64 mints nothing |
| FragmentsPallet.BatchIsOneByOne | pallets/fragments/src/lib.rs:1133-1171 | the loop that leaves the counters alone, then records them, equals minting edition by edition, then recording them |
| FragmentsPallet.Pallet.CheckGive | pallets/fragments/src/lib.rs:798-846 | the flag-by-flag checks refuse iff the permissions asked are no subset, or another check fails, in the code's order |
| FragmentsPallet.Pallet.Give | pallets/fragments/src/lib.rs:785-928 | ties it to `Given`: a copy when COPY is held, a move otherwise |
| FragmentsPallet.Pallet.OnFinalize | pallets/fragments/src/lib.rs:975-1014 | in any state, ties the sweep to `SweptBy`: for each id due one listing goes, of the first owner found in storage order, and its twin |
| FragmentInvariants.SweptByIsSwept | pallets/fragments/src/lib.rs:975-1014 | while each id is listed once that equals, in every order, deleting each due id from every owner's lists |
| FragmentSweep.SweepIsDeletionIff | pallets/fragments/src/lib.rs:975-1014 | where both maps hold the same lists the sweep deletes the due ids from both, in any storage order, exactly if none is listed more often than the calendar names it |
| FragmentSweep.RunSweepIsDeletionIff | pallets/fragments/src/lib.rs:975-1014 | so at the end of a block after any run from empty storage, overflowing or not |
| FragmentAlways.RunDual | pallets/fragments/src/lib.rs:860-911 | after any run `Owners` and `Inventory` are the same lists, presence and order included |
| FragmentAlways.NothingOutlivesItsExpiry | pallets/fragments/src/lib.rs:864-880 | after any run a live instance with an expiry is not past it, and is in the calendar under it |
| FragmentAlways.RunIndexesDefinitions | pallets/fragments/src/lib.rs:434-458 | after any run each definition is listed under its proto, once, and nothing else is |
| FragmentOverflow.SweepLeavesOne | pallets/fragments/src/lib.rs:982-1009 | a run from empty storage, overflowing, each call of which is accepted, after whose next block end an expired id stays in its owner's list |
| FragmentInvariants.FoundOwner | pallets/fragments/src/lib.rs:985-1009 | removing the id by position from the one list found, and from its twin, equals removing it everywhere |
| FragmentInvariants.StepKeepsInvIff | pallets/fragments/src/lib.rs:403-1176 | each call keeps single ownership, dual index, counts, calendar, permissions, unique data, supply and definitions, exactly unless it is accepted and overflows a counter |
| FragmentInvariants.RunKeepsInv | pallets/fragments/src/lib.rs:403-1176 | so does every run without such a call |
| FragmentInvariants.RunKeepsInvIff | pallets/fragments/src/lib.rs:1133-1171 | all of it holds at every point of a run exactly if no accepted call overflows a counter |
| FragmentInvariants.MintKeepsInvIff | pallets/fragments/src/lib.rs:1054-1176 | an accepted mint, from a sale or direct, keeps all of it exactly while editions plus quantity fit in u64 |
| FragmentInvariants.SweepKeepsInv | pallets/fragments/src/lib.rs:975-1014 | the end of a block keeps all of it: afterwards every entry of the calendar is later than the block finalised |
| FragmentInvariants.CreateKeepsInv | pallets/fragments/src/lib.rs:409-463 | a new class keeps all of it, and is indexed under its proto once |
| FragmentInvariants.GiveKeepsInvIff | pallets/fragments/src/lib.rs:849-925 | copying and moving, also to oneself, keep all of it exactly unless the number of a copy overflows |
| FragmentInvariants.NextDatumBijective | pallets/fragments/src/lib.rs:1164-1171 | recording new data under the count of editions keeps data and editions 0..n-1 in bijection |
| FragmentInvariants.GainKeepsCalendar | pallets/fragments/src/lib.rs:1154-1156 | scheduling a new instance keeps the calendar exact and without repetition |
| FragmentInvariants.MoveKeepsOwned | pallets/fragments/src/lib.rs:891-911 | moving keeps each id listed once, under its holder only |
| FragmentTheorems.Conservation | pallets/fragments/src/lib.rs:1133-1171 | live plus expired instances of a class equal the sum of `CopiesCount` over its editions |
| FragmentTheorems.RunConserves | pallets/fragments/src/lib.rs:975-1176 | so they do after every run from empty storage in which no counter overflows |
| FragmentTheorems.RunEvolves | pallets/fragments/src/lib.rs:403-1176 | over any run without overflow permissions only shrink, settled instances stay put, expired ids stay expired, definitions never change, counters only grow |
| FragmentPromises.SingleOwnership | pallets/fragments/src/lib.rs:276-306 | without overflow an id is live iff some account lists it; then one account does, once, in both maps |
| FragmentPromises.WithoutTransferNeverMoves | pallets/fragments/src/lib.rs:815-819 | instances of a definition without TRANSFER have the same holder after any run without overflow |
| FragmentAlways.WithoutCopyOnlyFirsts | pallets/fragments/src/lib.rs:849-856 | after any run a definition without COPY has no copy id above 1, live or expired |
| FragmentAlways.NeverMoreThanDefined | pallets/fragments/src/lib.rs:821-844 | after any run an instance may do no more than its definition allows |
| FragmentPromises.NeverMoreThanBefore | pallets/fragments/src/lib.rs:821-844 | after any run without overflow an instance's permissions are within what they were |
| FragmentPromises.ExpiredForGood | pallets/fragments/src/lib.rs:980-1009 | an expired id is in no map and no list after any run without overflow |
| FragmentPromises.MintAdds | pallets/fragments/src/lib.rs:1133-1152 | an accepted mint adds exactly first copies of the next editions, with the definition's permissions, this block, the data's hash and the amount, held by the receiver and last in its list in order: as many as asked if the count fits in u64, else none; no other list or id changes, and the count is the sum in u64 |
| FragmentLists.ListsAreOnesOwn | pallets/fragments/src/lib.rs:849-1009 | an account that neither mints, buys, gives nor receives in a run without overflow ends it with its list, in order, less what expired |
| FragmentMoney.PurchasesAddUp | pallets/fragments/src/lib.rs:689-754 | over any run a wallet ends with what it had plus price times quantity of purchases into it less that of its own; refused purchases cost nothing |
| FragmentMoney.VaultHoldsItsSales | pallets/fragments/src/lib.rs:735-754 | a vault whose account buys nothing holds the sum of price times quantity of its sales |
| FragmentMoney.PaidInFull | pallets/fragments/src/lib.rs:694-754 | an accepted purchase moves price times quantity, saturation notwithstanding, in the definition's currency from the buyer, who keeps the minimum, to the vault, and changes no other balance; a vault buying from itself keeps what it has |
| FragmentMoney.BuyAcceptedIff | pallets/fragments/src/lib.rs:667-754 | a purchase is accepted iff units are offered, the transfer is allowed and, in plain numbers, price times quantity plus the minimum is within the balance and the vault holds it; for a vault buying from itself iff the wrapped check passes |
| FragmentMoney.BuyRefusals | pallets/fragments/src/lib.rs:667-757 | each error of a purchase comes exactly in its case, money being looked at before what is bought and after |
| FragmentPromises.GivingCopies | pallets/fragments/src/lib.rs:849-882 | a copy has exactly the permissions asked for, or else its source's, the earlier of the two expiries and all else of its source; it gets the next copy number and comes last in the receiver's list; source and other lists stay |
| FragmentPromises.CopyIsNew | pallets/fragments/src/lib.rs:853-862 | the giver holds the source, and the copy's id, if its number fits, was never live or expired before |
| FragmentPromises.GivingMoves | pallets/fragments/src/lib.rs:889-925 | a move makes no id, sets exactly the permissions asked for or none, and takes the instance from the giver's list to the end of the receiver's; other lists stay |
| FragmentPromises.SweepTakesExactlyTheDue | pallets/fragments/src/lib.rs:975-981 | the end of block n removes exactly the instances expiring at n; the rest expire later |
| FragmentPromises.SweepDelistsExactlyTheDue | pallets/fragments/src/lib.rs:982-1009 | an account's list loses exactly the ids that were due |
| FragmentPromises.SameDataSameEdition | pallets/fragments/src/lib.rs:1076-1098 | instances of a unique class carry equal data iff of equal edition, and it is recorded under the edition less one |
| FragmentSupply.BuyKeepsCommittedIff | pallets/fragments/src/lib.rs:1102-1115 | a purchase turns units on sale into editions one for one exactly while the editions fit in u64 |
| FragmentSupply.StepKeepsSupplyIff | pallets/fragments/src/lib.rs:1116-1126 | a step takes editions plus units on sale beyond the supply iff it is a successful mint of more than what is free |
| FragmentSupply.StepKeepsCountIff | pallets/fragments/src/lib.rs:1102-1115 | a step takes editions alone beyond the supply iff it is a successful purchase whose sum exceeds the supply and fits in u64 |
| FragmentSupply.RunKeepsSupplyIff | pallets/fragments/src/lib.rs:1116-1126 | a run keeps editions plus units on sale within the supply at every point exactly if no accepted mint makes more than what is free |
| FragmentSupply.RunKeepsCountIff | pallets/fragments/src/lib.rs:1102-1115 | and editions alone exactly if no accepted purchase has a sum that exceeds the supply and fits in u64 |
| FragmentSupply.RunWithinSupply | pallets/fragments/src/lib.rs:509-536 | without direct mints during an open sale the supply is a maximum in every run |
| FragmentSupply.RunWithinTwiceSupply | pallets/fragments/src/lib.rs:509-536 | in every run whatsoever twice the supply is |
| FragmentSupply.TwiceSupplyReached | pallets/fragments/src/lib.rs:1100-1126 | for every u64 supply m > 0 there is a run, each call of which is accepted, that leaves a count of 2m modulo 2^64 |
| FragmentOverflow.OverflowBreaksTheLedger | pallets/fragments/src/lib.rs:1133-1133 | a run of four calls from empty storage, each accepted, loses an instance from the count, then lists one id twice |
| FragmentOverflow.ScarceNeverOverflows | pallets/fragments/src/lib.rs:1116-1126 | no accepted mint or purchase of a class overflows if twice its supply fits in u64 |
| ProtosPallet.Pallet.constructor | pallets/protos/src/lib.rs:160-210 | all storage maps and counters start empty |
| ProtosPallet.Pallet.CheckStakingReq | pallets/protos/src/lib.rs:770-813 | the walk passes iff every reference may be included: stored, and own, free, or staked on at least its cost; else it returns the error of the first that may not |
| ProtoTheorems.AcceptedReferencesExist | pallets/protos/src/lib.rs:770-813 | references are accepted iff each may be included, one without a cost by its owner only; the error is that of the first that may not |
| ProtosPallet.Pallet.InternTags | pallets/protos/src/lib.rs:318-334 | the loop numbers unmet tags in order; the codes returned are those of the final table |
| ProtosPallet.Pallet.InternKey | pallets/protos/src/lib.rs:579-592 | the same for one metadata key |
| ProtosPallet.Pallet.Upload | pallets/protos/src/lib.rs:277-371 | ties the update in place to `Uploaded` |
| ProtosPallet.Pallet.CheckOwner | pallets/protos/src/lib.rs:396-409 | passed exactly by the owning account of an attached proto; each error exactly when its case applies |
| ProtosPallet.Pallet.PatchProto | pallets/protos/src/lib.rs:385-476 | ties it to `Patched` |
| ProtosPallet.Pallet.Transfer | pallets/protos/src/lib.rs:486-535 | ties it to `Transferred` |
| ProtosPallet.Pallet.SetMetadata | pallets/protos/src/lib.rs:548-611 | ties it to `MetadataSet` |
| ProtoRights.UploadAnswers | pallets/protos/src/lib.rs:281-304 | an upload is accepted exactly if the proto is new and each reference may be included; every error in its case |
| ProtoRights.PatchAnswers | pallets/protos/src/lib.rs:396-418 | a patch exactly from the owner of an attached proto that may include each new reference; every error in its case |
| ProtoRights.TransferAnswers | pallets/protos/src/lib.rs:493-508 | a transfer exactly from the owner of an attached proto; every error in its case |
| ProtoRights.SetMetadataAnswers | pallets/protos/src/lib.rs:557-571 | and so a write of metadata |
| ProtoRights.TransferReaches | pallets/protos/src/lib.rs:510-529 | an accepted transfer leaves the proto with the receiver, last in its list, and out of the list of the sender unless that is the same; all else stays |
| ProtoStories.RunTells | pallets/protos/src/lib.rs:277-611 | after any run a proto is stored iff uploaded, and as told: uploader, block, references and category of its upload, owned by the receiver of its last transfer or else as uploaded, cost and tags last given, every patch with data in order, and under each key the data last set |
| ProtoStories.RunDetaches | pallets/detach/src/lib.rs:307-308 | and is detached iff its detachment was finalised |
| ProtoStories.OwnersInOrder | pallets/protos/src/lib.rs:516-523 | after any run the list of an owner names its protos in the order in which they came to it |
| ProtoStories.CategoriesInOrder | pallets/protos/src/lib.rs:354-354 | and that of a category in the order of uploads |
| ProtoTheorems.InternAllKeepsNumbered | pallets/protos/src/lib.rs:318-334 | interning keeps the table numbered without gap or repetition, changes no code given, and knows all names after |
| ProtoTheorems.TableBijective | pallets/protos/src/lib.rs:163-176 | a table is a bijection between its names and 1..index |
| ProtoTheorems.RunKeepsInv | pallets/protos/src/lib.rs:268-765 | every run keeps the tables, the owner and category indexes, the encodings and the reference order |
| ProtoTheorems.UploadKeepsInv | pallets/protos/src/lib.rs:301-356 | upload keeps all of it |
| ProtoTheorems.PatchKeepsInv | pallets/protos/src/lib.rs:385-476 | patch keeps all of it |
| ProtoTheorems.TransferKeepsOwners | pallets/protos/src/lib.rs:508-529 | a transfer, also to oneself, keeps each owner's list exactly the protos it owns, each once |
| ProtoTheorems.MetaWriteEncodedAt | pallets/protos/src/lib.rs:579-600 | writing under a key's code is writing that key, and no other, of a string-keyed map |
| ProtoPromises.DetachedIsFrozen | pallets/protos/src/lib.rs:409-409 | over any run a detached stored proto never changes, and no proto goes or loses its origin or a patch |
| ProtoPromises.NoReferenceCycle | pallets/protos/src/lib.rs:301-308 | in every reachable state a walk along upload-time references repeats no proto and is no longer than their number |
| ProtoCycles.PatchClosesIff | pallets/protos/src/lib.rs:420-434 | an accepted patch closes a circle of references exactly if it has data and refers to its proto or to one leading back to it |
| ProtoCycles.PatchMayReferToItself | pallets/protos/src/lib.rs:420-434 | the owner of any attached proto can patch it with a reference to itself |
| ProtoCycles.StepKeepsAcyclicIff | pallets/protos/src/lib.rs:268-620 | every call keeps references, those of patches included, free of circles exactly unless it is such a patch |
| ProtoCycles.RunKeepsAcyclicIff | pallets/protos/src/lib.rs:268-620 | a run is free of circles at every point exactly if no accepted patch closes one |
| ProtoPromises.CodesAreForEver | pallets/protos/src/lib.rs:318-334 | over any run a code keeps standing for its string |
| ProtoPromises.SetMetadataIsMapUpdate | pallets/protos/src/lib.rs:579-600 | after a write that key of that proto reads back the data, every other reads as before |
| ProtoPromises.OnlySetMetadataWrites | pallets/protos/src/lib.rs:1030-1045 | no other call changes what a key of a stored proto reads as |
| ProtoQuery.FilterByStrings | pallets/protos/src/lib.rs:815-853 | filtering by tag codes is filtering by the tags last given as strings |
| ProtoQuery.UploadIsFound | pallets/protos/src/lib.rs:318-356 | an uploaded proto matches a query iff the arguments of its upload do, and all others match as before |
| ProtoQuery.PatchIsFound | pallets/protos/src/lib.rs:420-465 | a patched proto matches by its new cost and its new tags if given, else by its old ones; all others as before |
| ProtoQuery.GetProtos | pallets/protos/src/lib.rs:861-960 | the listing loops return the page of `Listing`, or its error |
| ProtoQuery.RefusedIffNeverHeld | pallets/protos/src/lib.rs:905-907 | after any run a query is refused exactly if it names an account that never held a proto |
| ProtoQuery.ListingIsExact | pallets/protos/src/lib.rs:908-953 | without an owner the list is exactly the matching protos, each once, in whatever order keys are yielded |
| ProtoQuery.OwnerListingIsExact | pallets/protos/src/lib.rs:866-907 | with an owner it is exactly that account's matching protos, each once |
| ProtoQuery.DescendingIsReverse | pallets/protos/src/lib.rs:872-950 | descending is ascending read backwards, errors included |
| ProtoStories.OwnerListingInOrder | pallets/protos/src/lib.rs:866-903 | after any run the listing of an owner is in the order its protos came to it, or descending |
| ProtoStories.ListingInOrder | pallets/protos/src/lib.rs:912-950 | and one without an owner goes category by category in key order, within each by upload, or all in reverse |
| ProtoQuery.PagesMakeTheListing | pallets/protos/src/lib.rs:955-959 | consecutive pages, each starting below 2^32, concatenate to the listing from its start, and enough of them to all of it |
| ProtoQuery.PagesRightIff | pallets/protos/src/lib.rs:955-959 | pages are right for every listing below 2^32 entries iff both numbers are, or what wraps makes no difference |
| StakePallets.Pallets.constructor | pallets/accounts/src/lib.rs:224-256 | all storage maps start empty |
| StakePallets.Pallets.Link | pallets/accounts/src/lib.rs:358-386 | ties the update in place to `Linked` |
| StakePallets.Pallets.UnlinkAccount | pallets/accounts/src/lib.rs:878-897 | ties it to `Unlinked` |
| StakePallets.Pallets.CheckUpdate | pallets/accounts/src/lib.rs:413-446 | passed exactly by an open event signed by its sender with a u128 amount, positive for a lock and zero for an unlock; each error exactly in its case |
| StakePallets.Pallets.CountVote | pallets/accounts/src/lib.rs:450-470 | enough iff this vote reaches the threshold; then the entry goes, otherwise it grows by one |
| StakePallets.Pallets.InternalLockUpdate | pallets/accounts/src/lib.rs:400-523 | ties it to `LockUpdated`; with links inverse to each other the forced unlink never fails |
| StakePallets.Pallets.StakeOn | pallets/protos/src/lib.rs:662-700 | ties it to `Staked` as written, the new usage dropped |
| StakePallets.Pallets.Unstake | pallets/protos/src/lib.rs:709-743 | ties it to `Unstaked` as written, the failing unwrap a panic |
| StakePallets.Pallets.OnFinalize | pallets/protos/src/lib.rs:751-763 | draining the lists of pending accounts equals dropping all their stakes and lists |
| StakeStories.LinkAnswers | pallets/accounts/src/lib.rs:361-375 | a link is made exactly with an address that signed for it, if neither side is linked; every error in its case |
| StakeStories.UnlinkAnswers | pallets/accounts/src/lib.rs:879-884 | and undone exactly by the account with the address it is linked to |
| StakeStories.UpdateAnswers | pallets/accounts/src/lib.rs:404-446 | a submission is accepted exactly for an open event signed by its sender with a fitting amount; every error in its case |
| StakeStories.StakeAnswers | pallets/protos/src/lib.rs:667-681 | a stake is accepted exactly on a stored proto within what usage leaves of a known lock; every error in its case |
| StakeStories.UnstakeAnswers | pallets/protos/src/lib.rs:711-729 | a stake is taken back exactly by its account after its lock-up, with a usage entry; every error in its case, and the panic |
| StakeStories.RunLinks | pallets/accounts/src/lib.rs:358-386 | after any run an account is linked to the address of its last accepted link, and that to it, unless it unlinked or the address unlocked since |
| StakeStories.RunLocks | pallets/accounts/src/lib.rs:512-517 | the lock of an address is the amount and block of its last event carried out |
| StakeStories.RunPends | pallets/accounts/src/lib.rs:886-891 | the accounts awaiting the end of the block are exactly those unlinked, or locked below their usage, in it |
| StakeStories.RunStakes | pallets/protos/src/lib.rs:662-763 | a stake is the last its account was accepted to make on that proto, unless taken back, or dropped at the end of a block in which the account was dismissed; calls of others do not touch it |
| StakeStories.UsageIsLinked | pallets/accounts/src/lib.rs:377-380 | as written the accounts with a usage entry are exactly the linked ones |
| StakeTheorems.RunKeepsInv | pallets/accounts/src/lib.rs:358-523 | every run keeps: link bijection, stakes listed, stakers known or pending, usage within the lock, locks within u128 |
| StakeTheorems.ForcedUnlinkNeverFails | pallets/accounts/src/lib.rs:503-506 | the unlink forced by an unlock cannot return an error |
| StakeTheorems.UpdateKeepsInv | pallets/accounts/src/lib.rs:400-523 | a lock update keeps all of it, and fails only by its checks |
| StakeTheorems.UnlinkKeepsInv | pallets/accounts/src/lib.rs:878-897 | unlinking keeps all of it |
| StakeTheorems.StakeNeverUnderflows | pallets/protos/src/lib.rs:673-683 | the subtraction in `stake` never wraps |
| VoteTheorems.VotesCountSubmissions | pallets/accounts/src/lib.rs:450-520 | over any interleaving votes are the accepted submissions while below T, the T-th carries out, none is accepted after |
| VoteTheorems.CarryingOut | pallets/accounts/src/lib.rs:472-520 | carrying out sets the sender's lock to the amount, closes the event, and touches no stake |
| VoteTheorems.EffectFrame | pallets/accounts/src/lib.rs:477-510 | the effect never fails; a lock touches no link, and after an unlock the sender has none |
| StakePromises.StakersAreLinked | pallets/protos/src/lib.rs:751-763 | after the end of any block every stake belongs to a linked account with a usage entry |
| StakePromises.UnstakePanicsIff | pallets/protos/src/lib.rs:727-729 | the unwrap fails iff a matured stake belongs to an account without usage entry, which is then pending unlink |
| StakePromises.UnlinkThenUnstakePanics | pallets/accounts/src/lib.rs:886-891 | unlinking and unstaking a matured stake in one block always gets there |
| StakePromises.UnlinkUndoesLink | pallets/accounts/src/lib.rs:878-897 | unlinking what was just linked restores all storage but the pending clean-up |
| StakePromises.UnstakeUndoesStake | pallets/protos/src/lib.rs:709-743 | unstaking a first stake after its lock-up restores stakes, list and usage, as written and as intended |
| StakePromises.UsageStaysZero | pallets/protos/src/lib.rs:687-690 | as written every usage is zero after any run |
| StakePromises.NeverSlashed | pallets/accounts/src/lib.rs:482-493 | as written a lock update never slashes, after any run |
| StakeRuns.OverStakingReached | pallets/protos/src/lib.rs:673-694 | as written a run from empty storage leaves an account with n times its lock staked, for any n |
| StakeRuns.StakingReachableIff | primitives/clamor/src/lib.rs:183-191 | a run that can be signed holds a stake iff an account and its derived account can sign and the derived one can link and lock |
| StakeRuns.StakeRefused | pallets/protos/src/lib.rs:667-679 | without that every `stake` that can be signed is refused, after any run |
| StakeRuns.PanicReachableIff | pallets/protos/src/lib.rs:727-729 | calls that can be signed, the panicking `unstake` included, reach the panic under exactly the same condition |
| StakeBudget.RunCovers | pallets/protos/src/lib.rs:673-694 | as intended usage covers the sum of an account's stakes, after any run |
| StakeBudget.StakesWithinLock | pallets/protos/src/lib.rs:673-683 | as intended stakes add up to no more than the lock at every block's end |
| StakeBudget.StepKeepsBudgetIff | pallets/protos/src/lib.rs:673-694 | a step, as written or intended, keeps stakes within locks exactly unless it is a stake, a lock or a link that overdraws |
| StakeBudget.RunKeepsBudgetIff | pallets/protos/src/lib.rs:687-690 | a run keeps them so at every point exactly if no step overdraws |
| StakeBudget.StakeBudgetIff | pallets/protos/src/lib.rs:673-694 | an accepted stake stays within the lock iff it fits beside the account's other stakes |
| StakeBudget.LockBudgetIff | pallets/accounts/src/lib.rs:477-517 | a completed update does iff it is no lock of less than is staked |
| Messages.PayloadRoundTrip | pallets/detach/src/lib.rs:516-527 | a payload has 92 bytes and decodes to hash, chain, account and nonce |
| Messages.PayloadLayout | pallets/detach/src/lib.rs:516-527 | its bytes are the hash, the chain number 1, 4 or 5 in 32, the account, and the nonce in 8 |
| Messages.OnlyPayloadsDecode | pallets/detach/src/lib.rs:516-527 | whatever decodes is the payload of what it decodes to |
| Messages.EncodeThenDecode | pallets/detach/src/lib.rs:634-662 | fixed-width big-endian loses nothing of a number that fits |
| Messages.DecodeThenEncode | pallets/detach/src/lib.rs:634-662 | and every byte string is the encoding of exactly the number it reads as |
| Messages.MostSignificantFirst | pallets/detach/src/lib.rs:634-662 | the most significant byte comes first |
| Messages.LockRoundTrip | pallets/accounts/src/lib.rs:419-423 | a lock message has 68 bytes, an unlock message 70, and either decodes to its parts |
| Messages.LockLayout | pallets/accounts/src/lib.rs:419-423 | its bytes are FragLock or FragUnlock, the sender, the chain id in 8 and the amount in 32 |
| Messages.OnlyLocksDecode | pallets/accounts/src/lib.rs:419-423 | whatever decodes is the message of what it decodes to |
| Messages.WrappedIsEip191 | pallets/detach/src/lib.rs:616-632 | what is hashed for signing is version 0x45 (E) of EIP-191 for the 32-byte hash, 60 bytes long |
| Messages.LinkRoundTrip | pallets/accounts/src/lib.rs:361-364 | a link message has 52 bytes and decodes to chain and account |
| Messages.LinkLayout | pallets/accounts/src/lib.rs:361-364 | its bytes are EVM2Fragnova, the chain id in 8 and the account |
| Messages.OnlyLinksDecode | pallets/accounts/src/lib.rs:361-364 | whatever decodes is the message of what it decodes to |
| Messages.KindsNeverCoincide | pallets/accounts/src/lib.rs:361-427 | payloads, link, lock and unlock messages and wrapped hashes never coincide |
| DetachPallet.Pallet.constructor | pallets/detach/src/lib.rs:162-175 | all storage starts empty |
| DetachPallet.AddChainIdToPayload | pallets/detach/src/lib.rs:652-663 | extends the buffer by the chain id in 32 bytes |
| DetachPallet.AddTargetAccountToPayload | pallets/detach/src/lib.rs:671-675 | extends it by the 20 bytes of the account |
| DetachPallet.Pallet.AddNonceToPayload | pallets/detach/src/lib.rs:634-651 | extends it by one more than the stored nonce, or by 1, in 8 bytes |
| DetachPallet.Pallet.BuildPayload | pallets/detach/src/lib.rs:514-527 | what the builders assemble decodes to the request's hash, chain and account and the next nonce |
| DetachPallet.LockMessageOf | pallets/accounts/src/lib.rs:419-423 | what is appended decodes to the lock, sender, chain and amount given |
| DetachPallet.LinkMessageOf | pallets/accounts/src/lib.rs:361-364 | what is appended decodes to the chain and account given |
| DetachPallet.Pallet.ProcessDetachRequests | pallets/detach/src/lib.rs:459-597 | sends what `Processed` says and empties the queue iff the whole batch was worked off |
| DetachPallet.Pallet.InternalFinalizeDetach | pallets/detach/src/lib.rs:291-320 | writes the nonce of account and chain and the export of the hash, nothing else |
| DetachPallet.Pallet.Detach | pallets/protos/src/lib.rs:627-654 | ties it to `Requested`: only the owner asks, and only while the proto is attached |
| DetachDesk.RequestAnswers | pallets/protos/src/lib.rs:627-652 | a request is queued, last, exactly from the owner of an attached proto; every error in its case |
| DetachRuns.RunRemembers | pallets/detach/src/lib.rs:291-334 | after any run the requests waiting are those accepted in this block, in order; the queue is that of the last block that had any unless a worker got through it; nonces and exports are those last finalised |
| DetachRuns.RunKeepsInv | pallets/detach/src/lib.rs:327-334 | over any run the batch off chain is that of the last block with requests or worked off; announced was requested, detached was announced |
| DetachRuns.DetachedWasAsked | pallets/detach/src/lib.rs:291-320 | a proto is detached only after its owner asked while it was attached, to the chain and the 20-byte account asked for |
| DetachRuns.ForgottenIff | pallets/detach/src/lib.rs:327-334 | at a block's end a request of the batch off chain is forgotten exactly if other requests were made in that block |
| DetachRuns.ForgottenForGood | pallets/detach/src/lib.rs:327-334 | a request neither waiting nor in the batch off chain is never announced unless made again |
| DetachRuns.BatchIsLost | pallets/detach/src/lib.rs:327-334 | two blocks with a request each and no worker in between: the first, accepted, is never announced whatever follows |
| DetachRuns.ExportableIff | pallets/detach/src/lib.rs:291-320 | after any run a proto can be exported n more times, for any n > 0, exactly if a detachment of it was announced; so every detached proto can |
| DetachRuns.FirstOwnerMayGetIt | pallets/detach/src/lib.rs:291-320 | a request outlives a transfer: the proto may be exported twice, in the end to the account its first owner named |
| DetachDesk.WorkedOffIff | pallets/detach/src/lib.rs:520-522 | a batch is worked off iff there is no key or each request has a 20-byte account and a nonce left |
| DetachDesk.NothingSentPast | pallets/detach/src/lib.rs:520-522 | nothing past an unserviceable request is ever sent; the first gives up the batch for its account, or panics for its nonce |
| DetachDesk.AnnouncementsAreGenuine | pallets/detach/src/lib.rs:514-576 | each announcement is of a request in the batch, with the stored nonce plus one or 1; its signature is the raw one of the EIP-191 message of the hash of a payload that decodes to its fields, with 27 added to the last byte in u8 |
| DetachDesk.EveryRequestAnnounced | pallets/detach/src/lib.rs:466-590 | a batch worked off yields one announcement for each request that can be signed, in order, and none for the others or without a key |
| DetachDesk.NoPayloadTwice | pallets/detach/src/lib.rs:634-651 | as long as no nonce is set back, no payload finalised is signed again |
| DetachDesk.PayloadRepeatsIff | pallets/detach/src/lib.rs:634-651 | the payload of a finalised detach is next for a request iff it is the same request and the nonce stored is one below |
| DetachRuns.PayloadRepeats | pallets/detach/src/lib.rs:298-299 | a run from the start leads to a request in the queue whose next payload is one already finalised |

## Left out

- `sync_partner_contract`, HTTP, JSON-RPC, offchain storage handles and the keystore: input and output. The off-chain queue is kept as a value.
- Cryptography: keccak, blake2, ECDSA and ed25519 are functions without properties; base58 content ids are not modelled.
- Balances, assets and proxy pallets: `buy` moves a balance, and sees a minimum and whether the transfer is allowed; reserved and locked parts of a balance are not told apart. `create` sees whether the deposit is reserved.
- `validate_unsigned`, key and authority sets, `sponsor_account`, `create_account`: single checks.
- Detach nonces across batches: all requests of a batch read the same stored nonce and finalising writes it absolutely, so the code does not make them grow; DetachDesk.PayloadRepeatsIff says what follows. Which unsigned transactions validators accept is not modelled beyond this: only what a worker announced is finalised.
- DetachPallet.LockMessageOf: stands beside the detach builders because it extends the same kind of buffer; the vote protocol takes the recovered signer as a function of the event, not of these bytes.
- The JSON a listing is rendered to (`pallets/protos/src/lib.rs:962-1057`), apart from the lookup of metadata by key.
- `accounts_info` of a proto, events, logs, weights, transaction indexing, runtime wiring, node, RPC, mocks and benchmarks.
- Names of tags, metadata keys and categories are compared only; the order of `ProtosByCategory` keys is any order without repetition.
- StakePallets.Pallets.InternalLockUpdate: requires the link maps to be inverse, which StakeTheorems.RunKeepsInv proves of every reachable state.
- StakePallets.Pallets.OnFinalize: requires stakes to be listed exactly, which StakeTheorems.RunKeepsInv proves of every reachable state.
- FragmentsPallet.Pallet.OnFinalize: requires that the order given names every account with an entry in `Owners`, as iterating over storage does.
