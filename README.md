# MagnaChain branch-chain checks and mining RPCs in Dafny

This project models two files of the MagnaChain node:

- `src/chain/branchchain.cpp`, the glue between the main chain and its branch chains;
- `src/mining/mining.cpp`, the mining RPCs (`generate`, `getblocktemplate`, `submitblock`,
  `estimatefee`, `getnetworkhashps`).

The model covers these parts of `branchchain.cpp`:

- the script-shape parsers for mortgage, coin and redeem scripts;
- the output aggregators that sum the value sent to a branch, to a mortgage or to a contract;
- `RevertTransaction`, which rebuilds the original of a transaction a branch chain recorded;
- the SPV helpers `NewSpvProof` and `CheckSpvProof`;
- the value, height and duplicate rules inside the `Check*` functions;
- the RPC configuration table of `CellBranchChainMan`.

From `mining.cpp` it models:

- the `conf_target` check and the `estimatefee` clamp;
- the integer part of `GetNetworkHashPS`;
- the coin priority order `CoinsComparer`;
- the try/erase loop of `generateBlocks` and the block-count split of `generateblockcommon`;
- the BIP 22 result strings and the BIP 9 rule names;
- the `transactions` entries, the version-bit adjustment, the long-poll id and the size limits of
  `getblocktemplate`;
- the outcome mapping of `submitblock`.

## How the model is built

The parts of the source that compute values are Dafny functions. Each is paired with lemmas that
state what the source promises about it: round trips, bounds, if-and-only-if conditions and
idempotence.

The parts that walk a vector and accumulate into locals are methods with loops. Each method is
proved equal to one of those functions. Examples are the output aggregators, `RevertTransaction`'s
in-place erases, the prove-data sums, the `depends` collection and the version-bit loop.

`CellBranchChainMan` updates its `mapRpcConfig` in place, so it is a class. Its `mapRpcConfig` is
a `map` field that its methods reassign.

Calls whose bodies lie outside these two files are fields of oracle datatypes of functions:

- in `branchchain.cpp`, the `Env` datatype in `transaction.dfy` holds hashes, signature checks,
  contract-script tests and `ExtractMatches`;
- in `mining.cpp`, `MinerWorld` in `generate.dfy` holds `BlockAssembler`, `SignBlock`,
  `ProcessNewBlock`, the keypool and `ShutdownRequested`.

Amounts are unbounded integers. `MoneyRange` and `MAX_MONEY` are written out.

A script is a sequence of ops: an opcode, a push of bytes or a small integer. Reading past the end
yields `OP_INVALIDOPCODE`, as `GetOp` leaves it. Version bits are `bv32`.

Modules, one per file:

- `Hex`: hexadecimal and decimal text;
- `Scripts`: ops and the script parsers;
- `Transactions`: transactions, `SumSelected` and verdicts;
- `Outputs`: the output aggregators;
- `Revert`: `RevertTransaction`;
- `Spv`: the SPV helpers;
- `BranchChecks`: the branch-transaction, report and duplicate checks;
- `Prove`: the prove-data checks;
- `RpcConfigs`: the RPC configuration table;
- `MiningRpc`: parameter checks and the hash-rate window;
- `Generate`: `generateBlocks` and `generateblockcommon`;
- `VersionBits`: bit masks;
- `BlockTemplate`: `getblocktemplate` and `submitblock`;
- `Wrappers`: `Option` and `Result`.

The checks follow the code as written, including where it departs from what its own comments
intend. In the input signature test, `checkok` starts out true (`src/chain/branchchain.cpp:1285`)
and only the contract-call branch can make it false, although the comment at `:1287` waives the
signature only for contract coin transfers; so the code accepts a prove transaction whose input
signature fails (the first finding below). The input, transaction
and coinbase prove checks (`Prove.CheckProveInput` up to `Prove.CheckProveCoinbaseTx`) therefore
use the signature rule as written; the intended rule sits beside them as
`Prove.SignatureAccepted`, `Prove.CheckInputSignature` and `Prove.InputProvedIntended`. The
report-reward stage test is reversed (the second finding): `BranchChecks.CheckReportRewardTransaction`
keeps it as written, and `BranchChecks.CheckReportRewardIntended` is the corrected twin. The
mortgage-script parsers do not compare the three opcodes in the middle of the script
(`src/chain/branchchain.cpp:558-560` and `:600-602`). They only require that three more ops exist.
`Scripts.MiddleOpcodesIgnored` states this.

## Model

| member | source | states |
|---|---|---|
| Hex.HexValue | src/chain/branchchain.cpp:387-391 | a character is a hex digit exactly when it has a value below 16, and the digit of that value is the character itself |
| Hex.HashHex | src/chain/branchchain.cpp:387-391 | the hex text of a hash has two characters per byte |
| Hex.ParseHashHex | src/mining/mining.cpp:840 | parsing hex text yields at most one byte per two characters |
| Hex.ByteHexRoundTrip | src/chain/branchchain.cpp:387-391 | the two hex characters of a byte parse back to that byte |
| Hex.HashHexRoundTrip | src/mining/mining.cpp:840 | the hex text of any hash parses back to the same hash |
| Hex.HashHexInjective | src/chain/branchchain.cpp:387-391 | two hashes with the same hex text are the same hash, so the branch-id string compare identifies one branch |
| Hex.HashHexDigits | src/chain/branchchain.cpp:387-391 | every character of a hash's hex text is a hex digit |
| Hex.NatDigits | src/mining/mining.cpp:1064 | the decimal text of a number is non-empty and made only of digits |
| Hex.DecimalString | src/mining/mining.cpp:1064 | the decimal text of any integer is non-empty |
| Hex.NatDigitsValue | src/mining/mining.cpp:841 | reading the decimal text of a natural number back gives that number |
| Hex.DecimalRoundTrip | src/mining/mining.cpp:841 | `atoi64` of the decimal text written by `i64tostr` gives back the number, negative numbers included |
| Hex.DigitRunStops | src/mining/mining.cpp:841 | reading digits stops at the first non-digit, so anything after it is ignored |
| Scripts.OpAt | src/chain/branchchain.cpp:463-479 | reading op `i` gives that op, or `OP_INVALIDOPCODE` past the end of the script |
| Scripts.DataAt | src/chain/branchchain.cpp:549-556 | push data is non-empty only for a push op inside the script |
| Scripts.ScriptInt | src/chain/branchchain.cpp:549-556 | a small-integer op reads as its value, a plain opcode fails, and a push reads only when it is at most the script-number size |
| Scripts.MagnitudeBytes | src/chain/branchchain.cpp:549-556 | the little-endian bytes of a magnitude are empty only for zero and never end in a zero byte |
| Scripts.EncodeScriptNum | src/chain/branchchain.cpp:549-556 | a script number encodes to no bytes exactly when it is zero |
| Scripts.MagnitudeValue | src/chain/branchchain.cpp:549-556 | the little-endian value of a magnitude's bytes is the magnitude |
| Scripts.ScriptNumRoundTrip | src/chain/branchchain.cpp:549-556 | decoding the minimal script-number encoding of any integer gives it back, sign byte and sign bit included |
| Scripts.QuickGetBranchScriptType | src/chain/branchchain.cpp:463-479 | the type is mortgage-mine exactly when the first op is `OP_MINE_BRANCH_MORTGAGE`, and mortgage-coin exactly when it is `OP_MINE_BRANCH_COIN` |
| Scripts.ParseMortgage | src/chain/branchchain.cpp:533-569 | parsing succeeds exactly when the script has the mortgage layout; the hash is the 32-byte push at op 1, the key id the push at op 6, and the height the number at op 2 when asked for |
| Scripts.GetMortgageMineData | src/chain/branchchain.cpp:533-569 | a mine-mortgage script is recognised exactly when it has the layout led by `OP_MINE_BRANCH_MORTGAGE`, and its parts are read from their fixed places |
| Scripts.GetMortgageCoinData | src/chain/branchchain.cpp:575-611 | a mortgage-coin script is recognised exactly when it has the layout led by `OP_MINE_BRANCH_COIN`, and its parts are read from their fixed places |
| Scripts.GetRedeemScriptData | src/chain/branchchain.cpp:613-629 | a redeem script is recognised exactly when it begins `OP_RETURN OP_REDEEM_MORTGAGE` and has a third op, whose push data is the result |
| Scripts.MortgageRoundTrip | src/chain/branchchain.cpp:533-569 | a mortgage script built from a hash, height and key id parses back to exactly those |
| Scripts.MiddleOpcodesIgnored | src/chain/branchchain.cpp:558-560 | any three ops at positions 3 to 5 are accepted; they are never compared |
| Scripts.ParseIgnoresTail | src/chain/branchchain.cpp:533-569 | ops after the seventh do not change the parse |
| Scripts.ParsersAgreeWithScriptType | src/chain/branchchain.cpp:463-479 | a script the mine parser accepts is classed mortgage-mine, one the coin parser accepts mortgage-coin, and no script is both |
| Transactions.MainIsNotAHash | src/chain/branchchain.cpp:386-391 | the main chain's id is never the hex text of a hash, so the branch and main cases cannot overlap |
| Transactions.SumSelectedAppend | src/chain/branchchain.cpp:359-368 | summing selected outputs over two vectors is the sum of the two sums |
| Transactions.SumSelectedMonotone | src/chain/branchchain.cpp:359-368 | with non-negative values, a sum over fewer selected outputs is smaller and non-negative |
| Transactions.SumSelectedDisjoint | src/chain/branchchain.cpp:410-434 | the sum over a union of two disjoint selections is the sum of the two sums |
| Transactions.SumSelectedExtremes | src/chain/branchchain.cpp:359-368 | selecting nothing sums to zero, and selecting everything sums to the value out |
| Outputs.GetBranchChainCreateTxOut | src/chain/branchchain.cpp:353-371 | zero unless the tx creates a branch; otherwise the total of its outputs that begin `OP_CREATE_BRANCH` |
| Outputs.GetBranchChainTransOut | src/chain/branchchain.cpp:373-407 | the total of the step-1 transfer outputs that go to `sendToBranchid` (or to main when that is `MAIN`); zero for any other tx |
| Outputs.GetMortgageMineOut | src/chain/branchchain.cpp:410-434 | the total of a mortgage tx's mine-mortgage outputs, plus its branch-transfer outputs when asked |
| Outputs.GetMortgageCoinOut | src/chain/branchchain.cpp:437-461 | the total of a mortgage tx's mortgage-coin outputs, plus its transfer-to-main outputs when asked; an empty script counts as nothing |
| Outputs.GetContractAmountOut | src/chain/branchchain.cpp:645-661 | the total of the outputs whose script begins `OP_CONTRACT` |
| Outputs.GetBranchChainOut | src/chain/branchchain.cpp:631-643 | the transfer total for a step-1 tx, the mortgage total with branch outputs for a mortgage tx, and zero otherwise |
| Outputs.TransTotalBounded | src/chain/branchchain.cpp:373-407 | with non-negative output values, the transfer total lies between zero and the tx's value out |
| Outputs.TransTotalExtremes | src/chain/branchchain.cpp:373-407 | when every output is a transfer the total is the whole value out, and when none is it is zero |
| Outputs.MortgageMineIsUnion | src/chain/branchchain.cpp:410-434 | with branch outputs counted, the mine total is the mortgage outputs' sum plus the branch outputs' sum |
| Outputs.MortgageCoinIsUnion | src/chain/branchchain.cpp:437-461 | with main outputs counted, the coin total is the coin outputs' sum plus the to-main outputs' sum |
| Outputs.BranchChainOutBounded | src/chain/branchchain.cpp:631-643 | the amount a tx sends out of its chain is zero unless it is a transfer or a mortgage, and never exceeds its value out |
| Revert.Without | src/chain/branchchain.cpp:481-527 | erasing never lengthens a vector |
| Revert.EraseWhere | src/chain/branchchain.cpp:496-524 | the in-place erase loop leaves exactly the elements not dropped, in order |
| Revert.RevertTransaction | src/chain/branchchain.cpp:481-527 | the rebuilt transaction is the reverted form of the recorded one |
| Revert.WithoutKeeps | src/chain/branchchain.cpp:496-524 | an element survives the erase exactly when it was present and not dropped |
| Revert.WithoutIdempotent | src/chain/branchchain.cpp:496-524 | erasing twice is erasing once, and erasing from a vector with nothing to drop changes nothing |
| Revert.SumWithout | src/chain/branchchain.cpp:496-510 | a sum over the kept outputs is the sum over the outputs selected and not dropped |
| Revert.ValueOutWithout | src/chain/branchchain.cpp:496-510 | the value out after the erase is the old value out minus the value of the dropped outputs |
| Revert.RevertKeepsIdentity | src/chain/branchchain.cpp:481-527 | reverting touches only the inputs, the outputs, `fromTx` and the SPV proof |
| Revert.RevertStep2FromBranch | src/chain/branchchain.cpp:496-510 | the shallow revert of a step-2 tx from a branch gives it the single null input and exactly its outputs that are not branch recharge, lowering the value out by their total, and keeps its SPV proof and step-1 copy |
| Revert.RevertStep2Deep | src/chain/branchchain.cpp:484-493 | the deep revert of a step-2 tx drops its step-1 copy, clears only the first output's script when the step-1 tx is a mortgage, empties the SPV proof exactly when it comes from a branch, and then reverts as the shallow revert does |
| Revert.RevertSmartContract | src/chain/branchchain.cpp:511-524 | a contract tx loses exactly its contract inputs and its contract-change outputs |
| Revert.RevertIdempotent | src/chain/branchchain.cpp:481-527 | reverting an already reverted transaction changes nothing |
| Revert.RevertOthersUnchanged | src/chain/branchchain.cpp:481-527 | a tx that is neither a step-2 transfer from a branch nor a contract tx, reverted shallowly, is unchanged |
| Spv.NewSpvProof | src/chain/branchchain.cpp:664-683 | one hash and one match flag per tx in block order, the flag set exactly when the tx hash is wanted, and the given block hash |
| Spv.MatchedHashes | src/chain/branchchain.cpp:685-696 | the matched hashes in the order they were extracted |
| Spv.CheckSpvProof | src/chain/branchchain.cpp:685-696 | the result is a position or -1 |
| Spv.CheckSpvProofAccepts | src/chain/branchchain.cpp:685-696 | a position is returned exactly when the extracted root is the expected one and the queried hash is the only match, and then that match is at the returned position |
| Spv.SpvRoundTrip | src/chain/branchchain.cpp:664-696 | the proof built for one tx of a block with distinct tx hashes is accepted and gives that tx's position |
| BranchChecks.ComputeOriginalOut | src/chain/branchchain.cpp:857-865 | the step-2 output total with the branch-recharge outputs left out when the tx comes from a branch |
| BranchChecks.OriginalOutBounded | src/chain/branchchain.cpp:857-865 | that total lies between zero and the value out, and is the value out when no output is a recharge |
| BranchChecks.CheckBranchTransaction | src/chain/branchchain.cpp:791-871 | accepted exactly when the mortgage link, the amount equality, the money range and the output bound hold; a wrong amount is rejected with ban score 100 |
| BranchChecks.LocallyValidConservesValue | src/chain/branchchain.cpp:852-870 | an accepted step-2 tx from a branch pays out no more than the source tx sent, and that is within `MAX_MONEY` |
| BranchChecks.CheckReportTxCommonly | src/chain/branchchain.cpp:1182-1192 | a report is accepted or rejected, never failed, and a rejection carries no ban score |
| BranchChecks.ReportWindow | src/chain/branchchain.cpp:1182-1192 | a report is accepted exactly when the reported block is known and the branch height lies between its height and that plus the redeem-safe height |
| BranchChecks.ReportWindowCloses | src/chain/branchchain.cpp:1189 | once the branch grows past the window, the same report is rejected as too old |
| BranchChecks.CheckBranchDuplicateTx | src/chain/branchchain.cpp:1136-1180 | the duplicate check accepts or rejects, never fails |
| BranchChecks.DuplicateRules | src/chain/branchchain.cpp:1136-1180 | per tx kind, a duplicate is exactly one found in the cache or the database (a header already included, a repeated step 2, a report already flagged, a proof already proved), with no ban score |
| BranchChecks.ReportedIsNotProved | src/chain/branchchain.cpp:1136-1180 | a proof of a report that is only flagged reported is not a duplicate |
| BranchChecks.Half | src/chain/branchchain.cpp:1617 | C++ division by two truncates toward zero |
| BranchChecks.RewardSplit | src/chain/branchchain.cpp:1617 | the reporter's and the prover's shares add up to the input value, and differ by at most one |
| BranchChecks.AsWrittenNeverLeavesProveStage | src/chain/branchchain.cpp:1586 | as written, any reward at or after its report still counts as in the prove stage |
| BranchChecks.AsWrittenRejectsLateReward | src/chain/branchchain.cpp:1586 | as written, a reward 100 blocks after its report with a 10-block window is refused, though the window has closed |
| BranchChecks.ProveStageEnds | src/chain/branchchain.cpp:1586 | with the comparison corrected, the prove stage lasts exactly `REPORT_OUTOF_HEIGHT` blocks after the report |
| BranchChecks.CheckReportRewardTransaction | src/chain/branchchain.cpp:1563-1625 | the reward check as written: every rejection bans with score 100, a tx of another kind fails, and a branch chain refuses every reward |
| BranchChecks.CheckReportRewardIntended | src/chain/branchchain.cpp:1563-1625 | the same check with the stage comparison corrected, with the same ban score and kind rules |
| BranchChecks.RewardAccepted | src/chain/branchchain.cpp:1563-1625 | as written, a reward is accepted exactly when it names a report in the active chain whose block lies at least `REPORT_OUTOF_HEIGHT` blocks ABOVE the checked block, pays the reporter's script at least half the stake, spends the stake's mortgage coin, and its reported block is still flagged reported |
| BranchChecks.AsWrittenRewardNeverAccepted | src/chain/branchchain.cpp:1586 | as written, with a positive `REPORT_OUTOF_HEIGHT`, no reward in a block at or above its report's block is ever accepted |
| BranchChecks.RewardAcceptedIntended | src/chain/branchchain.cpp:1563-1625 | with the corrected test, a reward is accepted exactly when it meets the same terms and comes at least `REPORT_OUTOF_HEIGHT` blocks after its report |
| Prove.CheckInputSignatureAsWritten | src/chain/branchchain.cpp:1284-1299 | the signature test as written, accepted exactly when its as-written acceptance condition holds |
| Prove.CheckInputSignature | src/chain/branchchain.cpp:1284-1299 | the corrected signature test: accepted exactly when the input is signed, or a contract call spends its own contract's coins |
| Prove.AsWrittenAcceptsBadSignature | src/chain/branchchain.cpp:1285-1298 | as written, an unsigned input of a tx that is not a contract call is accepted, which the corrected test refuses |
| Prove.SignatureAcceptedMeansSigned | src/chain/branchchain.cpp:1284-1299 | the corrected test accepts only signed inputs, except contract calls spending their own contract, and accepts nothing the as-written test refuses |
| Prove.IntendedInputRule | src/chain/branchchain.cpp:1245-1299 | the intended input check accepts only inputs the code accepts, and only signed ones outside contract calls; an unsigned input of another tx that the code accepts is refused by it |
| Prove.Spent | src/chain/branchchain.cpp:1245-1300 | one spent output per input checked |
| Prove.InputUnprovedBlocks | src/chain/branchchain.cpp:1245-1300 | one failed input makes the whole prefix unproved |
| Prove.InputsProvedUpToMeans | src/chain/branchchain.cpp:1245-1300 | a prefix of inputs is proved exactly when each of its inputs is |
| Prove.CheckProveInput | src/chain/branchchain.cpp:1247-1299 | one input is accepted exactly when its prove data, SPV proof, spent output and contract inpoint check and the signature test passes as written (a failed signature is forgiven outside contract calls) |
| Prove.SumProveOutputs | src/chain/branchchain.cpp:1303-1324 | accepted exactly when every output is in money range; then it returns the value out and the contract-change total |
| Prove.ProveOutputStep | src/chain/branchchain.cpp:1303-1324 | one output is refused when negative, too large, pushing the total out of range, or contract change to another contract; otherwise the running totals grow by it |
| Prove.SumProveInputs | src/chain/branchchain.cpp:1245-1300 | accepted exactly when every input passes the input check as written; then it returns the spent total and the contract-input total |
| Prove.ProveInputStep | src/chain/branchchain.cpp:1245-1300 | one input that fails the check leaves the transaction unproved; one that passes extends the proved prefix and adds its spent output to the totals |
| Prove.CheckTransactionProveWithProveData | src/chain/branchchain.cpp:1230-1333 | accepted exactly when the tx is no coinbase, the item count matches, every input passes as written, every output is in range, the contract totals match and the inputs cover the outputs; then the fee is inputs minus outputs and non-negative |
| Prove.GroupsProvedUpToMeans | src/chain/branchchain.cpp:1452-1467 | a prefix of proof groups is proved exactly when each group is |
| Prove.GroupUnprovedBlocks | src/chain/branchchain.cpp:1452-1467 | one failed group makes the whole block unproved |
| Prove.TotalFeeNonNegative | src/chain/branchchain.cpp:1457-1467 | the fees of proved groups sum to a non-negative total |
| Prove.GroupFeeNonNegative | src/chain/branchchain.cpp:1327-1328 | a proved transaction's inputs cover its outputs, so its fee is not negative |
| Prove.SumBlockFees | src/chain/branchchain.cpp:1452-1467 | accepted exactly when every tx after the first two passes the transaction check as written; then it returns their fee total |
| Prove.CheckProveCoinbaseTx | src/chain/branchchain.cpp:1410-1475 | accepted exactly when the block is a known branch block whose merkle root matches, it has at least two txs, one proof group per tx after the first two, every group passes the check as written, and the coinbase pays out exactly their fees |
| Prove.ProvedCoinbaseIsFeesOnly | src/chain/branchchain.cpp:1470 | the coinbase of a proved branch block, which pays exactly the fees, never pays a negative amount |
| RpcConfigs.Reset | src/chain/branchchain.cpp:243-250 | a reset configuration has empty address, port, user, password and wallet |
| RpcConfigs.ResetIsInvalid | src/chain/branchchain.cpp:252-257 | a reset configuration is never valid |
| RpcConfigs.ParseRpcConfig | src/chain/branchchain.cpp:292-329 | a parsed configuration has a non-zero port that fits in 32 bits |
| RpcConfigs.ParseRpcConfigRoundTrip | src/chain/branchchain.cpp:292-329 | the JSON written from a valid configuration parses back to that configuration and branch id |
| RpcConfigs.ParseNeedsIpAndPort | src/chain/branchchain.cpp:292-329 | JSON without an address or a port never parses |
| RpcConfigs.RegisterBranchesKeepsValid | src/chain/branchchain.cpp:280-289 | registering branch configurations keeps every stored configuration valid and drops no name |
| RpcConfigs.InitKeepsValid | src/chain/branchchain.cpp:267-290 | initialisation keeps every stored configuration valid and drops no name |
| RpcConfigs.RegisterBranchesKeepsOthers | src/chain/branchchain.cpp:280-289 | a name that no configuration file registers keeps its stored configuration |
| RpcConfigs.ReplaceThenGet | src/chain/branchchain.cpp:331-351 | after a replace, the name maps to the new configuration and every other name is unchanged |
| RpcConfigs.BranchChainMan.constructor | src/chain/branchchain.cpp:261-262 | a new manager has an empty configuration table |
| RpcConfigs.BranchChainMan.Init | src/chain/branchchain.cpp:267-290 | the new table and the thrown flag are those of reading the main and branch configuration files into the old table |
| RpcConfigs.BranchChainMan.GetRpcConfig | src/chain/branchchain.cpp:331-339 | found exactly when the name is in the table, and then the stored configuration |
| RpcConfigs.BranchChainMan.CheckRpcConfig | src/chain/branchchain.cpp:341-346 | true exactly when the port is non-zero, so every valid configuration passes |
| RpcConfigs.BranchChainMan.ReplaceRpcConfig | src/chain/branchchain.cpp:348-351 | the table with that one name mapped to the new configuration |
| MiningRpc.ParseConfirmTarget | src/mining/mining.cpp:42-50 | a returned target is the integer given; a failure on a 32-bit integer is an invalid parameter |
| MiningRpc.ConfirmTargetRange | src/mining/mining.cpp:42-50 | a target is returned exactly when the value is an integer between 1 and the maximum target |
| MiningRpc.ConfirmTargetOutOfRange | src/mining/mining.cpp:47-48 | an integer outside that range gives `RPC_INVALID_PARAMETER` with the message naming the range 1 to the maximum target |
| MiningRpc.GetIntError | src/mining/mining.cpp:44 | where `get_int` has no value it throws a general error, "JSON integer out of range" exactly for a number |
| MiningRpc.ConfirmTargetBeyondInt32 | src/mining/mining.cpp:44 | a number beyond 32 bits fails in `get_int` with "JSON integer out of range", before the range test |
| MiningRpc.ClampBlocks | src/mining/mining.cpp:1206-1208 | a count of 1 or more is kept and a count below 1 becomes exactly 1 |
| MiningRpc.ClampBlocksSettles | src/mining/mining.cpp:1206-1208 | clamping twice is clamping once, and every count below 1 clamps to the same value |
| MiningRpc.StartBlock | src/mining/mining.cpp:58-64 | the start block lies in the chain, exists whenever the chain is non-empty, and is the height asked for unless it is the tip |
| MiningRpc.NormaliseLookup | src/mining/mining.cpp:67-72 | the window is between 1 and the start height; a lookup in range is kept, a larger one is capped, and a non-positive one means the blocks since the last difficulty change |
| MiningRpc.SinceLastRetarget | src/mining/mining.cpp:67-72 | a non-positive lookup starts the window one block before the last retarget, or at genesis before the first |
| MiningRpc.SeqMinMax | src/mining/mining.cpp:74-82 | the minimum and maximum of the window's times bound every time in it and are times in it |
| MiningRpc.FlatWindow | src/mining/mining.cpp:85-86 | the minimum equals the maximum exactly when all times in the window are equal |
| MiningRpc.RateWindowZero | src/mining/mining.cpp:57-86 | no rate is reported exactly when the chain is empty, the start block is genesis, or every time in the window is the same |
| MiningRpc.RateWindowBounds | src/mining/mining.cpp:57-86 | a measured window runs from below the start block up to it, and its bounds are its earliest and latest times, which differ |
| MiningRpc.NetworkHashWindow | src/mining/mining.cpp:57-86 | the walk back from the start block computes the window |
| MiningRpc.ScanTimes | src/mining/mining.cpp:74-82 | the loop returns the minimum and the maximum block time of the window |
| Generate.ComparerIsStrictWeakOrder | src/mining/mining.cpp:333-337 | the coin order is irreflexive and transitive, and equal weight is transitive, as `std::sort` requires |
| Generate.SortedIffNonIncreasing | src/mining/mining.cpp:333-337 | a vector is in coin order exactly when its weights do not increase from one output to the next |
| Generate.InsertByPriority | src/mining/mining.cpp:401 | inserting into an ordered vector adds exactly that output and keeps the order |
| Generate.SortByPriority | src/mining/mining.cpp:401 | the sorted wallet outputs are a permutation of the outputs in coin order |
| Generate.EraseAt | src/mining/mining.cpp:273-279 | erasing one position removes exactly that element |
| Generate.TryOnce | src/mining/mining.cpp:184-279 | one try counts itself, mines at most one hash and erases at most the coin it used; a try that reaches the block check with a real coin erases exactly that coin and adds the hash when solved, with a keypool slot nothing is erased; a script error throws and a missing script only counts the try |
| Generate.TryOnceKeeps | src/mining/mining.cpp:273-279 | a try only takes outputs away, and never a keypool slot |
| Generate.GenerateFromBounds | src/mining/mining.cpp:184-281 | the loop only adds hashes, mines at most the number asked, stays within the try limit, removes only spent coins and never a big-boom slot, and stops only when done, out of tries, shut down or out of outputs |
| Generate.GenerateBlocksBounds | src/mining/mining.cpp:164-283 | an empty output vector is an error; otherwise the same bounds hold from the start |
| Generate.GenerateBlocks | src/mining/mining.cpp:164-283 | the loop computes the result of the try/erase skeleton |
| Generate.GenForBigBoom | src/mining/mining.cpp:339-356 | asking for more blocks than the big-boom height allows is refused; otherwise it mines with one keypool slot |
| Generate.BigBoomCount | src/mining/mining.cpp:373-383 | the big-boom share is positive, stops at the big-boom height, and is all the blocks unless that height is reached |
| Generate.GenerateBlockCommon | src/mining/mining.cpp:359-411 | the result, the number left and the rounds used are those of `BlockCommonSpec`: the second-block hashes, then the big-boom hashes, then each wallet round's hashes (when asked for), with the number left reduced by each call |
| Generate.MinersWithinRequest | src/mining/mining.cpp:373-405 | each call mines at most the number of blocks asked of it |
| Generate.WalletRoundsCount | src/mining/mining.cpp:385-405 | the wallet rounds only add hashes, subtract each round's hashes from the count, stay within 30 rounds, never drive the count below zero, and stop only when done, out of rounds or shut down |
| Generate.CommonFromBounds | src/mining/mining.cpp:370-410 | after the second block, the count left lies between zero and the request, the hashes only grow, and the rounds stop as the loop does |
| Generate.AfterBigBoomBounds | src/mining/mining.cpp:373-405 | when the big-boom call mines at most its share, the rounds after it keep the counts straight for the whole request |
| Generate.BlockCommonBounds | src/mining/mining.cpp:359-411 | the whole call keeps the second-block hashes first, leaves a count between zero and the request, adds at most the requested number, and stops when done, out of rounds or shut down |
| Generate.MineRound | src/mining/mining.cpp:386-402 | one round sorts the wallet outputs and mines from them, as the per-round miner says |
| Generate.MineBigBoom | src/mining/mining.cpp:373-377 | the big-boom call mines as the big-boom miner says |
| Generate.WalletRoundsLoop | src/mining/mining.cpp:385-405 | the retry loop computes `WalletRounds`, returning the hashes only when asked for |
| Generate.CommonAfterSecond | src/mining/mining.cpp:370-410 | the part after the second block computes `CommonFrom` |
| BlockTemplate.Bip22Result | src/mining/mining.cpp:641-657 | an error state throws with its reason, a valid state gives null, and an invalid state gives its reason or `rejected` |
| BlockTemplate.InvalidHasReason | src/mining/mining.cpp:641-657 | an invalid block is always reported with a non-empty reason |
| BlockTemplate.GbtVbName | src/mining/mining.cpp:659-666 | the rule name ends with the deployment's name and has a `!` before it unless the rule is forced |
| BlockTemplate.VbNameRoundTrip | src/mining/mining.cpp:659-666 | the rule name gives back the deployment's name and whether it is forced |
| BlockTemplate.KnownVerdict | src/mining/mining.cpp:783-787 | a known block has no verdict exactly when it is neither fully valid nor failed |
| BlockTemplate.ProposalOutcomes | src/mining/mining.cpp:769-797 | a known block is a duplicate whatever the validation says, an unknown block not on the tip is inconclusive, and otherwise the BIP 22 result of the test |
| BlockTemplate.SubmitBlockResult | src/mining/mining.cpp:1129-1180 | once the hex parameter has been read as a string, the only errors are deserialisation and verification errors |
| BlockTemplate.SubmitBlockOutcomes | src/mining/mining.cpp:1140-1179 | the duplicate, duplicate-invalid, duplicate-inconclusive and inconclusive outcomes, and the BIP 22 result when the block was checked |
| BlockTemplate.TxIndexMeans | src/mining/mining.cpp:954-990 | a hash is indexed exactly when an earlier tx has it, and it maps to the position of one |
| BlockTemplate.DependsSpent | src/mining/mining.cpp:972-976 | every dependency is the position of a tx whose hash an input spends |
| BlockTemplate.EntriesDescribeTransactions | src/mining/mining.cpp:954-990 | every entry describes a tx that is not the coinbase, and its dependencies come at or before it and are spent by it |
| BlockTemplate.EntryCount | src/mining/mining.cpp:954-990 | there is one entry per tx that is not the coinbase |
| BlockTemplate.CollectDepends | src/mining/mining.cpp:972-976 | the loop collects the dependencies of a tx's inputs |
| BlockTemplate.BuildTemplateEntries | src/mining/mining.cpp:954-990 | the loop builds the `transactions` entries of the template |
| BlockTemplate.VersionBitsUpTo | src/mining/mining.cpp:1007-1046 | a failure is an invalid-parameter error, and at most one rule or offer is recorded per deployment |
| BlockTemplate.VersionBitsLists | src/mining/mining.cpp:1007-1046 | on success, `rules` names exactly the ACTIVE deployments and `vbavailable` exactly the STARTED and LOCKED_IN ones with their bits, in order; DEFINED and FAILED ones appear in neither |
| BlockTemplate.FailureStays | src/mining/mining.cpp:1031-1043 | once an active rule the client does not support throws, later deployments do not change the result |
| BlockTemplate.AdjustVersionBits | src/mining/mining.cpp:1007-1046 | the loop over deployments computes the version-bit result |
| BlockTemplate.VersionBitOutcome | src/mining/mining.cpp:1007-1046 | each deployment's bit ends set or cleared as its state and client support decide, and bits of no deployment are unchanged |
| BlockTemplate.StartedBit | src/mining/mining.cpp:1019-1028 | a STARTED deployment keeps its own bit when the client supports the rule or it is forced, clears it otherwise, and leaves every other bit as it was |
| BlockTemplate.LockedInBit | src/mining/mining.cpp:1016-1028 | a LOCKED_IN deployment first sets its own bit, which then stays set when the client supports the rule or it is forced and is cleared otherwise; every other bit is as it was |
| BlockTemplate.UnsupportedActiveFails | src/mining/mining.cpp:1031-1043 | an active rule that is neither forced nor supported by the client makes the call fail with an invalid parameter |
| BlockTemplate.LongPollId | src/mining/mining.cpp:1064 | the long-poll id is longer than the 64 characters of the tip hash |
| BlockTemplate.LongPollRoundTrip | src/mining/mining.cpp:837-841 | a long-poll id written for a tip and a counter below 2^32 parses back to that tip and counter |
| BlockTemplate.TemplateLimits | src/mining/mining.cpp:1069-1081 | a pre-segwit client gets the limits divided by the witness scale factor and no weight limit; others get the limits unchanged with the weight limit |
| BlockTemplate.LimitsScaleBack | src/mining/mining.cpp:1069-1081 | the pre-segwit limits times the witness scale factor are the segwit limits |
| VersionBits.OwnBit | src/mining/mining.cpp:1007-1046 | setting a bit sets it and clearing it clears it |
| VersionBits.OtherBitSet | src/mining/mining.cpp:1007-1046 | setting one bit leaves every other bit as it was |
| VersionBits.OtherBitCleared | src/mining/mining.cpp:1007-1046 | clearing one bit leaves every other bit as it was |

## Left out

- The HTTP/RPC client (`CallRPC` and its callbacks) is not modelled, because it is network I/O.
- `BranchChainTransStep2`, `SendBranchBlockHeader`, `ReqMainChainRedeemMortgage`, `CheckLockMortgageMineCoinTx` and `CheckUnlockMortgageMineCoinTx` are not modelled, because they work by remote RPC calls.
- BranchChecks.CheckBranchTransaction: models only the local checks (lines 791-871). The remote confirmation at lines 873-932 asks another node over RPC and is left out.
- The contract VM (`ExecuteContract`, `CheckProveSmartContract`) is not modelled. A contract tx is classified by `Env` predicates.
- Hashes, `CScriptCheck` signature verification, `ExtractMatches`, the report and prove hash keys, and contract-address lookup are `Env` oracles. Their bodies are cryptography outside these files.
- `pBranchDb`, `pBranchChainTxRecordsDb` and `BranchCache` are plain maps and predicates passed in. Their storage is not modelled.
- `DecodeHexTx` and `EncodeHexTx` are not modelled, because their serialiser is not in these files. The tx-hash compare in `CheckBranchTransaction` is an oracle.
- JSON text parsing is not modelled. Configuration files and RPC parameters arrive already parsed, as `JVal` values.
- MiningRpc.GetIntError: `JVal` numbers are integers, so a fractional JSON number, which `get_int` refuses as "not an integer", cannot be written; that message covers only values that are not numbers.
- BlockTemplate.SubmitBlockResult: the help and parameter-count throw and `get_str` on a parameter that is not a string (`src/mining/mining.cpp:1113-1131`) are not modelled; the block arrives already decoded or not.
- Scripts.ParseMortgage: the key id is the pushed data of any length. `uint160(vch)` at `src/chain/branchchain.cpp:566` and `:608` expects exactly 20 bytes, but its body is not in these files, so that length check is not modelled.
- Malformed push bytes inside a script are not modelled, because a script is a sequence of already-decoded ops.
- Prove.CheckTransactionProveWithProveData: the second `MoneyRange` test on the output sum (lines 1325-1326) is implied by the first and is not stated separately.
- BranchChecks.CheckBranchTransaction: `nMinerValue` is read but never checked by the source, so the model does not check it either.
- A branch block's stake is modelled only by its stake output `stakeOut`.
- A missing branch block (`pBlockData == nullptr`) gives a `Failed` verdict.
- `REDEEM_SAFE_HEIGHT`, `REPORT_OUTOF_HEIGHT` and the `MAX_BLOCK_*` limits are parameters, because their values are defined outside these files.
- A `Get*` helper that throws is modelled as the thrown outcome, not as a C++ exception.
- MiningRpc.NetworkHashWindow: the final `getdouble()` division (line 91) is left out, because it is floating point. The model returns the window whose work and time it would divide.
- `estimatesmartfee`, `estimaterawfee` and the fee estimator are not modelled, because they are floating-point policy code. `estimatefee` is modelled only by its clamp.
- The `interruption_point` every 500 tries is not modelled, and neither are the `cs_main` locks or the long-poll wait on `cvBlockChange`. These are concurrency.
- `BlockAssembler`, `ProcessNewBlock`, `SignBlock`, `CheckBlockWork`, the keypool and `ShutdownRequested` are `MinerWorld` oracles indexed by the try number.
- `generateBranch2ndBlock` is an oracle result passed to `GenerateBlockCommon`.
- Generate.GenerateBlocks: each block accepted is taken to extend the chain by one, as `++nHeight` at line 263 assumes.
- `EnsureWalletIsUnlocked` and `TopUpKeyPool` are not modelled, because they are wallet calls.
- Generate.SortByPriority: `std::sort` leaves outputs of equal weight in an unspecified order. The model fixes one (insertion order).
- A keypool slot (no coin) has priority 0.
- Overflow of 64-bit amounts and of `nValue * age` in the comparer is not modelled. Amounts are unbounded integers.
- Scripts.ScriptInt: models `GetScriptInt64`, whose body is not in these files. It assumes the 8-byte limit (`MaxScriptNumSize`) and sign-magnitude little-endian decoding, with no minimal-encoding test.
- Generate.GenerateBlockCommon: the rounds are bound to the miners through the ghost parameters `mine` and `boom` (`IsRoundMiner`, `IsBigBoomMiner`), so that the result is stated one round at a time.
- Generate.GenerateBlockCommon: like the source, it subtracts the number of big-boom blocks asked for, not the number actually mined.
- BlockTemplate.Bip22Result: the final "valid?" branch of `BIP22ValidationResult` cannot be reached and is not modelled.
- The `data`, `hash` and `weight` fields of a template entry are not modelled, because they come from serialisation.
- `coinbasevalue`, `target`, `mintime`, `bits` and `curtime` of the template are not modelled, because they come from the block assembler and the clock.
- `uint256::SetHex` is modelled by the strict `ParseHashHex`, which does not skip leading spaces or `0x`.
- BlockTemplate.KnownVerdict: the block-index status flags "scripts valid" and "failed" are independent booleans.

## Findings

| source | as written | input that shows it | evidently intended | confidence | as-written member | corrected member |
|---|---|---|---|---|---|---|
| src/chain/branchchain.cpp:1285-1298 | `checkok` starts true and only the contract-call branch can set it false, so a failing signature check on a non-contract-call input is ignored | a prove tx that is not a contract call, with an input whose `CScriptCheck` fails | refuse the input unless its signature verifies, or a contract call spends its own contract's coins | high, not executed | Prove.AsWrittenAcceptsBadSignature | Prove.SignatureAcceptedMeansSigned |
| src/chain/branchchain.cpp:1586 | `rpBlockIndex->nHeight - pindex->nHeight < REPORT_OUTOF_HEIGHT` subtracts the later height from the earlier one, so the result is never positive and the reward always counts as too early | report at height 100, reward at height 200, `REPORT_OUTOF_HEIGHT` 10 | refuse the reward only while fewer than `REPORT_OUTOF_HEIGHT` blocks have passed since the report | medium, not executed | BranchChecks.AsWrittenRejectsLateReward | BranchChecks.RewardAcceptedIntended |
