# Smart-contract ledger with proof-of-work mining

This project models the ledger core of the "client-side package for your dApp" provider node.

The ledger is an append-only chain of blocks. It starts with a genesis block. Each later block is mined on top of the previous block's hash. Mining searches nonces 1, 2, 3, … until the SHA-256 of `nonce + previousHash + JSON.stringify(payload)` starts with two `'0'` characters.

Each block carries a list of smart-contract records `{id, pathToPkg, state}`. To resolve a contract, the ledger scans blocks newest first, and records within a block in stored order; the first record with the requested id wins. Invoking a contract applies one of its package's functions to the record's state and mines the updated record as a new block. Deploying mines the record `{id: 0, pathToPkg, state: initialise()}`.

Modules:

- `Wrappers` (wrappers.dfy): `Option` (JavaScript's `null`) and `Result`.
- `Decimal` (decimal.dfy): JavaScript's integer-to-text conversion for integers below 2^53. The mining preimage `nonce + previousBlock.hash + …` uses it.
- `Blocks` (blocks.dfy): the data model (JSON values, contract records, blocks) and the difficulty predicate. It also holds the text that is hashed (exact while nonces stay below 2^53) and `ChainValid`. `ChainValid` says the chain is the genesis block followed by blocks that were each mined on their predecessor with the least solving nonce.
- `Contracts` (contracts.dfy): the newest-first lookup as recursive functions, with lemmas that characterise it completely.
- `Utils` (utils.dfy): the nonce-search loop and the class `Ledger`. The class holds the chain as a `seq<Block>` field and keeps `ChainValid` as its invariant. Its methods are mining, invoking, deploying and re-initialising.

SHA-256 and `JSON.stringify` are fixed but otherwise arbitrary functions. They are given to the `Ledger` when it is constructed. The contract packages that `import(pathToPkg)` would load are a `map` from path to package. A package holds the value of its `initialise()` and its functions by name.

Two JavaScript details are modelled exactly:

- The genesis block's `hash` is the number `0`. For the first mined block, `nonce + 0` is therefore numeric addition, so the hashed text is `String(nonce) + json`. For later blocks the previous hash is the SHA-256 text and is concatenated after the nonce (`Blocks.Preimage`).
- The code makes no distinction between mutating and read-only handles: every call mines the function's result as the new state.

## Model

| member | source | states |
|---|---|---|
| `Blocks.Repeat` | build-a-web3-client-side-package-for-your-dapp/node/utils.js:49 | `'0'.repeat(n)` is n characters, each of them `'0'` |
| `Blocks.MeetsDifficultyIff` | build-a-web3-client-side-package-for-your-dapp/node/utils.js:45-49 | a hash passes the loop's exit test iff its first two characters are `'0'` |
| `Blocks.InitialChainValid` | build-a-web3-client-side-package-for-your-dapp/node/utils.js:87-95 | the initial chain has exactly one block, with `previousHash = null` and no contracts, and it is a valid chain whatever hash and serializer are used |
| `Blocks.AppendPreservesValid` | build-a-web3-client-side-package-for-your-dapp/node/utils.js:56-63 | appending a block mined on the last block keeps the whole chain valid and leaves every earlier block unchanged |
| `Blocks.ValidChainIntegrity` | build-a-web3-client-side-package-for-your-dapp/node/utils.js:48-60 | in a valid chain every non-genesis block's `previousHash` is its predecessor's `hash`, its nonce is at least 1, and its hash is the SHA-256 of the nonce, the predecessor's hash and the serialized payload, meeting the difficulty |
| `Decimal.NatToDecimal` | build-a-web3-client-side-package-for-your-dapp/node/utils.js:52 | the text of a nonce is non-empty and made of decimal digits |
| `Decimal.ParseNatToDecimal` | build-a-web3-client-side-package-for-your-dapp/node/utils.js:52 | the decimal text of n reads back as n (round trip) |
| `Decimal.NatToDecimalInjective` | build-a-web3-client-side-package-for-your-dapp/node/utils.js:52 | distinct non-negative integers have distinct decimal texts |
| `Decimal.IntToStringInjective` | build-a-web3-client-side-package-for-your-dapp/node/utils.js:52 | distinct integers have distinct texts (`String(n)`), negative ones included |
| `Blocks.PreimageInjective` | build-a-web3-client-side-package-for-your-dapp/node/utils.js:51-53 | for a fixed previous hash and payload, distinct nonces give distinct texts to hash, both when the previous hash is the number 0 and when it is text |
| `Contracts.FirstMatch` | build-a-web3-client-side-package-for-your-dapp/node/utils.js:18-20 | the inner loop finds the earliest record with the id, and finds nothing iff no record from the start position on has the id |
| `Contracts.GetSmartContract` | build-a-web3-client-side-package-for-your-dapp/node/utils.js:15-25 | `null` iff no block of the chain holds a record with the id; a non-null result has that id |
| `Contracts.MostRecentRecordWins` | build-a-web3-client-side-package-for-your-dapp/node/utils.js:17-20 | the result is the earliest record with the id in the highest-indexed block that holds the id |
| `Contracts.LookupPastUnrelatedBlock` | build-a-web3-client-side-package-for-your-dapp/node/utils.js:17-23 | appending a block without the id does not change what the id resolves to |
| `Contracts.LookupAfterCommit` | build-a-web3-client-side-package-for-your-dapp/node/utils.js:36-37 | after a block whose only record is r is appended, r's id resolves to r |
| `Utils.SearchNonce` | build-a-web3-client-side-package-for-your-dapp/node/utils.js:45-54 | the nonce found is at least 1 and the least one whose hash meets the difficulty; the hash returned is the one that nonce gives; finding none means no nonce up to the limit solves |
| `Utils.ApplyContractFunction` | build-a-web3-client-side-package-for-your-dapp/node/utils.js:34-36 | succeeds iff the package path is loaded and has a function under the handle; a missing package is a module error, a missing handle a not-a-function error; the record keeps its id and path and takes `f(state, args)` as its state |
| `Utils.Ledger.constructor` | build-a-web3-client-side-package-for-your-dapp/node/utils.js:87-95 | a new ledger holds the genesis chain and satisfies the chain invariant |
| `Utils.Ledger.InitialiseBlockchain` | build-a-web3-client-side-package-for-your-dapp/node/utils.js:87-96 | the chain is overwritten with one genesis block (`previousHash = null`, no contracts), whatever it held before |
| `Utils.Ledger.MineBlock` | build-a-web3-client-side-package-for-your-dapp/node/utils.js:41-65 | appends exactly one block and leaves earlier blocks unchanged; the block carries the payload, links to the last block's hash, has the least solving nonce and the hash it gives; the chain invariant is kept; on a search timeout nothing changes |
| `Utils.Ledger.CallSmartContract` | build-a-web3-client-side-package-for-your-dapp/node/utils.js:27-39 | a missing id fails and appends nothing; a missing package or handle fails with its own error; otherwise it appends one block holding only the record with `state = f(oldState, args)`, after which the id resolves to it, and it can fail instead only when no nonce up to the limit solves; every failure leaves the chain unchanged |
| `Utils.Ledger.DeployWithBindings` | build-a-web3-client-side-package-for-your-dapp/node/utils.js:67-85 | with `join` unbound nothing is appended; with `join` bound and the package loaded, a block holding only `{id: 0, pathToPkg, state: initialise()}` is appended whenever some nonce up to the limit solves, after which id 0 resolves to it; the call passes iff a block was appended and `info` is bound, so an unbound `info` fails after mining |
| `Utils.Ledger.DeploySmartContractAsWritten` | build-a-web3-client-side-package-for-your-dapp/node/utils.js:67-85 | with neither `join` nor `info` imported (as in the file), every call fails with a deployment error and leaves the chain unchanged |
| `Utils.Ledger.DeploySmartContract` | build-a-web3-client-side-package-for-your-dapp/node/utils.js:67-85 | with `join` and `info` imported, success appends one block holding only `{id: 0, pathToPkg, state: initialise()}`, after which id 0 resolves to it; failure appends nothing and happens only when the package is missing or no nonce up to the limit solves |

## Left out

- `writeBlockchain` / `readBlockchain` (file I/O with `JSON.stringify` / `JSON.parse`): the chain is an in-memory field of `Ledger`. The JSON serializer is the given function `stringify`, and parse/print round trips are not modelled.
- SHA-256 (`crypto-js`) is a given function `sha256` with no properties assumed.
- Utils.SearchNonce: the source's search has no bound and never ends if no nonce solves. The model stops after `nonceLimit` nonces and reports `MiningTimeout` with nothing appended, because termination depends on the hash.
- Utils.Ledger.MineBlock: inherits the same nonce limit; the source has no failure other than a crash.
- Dynamic `import(pathToPkg)` is a lookup in a `map` of loaded packages. An `initialise()` or contract function that throws, and an `import` that succeeds only sometimes, are not modelled.
- `process.exit(1)` on a missing contract is the failure `ContractNotFound` with the chain unchanged. Logging (`logover`) is left out.
- Utils.Ledger.CallSmartContract: the source returns nothing. The model returns only a pass/fail outcome.
- Decimal.NatToDecimal: JavaScript numbers are doubles, so `nonce++` stops increasing at 2^53 and `String` switches to exponent notation from 10^21. The model uses unbounded integers and plain decimal text, so it is exact only while nonces, and `nonceLimit`, stay below 2^53.
- Contract ids are integers compared with `===`. JSON numbers are integers, and an `undefined` state (a function that returns nothing, dropped by `JSON.stringify`) is not represented.
- Concurrent read-modify-write of the ledger file (lost updates) is not modelled: one `Ledger` object is the single writer.
- Account balances, `getBalance`, `transfer` and `addTransaction` are used by provider.js but defined in no file of this model, so there is nothing to model them against. Blocks carry no `accounts` list, because the code's genesis block has none.
- provider.js (HTTP routes, request log, server start-up) is not part of this model.
- Re-initialisation overwrites the chain unconditionally, as the code does; no `AlreadyInitialised` error is raised.

## Findings

| source | as written | input that shows it | evidently intended | confidence | as-written member | corrected member |
|---|---|---|---|---|---|---|
| build-a-web3-client-side-package-for-your-dapp/node/utils.js:71 | `join('..', relPathToPkg)` uses `join`, which is never imported (nor is `info`, line 80), so a ReferenceError is thrown inside `try` and rethrown at line 83 before anything is mined | any call of `deploySmartContract()`, e.g. at provider start-up | import both `join` (from the path module) and `info` (from `logover`): mine `{pathToPkg, state: initialise(), id: 0}` as a new block and report success; importing only `join` would mine the block and still throw at line 80 | high; not executed | `Utils.Ledger.DeploySmartContractAsWritten` | `Utils.Ledger.DeploySmartContract` |
