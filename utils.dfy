/** The ledger operations: mining a block onto the chain, invoking a contract
    and committing its new state, deploying the contract, and (re)initialising
    the chain. */
module Utils {
  import opened Wrappers
  import opened Blocks
  import opened Contracts

  /** Why an operation appended nothing. */
  datatype LedgerError =
    | ContractNotFound   // no record with the id; the process exits
    | ModuleNotFound     // `import(contract.pathToPkg)` fails
    | NotAFunction       // the package has no function under the handle
    | MiningTimeout      // no solving nonce within the search limit
    | DeployFailure      // deployment failed and the error was rethrown

  datatype Outcome = Pass | Fail(error: LedgerError)

  /** A contract function `(state, ...args) -> newState`. */
  type ContractFunction = (Value, seq<Value>) -> Value

  /** A loaded contract package: what its `initialise()` returns and its
      functions by name. */
  datatype Package = Package(initialise: Value, functions: map<string, ContractFunction>)

  /** A nonce and the hash it gives. */
  datatype Solution = Solution(nonce: nat, hash: string)

  /** `join('..', './smart-contract/pkg')`. */
  const PathToPkg: string := "../smart-contract/pkg"

  /** The proof-of-work loop: try nonces 1, 2, 3, ... until the hash meets the
      difficulty, giving up after `limit` nonces. */
  method SearchNonce(sha256: string -> string, previousHash: Digest, payloadText: string, limit: nat)
    returns (found: Option<Solution>)
    ensures found.Some? ==> IsLeastSolution(sha256, found.value.nonce, previousHash, payloadText)
    ensures found.Some? ==> found.value.nonce <= limit
    ensures found.Some? ==> found.value.hash == MinedHash(sha256, found.value.nonce, previousHash, payloadText)
    ensures found.None? ==> NoSolutionBelow(sha256, limit + 1, previousHash, payloadText)
  {
    MeetsDifficultyIff("");
    var hash := "";
    var nonce: nat := 0;
    while !MeetsDifficulty(hash) && nonce < limit
      invariant nonce <= limit
      invariant nonce == 0 ==> !MeetsDifficulty(hash)
      invariant nonce >= 1 ==> hash == MinedHash(sha256, nonce, previousHash, payloadText)
      invariant NoSolutionBelow(sha256, nonce, previousHash, payloadText)
      decreases limit - nonce
    {
      if nonce >= 1 {
        NoSolutionExtends(sha256, nonce, previousHash, payloadText);
      }
      nonce := nonce + 1;
      hash := sha256(Preimage(nonce, previousHash, payloadText));
    }
    if MeetsDifficulty(hash) {
      assert nonce >= 1;
      found := Some(Solution(nonce, hash));
    } else {
      if nonce >= 1 {
        NoSolutionExtends(sha256, nonce, previousHash, payloadText);
      }
      found := None;
    }
  }

  /** Lines that resolve the package and apply the named function to the
      record's state: the record keeps its id and package path and takes the
      function's result as its state. */
  function ApplyContractFunction(
    contract: ContractRecord, functionHandle: string, functionArgs: seq<Value>, packages: map<string, Package>
  ): (r: Result<ContractRecord, LedgerError>)
    ensures r.Success? <==> contract.pathToPkg in packages && functionHandle in packages[contract.pathToPkg].functions
    ensures contract.pathToPkg !in packages ==> r == Failure(ModuleNotFound)
    ensures contract.pathToPkg in packages && functionHandle !in packages[contract.pathToPkg].functions ==>
      r == Failure(NotAFunction)
    ensures r.Success? ==> r.value.id == contract.id && r.value.pathToPkg == contract.pathToPkg
    ensures r.Success? ==>
      r.value.state == packages[contract.pathToPkg].functions[functionHandle](contract.state, functionArgs)
  {
    if contract.pathToPkg !in packages then Failure(ModuleNotFound)
    else
      var pkg := packages[contract.pathToPkg];
      if functionHandle !in pkg.functions then Failure(NotAFunction)
      else Success(contract.(state := pkg.functions[functionHandle](contract.state, functionArgs)))
  }

  /** The record deployment mines: `{pathToPkg, state: initialise(), id: 0}`. */
  function InitialRecord(packages: map<string, Package>): ContractRecord
    requires PathToPkg in packages
  {
    ContractRecord(0, PathToPkg, packages[PathToPkg].initialise)
  }

  /** `after` is `before` with one block appended whose only record is the
      deployed record, and id 0 resolves to that record. */
  ghost predicate Deployed(before: seq<Block>, after: seq<Block>, packages: map<string, Package>)
  {
    && PathToPkg in packages
    && |after| == |before| + 1
    && after[..|before|] == before
    && after[|before|].smartContracts == [InitialRecord(packages)]
    && GetSmartContract(after, 0) == Some(InitialRecord(packages))
  }

  /** The ledger: the chain of blocks, with SHA-256 and JSON serialization as
      given functions and a bound on the nonce search. */
  class Ledger {
    var blocks: seq<Block>
    const sha256: string -> string
    const stringify: seq<ContractRecord> -> string
    const nonceLimit: nat

    /** The chain is the genesis block followed by properly mined blocks. */
    ghost predicate Valid()
      reads this
    {
      ChainValid(sha256, stringify, blocks)
    }

    /** A ledger holding the initial chain. */
    constructor (sha256: string -> string, stringify: seq<ContractRecord> -> string, nonceLimit: nat)
      ensures Valid()
      ensures blocks == InitialChain()
      ensures this.sha256 == sha256 && this.stringify == stringify && this.nonceLimit == nonceLimit
    {
      this.sha256 := sha256;
      this.stringify := stringify;
      this.nonceLimit := nonceLimit;
      blocks := InitialChain();
      new;
      InitialChainValid(sha256, stringify);
    }

    /** `initialiseBlockchain`: overwrites whatever chain there was with the
        one-block genesis chain. */
    method InitialiseBlockchain()
      modifies this
      ensures Valid()
      ensures blocks == InitialChain()
      ensures |blocks| == 1 && blocks[0].previousHash == None && blocks[0].smartContracts == []
    {
      blocks := InitialChain();
      InitialChainValid(sha256, stringify);
    }

    /** `mineBlock`: finds the least solving nonce on top of the last block and
        appends exactly one block carrying the payload; fails with nothing
        appended when no nonce up to the limit solves. */
    method MineBlock(smartContracts: seq<ContractRecord>) returns (outcome: Outcome)
      requires Valid()
      modifies this
      ensures Valid()
      ensures outcome == Pass || outcome == Fail(MiningTimeout)
      ensures outcome.Pass? ==> |blocks| == |old(blocks)| + 1 && blocks[..|old(blocks)|] == old(blocks)
      ensures outcome.Pass? ==> blocks == old(blocks) + [blocks[|old(blocks)|]]
      ensures outcome.Pass? ==> blocks[|old(blocks)|].smartContracts == smartContracts
      ensures outcome.Pass? ==> ProperlyMined(sha256, stringify, old(blocks)[|old(blocks)| - 1], blocks[|old(blocks)|])
      ensures outcome.Fail? ==> blocks == old(blocks)
      ensures outcome.Fail? ==>
        NoSolutionBelow(sha256, nonceLimit + 1, old(blocks)[|old(blocks)| - 1].hash, stringify(smartContracts))
    {
      var previousBlock := blocks[|blocks| - 1];
      var found := SearchNonce(sha256, previousBlock.hash, stringify(smartContracts), nonceLimit);
      match found
      case None =>
        outcome := Fail(MiningTimeout);
      case Some(solution) =>
        var newBlock := Block(Text(solution.hash), Some(previousBlock.hash), Some(solution.nonce), smartContracts);
        AppendPreservesValid(sha256, stringify, blocks, newBlock);
        blocks := blocks + [newBlock];
        outcome := Pass;
    }

    /** `callSmartContract`: resolves the newest record with the id, applies the
        named function to its state and mines the updated record as the sole
        payload of a new block, after which the id resolves to it. Every
        failure leaves the chain as it was. */
    method CallSmartContract(id: int, functionHandle: string, functionArgs: seq<Value>, packages: map<string, Package>)
      returns (outcome: Outcome)
      requires Valid()
      modifies this
      ensures Valid()
      ensures outcome.Fail? ==> blocks == old(blocks)
      ensures GetSmartContract(old(blocks), id).None? ==> outcome == Fail(ContractNotFound)
      ensures GetSmartContract(old(blocks), id).Some? ==>
        var applied := ApplyContractFunction(GetSmartContract(old(blocks), id).value, functionHandle, functionArgs, packages);
        && (applied.Failure? ==> outcome == Fail(applied.error))
        && (applied.Success? ==> outcome == Pass || outcome == Fail(MiningTimeout))
      ensures outcome == Fail(MiningTimeout) ==>
        && GetSmartContract(old(blocks), id).Some?
        && var applied := ApplyContractFunction(GetSmartContract(old(blocks), id).value, functionHandle, functionArgs, packages);
        && applied.Success?
        && NoSolutionBelow(sha256, nonceLimit + 1, old(blocks)[|old(blocks)| - 1].hash, stringify([applied.value]))
      ensures outcome.Pass? ==>
        && GetSmartContract(old(blocks), id).Some?
        && var applied := ApplyContractFunction(GetSmartContract(old(blocks), id).value, functionHandle, functionArgs, packages);
        && applied.Success?
        && |blocks| == |old(blocks)| + 1
        && blocks[..|old(blocks)|] == old(blocks)
        && blocks[|old(blocks)|].smartContracts == [applied.value]
        && GetSmartContract(blocks, id) == Some(applied.value)
    {
      var contract := GetSmartContract(blocks, id);
      if contract.None? {
        outcome := Fail(ContractNotFound);
        return;
      }
      var applied := ApplyContractFunction(contract.value, functionHandle, functionArgs, packages);
      if applied.Failure? {
        outcome := Fail(applied.error);
        return;
      }
      ghost var before := blocks;
      outcome := MineBlock([applied.value]);
      if outcome.Pass? {
        LookupAfterCommit(before, blocks[|before|], applied.value);
      }
    }

    /** `deploySmartContract` with the two names it uses but the file may not
        import given as inputs: `join` (used before the package is loaded) and
        `info` (used after the block is mined). An unbound name throws, and
        the catch block rethrows it as a deployment failure. Without `join`
        nothing is mined. Without `info` the block is mined and appended, and
        the call still fails. */
    method DeployWithBindings(packages: map<string, Package>, joinImported: bool, infoImported: bool)
      returns (outcome: Outcome)
      requires Valid()
      modifies this
      ensures Valid()
      ensures outcome == Pass || outcome == Fail(DeployFailure)
      ensures blocks == old(blocks) || Deployed(old(blocks), blocks, packages)
      ensures blocks != old(blocks) ==> joinImported
      ensures joinImported && PathToPkg in packages
        && !NoSolutionBelow(sha256, nonceLimit + 1, old(blocks)[|old(blocks)| - 1].hash, stringify([InitialRecord(packages)]))
        ==> blocks != old(blocks)
      ensures outcome.Pass? <==> blocks != old(blocks) && infoImported
    {
      if !joinImported || PathToPkg !in packages {
        outcome := Fail(DeployFailure);
        return;
      }
      var record := InitialRecord(packages);
      ghost var before := blocks;
      var mined := MineBlock([record]);
      if mined.Fail? {
        outcome := Fail(DeployFailure);
        return;
      }
      LookupAfterCommit(before, blocks[|before|], record);
      assert |blocks| != |before|;
      outcome := if infoImported then Pass else Fail(DeployFailure);
    }

    /** `deploySmartContract` as the file is written: neither `join` nor `info`
        is imported, so every call fails and appends nothing. */
    method DeploySmartContractAsWritten(packages: map<string, Package>) returns (outcome: Outcome)
      requires Valid()
      modifies this
      ensures Valid()
      ensures outcome == Fail(DeployFailure) && blocks == old(blocks)
    {
      outcome := DeployWithBindings(packages, false, false);
    }

    /** `deploySmartContract` with `join` and `info` imported: mines the record
        `{id: 0, pathToPkg, state: initialise()}` as the sole payload of a new
        block, after which id 0 resolves to it. It fails, appending nothing,
        only when the package is missing or no nonce up to the limit solves. */
    method DeploySmartContract(packages: map<string, Package>) returns (outcome: Outcome)
      requires Valid()
      modifies this
      ensures Valid()
      ensures outcome == Pass || outcome == Fail(DeployFailure)
      ensures outcome.Pass? ==> Deployed(old(blocks), blocks, packages)
      ensures outcome.Fail? ==> blocks == old(blocks)
      ensures outcome.Fail? ==>
        || PathToPkg !in packages
        || NoSolutionBelow(sha256, nonceLimit + 1, old(blocks)[|old(blocks)| - 1].hash, stringify([InitialRecord(packages)]))
    {
      outcome := DeployWithBindings(packages, true, true);
    }
  }
}
