/** The ledger's data model: JSON values, smart-contract records, blocks, the
    proof-of-work difficulty and the rules every block of a valid chain obeys. */
module Blocks {
  import opened Wrappers
  import Decimal

  /** A JSON value as stored in the ledger document (numbers are integers here). */
  datatype Value =
    | Null
    | Bool(b: bool)
    | Num(n: int)
    | Str(s: string)
    | Arr(items: seq<Value>)
    | Obj(fields: seq<(string, Value)>)

  /** One smart-contract record `{id, pathToPkg, state}`. */
  datatype ContractRecord = ContractRecord(id: int, pathToPkg: string, state: Value)

  /** A block's `hash` field: the genesis block stores the number 0, a mined
      block the text returned by SHA-256. */
  datatype Digest = Number(n: int) | Text(s: string)

  /** A block `{hash, previousHash, nonce, smartContracts}`; the genesis block
      has a `null` previous hash and no nonce. */
  datatype Block = Block(
    hash: Digest,
    previousHash: Option<Digest>,
    nonce: Option<nat>,
    smartContracts: seq<ContractRecord>)

  /** Number of leading '0' characters a mined hash must have. */
  const Difficulty: nat := 2

  /** `c.repeat(n)`. */
  function Repeat(c: char, n: nat): (r: string)
    ensures |r| == n
    ensures forall i :: 0 <= i < n ==> r[i] == c
  {
    if n == 0 then [] else [c] + Repeat(c, n - 1)
  }

  /** `s.startsWith(prefix)`. */
  predicate StartsWith(s: string, prefix: string)
  {
    |prefix| <= |s| && s[..|prefix|] == prefix
  }

  /** `hash.startsWith('0'.repeat(difficulty))`. */
  predicate MeetsDifficulty(hash: string)
  {
    StartsWith(hash, Repeat('0', Difficulty))
  }

  /** The difficulty test asks exactly for two leading '0' characters. */
  lemma MeetsDifficultyIff(hash: string)
    ensures MeetsDifficulty(hash) <==> |hash| >= 2 && hash[0] == '0' && hash[1] == '0'
  {
    var zeros := Repeat('0', Difficulty);
    if |hash| >= 2 && hash[0] == '0' && hash[1] == '0' {
      assert hash[..2] == zeros;
    }
  }

  /** The text SHA-256 is applied to: `nonce + previousBlock.hash + JSON.stringify(payload)`,
      evaluated left to right with JavaScript's `+`: a numeric previous hash is
      added to the nonce, a textual one is concatenated after it. */
  function Preimage(nonce: nat, previousHash: Digest, payloadText: string): string
  {
    match previousHash
    case Number(n) => Decimal.IntToString(nonce + n) + payloadText
    case Text(s) => Decimal.IntToString(nonce) + s + payloadText
  }

  /** Different nonces put different texts into SHA-256, whatever the
      previous hash and the payload. */
  lemma PreimageInjective(m: nat, n: nat, previousHash: Digest, payloadText: string)
    requires m != n
    ensures Preimage(m, previousHash, payloadText) != Preimage(n, previousHash, payloadText)
  {
    var (a, b, tail) := match previousHash
      case Number(k) => (Decimal.IntToString(m + k), Decimal.IntToString(n + k), payloadText)
      case Text(s) => (Decimal.IntToString(m), Decimal.IntToString(n), s + payloadText);
    Decimal.IntToStringInjective(if previousHash.Number? then m + previousHash.n else m,
                                 if previousHash.Number? then n + previousHash.n else n);
    assert Preimage(m, previousHash, payloadText) == a + tail;
    assert Preimage(n, previousHash, payloadText) == b + tail;
    if |a| == |b| {
      assert (a + tail)[..|a|] == a && (b + tail)[..|b|] == b;
    }
  }

  /** The hash a nonce gives for a predecessor's hash and a serialized payload. */
  function MinedHash(sha256: string -> string, nonce: nat, previousHash: Digest, payloadText: string): string
  {
    sha256(Preimage(nonce, previousHash, payloadText))
  }

  /** The nonce gives a hash that meets the difficulty. */
  predicate Solves(sha256: string -> string, nonce: nat, previousHash: Digest, payloadText: string)
  {
    MeetsDifficulty(MinedHash(sha256, nonce, previousHash, payloadText))
  }

  /** None of the nonces 1 .. bound - 1 solves the puzzle. */
  predicate NoSolutionBelow(sha256: string -> string, bound: nat, previousHash: Digest, payloadText: string)
  {
    forall m :: 1 <= m < bound ==> !Solves(sha256, m, previousHash, payloadText)
  }

  /** A failed attempt at `bound` extends the unsolved range by one. */
  lemma NoSolutionExtends(sha256: string -> string, bound: nat, previousHash: Digest, payloadText: string)
    requires NoSolutionBelow(sha256, bound, previousHash, payloadText)
    requires !Solves(sha256, bound, previousHash, payloadText)
    ensures NoSolutionBelow(sha256, bound + 1, previousHash, payloadText)
  {
  }

  /** The nonce is the first of 1, 2, 3, ... that solves the puzzle. */
  predicate IsLeastSolution(sha256: string -> string, nonce: nat, previousHash: Digest, payloadText: string)
  {
    && 1 <= nonce
    && Solves(sha256, nonce, previousHash, payloadText)
    && NoSolutionBelow(sha256, nonce, previousHash, payloadText)
  }

  /** `{hash: 0, previousHash: null, smartContracts: []}`. */
  function GenesisBlock(): Block
  {
    Block(Number(0), None, None, [])
  }

  /** The chain written by `initialiseBlockchain`. */
  function InitialChain(): seq<Block>
  {
    [GenesisBlock()]
  }

  /** Block b is the one mining appends after `previous`: linked to its hash,
      carrying the least solving nonce and the hash that nonce gives. */
  predicate ProperlyMined(sha256: string -> string, stringify: seq<ContractRecord> -> string, previous: Block, b: Block)
  {
    && b.previousHash == Some(previous.hash)
    && b.nonce.Some?
    && IsLeastSolution(sha256, b.nonce.value, previous.hash, stringify(b.smartContracts))
    && b.hash == Text(MinedHash(sha256, b.nonce.value, previous.hash, stringify(b.smartContracts)))
  }

  /** A chain as the ledger's operations build it: the genesis block followed
      by mined blocks, each mined on top of its predecessor. */
  predicate ChainValid(sha256: string -> string, stringify: seq<ContractRecord> -> string, chain: seq<Block>)
  {
    && |chain| >= 1
    && chain[0] == GenesisBlock()
    && forall i :: 1 <= i < |chain| ==> ProperlyMined(sha256, stringify, chain[i - 1], chain[i])
  }

  /** The initial chain has one block, with a null previous hash and no
      contracts, and it is valid whatever hash and serializer are used. */
  lemma InitialChainValid(sha256: string -> string, stringify: seq<ContractRecord> -> string)
    ensures ChainValid(sha256, stringify, InitialChain())
    ensures |InitialChain()| == 1
    ensures InitialChain()[0].previousHash == None && InitialChain()[0].smartContracts == []
  {
  }

  /** Appending a block mined on top of the last block keeps the chain valid
      and leaves every earlier block as it was. */
  lemma AppendPreservesValid(sha256: string -> string, stringify: seq<ContractRecord> -> string, chain: seq<Block>, b: Block)
    requires ChainValid(sha256, stringify, chain)
    requires ProperlyMined(sha256, stringify, chain[|chain| - 1], b)
    ensures ChainValid(sha256, stringify, chain + [b])
    ensures (chain + [b])[..|chain|] == chain
  {
    var extended := chain + [b];
    forall i | 1 <= i < |extended|
      ensures ProperlyMined(sha256, stringify, extended[i - 1], extended[i])
    {
      if i < |chain| {
        assert extended[i - 1] == chain[i - 1] && extended[i] == chain[i];
      }
    }
  }

  /** Chain integrity in a valid chain: every non-genesis block links to its
      predecessor's hash, carries a nonce of at least 1, and its hash is the
      SHA-256 text, meeting the difficulty. */
  lemma ValidChainIntegrity(sha256: string -> string, stringify: seq<ContractRecord> -> string, chain: seq<Block>, i: nat)
    requires ChainValid(sha256, stringify, chain)
    requires 1 <= i < |chain|
    ensures chain[i].previousHash == Some(chain[i - 1].hash)
    ensures chain[i].nonce.Some? && chain[i].nonce.value >= 1
    ensures chain[i].hash == Text(MinedHash(sha256, chain[i].nonce.value, chain[i - 1].hash, stringify(chain[i].smartContracts)))
    ensures chain[i].hash.Text? && MeetsDifficulty(chain[i].hash.s)
  {
    assert ProperlyMined(sha256, stringify, chain[i - 1], chain[i]);
  }
}
