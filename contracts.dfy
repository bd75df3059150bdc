/** Resolving a smart contract by id: blocks newest first, records within a
    block in stored order, first record with the id wins. */
module Contracts {
  import opened Wrappers
  import opened Blocks

  /** Index of the first record at or after `from` whose id is `id`. */
  function FirstMatch(records: seq<ContractRecord>, id: int, from: nat): (r: Option<nat>)
    requires from <= |records|
    ensures r.Some? ==> from <= r.value < |records| && records[r.value].id == id
    ensures r.Some? ==> forall j :: from <= j < r.value ==> records[j].id != id
    ensures r.None? <==> forall j :: from <= j < |records| ==> records[j].id != id
    decreases |records| - from
  {
    if from == |records| then None
    else if records[from].id == id then Some(from)
    else FirstMatch(records, id, from + 1)
  }

  /** No record of any block of the chain has the id. */
  predicate Absent(chain: seq<Block>, id: int)
  {
    forall i, j :: 0 <= i < |chain| && 0 <= j < |chain[i].smartContracts| ==> chain[i].smartContracts[j].id != id
  }

  /** `getSmartContract(id)` over the chain: `null` exactly when no block holds
      a record with that id; otherwise a record with that id. */
  function GetSmartContract(chain: seq<Block>, id: int): (r: Option<ContractRecord>)
    ensures r.None? <==> Absent(chain, id)
    ensures r.Some? ==> r.value.id == id
    decreases |chain|
  {
    if chain == [] then None
    else
      var newest := chain[|chain| - 1];
      match FirstMatch(newest.smartContracts, id, 0)
      case Some(j) => Some(newest.smartContracts[j])
      case None =>
        var older := chain[..|chain| - 1];
        assert forall i :: 0 <= i < |older| ==> older[i] == chain[i];
        GetSmartContract(older, id)
  }

  /** The record found is the earliest record with the id in the newest block
      that holds the id at all. */
  lemma {:induction false} MostRecentRecordWins(chain: seq<Block>, id: int, i: nat, j: nat)
    requires i < |chain| && j < |chain[i].smartContracts|
    requires chain[i].smartContracts[j].id == id
    requires forall k :: 0 <= k < j ==> chain[i].smartContracts[k].id != id
    requires forall k, m :: i < k < |chain| && 0 <= m < |chain[k].smartContracts| ==> chain[k].smartContracts[m].id != id
    ensures GetSmartContract(chain, id) == Some(chain[i].smartContracts[j])
    decreases |chain|
  {
    var newest := chain[|chain| - 1];
    if i == |chain| - 1 {
      assert FirstMatch(newest.smartContracts, id, 0) == Some(j);
    } else {
      var older := chain[..|chain| - 1];
      assert FirstMatch(newest.smartContracts, id, 0).None? by {
        assert forall m :: 0 <= m < |newest.smartContracts| ==> newest.smartContracts[m].id != id by {
          forall m | 0 <= m < |newest.smartContracts|
            ensures newest.smartContracts[m].id != id
          {
            assert chain[|chain| - 1].smartContracts[m].id != id;
          }
        }
      }
      assert older[i] == chain[i];
      forall k, m | i < k < |older| && 0 <= m < |older[k].smartContracts|
        ensures older[k].smartContracts[m].id != id
      {
        assert older[k] == chain[k];
      }
      MostRecentRecordWins(older, id, i, j);
    }
  }

  /** Appending a block that holds no record with the id leaves the lookup of
      that id unchanged. */
  lemma LookupPastUnrelatedBlock(chain: seq<Block>, b: Block, id: int)
    requires forall m :: 0 <= m < |b.smartContracts| ==> b.smartContracts[m].id != id
    ensures GetSmartContract(chain + [b], id) == GetSmartContract(chain, id)
  {
    assert (chain + [b])[..|chain|] == chain;
  }

  /** After appending a block whose only record is `record`, looking up the
      record's id yields that record. */
  lemma LookupAfterCommit(chain: seq<Block>, b: Block, record: ContractRecord)
    requires b.smartContracts == [record]
    ensures GetSmartContract(chain + [b], record.id) == Some(record)
  {
    MostRecentRecordWins(chain + [b], record.id, |chain|, 0);
  }
}
