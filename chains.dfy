/**
 * The chain-table schema upgrade of wasm-deploy/src/config/chain.rs: the
 * current schema keys the chains by label in a map; the first schema kept a
 * list, and converting it keys each element by its own `chain_id`.
 */
module Chains {
  import opened Types

  /** An element of the first schema's list: the same two fields as `ChainInfo`. */
  datatype ChainInfoV01 = ChainInfoV01(cfg: ChainConfig, rpcEndpoint: string)

  /** The schema versions a stored chain table may be in. */
  datatype ChainVersions = V06(table: map<string, ChainInfo>) | V01(list: seq<ChainInfoV01>)

  function Converted(x: ChainInfoV01): ChainInfo {
    ChainInfo(x.cfg, x.rpcEndpoint)
  }

  /**
   * `into_iter().map(..).collect::<HashMap<_, _>>()`: entries are inserted in
   * list order, so a later element overwrites an earlier one with the same id.
   */
  function Collect(list: seq<ChainInfoV01>): (r: map<string, ChainInfo>)
    ensures forall id :: id in r <==> exists i :: 0 <= i < |list| && list[i].cfg.chainId == id
    ensures forall id :: id in r ==> r[id].cfg.chainId == id
  {
    if |list| == 0 then map[]
    else
      var init := list[..|list| - 1];
      var last := list[|list| - 1];
      assert forall i :: 0 <= i < |init| ==> init[i] == list[i];
      assert list == init + [last];
      Collect(init)[last.cfg.chainId := Converted(last)]
  }

  /** `From<ChainVersions> for Chains`. */
  function Upgrade(v: ChainVersions): (r: map<string, ChainInfo>)
    ensures v.V06? ==> r == v.table
    ensures v.V01? ==> forall id :: id in r <==> exists i :: 0 <= i < |v.list| && v.list[i].cfg.chainId == id
    ensures v.V01? ==> forall id :: id in r ==> r[id].cfg.chainId == id
    ensures v.V01? ==> forall id :: id in r ==> exists i :: 0 <= i < |v.list| && r[id] == Converted(v.list[i])
  {
    match v
    case V06(table) => table
    case V01(list) =>
      var r := Collect(list);
      forall id | id in r ensures exists i :: 0 <= i < |list| && r[id] == Converted(list[i]) {
        var i := LastWithId(list, id);
      }
      r
  }

  /** Where an id's entry came from: the last element carrying it. */
  lemma LastWithId(list: seq<ChainInfoV01>, id: string) returns (i: nat)
    requires exists k :: 0 <= k < |list| && list[k].cfg.chainId == id
    ensures i < |list| && list[i].cfg.chainId == id
    ensures forall j :: i < j < |list| ==> list[j].cfg.chainId != id
    ensures Collect(list)[id] == Converted(list[i])
  {
    i := LastIndex(list, id);
    LaterOverwrites(list, i);
  }

  /** The place of the last element carrying an id. */
  lemma {:induction false} LastIndex(list: seq<ChainInfoV01>, id: string) returns (i: nat)
    requires exists k :: 0 <= k < |list| && list[k].cfg.chainId == id
    ensures i < |list| && list[i].cfg.chainId == id
    ensures forall j :: i < j < |list| ==> list[j].cfg.chainId != id
    decreases |list|
  {
    var n := |list| - 1;
    if list[n].cfg.chainId == id {
      i := n;
    } else {
      var init := list[..n];
      var k :| 0 <= k < |list| && list[k].cfg.chainId == id;
      assert k < n && init[k] == list[k];
      i := LastIndex(init, id);
      assert init[i] == list[i];
      forall j | i < j < |list| ensures list[j].cfg.chainId != id {
        if j < n { assert init[j] == list[j]; }
      }
    }
  }

  /** The last element is inserted last. */
  lemma CollectLast(list: seq<ChainInfoV01>)
    requires |list| > 0
    ensures Collect(list) == Collect(list[..|list| - 1])[list[|list| - 1].cfg.chainId := Converted(list[|list| - 1])]
  {
  }

  /** With repeated ids, the later element overwrites the earlier: the last element carrying an id is the one kept. */
  lemma {:induction false} LaterOverwrites(list: seq<ChainInfoV01>, i: nat)
    requires i < |list|
    requires forall j :: i < j < |list| ==> list[j].cfg.chainId != list[i].cfg.chainId
    ensures list[i].cfg.chainId in Collect(list)
    ensures Collect(list)[list[i].cfg.chainId] == Converted(list[i])
    decreases |list|
  {
    var n := |list| - 1;
    CollectLast(list);
    if i < n {
      var init := list[..n];
      assert init[i] == list[i];
      forall j | i < j < n ensures init[j].cfg.chainId != init[i].cfg.chainId {
        assert init[j] == list[j];
      }
      LaterOverwrites(init, i);
    }
  }

  /** With no id repeated, the upgrade keeps every element: the table has exactly as many chains as the list. */
  lemma {:induction false} DistinctIdsKeepEveryChain(list: seq<ChainInfoV01>)
    requires forall i, j :: 0 <= i < j < |list| ==> list[i].cfg.chainId != list[j].cfg.chainId
    ensures |Collect(list)| == |list|
    decreases |list|
  {
    if |list| > 0 {
      var n := |list| - 1;
      var init := list[..n];
      assert forall i :: 0 <= i < n ==> init[i] == list[i];
      DistinctIdsKeepEveryChain(init);
      assert list[n].cfg.chainId !in Collect(init);
      assert Collect(list).Keys == Collect(init).Keys + {list[n].cfg.chainId};
    }
  }
}
