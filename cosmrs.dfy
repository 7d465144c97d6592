/**
 * The response checks of src/cosmrs.rs: a committed transaction succeeds only
 * when both its `check_tx` and its `deliver_tx` phases report the Ok code, a
 * query only when its code is Ok, and `find_event` picks the first event of
 * the delivered transaction with a given type. Signing, fee simulation and
 * the network calls themselves are left abstract: their outcome is a
 * parameter.
 */
module CosmRs {
  import opened Wrappers
  import Types

  /** A non-zero error code. */
  type ErrCode = n: nat | n > 0 witness 1

  /** The ABCI response code: Ok, or a non-zero error code. */
  datatype Code = CodeOk | CodeErr(value: ErrCode)

  datatype EventAttribute = EventAttribute(key: string, value: string)

  /** An ABCI event: its type and its attributes. */
  datatype Event = Event(typeStr: string, attributes: seq<EventAttribute>)

  /** The result of one phase (`check_tx` or `deliver_tx`) of a committed transaction. */
  datatype TxResult = TxResult(code: Code, data: seq<Types.u8>, log: string, gasWanted: int, gasUsed: int, events: seq<Event>)

  /** The `broadcast_tx_commit` response. */
  datatype CommitResponse = CommitResponse(checkTx: TxResult, deliverTx: TxResult, hash: string, height: nat)

  /** The response of an ABCI query. */
  datatype QueryResult = QueryResult(code: Code, value: seq<Types.u8>, log: string)

  /** `ChainResponse`: what a failed response is reported as. */
  datatype ChainResponse = ChainResponse(code: Code, data: Option<seq<Types.u8>>, log: string, gasWanted: int, gasUsed: int)

  /**
   * `ClientError`: the chain refused the request (`CosmosSdk`), or some other
   * step failed (encoding, signing, the connection), named by its kind.
   */
  datatype ClientError = CosmosSdk(res: ChainResponse) | Failed(kind: string)

  /** `ChainResponse::from` a transaction phase. */
  function FromTx(res: TxResult): (r: ChainResponse)
    ensures r.code == res.code && r.data == Some(res.data) && r.log == res.log
    ensures r.gasWanted == res.gasWanted && r.gasUsed == res.gasUsed
  {
    ChainResponse(res.code, Some(res.data), res.log, res.gasWanted, res.gasUsed)
  }

  /** `ChainResponse::from` a query response: no gas is reported. */
  function FromQuery(res: QueryResult): (r: ChainResponse)
    ensures r.code == res.code && r.data == Some(res.value) && r.log == res.log
    ensures r.gasWanted == 0 && r.gasUsed == 0
  {
    ChainResponse(res.code, Some(res.value), res.log, 0, 0)
  }

  /**
   * `send_tx`, after the transaction is built, signed and broadcast with
   * `broadcast_tx_commit` (`broadcast` is the outcome of those steps): an
   * error code of `check_tx` is reported before `deliver_tx` is looked at,
   * then one of `deliver_tx`; with both Ok the whole response is returned.
   */
  function SendTx(broadcast: Result<CommitResponse, ClientError>): (r: Result<CommitResponse, ClientError>)
    ensures r.Ok? <==> broadcast.Ok? && broadcast.value.checkTx.code == CodeOk && broadcast.value.deliverTx.code == CodeOk
    ensures r.Ok? ==> r == broadcast
    ensures broadcast.Err? ==> r == broadcast
    ensures broadcast.Ok? && r.Err? ==> r.error.CosmosSdk? && r.error.res.code.CodeErr?
    ensures broadcast.Ok? && broadcast.value.checkTx.code.CodeErr? ==> r == Err(CosmosSdk(FromTx(broadcast.value.checkTx)))
    ensures broadcast.Ok? && broadcast.value.checkTx.code == CodeOk && broadcast.value.deliverTx.code.CodeErr?
      ==> r == Err(CosmosSdk(FromTx(broadcast.value.deliverTx)))
  {
    var response :- broadcast;
    if response.checkTx.code.CodeErr? then Err(CosmosSdk(FromTx(response.checkTx)))
    else if response.deliverTx.code.CodeErr? then Err(CosmosSdk(FromTx(response.deliverTx)))
    else Ok(response)
  }

  /**
   * `abci_query`, after the request is encoded and sent (`response` is the
   * outcome of those steps): any code other than Ok is an error carrying the
   * response.
   */
  function AbciQuery(response: Result<QueryResult, ClientError>): (r: Result<QueryResult, ClientError>)
    ensures r.Ok? <==> response.Ok? && response.value.code == CodeOk
    ensures r.Ok? ==> r == response
    ensures response.Err? ==> r == response
    ensures response.Ok? && r.Err? ==> r.error == CosmosSdk(FromQuery(response.value)) && r.error.res.code.CodeErr?
  {
    var res :- response;
    if res.code != CodeOk then Err(CosmosSdk(FromQuery(res))) else Ok(res)
  }

  /** `find_event`: the first event of the delivered transaction whose type is `keyName`, if there is one. */
  method FindEvent(res: CommitResponse, keyName: string) returns (r: Option<Event>)
    ensures r.Some? <==> exists i :: 0 <= i < |res.deliverTx.events| && res.deliverTx.events[i].typeStr == keyName
    ensures r.Some? ==> exists i :: (0 <= i < |res.deliverTx.events| && res.deliverTx.events[i] == r.value
      && r.value.typeStr == keyName && forall j :: 0 <= j < i ==> res.deliverTx.events[j].typeStr != keyName)
  {
    var events := res.deliverTx.events;
    var i := 0;
    while i < |events|
      invariant 0 <= i <= |events|
      invariant forall j :: 0 <= j < i ==> events[j].typeStr != keyName
    {
      if events[i].typeStr == keyName {
        return Some(events[i]);
      }
      i := i + 1;
    }
    return None;
  }
}
