/**
 * The chain as the deployment engines see it: requests are submitted in
 * batches, and the chain either commits a batch, answering with the code ids
 * and contract addresses it produced in request order, or rejects it. What the
 * chain answers is left open: it is any function of how many batches came
 * before and of the batch itself. The client records every batch it sends.
 */
module ChainClient {
  import opened Wrappers
  import opened Types

  datatype StoreRequest = StoreRequest(wasm: seq<u8>)
  datatype InstantiateRequest = InstantiateRequest(codeId: u64, msg: Json, contractLabel: string, admin: Option<string>)
  datatype ExecRequest = ExecRequest(msg: Json, address: string)
  datatype MigrateRequest = MigrateRequest(msg: Json, address: string, newCodeId: u64)

  datatype Batch =
    | StoreBatch(stores: seq<StoreRequest>)
    | InstantiateBatch(instantiations: seq<InstantiateRequest>)
    | ExecBatch(executions: seq<ExecRequest>)
    | MigrateBatch(migrations: seq<MigrateRequest>)

  datatype Reply = Committed(codeIds: seq<u64>, addresses: seq<string>) | Rejected(error: ChainError)

  class Chain {
    /** The RPC endpoints for which building a client succeeds (the client constructor rejects the others). */
    const accepted: set<string>
    /** The chain's answer to the n-th batch. */
    const answer: (nat, Batch) -> Reply
    /** Every batch submitted so far, in order. */
    var sent: seq<Batch>

    constructor (accepted: set<string>, answer: (nat, Batch) -> Reply)
      ensures this.accepted == accepted && this.answer == answer && sent == []
    {
      this.accepted := accepted;
      this.answer := answer;
      sent := [];
    }

    /** Building an RPC client for `endpoint`; an endpoint the constructor rejects is a transport error. */
    predicate Accepts(endpoint: string) {
      endpoint in accepted
    }

    /** One batch transaction: recorded, and answered by the chain. */
    method Submit(b: Batch) returns (reply: Reply)
      modifies this`sent
      ensures sent == old(sent) + [b]
      ensures reply == answer(|old(sent)|, b)
    {
      reply := answer(|sent|, b);
      sent := sent + [b];
    }
  }
}
