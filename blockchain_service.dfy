/**
 * The execution gateway: an action becomes at most one call to the trade
 * contract. The contract is an object that records which of its methods
 * were invoked and which transactions were awaited; what the network
 * answers is a parameter, indexed by call number.
 */
module Blockchain {
  import opened Wrappers
  import opened OracleErrors
  import opened OracleStrategy

  /** A submitted transaction, known by its hash. */
  datatype Tx = Tx(hash: string)

  /** What `executeAction` returns for an executed action. */
  datatype BlockchainResult = BlockchainResult(txHash: string, action: string)

  const TransactionFailedPrefix: string := "Transaction failed for action "

  /**
   * The contract method an action invokes: `buy` for BUY, `sell` otherwise
   * (the gateway only asks once NO_ACTION has been ruled out). The two
   * actionable actions invoke different methods.
   */
  function ContractMethod(a: Action): (m: string)
    ensures a == Buy <==> m == "buy"
    ensures a == Sell ==> m == "sell"
    ensures m == "buy" || m == "sell"
  {
    if a == Buy then "buy" else "sell"
  }

  /**
   * The outcome of an actionable action, given the contract's answer to the
   * submission and, when it was accepted, to the wait for confirmation.
   */
  function Settle(action: Action, submitted: Result<Tx, Failure>, confirmed: Outcome<Failure>)
    : (r: Result<Option<BlockchainResult>, Failure>)
    ensures r.Success? ==> r.value.Some?
    ensures r.Success? <==> submitted.Success? && confirmed.Pass?
    ensures r.Success? ==> r.value.value == BlockchainResult(submitted.value.hash, ActionTag(action))
    ensures submitted.Failure? ==>
      r == Failure(OracleExecutionError(TransactionFailedPrefix + ActionTag(action), Some(submitted.error)))
    ensures submitted.Success? && confirmed.Fail? ==> r == Failure(confirmed.error)
  {
    match submitted
    case Failure(e) => Failure(NewOracleExecutionError(TransactionFailedPrefix + ActionTag(action), Some(e)))
    case Success(tx) =>
      match confirmed
      case Fail(e) => Failure(e)
      case Pass => Success(Some(BlockchainResult(tx.hash, ActionTag(action))))
  }

  /** An executed result never reports NO_ACTION, and it reports the action it executed. */
  lemma SettledActionIsActionable(action: Action, submitted: Result<Tx, Failure>, confirmed: Outcome<Failure>)
    requires action != NoAction
    ensures Settle(action, submitted, confirmed).Success? ==>
      && Settle(action, submitted, confirmed).value.value.action != "NO_ACTION"
      && Settle(action, submitted, confirmed).value.value.action in {"BUY", "SELL"}
  {
  }

  class TradeContract {
    /** The contract methods invoked so far, in order. */
    var calls: seq<string>
    /** The hashes of the transactions whose confirmation was awaited, in order. */
    var awaited: seq<string>
    /** The network's answer to the k-th submission of a method. */
    const submit: (nat, string) -> Result<Tx, Failure>
    /** The network's answer to the k-th wait for a transaction. */
    const confirm: (nat, Tx) -> Outcome<Failure>

    constructor(submit: (nat, string) -> Result<Tx, Failure>, confirm: (nat, Tx) -> Outcome<Failure>)
      ensures calls == [] && awaited == []
      ensures this.submit == submit && this.confirm == confirm
    {
      calls, awaited := [], [];
      this.submit, this.confirm := submit, confirm;
    }

    /** Calls the zero-argument contract method `name`. */
    method Invoke(name: string) returns (r: Result<Tx, Failure>)
      modifies this
      ensures calls == old(calls) + [name] && awaited == old(awaited)
      ensures r == submit(|old(calls)|, name)
    {
      r := submit(|calls|, name);
      calls := calls + [name];
    }

    /** `tx.wait()`: waits for the transaction to be confirmed. */
    method Wait(tx: Tx) returns (o: Outcome<Failure>)
      modifies this
      ensures awaited == old(awaited) + [tx.hash] && calls == old(calls)
      ensures o == confirm(|old(awaited)|, tx)
    {
      o := confirm(|awaited|, tx);
      awaited := awaited + [tx.hash];
    }
  }

  class BlockchainService {
    const contract: TradeContract

    constructor(contract: TradeContract)
      ensures this.contract == contract
    {
      this.contract := contract;
    }

    /**
     * `executeAction`: NO_ACTION touches nothing and returns null; BUY and
     * SELL invoke their contract method exactly once and, if it was
     * accepted, wait for that transaction's confirmation before returning.
     */
    method ExecuteAction(action: Action) returns (r: Result<Option<BlockchainResult>, Failure>)
      modifies contract
      ensures action == NoAction ==>
        r == Success(None) && contract.calls == old(contract.calls) && contract.awaited == old(contract.awaited)
      ensures action != NoAction ==> contract.calls == old(contract.calls) + [ContractMethod(action)]
      ensures action != NoAction ==>
        var submitted := contract.submit(|old(contract.calls)|, ContractMethod(action));
        && (submitted.Failure? ==> contract.awaited == old(contract.awaited))
        && (submitted.Success? ==> contract.awaited == old(contract.awaited) + [submitted.value.hash])
        && r == Settle(action, submitted,
                       if submitted.Success? then contract.confirm(|old(contract.awaited)|, submitted.value) else Pass)
    {
      if action == NoAction {
        return Success(None);
      }
      var methodName := ContractMethod(action);
      var submitted := contract.Invoke(methodName);
      match submitted {
        case Failure(e) =>
          r := Failure(NewOracleExecutionError(TransactionFailedPrefix + ActionTag(action), Some(e)));
        case Success(tx) =>
          var confirmed := contract.Wait(tx);
          match confirmed {
            case Fail(e) =>
              r := Failure(e);
            case Pass =>
              r := Success(Some(BlockchainResult(tx.hash, ActionTag(action))));
          }
      }
    }
  }
}
