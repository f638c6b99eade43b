/** The EVM as seen from the state transition: an opaque executor that is
    given a call frame and reports the gas it spent, an error, the refund it
    earned and the logs it emitted. */
module Vm {
  import opened Common
  import opened State

  /** What the EVM is asked to run: `to == None` is a contract creation. */
  datatype CallFrame = CallFrame(caller: Address, to: Option<Address>, input: seq<byte>, gas: u64, value: Wei)

  /** What running a frame yields, before the gas limit of the frame is applied. */
  datatype Execution = Execution(ret: seq<byte>, gasSpent: nat, err: Option<Error>, refund: u64, logs: seq<Log>)

  /** The interpreter, as a function of the frame and the accounts it sees. */
  type Executor = (CallFrame, map<Address, Wei>, map<Address, u64>) -> Execution

  /** The block context of the EVM that the state transition consults. */
  datatype Context = Context(origin: Address, coinbase: Address, homestead: bool)

  /** The outcome of running a frame against a world state. */
  datatype Executed = Executed(post: WorldState, ret: seq<byte>, leftOverGas: u64, err: Option<Error>)

  /** Runs `frame`: an execution that needs more gas than the frame carries
      fails with ErrOutOfGas and consumes all of it; any failed execution
      leaves the world state as it was; a successful one adds its refund to the
      counter and appends its logs. */
  function Run(executor: Executor, frame: CallFrame, w: WorldState): (x: Executed)
    ensures x.leftOverGas <= frame.gas
    ensures x.post.balances == w.balances && x.post.nonces == w.nonces && x.post.thash == w.thash
    ensures x.err.Some? ==> x.post == w
    ensures frame.gas < executor(frame, w.balances, w.nonces).gasSpent ==> x.err == Some(ErrOutOfGas) && x.leftOverGas == 0
  {
    var e := executor(frame, w.balances, w.nonces);
    if e.gasSpent <= frame.gas then
      var post :=
        if e.err.None? then
          w.(refund := WrapAdd(w.refund, e.refund), logs := AppendLogs(w.logs, w.thash, e.logs))
        else w;
      Executed(post, e.ret, frame.gas - e.gasSpent, e.err)
    else
      Executed(w, [], 0, Some(ErrOutOfGas))
  }

  class Evm {
    const context: Context
    const stateDB: StateDB
    const executor: Executor

    constructor (context: Context, stateDB: StateDB, executor: Executor)
      ensures this.context == context && this.stateDB == stateDB && this.executor == executor
    {
      this.context := context;
      this.stateDB := stateDB;
      this.executor := executor;
    }

    /** Runs the init code `code` to create a contract. */
    method Create(caller: Address, code: seq<byte>, gas: u64, value: Wei)
      returns (ret: seq<byte>, leftOverGas: u64, err: Option<Error>)
      modifies stateDB`refund, stateDB`logs
      ensures var x := Run(executor, CallFrame(caller, None, code, gas, value), old(stateDB.World()));
        stateDB.World() == x.post && ret == x.ret && leftOverGas == x.leftOverGas && err == x.err
    {
      ret, leftOverGas, err := Execute(CallFrame(caller, None, code, gas, value));
    }

    /** Runs the code at `addr` with `input`. */
    method Call(caller: Address, addr: Address, input: seq<byte>, gas: u64, value: Wei)
      returns (ret: seq<byte>, leftOverGas: u64, err: Option<Error>)
      modifies stateDB`refund, stateDB`logs
      ensures var x := Run(executor, CallFrame(caller, Some(addr), input, gas, value), old(stateDB.World()));
        stateDB.World() == x.post && ret == x.ret && leftOverGas == x.leftOverGas && err == x.err
    {
      ret, leftOverGas, err := Execute(CallFrame(caller, Some(addr), input, gas, value));
    }

    method Execute(frame: CallFrame) returns (ret: seq<byte>, leftOverGas: u64, err: Option<Error>)
      modifies stateDB`refund, stateDB`logs
      ensures var x := Run(executor, frame, old(stateDB.World()));
        stateDB.World() == x.post && ret == x.ret && leftOverGas == x.leftOverGas && err == x.err
    {
      var e := executor(frame, stateDB.balances, stateDB.nonces);
      if frame.gas < e.gasSpent {
        return [], 0, Some(ErrOutOfGas);
      }
      if e.err.None? {
        stateDB.AddRefund(e.refund);
        EmitLogs(e.logs);
      }
      return e.ret, frame.gas - e.gasSpent, e.err;
    }

    /** Records `logs` in order, as the running code emits them. */
    method EmitLogs(logs: seq<Log>)
      modifies stateDB`logs
      ensures stateDB.logs == AppendLogs(old(stateDB.logs), stateDB.thash, logs)
    {
      for i := 0 to |logs|
        invariant stateDB.logs == AppendLogs(old(stateDB.logs), stateDB.thash, logs[..i])
      {
        stateDB.AddLog(logs[i]);
        assert logs[..i + 1] == logs[..i] + [logs[i]];
        AppendLogsTwice(old(stateDB.logs), stateDB.thash, logs[..i], [logs[i]]);
      }
      assert logs[..|logs|] == logs;
    }
  }
}
