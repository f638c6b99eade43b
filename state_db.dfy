/** The part of the world-state database that the state transition reads and
    writes: balances, nonces, the refund counter and the per-transaction log
    buffer. Tries, storage, code and journalling are not modelled. */
module State {
  import opened Common

  /** The observable content of a StateDB as one value. */
  datatype WorldState = WorldState(
    balances: map<Address, Wei>,
    nonces: map<Address, u64>,
    refund: u64,
    logs: map<Hash, seq<Log>>,
    thash: Hash)

  /** Balance of `a`; an account never touched has balance zero. */
  function BalanceOf(balances: map<Address, Wei>, a: Address): Wei
  {
    if a in balances then balances[a] else 0
  }

  /** Nonce of `a`; an account never touched has nonce zero. */
  function NonceOf(nonces: map<Address, u64>, a: Address): u64
  {
    if a in nonces then nonces[a] else 0
  }

  /** Logs recorded for transaction `h` so far. */
  function LogsOf(logs: map<Hash, seq<Log>>, h: Hash): seq<Log>
  {
    if h in logs then logs[h] else []
  }

  /** `logs` with `ls` appended to the logs of transaction `h`. */
  function AppendLogs(logs: map<Hash, seq<Log>>, h: Hash, ls: seq<Log>): (r: map<Hash, seq<Log>>)
    ensures LogsOf(r, h) == LogsOf(logs, h) + ls
    ensures forall g :: g != h ==> LogsOf(r, g) == LogsOf(logs, g)
  {
    if ls == [] then logs else logs[h := LogsOf(logs, h) + ls]
  }

  /** Appending in two steps is appending the concatenation. */
  lemma AppendLogsTwice(logs: map<Hash, seq<Log>>, h: Hash, a: seq<Log>, b: seq<Log>)
    ensures AppendLogs(AppendLogs(logs, h, a), h, b) == AppendLogs(logs, h, a + b)
  {
    if a == [] {
      assert a + b == b;
    } else if b == [] {
      assert a + b == a;
    } else {
      assert LogsOf(logs, h) + a + b == LogsOf(logs, h) + (a + b);
    }
  }

  /** `balances` with `amount` added to the balance of `a`. */
  function Credit(balances: map<Address, Wei>, a: Address, amount: Wei): (r: map<Address, Wei>)
    ensures BalanceOf(r, a) == BalanceOf(balances, a) + amount
    ensures forall b :: b != a ==> BalanceOf(r, b) == BalanceOf(balances, b)
  {
    balances[a := BalanceOf(balances, a) + amount]
  }

  class StateDB {
    var balances: map<Address, Wei>
    var nonces: map<Address, u64>
    var refund: u64
    var logs: map<Hash, seq<Log>>
    var thash: Hash
    var bhash: Hash
    var txIndex: nat
    /** Trie hashing of the accounts (foreign to this model). */
    const rootOf: (map<Address, Wei>, map<Address, u64>) -> Hash

    constructor (balances: map<Address, Wei>, nonces: map<Address, u64>, rootOf: (map<Address, Wei>, map<Address, u64>) -> Hash)
      ensures this.balances == balances && this.nonces == nonces && this.rootOf == rootOf
      ensures refund == 0 && logs == map[] && thash == 0 && bhash == 0 && txIndex == 0
    {
      this.balances := balances;
      this.nonces := nonces;
      this.rootOf := rootOf;
      refund := 0;
      logs := map[];
      thash, bhash, txIndex := 0, 0, 0;
    }

    function World(): WorldState
      reads this
    {
      WorldState(balances, nonces, refund, logs, thash)
    }

    function GetBalance(a: Address): Wei
      reads this
    {
      BalanceOf(balances, a)
    }

    function GetNonce(a: Address): u64
      reads this
    {
      NonceOf(nonces, a)
    }

    function GetRefund(): u64
      reads this
    {
      refund
    }

    function GetLogs(h: Hash): seq<Log>
      reads this
    {
      LogsOf(logs, h)
    }

    method AddBalance(a: Address, amount: Wei)
      modifies this`balances
      ensures balances == Credit(old(balances), a, amount)
    {
      balances := Credit(balances, a, amount);
    }

    method SubBalance(a: Address, amount: Wei)
      modifies this`balances
      ensures balances == Credit(old(balances), a, -amount)
    {
      balances := Credit(balances, a, -amount);
    }

    method SetNonce(a: Address, n: u64)
      modifies this`nonces
      ensures nonces == old(nonces)[a := n]
      ensures GetNonce(a) == n
    {
      nonces := nonces[a := n];
    }

    /** Adds to the refund counter, with uint64 wrap-around. */
    method AddRefund(gas: u64)
      modifies this`refund
      ensures refund == WrapAdd(old(refund), gas)
    {
      refund := WrapAdd(refund, gas);
    }

    /** Records a log under the current transaction's hash. */
    method AddLog(log: Log)
      modifies this`logs
      ensures logs == AppendLogs(old(logs), thash, [log])
    {
      logs := logs[thash := GetLogs(thash) + [log]];
    }

    /** Sets the transaction context that subsequent logs are attributed to. */
    method Prepare(thash: Hash, bhash: Hash, ti: nat)
      modifies this`thash, this`bhash, this`txIndex
      ensures this.thash == thash && this.bhash == bhash && txIndex == ti
    {
      this.thash, this.bhash, txIndex := thash, bhash, ti;
    }

    /** Ends the transaction: the refund counter is cleared. */
    method Finalise(deleteEmptyObjects: bool)
      modifies this`refund
      ensures refund == 0
    {
      refund := 0;
    }

    /** Finalises the transaction and returns the root of the accounts. */
    method IntermediateRoot(deleteEmptyObjects: bool) returns (root: Hash)
      modifies this`refund
      ensures refund == 0
      ensures root == rootOf(balances, nonces)
    {
      Finalise(deleteEmptyObjects);
      root := rootOf(balances, nonces);
    }
  }
}
