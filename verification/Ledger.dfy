/** The values the node works with: transactions, blocks and stored records. */
module Ledger {
  type Hash = nat
  type TxId = nat
  type Image = nat

  datatype Option<+T> = None | Some(value: T)

  /** A transaction as the pool and the chain store it; `weight` is its blob size. */
  datatype Tx = Tx(id: TxId, images: seq<Image>, fee: nat, weight: nat)

  /** `height` is the height written in the coinbase input, `outs` are the coinbase output amounts. */
  datatype Block = Block(prev: Hash, timestamp: nat, height: nat, txs: seq<TxId>, outs: seq<nat>,
                         minerWeight: nat, nonce: nat)

  /** A block with the total work up to and including it. */
  datatype Node = Node(block: Block, work: nat)

  /** What the database keeps for a block of the main chain. */
  datatype Record = Record(node: Node, coins: nat, weight: nat, txs: seq<Tx>)

  const U64: nat := 0x1_0000_0000_0000_0000

  predicate Distinct<T(==)>(s: seq<T>) {
    forall i, j :: 0 <= i < j < |s| ==> s[i] != s[j]
  }

  function Ids(txs: seq<Tx>): (ids: seq<TxId>)
    ensures |ids| == |txs|
    ensures forall i :: 0 <= i < |txs| ==> ids[i] == txs[i].id
  {
    seq(|txs|, i requires 0 <= i < |txs| => txs[i].id)
  }

  function Sum(xs: seq<nat>): nat {
    if xs == [] then 0 else Sum(xs[..|xs| - 1]) + xs[|xs| - 1]
  }

  function Fees(txs: seq<Tx>): seq<nat> {
    seq(|txs|, i requires 0 <= i < |txs| => txs[i].fee)
  }

  function Weights(txs: seq<Tx>): seq<nat> {
    seq(|txs|, i requires 0 <= i < |txs| => txs[i].weight)
  }

  function Min(a: nat, b: nat): nat { if a < b then a else b }

  function Max(a: nat, b: nat): nat { if a < b then b else a }

  function Reverse<T>(s: seq<T>): (r: seq<T>)
    ensures |r| == |s|
    ensures forall i :: 0 <= i < |s| ==> r[i] == s[|s| - 1 - i]
  {
    seq(|s|, i requires 0 <= i < |s| => s[|s| - 1 - i])
  }
}
