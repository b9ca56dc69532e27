/**
 The chain as the transaction code sees it: for each block, the hashes of the sender's
 transactions mined in it. The i-th mined transaction is the one that used nonce i.
 */
module Ledger {
  import opened Wrappers

  datatype Hash = Hash(bytes: seq<Byte>)

  type Chain = seq<seq<Hash>>

  /** All mined transactions in order. */
  function Mined(chain: Chain): seq<Hash> {
    if chain == [] then [] else Mined(chain[..|chain| - 1]) + chain[|chain| - 1]
  }

  /** The account nonce after block `b`: how many transactions were mined up to it. */
  function NonceAt(chain: Chain, b: nat): nat
    requires b < |chain|
  {
    |Mined(chain[..b + 1])|
  }

  lemma {:induction false} MinedGrows(a: Chain, b: Chain)
    requires a <= b
    ensures Mined(a) <= Mined(b)
    decreases |b|
  {
    if |a| < |b| {
      assert a <= b[..|b| - 1];
      MinedGrows(a, b[..|b| - 1]);
    } else {
      assert a == b;
    }
  }

  /** Without reorganisations a block's nonce never changes. */
  lemma NonceAtStable(a: Chain, b: Chain, k: nat)
    requires a <= b && k < |a|
    ensures NonceAt(a, k) == NonceAt(b, k) <= |Mined(b)|
  {
    assert a[..k + 1] == b[..k + 1];
    MinedGrows(b[..k + 1], b);
  }

  lemma NonceAtMonotone(chain: Chain, j: nat, k: nat)
    requires j <= k < |chain|
    ensures NonceAt(chain, j) <= NonceAt(chain, k)
  {
    assert chain[..j + 1] <= chain[..k + 1];
    MinedGrows(chain[..j + 1], chain[..k + 1]);
  }

  // ---------------------------------------------------------------- what the node answers

  datatype NonceAnswer = Nonce(n: nat) | NonceError

  datatype ReceiptAnswer = Receipt(hash: Hash) | NoReceipt | ReceiptNotFound | ReceiptError

  /** A node may fail, but what it does answer is true of its chain. */
  ghost predicate HonestNonce(chain: Chain, block: nat, a: NonceAnswer) {
    a.Nonce? ==> block < |chain| && a.n == NonceAt(chain, block)
  }

  ghost predicate HonestReceipt(chain: Chain, h: Hash, a: ReceiptAnswer) {
    match a
    case Receipt(hash) => hash == h && h in Mined(chain)
    case NoReceipt => h !in Mined(chain)
    case ReceiptNotFound => h !in Mined(chain)
    case ReceiptError => true
  }
}
