/**
 Store keys of the transaction service (transaction/transaction.go) and the hash parsing of
 the Ethereum library they rely on.
 */
module Keys {
  import opened Wrappers
  import opened Ledger

  const NONCE_PREFIX := "transaction_nonce_"
  const STORED_PREFIX := "transaction_stored_"
  const PENDING_PREFIX := "transaction_pending_"

  // ---------------------------------------------------------------- hexadecimal

  const DIGITS := "0123456789abcdef"

  /** Hexadecimal digits are read in either case. */
  function Digit(c: char): int {
    if '0' <= c <= '9' then c as int - '0' as int
    else if 'a' <= c <= 'f' then c as int - 'a' as int + 10
    else if 'A' <= c <= 'F' then c as int - 'A' as int + 10
    else -1
  }

  /** `%x`: two lower-case digits a byte, no prefix. */
  function Hex(bytes: seq<Byte>): string {
    if bytes == [] then "" else [DIGITS[bytes[0] / 16], DIGITS[bytes[0] % 16]] + Hex(bytes[1..])
  }

  /** Decoding keeps the bytes read before the first bad digit. */
  function DecodeHex(s: string): seq<Byte> {
    if |s| < 2 || Digit(s[0]) < 0 || Digit(s[1]) < 0 then []
    else [Digit(s[0]) * 16 + Digit(s[1])] + DecodeHex(s[2..])
  }

  /** Drops an optional 0x, pads an odd number of digits with a leading zero. */
  function PadHex(s: string): string {
    var t := if |s| >= 2 && s[0] == '0' && (s[1] == 'x' || s[1] == 'X') then s[2..] else s;
    if |t| % 2 == 1 then "0" + t else t
  }

  /** Crops on the left to 32 bytes, or pads on the left with zeros. */
  function BytesToHash(b: seq<Byte>): (h: Hash)
    ensures |h.bytes| == 32
  {
    if |b| > 32 then Hash(b[|b| - 32..]) else Hash(seq(32 - |b|, _ => 0) + b)
  }

  function HexToHash(s: string): Hash {
    BytesToHash(DecodeHex(PadHex(s)))
  }

  function TrimPrefix(s: string, prefix: string): string {
    if prefix <= s then s[|prefix|..] else s
  }

  function StoredKey(h: Hash): string { STORED_PREFIX + Hex(h.bytes) }

  function PendingKey(h: Hash): string { PENDING_PREFIX + Hex(h.bytes) }

  function NonceKey(sender: seq<Byte>): string { NONCE_PREFIX + Hex(sender) }

  /** What `PendingTransactions` makes of a key. */
  function ParsePending(key: string): Hash { HexToHash(TrimPrefix(key, PENDING_PREFIX)) }

  lemma DigitOfDigit(n: int)
    requires 0 <= n < 16
    ensures Digit(DIGITS[n]) == n && DIGITS[n] != 'x' && DIGITS[n] != 'X'
  {
  }

  lemma {:induction false} DecodeOfHex(bytes: seq<Byte>)
    ensures |Hex(bytes)| == 2 * |bytes|
    ensures DecodeHex(Hex(bytes)) == bytes
    ensures bytes != [] ==> Hex(bytes)[1] != 'x' && Hex(bytes)[1] != 'X'
  {
    if bytes != [] {
      var b := bytes[0];
      DigitOfDigit(b / 16);
      DigitOfDigit(b % 16);
      DecodeOfHex(bytes[1..]);
      assert Hex(bytes)[2..] == Hex(bytes[1..]);
      assert bytes == [b] + bytes[1..];
    }
  }

  /** Parsing a pending key inverts printing it, for every 32-byte hash. */
  lemma ParsePrintPending(h: Hash)
    requires |h.bytes| == 32
    ensures ParsePending(PendingKey(h)) == h
  {
    DecodeOfHex(h.bytes);
    assert PendingKey(h)[|PENDING_PREFIX|..] == Hex(h.bytes);
    assert PadHex(Hex(h.bytes)) == Hex(h.bytes);
  }

  /** What the keys look like. */
  lemma KeysPrinted(h: Hash, sender: seq<Byte>)
    requires h.bytes == [0x0a, 0xf3] && sender == [0x9c]
    ensures StoredKey(h) == "transaction_stored_0af3" && PendingKey(h) == "transaction_pending_0af3"
    ensures NonceKey(sender) == "transaction_nonce_9c"
  {
    assert h.bytes[1..] == [0xf3] && [0xf3][1..] == [] && sender[1..] == [];
    assert Hex([0xf3]) == "f3";
  }

  /** The three families of keys never collide, and within a family keys are as different as hashes. */
  lemma KeysApart(h: Hash, g: Hash, sender: seq<Byte>)
    ensures !(PENDING_PREFIX <= StoredKey(h)) && !(PENDING_PREFIX <= NonceKey(sender))
    ensures StoredKey(h) != NonceKey(sender)
    ensures StoredKey(h) == StoredKey(g) ==> h == g
  {
    assert StoredKey(h)[12] == 's' && NonceKey(sender)[12] == 'n' && PENDING_PREFIX[12] == 'p';
    DecodeOfHex(h.bytes);
    DecodeOfHex(g.bytes);
    assert StoredKey(h)[|STORED_PREFIX|..] == Hex(h.bytes);
    assert StoredKey(g)[|STORED_PREFIX|..] == Hex(g.bytes);
  }
}
