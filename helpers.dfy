/** Constants shared by the mappings and the string conversions the host
    runtime performs when it builds entity ids: `toHexString()` on bytes and
    `toString()` on a block number. */
module Helpers {

  /** One byte of a host `Bytes` or `Address` value. */
  type Byte = b: int | 0 <= b < 256

  /** Raw bytes: contract addresses and transaction hashes. */
  type Bytes = seq<Byte>

  /** The id under which the single factory record is stored. */
  const FACTORY_ADDRESS: string := "0xF0EE0b31aAE29f0bEa8Ff806c101377Fc92e4FFA"

  /** One hour of chain time, in seconds: the periodic snapshot throttle. */
  const SNAPSHOT_TIMEFRAME: int := 60 * 60

  /** The separator of the parts of a snapshot id. */
  const SEPARATOR: char := '-'

  predicate IsHexDigit(c: char) {
    '0' <= c <= '9' || 'a' <= c <= 'f'
  }

  predicate IsDecimalDigit(c: char) {
    '0' <= c <= '9'
  }

  /** The lower-case hexadecimal digit of a nibble. */
  function HexDigit(d: int): (c: char)
    requires 0 <= d < 16
    ensures IsHexDigit(c)
    ensures c as int - (if d < 10 then 48 else 87) == d
  {
    if d < 10 then (48 + d) as char else (87 + d) as char
  }

  /** Two lower-case hex digits per byte, most significant nibble first. */
  function HexBody(b: Bytes): (h: string)
    ensures |h| == 2 * |b|
    ensures forall i :: 0 <= i < |h| ==> IsHexDigit(h[i])
  {
    if b == [] then [] else [HexDigit(b[0] / 16), HexDigit(b[0] % 16)] + HexBody(b[1..])
  }

  /** `Bytes.toHexString()`: "0x" followed by the lower-case hex digits. */
  function ToHexString(b: Bytes): string
  {
    "0x" + HexBody(b)
  }

  /** A hex string is "0x" and two digits per byte, and never holds the
      separator of snapshot ids. */
  lemma ToHexStringShape(b: Bytes)
    ensures var h := ToHexString(b); |h| == 2 + 2 * |b| && h[..2] == "0x" && SEPARATOR !in h
  {
    var h := ToHexString(b);
    forall i | 0 <= i < |h| ensures h[i] != SEPARATOR {
      if i >= 2 { assert h[i] == HexBody(b)[i - 2]; }
    }
  }

  /** The value of a lower-case hex digit; any other character reads as zero. */
  function HexValue(c: char): (d: int)
    ensures 0 <= d < 16
    ensures IsHexDigit(c) ==> HexDigit(d) == c
  {
    if '0' <= c <= '9' then c as int - 48
    else if 'a' <= c <= 'f' then c as int - 87
    else 0
  }

  /** Reads hex digits two at a time, most significant nibble first. */
  function FromHexBody(h: string): (b: Bytes)
    ensures |b| == |h| / 2
    decreases |h|
  {
    if |h| < 2 then [] else [HexValue(h[0]) * 16 + HexValue(h[1])] + FromHexBody(h[2..])
  }

  /** `Address.fromString` on an entity id: the bytes spelt by the hex digits
      after the "0x" prefix. */
  function FromHexString(s: string): (b: Bytes)
    ensures |s| >= 2 ==> |b| == (|s| - 2) / 2
  {
    if |s| < 2 then [] else FromHexBody(s[2..])
  }

  lemma {:induction false} FromHexBodyInverse(b: Bytes)
    ensures FromHexBody(HexBody(b)) == b
  {
    if b != [] {
      var h := HexBody(b);
      assert h[0] == HexDigit(b[0] / 16) && h[1] == HexDigit(b[0] % 16);
      assert HexValue(h[0]) == b[0] / 16 && HexValue(h[1]) == b[0] % 16;
      assert h[2..] == HexBody(b[1..]);
      FromHexBodyInverse(b[1..]);
      assert b == [b[0]] + b[1..];
    }
  }

  /** Reading back the hex id of an address gives the address: the source
      rebuilds the address a vault's contract is read at from its id. */
  lemma FromHexStringInverse(b: Bytes)
    ensures FromHexString(ToHexString(b)) == b
  {
    assert ToHexString(b)[2..] == HexBody(b);
    FromHexBodyInverse(b);
  }

  /** Distinct byte strings have distinct hex strings, so hex-keyed records
      of distinct addresses never share a key. */
  lemma ToHexStringInjective(a: Bytes, b: Bytes)
    ensures ToHexString(a) == ToHexString(b) <==> a == b
  {
    FromHexStringInverse(a);
    FromHexStringInverse(b);
  }

  /** `BigInt.toString()` of a non-negative number: its decimal digits. */
  function NatToString(n: nat): (s: string)
    ensures 1 <= |s| && (n >= 10 ==> 2 <= |s|)
    ensures forall i :: 0 <= i < |s| ==> IsDecimalDigit(s[i])
  {
    if n < 10 then [(48 + n) as char] else NatToString(n / 10) + [(48 + n % 10) as char]
  }

  lemma {:induction false} NatToStringInjective(n: nat, m: nat)
    requires NatToString(n) == NatToString(m)
    ensures n == m
  {
    var s := NatToString(n);
    if n < 10 {
      assert m < 10;
      assert s[0] == (48 + n) as char == (48 + m) as char;
    } else {
      assert m >= 10;
      assert s[|s| - 1] == (48 + n % 10) as char == (48 + m % 10) as char;
      assert s[..|s| - 1] == NatToString(n / 10) == NatToString(m / 10);
      NatToStringInjective(n / 10, m / 10);
    }
  }

  /** The id of a vault snapshot: factory address, vault hex address and
      block number joined by the separator. */
  function SnapshotId(vault: Bytes, blockNumber: nat): string {
    FACTORY_ADDRESS + [SEPARATOR] + ToHexString(vault) + [SEPARATOR] + NatToString(blockNumber)
  }

  /** The longest prefix of `s` that does not contain `c`. */
  function PrefixBefore(s: string, c: char): (p: string)
    ensures |p| <= |s| && p == s[..|p|]
    ensures c !in p
  {
    if s == [] || s[0] == c then [] else [s[0]] + PrefixBefore(s[1..], c)
  }

  lemma {:induction false} PrefixBeforeJoin(x: string, c: char, y: string)
    requires c !in x
    ensures PrefixBefore(x + [c] + y, c) == x
  {
    if x != [] {
      assert (x + [c] + y)[1..] == x[1..] + [c] + y;
      PrefixBeforeJoin(x[1..], c, y);
    }
  }

  /** Splits an id at the first separator: the parts before and after it. */
  function SplitAtSeparator(s: string): (string, string) {
    var head := PrefixBefore(s, SEPARATOR);
    (head, if |head| < |s| then s[|head| + 1..] else [])
  }

  lemma SplitJoined(x: string, y: string)
    requires SEPARATOR !in x
    ensures SplitAtSeparator(x + [SEPARATOR] + y) == (x, y)
  {
    PrefixBeforeJoin(x, SEPARATOR, y);
    assert (x + [SEPARATOR] + y)[|x| + 1..] == y;
  }

  /** Reads back the hex address and the decimal block number from a
      snapshot id: the left inverse of the id construction. */
  function ParseSnapshotId(id: string): (string, string) {
    var rest := if |FACTORY_ADDRESS| + 1 <= |id| then id[|FACTORY_ADDRESS| + 1..] else [];
    SplitAtSeparator(rest)
  }

  lemma ParseSnapshotIdRoundTrip(vault: Bytes, blockNumber: nat)
    ensures ParseSnapshotId(SnapshotId(vault, blockNumber)) == (ToHexString(vault), NatToString(blockNumber))
  {
    var x, y := ToHexString(vault), NatToString(blockNumber);
    var id := SnapshotId(vault, blockNumber);
    assert id[|FACTORY_ADDRESS| + 1..] == x + [SEPARATOR] + y;
    SplitJoined(x, y);
  }

  /** Two snapshots share an id exactly when they are for the same vault in
      the same block. */
  lemma SnapshotIdInjective(a: Bytes, n: nat, b: Bytes, m: nat)
    ensures SnapshotId(a, n) == SnapshotId(b, m) <==> a == b && n == m
  {
    if SnapshotId(a, n) == SnapshotId(b, m) {
      ParseSnapshotIdRoundTrip(a, n);
      ParseSnapshotIdRoundTrip(b, m);
      ToHexStringInjective(a, b);
      NatToStringInjective(n, m);
    }
  }
}
