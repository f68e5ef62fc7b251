/** Asset precompile addresses, pallet accounts and padded accounts: writing them and reading them back. */
module AddressCodec {
  import opened Wrappers
  import opened Decimals

  newtype Byte = x: int | 0 <= x < 256

  // ---------------------------------------------------------------- hexadecimal

  function HexChar(d: nat): (c: char)
    requires d < 16
    ensures IsHex(c) && HexValue(c) == d
  {
    if d < 10 then '0' + d as char else 'a' + (d - 10) as char
  }

  /** Lower-case hexadecimal digits. */
  predicate IsHex(c: char) {
    '0' <= c <= '9' || 'a' <= c <= 'f'
  }

  function HexValue(c: char): (d: nat)
    requires IsHex(c)
    ensures d < 16
  {
    if '0' <= c <= '9' then (c - '0') as nat else (c - 'a') as nat + 10
  }

  lemma {:induction false} HexCharValue(c: char)
    requires IsHex(c)
    ensures HexChar(HexValue(c)) == c
  {
  }

  /** The `j`-th half byte, most significant first. */
  function Nibble(b: seq<Byte>, j: nat): (d: nat)
    requires j < 2 * |b|
    ensures d < 16
  {
    if j % 2 == 0 then b[j / 2] as nat / 16 else b[j / 2] as nat % 16
  }

  /** `Buffer.toString("hex")`. */
  function ToHex(b: seq<Byte>): (s: string)
    ensures |s| == 2 * |b|
    ensures forall j :: 0 <= j < |s| ==> s[j] == HexChar(Nibble(b, j))
  {
    seq(2 * |b|, j requires 0 <= j < 2 * |b| => HexChar(Nibble(b, j)))
  }

  function ByteOf(hi: char, lo: char): Byte
    requires IsHex(hi) && IsHex(lo)
  {
    (HexValue(hi) * 16 + HexValue(lo)) as Byte
  }

  /** `Buffer.from(s, "hex")`: whole pairs of hex digits, up to the first pair that is none. */
  function FromHex(s: string): seq<Byte>
    decreases |s|
  {
    if |s| >= 2 && IsHex(s[0]) && IsHex(s[1]) then [ByteOf(s[0], s[1])] + FromHex(s[2..]) else []
  }

  predicate AllHex(s: string) {
    forall i :: 0 <= i < |s| ==> IsHex(s[i])
  }

  lemma {:induction false} FromHexOf(s: string)
    requires AllHex(s) && |s| % 2 == 0
    ensures |FromHex(s)| == |s| / 2
    ensures forall i :: 0 <= i < |s| / 2 ==> FromHex(s)[i] == ByteOf(s[2 * i], s[2 * i + 1])
    decreases |s|
  {
    if s != "" {
      FromHexOf(s[2..]);
    }
  }

  lemma {:induction false} HexByte(hi: char, lo: char)
    requires IsHex(hi) && IsHex(lo)
    ensures HexChar(ByteOf(hi, lo) as nat / 16) == hi && HexChar(ByteOf(hi, lo) as nat % 16) == lo
  {
    HexCharValue(hi);
    HexCharValue(lo);
  }

  lemma {:induction false} ToHexAllHex(b: seq<Byte>)
    ensures AllHex(ToHex(b))
  {
  }

  /** Writing what was read. */
  lemma {:induction false} HexReadWrite(s: string)
    requires AllHex(s) && |s| % 2 == 0
    ensures ToHex(FromHex(s)) == s
  {
    FromHexOf(s);
    forall j | 0 <= j < |s| ensures ToHex(FromHex(s))[j] == s[j] {
      HexByte(s[2 * (j / 2)], s[2 * (j / 2) + 1]);
    }
  }

  function LowerChar(c: char): char {
    if 'A' <= c <= 'Z' then c - 'A' + 'a' else c
  }

  /** `toLowerCase`, for the letters that matter here. */
  function Lower(s: string): (r: string)
    ensures |r| == |s| && forall i :: 0 <= i < |s| ==> r[i] == LowerChar(s[i])
  {
    seq(|s|, i requires 0 <= i < |s| => LowerChar(s[i]))
  }

  // ---------------------------------------------------------------- tokenAddress

  /** The four low bytes of a number, most significant first. */
  function BigEndian4(n: nat): (r: seq<Byte>)
    ensures |r| == 4
  {
    [(n / 16777216 % 256) as Byte, (n / 65536 % 256) as Byte, (n / 256 % 256) as Byte, (n % 256) as Byte]
  }

  function Pow256(i: nat): (r: nat)
    ensures r > 0
  {
    if i == 0 then 1 else 256 * Pow256(i - 1)
  }

  lemma {:induction false} Pow256Values()
    ensures Pow256(0) == 1 && Pow256(1) == 256 && Pow256(2) == 65536 && Pow256(3) == 16777216
  {
  }

  /** Byte `3 - i` of the buffer is the number over 256^i, as a typed array stores it: modulo 256. */
  method NumToBuffer(num: nat) returns (arr: array<Byte>)
    ensures fresh(arr) && arr.Length == 4 && arr[..] == BigEndian4(num)
  {
    arr := new Byte[4](_ => 0);
    Pow256Values();
    for i := 0 to 4
      invariant forall j :: 0 <= j < i ==> arr[3 - j] == (num / Pow256(j) % 256) as Byte
    {
      arr[3 - i] := (num / Pow256(i) % 256) as Byte;
    }
    assert arr[3] == (num / Pow256(0) % 256) as Byte && arr[2] == (num / Pow256(1) % 256) as Byte
      && arr[1] == (num / Pow256(2) % 256) as Byte && arr[0] == (num / Pow256(3) % 256) as Byte;
  }

  const PREFIX: seq<Byte> := [0, 0, 0, 0, 0, 0, 0, 0, 0, 0, 0, 0, 0, 0, 0, 1]

  function TokenAddressOf(id: nat): (s: string)
    ensures |s| == 42
  {
    "0x" + ToHex(PREFIX + BigEndian4(id))
  }

  method TokenAddress(assetId: nat) returns (s: string)
    ensures s == TokenAddressOf(assetId)
  {
    var buffer := new Byte[20](i => if i == 15 then 1 else 0);
    var idBuffer := NumToBuffer(assetId);
    forall i | 0 <= i < 4 {
      buffer[16 + i] := idBuffer[i];
    }
    assert buffer[..] == PREFIX + BigEndian4(assetId);
    s := "0x" + ToHex(buffer[..]);
  }

  const ID_SPACE: nat := 4294967296

  /** The id that four bytes spell. */
  function Spelled(b: seq<Byte>): (n: nat)
    requires |b| == 4
    ensures n < ID_SPACE
  {
    ((b[0] as nat * 256 + b[1] as nat) * 256 + b[2] as nat) * 256 + b[3] as nat
  }

  /** One division by 256 after another. */
  lemma {:induction false} DivSteps(n: nat)
    ensures n / 65536 == n / 256 / 256 && n / 16777216 == n / 256 / 256 / 256
    ensures n / ID_SPACE == n / 256 / 256 / 256 / 256
  {
  }

  lemma {:induction false} SpelledBigEndian(n: nat)
    ensures Spelled(BigEndian4(n)) == n % ID_SPACE
  {
    DivSteps(n);
    var q1 := n / 256;
    var q2 := q1 / 256;
    var q3 := q2 / 256;
    var q4 := q3 / 256;
    assert n == q1 * 256 + n % 256 && q1 == q2 * 256 + q1 % 256;
    assert q2 == q3 * 256 + q2 % 256 && q3 == q4 * 256 + q3 % 256;
    assert n == q4 * ID_SPACE + Spelled(BigEndian4(n));
  }

  lemma {:induction false} BigEndianSpelled(b: seq<Byte>)
    requires |b| == 4
    ensures BigEndian4(Spelled(b)) == b
  {
    var b0, b1, b2, b3 := b[0] as nat, b[1] as nat, b[2] as nat, b[3] as nat;
    var n := Spelled(b);
    DivSteps(n);
    assert n / 256 == (b0 * 256 + b1) * 256 + b2 && n % 256 == b3;
    assert n / 256 / 256 == b0 * 256 + b1 && n / 256 % 256 == b2;
    assert n / 256 / 256 / 256 == b0 && n / 256 / 256 % 256 == b1;
  }

  // ---------------------------------------------------------------- resolveAddress

  /** Big-endian value of hex digits: `parseInt(s, 16)`. */
  function ParseHex(s: string): nat
    requires AllHex(s)
  {
    if s == "" then 0 else ParseHex(s[..|s| - 1]) * 16 + HexValue(s[|s| - 1])
  }

  /** The pattern of asset precompiles on a lower-case address: 31 zeros, a one, eight hex digits. */
  predicate Precompile(lower: string) {
    && |lower| == 42 && lower[0] == '0' && lower[1] == 'x'
    && (forall i :: 2 <= i < 33 ==> lower[i] == '0') && lower[33] == '1'
    && AllHex(lower[34..])
  }

  /** The asset id that the decoder extracts from an address. */
  function AssetIdOf(address: string): Option<nat> {
    if Precompile(Lower(address)) then Some(ParseHex(Lower(address)[34..])) else None
  }

  /** The project's known asset symbols. */
  function SymbolOf(id: nat): string {
    if id == 0 then "HDX" else if id == 1 then "H2O" else if id == 20 then "WETH" else if id == 55 then "BIL"
    else if id == 222 then "HOLLAR" else if id == 550 then "uBIL" else if id == 10055 then "2-Pool-BIL" else ""
  }

  function AssetLabel(id: nat): string {
    if SymbolOf(id) != "" then SymbolOf(id) + " (asset " + Dec(id) + ")" else "asset " + Dec(id)
  }

  function Latin1(b: seq<Byte>): (s: string)
    ensures |s| == |b|
  {
    seq(|b|, i requires 0 <= i < |b| => b[i] as int as char)
  }

  function PalletLabel(palletId: string): string {
    if palletId == "py/trsry" then "Treasury" else "pallet:" + palletId
  }

  const MODL := "0x6d6f646c"

  predicate StartsWith(s: string, prefix: string) {
    |s| >= |prefix| && s[..|prefix|] == prefix
  }

  /** The label of an EVM address; `names` are the loaded address names, an empty one counting as none. */
  function ResolveAddress(address: string, names: map<string, string>): Option<string> {
    if !StartsWith(address, "0x") || |address| != 42 then None
    else
      var lower := Lower(address);
      if Precompile(lower) then Some(AssetLabel(ParseHex(lower[34..])))
      else if StartsWith(lower, MODL) then Some(PalletLabel(Latin1(FromHex(lower[10..26]))))
      else if lower in names && names[lower] != "" then Some(names[lower])
      else None
  }

  predicate IsBase58(c: char) {
    ('1' <= c <= '9') || ('A' <= c <= 'Z' && c != 'I' && c != 'O') || ('a' <= c <= 'z' && c != 'l')
  }

  /** The label of a substrate address; `decode` is the SS58 decoder, `None` where it throws. */
  function ResolveSubstrate(value: string, decode: string -> Option<seq<Byte>>): Option<string> {
    if !(47 <= |value| <= 48) || (exists i :: 0 <= i < |value| && !IsBase58(value[i])) then None
    else match decode(value)
      case None => None
      case Some(pubkey) =>
        if |pubkey| != 32 then None
        else
          var hex := ToHex(pubkey);
          if !StartsWith(hex, "6d6f646c") then None
          else Some(PalletLabel(Latin1(FromHex(hex[8..24]))))
  }

  // ---------------------------------------------------------------- padded accounts

  /** JavaScript's `replace("0x", "")`: the first occurrence only. */
  function StripFirst0x(s: string): string {
    if |s| < 2 then s
    else if s[..2] == "0x" then s[2..]
    else [s[0]] + StripFirst0x(s[1..])
  }

  function PadEnd(s: string, n: nat): string {
    if |s| >= n then s else s + seq(n - |s|, _ => '0')
  }

  function PadAddress(address: string): string {
    "0x" + PadEnd(StripFirst0x(address), 64)
  }

  /** The EVM address inside an account: the first 20 bytes of its 32, in lower case. */
  function EvmAddressOf(account: string): Option<string> {
    if |account| == 66 && account[..2] == "0x" && AllHex(Lower(account[2..])) then
      FromHexOf(Lower(account[2..]));
      Some("0x" + ToHex(FromHex(Lower(account[2..]))[..20]))
    else None
  }

  predicate IsEvmAddress(s: string) {
    |s| == 42 && s[..2] == "0x" && AllHex(Lower(s[2..]))
  }
}
