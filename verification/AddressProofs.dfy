/** Reading inverts writing for asset addresses, pallet accounts and padded accounts. */
module AddressProofs {
  import opened Wrappers
  import opened Decimals
  import opened AddressCodec

  // ---------------------------------------------------------------- asset precompiles

  lemma {:induction false} ParseTwoMore(s: string, t: string)
    requires AllHex(t) && |t| == |s| + 2 && t[..|s|] == s
    ensures AllHex(s) && ParseHex(t) == ParseHex(s) * 256 + HexValue(t[|s|]) * 16 + HexValue(t[|s| + 1])
  {
    var mid := t[..|s| + 1];
    assert mid[..|s|] == s;
    assert AllHex(s) by {
      forall i | 0 <= i < |s| ensures IsHex(s[i]) {
        assert s[i] == t[..|s|][i];
      }
    }
  }

  /** Hex text of two pieces. */
  lemma {:induction false} ToHexAppend(a: seq<Byte>, b: seq<Byte>)
    ensures ToHex(a + b) == ToHex(a) + ToHex(b)
  {
    forall j | 0 <= j < 2 * |a + b| ensures ToHex(a + b)[j] == (ToHex(a) + ToHex(b))[j] {
      if j < 2 * |a| {
        assert (a + b)[j / 2] == a[j / 2];
      } else {
        var i := j - 2 * |a|;
        assert j / 2 == |a| + i / 2 && j % 2 == i % 2;
        assert (a + b)[j / 2] == b[i / 2];
      }
    }
  }

  lemma {:induction false} OneByteHex(x: Byte)
    ensures var t := ToHex([x]);
      |t| == 2 && HexValue(t[0]) * 16 + HexValue(t[1]) == x as nat
  {
    assert Nibble([x], 0) == x as nat / 16 && Nibble([x], 1) == x as nat % 16;
  }

  lemma {:induction false} ParseAnother(a: seq<Byte>, x: Byte)
    ensures AllHex(ToHex(a)) && AllHex(ToHex(a + [x]))
    ensures ParseHex(ToHex(a + [x])) == ParseHex(ToHex(a)) * 256 + x as nat
  {
    ToHexAllHex(a);
    ToHexAllHex(a + [x]);
    ToHexAppend(a, [x]);
    OneByteHex(x);
    var s, t := ToHex(a), ToHex(a + [x]);
    assert t[..|s|] == s && t[|s|] == ToHex([x])[0] && t[|s| + 1] == ToHex([x])[1];
    ParseTwoMore(s, t);
  }

  /** Eight hex digits, read as a number and as four bytes. */
  lemma {:induction false} ParseEight(b: seq<Byte>)
    requires |b| == 4
    ensures AllHex(ToHex(b)) && ParseHex(ToHex(b)) == Spelled(b)
  {
    assert ToHex([]) == "";
    ParseAnother([], b[0]);
    ParseAnother([] + [b[0]], b[1]);
    ParseAnother([] + [b[0]] + [b[1]], b[2]);
    ParseAnother([] + [b[0]] + [b[1]] + [b[2]], b[3]);
    assert b == [] + [b[0]] + [b[1]] + [b[2]] + [b[3]];
  }

  lemma {:induction false} PrefixHex()
    ensures |ToHex(PREFIX)| == 32 && ToHex(PREFIX)[31] == '1'
    ensures forall j :: 0 <= j < 31 ==> ToHex(PREFIX)[j] == '0'
  {
    forall j | 0 <= j < 31 ensures ToHex(PREFIX)[j] == '0' {
      assert j < 30 ==> PREFIX[j / 2] == 0;
      assert j == 30 ==> PREFIX[j / 2] == 1;
    }
  }

  lemma {:induction false} TextPieces(a: string, b: string, c: string)
    ensures var s := a + (b + c);
      && s[..|a|] == a && s[|a| + |b|..] == c
      && forall i :: |a| <= i < |a| + |b| ==> s[i] == b[i - |a|]
  {
  }

  /** The text of a written address, piece by piece. */
  lemma {:induction false} TokenAddressText(id: nat)
    ensures var s := TokenAddressOf(id);
      && s[..2] == "0x" && (forall i :: 2 <= i < 33 ==> s[i] == '0') && s[33] == '1'
      && s[34..] == ToHex(BigEndian4(id))
  {
    var s := TokenAddressOf(id);
    ToHexAppend(PREFIX, BigEndian4(id));
    PrefixHex();
    TextPieces("0x", ToHex(PREFIX), ToHex(BigEndian4(id)));
  }

  /** The written address has the precompile form, and the extracted id is the written one, modulo 2^32. */
  lemma {:induction false} TokenAddressReads(id: nat)
    ensures Lower(TokenAddressOf(id)) == TokenAddressOf(id) && Precompile(TokenAddressOf(id))
    ensures AssetIdOf(TokenAddressOf(id)) == Some(id % ID_SPACE)
    ensures TokenAddressOf(id)[0] == '0' && TokenAddressOf(id)[1] == 'x'
  {
    var s := TokenAddressOf(id);
    TokenAddressText(id);
    ParseEight(BigEndian4(id));
    SpelledBigEndian(id);
    forall i | 0 <= i < |s| ensures LowerChar(s[i]) == s[i] {
      if i < 2 {
        assert s[i] == s[..2][i];
      } else if i >= 34 {
        assert s[i] == s[34..][i - 34];
      }
    }
    assert s[0] == s[..2][0] && s[1] == s[..2][1];
  }

  lemma {:induction false} ResolvePrecompile(address: string, id: nat, names: map<string, string>)
    requires |address| == 42 && address[0] == '0' && address[1] == 'x' && AssetIdOf(address) == Some(id)
    ensures ResolveAddress(address, names) == Some(AssetLabel(id))
  {
    assert address[..2] == "0x";
  }

  lemma {:induction false} SmallId(id: nat)
    requires id < ID_SPACE
    ensures id % ID_SPACE == id
  {
  }

  /** `resolveAddress` inverts `tokenAddress` on every id below 2^32, whatever names are loaded. */
  lemma {:induction false} ResolveInvertsToken(id: nat, names: map<string, string>)
    requires id < ID_SPACE
    ensures AssetIdOf(TokenAddressOf(id)) == Some(id)
    ensures ResolveAddress(TokenAddressOf(id), names) == Some(AssetLabel(id))
  {
    var s := TokenAddressOf(id);
    TokenAddressReads(id);
    SmallId(id);
    ResolvePrecompile(s, id, names);
  }

  /** Two ids share an address exactly when they agree modulo 2^32. */
  lemma {:induction false} TokenAddressCollides(a: nat, b: nat)
    ensures TokenAddressOf(a) == TokenAddressOf(b) <==> a % ID_SPACE == b % ID_SPACE
  {
    TokenAddressReads(a);
    TokenAddressReads(b);
    if a % ID_SPACE == b % ID_SPACE {
      SpelledBigEndian(a);
      SpelledBigEndian(b);
      BigEndianSpelled(BigEndian4(a));
      BigEndianSpelled(BigEndian4(b));
    }
  }

  /** The eight digits of a matching address spell a 32-bit id, and writing that id gives them back. */
  lemma {:induction false} PatternSpells(digits: string)
    requires AllHex(digits) && |digits| == 8
    ensures ParseHex(digits) < ID_SPACE && ToHex(BigEndian4(ParseHex(digits))) == digits
  {
    var b := FromHex(digits);
    FromHexOf(digits);
    HexReadWrite(digits);
    ParseEight(b);
    BigEndianSpelled(b);
  }

  lemma {:induction false} PatternText(lower: string)
    requires Precompile(lower)
    ensures ParseHex(lower[34..]) < ID_SPACE && lower == TokenAddressOf(ParseHex(lower[34..]))
  {
    var digits := lower[34..];
    PatternSpells(digits);
    TokenAddressText(ParseHex(digits));
    var t := TokenAddressOf(ParseHex(digits));
    assert t[0] == t[..2][0] && t[1] == t[..2][1];
    assert t[..34] == lower[..34];
    assert t == t[..34] + t[34..] && lower == lower[..34] + lower[34..];
  }

  /** The pattern accepts exactly the addresses that `tokenAddress` writes, in any letter case. */
  lemma {:induction false} PatternIsImage(address: string)
    ensures AssetIdOf(address).Some? <==> exists id :: 0 <= id < ID_SPACE && Lower(address) == TokenAddressOf(id)
    ensures AssetIdOf(address).Some? ==>
      AssetIdOf(address).value < ID_SPACE && Lower(address) == TokenAddressOf(AssetIdOf(address).value)
  {
    var lower := Lower(address);
    if Precompile(lower) {
      PatternText(lower);
    }
    if id :| 0 <= id < ID_SPACE && lower == TokenAddressOf(id) {
      TokenAddressReads(id);
    }
  }

  lemma {:induction false} LabelEnds(id: nat)
    ensures |AssetLabel(id)| > 0
    ensures (AssetLabel(id)[|AssetLabel(id)| - 1] == ')') <==> SymbolOf(id) != ""
  {
    if SymbolOf(id) == "" {
      assert IsDigit(AssetLabel(id)[|AssetLabel(id)| - 1]);
    }
  }

  lemma {:induction false} PlainLabels(a: nat, b: nat)
    requires SymbolOf(a) == "" && SymbolOf(b) == "" && AssetLabel(a) == AssetLabel(b)
    ensures a == b
  {
    assert AssetLabel(a)[6..] == Dec(a) && AssetLabel(b)[6..] == Dec(b);
    DecInjective(a, b);
  }

  /** The asset whose symbol starts with these two characters. */
  function IdOfHead(first: char, second: char): nat {
    if first == 'H' then (if second == 'D' then 0 else if second == '2' then 1 else 222)
    else if first == 'W' then 20 else if first == 'B' then 55 else if first == 'u' then 550 else 10055
  }

  lemma {:induction false} SymbolHead(id: nat)
    requires SymbolOf(id) != ""
    ensures |SymbolOf(id)| >= 2 && |AssetLabel(id)| >= 2 && IdOfHead(AssetLabel(id)[0], AssetLabel(id)[1]) == id
  {
    assert AssetLabel(id)[0] == SymbolOf(id)[0] && AssetLabel(id)[1] == SymbolOf(id)[1];
  }

  /** Different assets never share a label. */
  lemma {:induction false} LabelInjective(a: nat, b: nat)
    requires AssetLabel(a) == AssetLabel(b)
    ensures a == b
  {
    LabelEnds(a);
    LabelEnds(b);
    if SymbolOf(a) == "" {
      PlainLabels(a, b);
    } else {
      SymbolHead(a);
      SymbolHead(b);
    }
  }

  /** The assets that have a symbol. */
  const KNOWN: seq<(nat, string)> :=
    [(0, "HDX"), (1, "H2O"), (20, "WETH"), (55, "BIL"), (222, "HOLLAR"), (550, "uBIL"), (10055, "2-Pool-BIL")]

  /** The labels of the known assets, and of any other. */
  lemma {:induction false} KnownLabels(id: nat)
    ensures forall k :: 0 <= k < |KNOWN| && KNOWN[k].0 == id ==> AssetLabel(id) == KNOWN[k].1 + " (asset " + Dec(id) + ")"
    ensures (forall k :: 0 <= k < |KNOWN| ==> KNOWN[k].0 != id) ==> AssetLabel(id) == "asset " + Dec(id)
  {
    assert KNOWN[0].0 == 0 && KNOWN[1].0 == 1 && KNOWN[2].0 == 20 && KNOWN[3].0 == 55
      && KNOWN[4].0 == 222 && KNOWN[5].0 == 550 && KNOWN[6].0 == 10055;
  }

  /** Everything that is neither an asset nor a pallet account goes by the loaded names, or has none. */
  lemma {:induction false} OtherAddresses(address: string, names: map<string, string>)
    requires AssetIdOf(address) == None
    requires |address| >= 10 ==> Lower(address)[2..10] != "6d6f646c"
    ensures var lower := Lower(address);
      var named := |address| == 42 && address[0] == '0' && address[1] == 'x' && lower in names && names[lower] != "";
      ResolveAddress(address, names) == if named then Some(names[lower]) else None
  {
    var lower := Lower(address);
    if |address| >= 2 {
      assert address[..2] == [address[0], address[1]];
    }
    if |address| >= 10 && StartsWith(lower, MODL) {
      assert lower[2..10] == lower[..10][2..] == MODL[2..];
    }
  }

  // ---------------------------------------------------------------- pallet accounts

  /** Base 58: digits and letters but for the four that are easily mistaken. */
  predicate Base58(c: char) {
    ('0' <= c <= '9' || 'a' <= c <= 'z' || 'A' <= c <= 'Z') && c !in {'0', 'O', 'I', 'l'}
  }

  /** The account starts with the four bytes that spell "modl". */
  predicate PalletForm(b: seq<Byte>) {
    |b| == 32 && b[0] == 0x6d && b[1] == 0x6f && b[2] == 0x64 && b[3] == 0x6c
  }

  lemma {:induction false} ByteText(b: seq<Byte>, i: nat, hi: char, lo: char)
    requires i < |b| && IsHex(hi) && IsHex(lo)
    ensures ToHex(b)[2 * i] == hi && ToHex(b)[2 * i + 1] == lo <==> b[i] == ByteOf(hi, lo)
  {
    HexCharTwo(b, i);
    HexByte(hi, lo);
  }

  lemma {:induction false} ModlText(b: seq<Byte>)
    requires |b| == 32
    ensures StartsWith(ToHex(b), "6d6f646c") <==> PalletForm(b)
  {
    var hex := ToHex(b);
    ByteText(b, 0, '6', 'd');
    ByteText(b, 1, '6', 'f');
    ByteText(b, 2, '6', '4');
    ByteText(b, 3, '6', 'c');
    assert ByteOf('6', 'd') == 0x6d && ByteOf('6', 'f') == 0x6f && ByteOf('6', '4') == 0x64 && ByteOf('6', 'c') == 0x6c;
    EightChars(hex, "6d6f646c");
  }

  lemma {:induction false} EightChars(s: string, t: string)
    requires |s| >= 8 && |t| == 8
    ensures StartsWith(s, t) <==> (s[0] == t[0] && s[1] == t[1] && s[2] == t[2] && s[3] == t[3]
                                   && s[4] == t[4] && s[5] == t[5] && s[6] == t[6] && s[7] == t[7])
  {
    if StartsWith(s, t) {
      assert forall i :: 0 <= i < 8 ==> s[i] == s[..8][i];
    } else {
      assert s[..8] != t;
    }
  }

  /** The two digits of one byte tell the byte. */
  lemma {:induction false} HexCharTwo(b: seq<Byte>, i: nat)
    requires i < |b|
    ensures ToHex(b)[2 * i] == HexChar(b[i] as nat / 16) && ToHex(b)[2 * i + 1] == HexChar(b[i] as nat % 16)
    ensures ByteOf(ToHex(b)[2 * i], ToHex(b)[2 * i + 1]) == b[i]
  {
    assert 2 * i / 2 == i && (2 * i + 1) / 2 == i && 2 * i % 2 == 0 && (2 * i + 1) % 2 == 1;
  }

  lemma {:induction false} HexMiddle(b: seq<Byte>)
    requires |b| == 32
    ensures FromHex(ToHex(b)[8..24]) == b[4..12]
  {
    ToHexAppend(b[..4], b[4..]);
    ToHexAppend(b[4..12], b[12..]);
    assert b == b[..4] + b[4..] && b[4..] == b[4..12] + b[12..];
    assert ToHex(b)[8..24] == ToHex(b[4..12]);
    ToHexAllHex(b[4..12]);
    FromHexOf(ToHex(b[4..12]));
    forall i | 0 <= i < 8 ensures FromHex(ToHex(b[4..12]))[i] == b[4..12][i] {
      HexCharTwo(b[4..12], i);
    }
  }

  /** A text is labelled if and only if it is base 58 of SS58 length and decodes to a pallet account; then with that pallet's id. */
  lemma {:induction false} SubstrateLabelIff(value: string, decode: string -> Option<seq<Byte>>)
    ensures ResolveSubstrate(value, decode).Some?
      <==> |value| in {47, 48} && (forall i :: 0 <= i < |value| ==> Base58(value[i]))
           && decode(value).Some? && PalletForm(decode(value).value)
    ensures ResolveSubstrate(value, decode).Some? ==>
      ResolveSubstrate(value, decode) == Some(
        if Latin1(decode(value).value[4..12]) == "py/trsry" then "Treasury"
        else "pallet:" + Latin1(decode(value).value[4..12]))
  {
    if decode(value).Some? && |decode(value).value| == 32 {
      ModlText(decode(value).value);
      HexMiddle(decode(value).value);
    }
  }

  /**
    A 32-byte account of pallet form gets the same label from its SS58 text as its first 20 bytes get
    as an EVM address, whatever names are loaded.
   */
  lemma {:induction false} PalletLabelsAgree(value: string, decode: string -> Option<seq<Byte>>, names: map<string, string>)
    requires ResolveSubstrate(value, decode).Some?
    ensures decode(value).Some? && |decode(value).value| == 32
    ensures ResolveAddress("0x" + ToHex(decode(value).value[..20]), names) == ResolveSubstrate(value, decode)
  {
    var pubkey := decode(value).value;
    var hex, short := ToHex(pubkey), ToHex(pubkey[..20]);
    ToHexAppend(pubkey[..20], pubkey[20..]);
    assert pubkey == pubkey[..20] + pubkey[20..];
    assert short == hex[..40];
    var address := "0x" + short;
    ToHexAllHex(pubkey[..20]);
    assert Lower(address) == address;
    assert address[10..26] == hex[8..24];
    assert address[..10] == "0x" + hex[..8];
    assert address[2] == '6';
    assert StartsWith(address, MODL);
    assert StartsWith(address, "0x");
  }

  /** Different pallets never share a label. */
  lemma {:induction false} PalletLabelInjective(a: seq<Byte>, b: seq<Byte>)
    requires PalletLabel(Latin1(a)) == PalletLabel(Latin1(b)) && |a| == |b|
    ensures a == b
  {
    var s, t := Latin1(a), Latin1(b);
    assert PalletLabel(s)[0] == (if s == "py/trsry" then 'T' else 'p');
    assert PalletLabel(t)[0] == (if t == "py/trsry" then 'T' else 'p');
    if s != "py/trsry" {
      assert PalletLabel(s)[7..] == s && PalletLabel(t)[7..] == t;
    }
    forall i | 0 <= i < |a| ensures a[i] == b[i] {
      assert s[i] == t[i];
    }
  }

  /** The treasury's id spells its eight characters. */
  lemma {:induction false} TreasuryLabel()
    ensures PalletLabel(Latin1([0x70, 0x79, 0x2f, 0x74, 0x72, 0x73, 0x72, 0x79])) == "Treasury"
  {
    assert Latin1([0x70, 0x79, 0x2f, 0x74, 0x72, 0x73, 0x72, 0x79]) == "py/trsry";
  }

  // ---------------------------------------------------------------- letter case

  /** Two texts that differ in the case of their letters only. */
  predicate SameButCase(s: string, t: string) {
    |s| == |t| && forall i :: 0 <= i < |s| ==>
      s[i] == t[i]
      || ('A' <= s[i] <= 'Z' && t[i] as int == s[i] as int + 32)
      || ('A' <= t[i] <= 'Z' && s[i] as int == t[i] as int + 32)
  }

  /** An address has the same label in upper, lower and mixed case behind its prefix. */
  lemma {:induction false} CaseInsensitive(s: string, t: string, names: map<string, string>)
    requires SameButCase(s, t)
    ensures ResolveAddress("0x" + s, names) == ResolveAddress("0x" + t, names)
    ensures AssetIdOf("0x" + s) == AssetIdOf("0x" + t)
  {
    LowerAppend("0x", s);
    LowerAppend("0x", t);
    forall i | 0 <= i < |s| ensures LowerChar(s[i]) == LowerChar(t[i]) {
    }
    assert Lower(s) == Lower(t);
    assert ("0x" + s)[..2] == "0x" && ("0x" + t)[..2] == "0x";
  }

  // ---------------------------------------------------------------- padded accounts

  /** The first `k` bytes of hex text are its first `2 * k` digits. */
  lemma {:induction false} HexTake(s: string, k: nat)
    requires AllHex(s) && |s| % 2 == 0 && 2 * k <= |s|
    ensures |FromHex(s)| >= k && ToHex(FromHex(s)[..k]) == s[..2 * k]
  {
    FromHexOf(s);
    HexReadWrite(s);
    var b := FromHex(s);
    assert b == b[..k] + b[k..];
    ToHexAppend(b[..k], b[k..]);
  }

  lemma {:induction false} LowerAppend(a: string, b: string)
    ensures Lower(a + b) == Lower(a) + Lower(b)
  {
  }

  /** A padded address is 32 bytes of hex: its own 20 bytes, and twelve zeros. */
  lemma {:induction false} PaddedShape(a: string)
    requires IsEvmAddress(a)
    ensures |PadAddress(a)| == 66 && PadAddress(a)[..42] == a && forall i :: 42 <= i < 66 ==> PadAddress(a)[i] == '0'
  {
    assert StripFirst0x(a) == a[2..];
    assert a == "0x" + a[2..];
  }

  /** A text without an "x" has no prefix to strip; short ones are filled to 32 bytes, long ones kept. */
  lemma {:induction false} PaddedBare(a: string)
    requires 'x' !in a
    ensures |PadAddress(a)| == 2 + (if |a| < 64 then 64 else |a|)
    ensures PadAddress(a)[..2] == "0x" && PadAddress(a)[2..2 + |a|] == a
    ensures forall i :: 2 + |a| <= i < |PadAddress(a)| ==> PadAddress(a)[i] == '0'
  {
    StripNothing(a);
  }

  lemma {:induction false} StripNothing(a: string)
    requires 'x' !in a
    ensures StripFirst0x(a) == a
    decreases a
  {
    if |a| >= 2 {
      assert a[..2][1] == a[1];
      assert a[1] in a;
      StripNothing(a[1..]);
      assert a == [a[0]] + a[1..];
    }
  }

  /** The EVM address inside a padded account is the padded address, in lower case. */
  lemma {:induction false} EvmAddressInvertsPad(a: string)
    requires IsEvmAddress(a)
    ensures EvmAddressOf(PadAddress(a)) == Some(Lower(a))
  {
    var digits, zeros := a[2..], seq(24, _ => '0');
    assert StripFirst0x(a) == digits;
    assert PadAddress(a) == "0x" + (digits + zeros);
    assert PadAddress(a)[2..] == digits + zeros;
    LowerAppend(digits, zeros);
    assert Lower(zeros) == zeros;
    var lower := Lower(digits) + zeros;
    HexTake(lower, 20);
    assert lower[..40] == Lower(digits);
    assert a == "0x" + digits;
    LowerAppend("0x", digits);
    assert Lower("0x") == "0x";
  }

  /** The EVM address of any 32-byte hex account is its first forty digits, in lower case. */
  lemma {:induction false} EvmAddressIsPrefix(account: string)
    requires |account| == 66 && account[0] == '0' && account[1] == 'x' && AllHex(Lower(account[2..]))
    ensures EvmAddressOf(account) == Some("0x" + Lower(account[2..])[..40])
  {
    assert account[..2] == "0x";
    HexTake(Lower(account[2..]), 20);
  }
}
