/** The proposal decoder's rewriting of a call tree: folds call nodes, decodes hex leaves, prunes what is empty. */
module CallTree {
  import opened Decimals

  /** A JSON value; an object keeps its entries in order, and `Null` also stands for a missing value. */
  datatype Json =
    | Null
    | Bool(b: bool)
    | Num(n: int)
    | Str(s: string)
    | Arr(items: seq<Json>)
    | Obj(entries: seq<Entry>)

  datatype Entry = Entry(key: string, value: Json)

  /** Decoding of one hex string; `Null` when the script's decoder returns null. */
  type Decoder = string -> Json

  predicate Truthy(j: Json) {
    match j
    case Null => false
    case Bool(b) => b
    case Num(n) => n != 0
    case Str(s) => s != ""
    case _ => true
  }

  function Lookup(entries: seq<Entry>, key: string): Json {
    if entries == [] then Null
    else if entries[0].key == key then entries[0].value
    else Lookup(entries[1..], key)
  }

  lemma LookupSmaller(j: Json, key: string)
    requires j.Obj?
    ensures Lookup(j.entries, key) < j || Lookup(j.entries, key) == Null
  {
    LookupIn(j.entries, key);
  }

  lemma LookupIn(entries: seq<Entry>, key: string)
    ensures Lookup(entries, key) == Null
      || exists i :: 0 <= i < |entries| && entries[i] == Entry(key, Lookup(entries, key))
  {
    if entries != [] && entries[0].key != key {
      LookupIn(entries[1..], key);
      if Lookup(entries[1..], key) != Null {
        var i :| 0 <= i < |entries[1..]| && entries[1..][i] == Entry(key, Lookup(entries[1..], key));
        assert entries[i + 1] == Entry(key, Lookup(entries, key));
      }
    }
  }

  /** JavaScript's conversion of a value to text inside a template string. */
  function ToText(j: Json): string
    decreases j
  {
    match j
    case Null => "null"
    case Bool(b) => if b then "true" else "false"
    case Num(n) => if n < 0 then "-" + Dec(-n) else Dec(n)
    case Str(s) => s
    case Arr(items) => JoinText(items)
    case Obj(_) => "[object Object]"
  }

  function JoinText(items: seq<Json>): string
    decreases items
  {
    if items == [] then ""
    else
      var first := if items[0].Null? then "" else ToText(items[0]);
      if |items| == 1 then first else first + "," + JoinText(items[1..])
  }

  /** Empty arrays and empty objects. */
  predicate Hollow(j: Json) {
    (j.Arr? && j.items == []) || (j.Obj? && j.entries == [])
  }

  predicate Kept(j: Json) {
    !j.Null? && !Hollow(j)
  }

  predicate IsHexText(s: string) {
    |s| >= 2 && s[..2] == "0x"
  }

  /** The string is calldata to this decoder: a hex string that decodes to something. */
  predicate Decodes(decode: Decoder, s: string) {
    IsHexText(s) && Truthy(decode(s))
  }

  /** A leaf: a hex string is replaced by its decoding, if there is one. */
  function Leaf(decode: Decoder, j: Json): Json {
    if j.Str? && Decodes(decode, j.s) then decode(j.s) else j
  }

  /** The object is a call: it has a truthy section and a truthy method. */
  predicate IsCall(j: Json) {
    j.Obj? && Truthy(Lookup(j.entries, "section")) && Truthy(Lookup(j.entries, "method"))
  }

  function CallKey(j: Json): string
    requires IsCall(j)
  {
    ToText(Lookup(j.entries, "section")) + "." + ToText(Lookup(j.entries, "method"))
  }

  function Transform(decode: Decoder, j: Json): Json
    decreases j
  {
    match j
    case Arr(items) => Arr(TransformItems(decode, items))
    case Obj(entries) =>
      if IsCall(j) then
        LookupSmaller(j, "args");
        var raw := Lookup(entries, "args");
        var args := if raw.Null? then Null else Transform(decode, raw);
        if Kept(args) then Obj([Entry(CallKey(j), args)]) else Obj([])
      else Obj(TransformEntries(decode, entries))
    case _ => Leaf(decode, j)
  }

  /** Nulls go before the transformation, hollow results after it. */
  function TransformItems(decode: Decoder, items: seq<Json>): seq<Json>
    decreases items
  {
    if items == [] then []
    else
      var rest := TransformItems(decode, items[1..]);
      if items[0].Null? then rest
      else
        var v := Transform(decode, items[0]);
        if Hollow(v) then rest else [v] + rest
  }

  function TransformEntries(decode: Decoder, entries: seq<Entry>): seq<Entry>
    decreases entries
  {
    if entries == [] then []
    else
      var rest := TransformEntries(decode, entries[1..]);
      var v := Transform(decode, entries[0].value);
      if Kept(v) then [Entry(entries[0].key, v)] + rest else rest
  }
}
