/** Soroban values and their JSON form (pkg/stellar/processors/contract_invocation/helpers.go:32-319). */
module ScVal {
  import opened Basics
  import opened WideInt

  datatype Result<+T> = Ok(value: T) | Err(error: string)

  /** The Go values the conversion builds. */
  datatype Json = JNull | JBool(b: bool) | JInt(n: int) | JStr(s: string)
                | JList(items: seq<Json>) | JObj(fields: map<string, Json>)

  datatype Address = Account(key: Option<seq<bv8>>) | Contract(hash: Option<seq<bv8>>) | OtherAddress(typeName: string)

  /** An xdr.ScVal: a type and a pointer that may be nil. */
  datatype ScVal =
    | Bool(b: Option<bool>) | Void
    | U32(u32: Option<int>) | I32(i32: Option<int>) | U64Val(u64: Option<int>) | I64Val(i64: Option<int>)
    | Timepoint(t: Option<int>) | Duration(d: Option<int>)
    | U128Val(u128: Option<UInt128Parts>) | I128Val(i128: Option<Int128Parts>)
    | U256Val(u256: Option<UInt256Parts>) | I256Val(i256: Option<Int256Parts>)
    | Symbol(sym: Option<string>) | Str(str: Option<string>) | Bytes(bytes: Option<seq<bv8>>)
    | AddressVal(address: Option<Address>)
    | Vec(items: seq<ScVal>) | NilVec | Map(entries: seq<Entry>) | NilMap
    | ContractInstance(present: bool) | LedgerKeyContractInstance | LedgerKeyNonce(nonce: Option<int>)
    | Other(typeName: string)

  datatype Entry = Entry(key: ScVal, val: ScVal)

  /** Library code outside this model: fmt's %v, hex and base64, strkey, and json.Marshal. */
  datatype Lib = Lib(
    show: Json -> string, hex: seq<bv8> -> string, base64: seq<bv8> -> string,
    accountKey: seq<bv8> -> Result<string>, contractKey: seq<bv8> -> Result<string>,
    marshal: Json -> Result<string>)

  /** ScVal.Type.String(). */
  function TypeName(v: ScVal): (s: string)
  {
    match v
    case Bool(_) => "ScValTypeScvBool" case Void => "ScValTypeScvVoid"
    case U32(_) => "ScValTypeScvU32" case I32(_) => "ScValTypeScvI32"
    case U64Val(_) => "ScValTypeScvU64" case I64Val(_) => "ScValTypeScvI64"
    case Timepoint(_) => "ScValTypeScvTimepoint" case Duration(_) => "ScValTypeScvDuration"
    case U128Val(_) => "ScValTypeScvU128" case I128Val(_) => "ScValTypeScvI128"
    case U256Val(_) => "ScValTypeScvU256" case I256Val(_) => "ScValTypeScvI256"
    case Symbol(_) => "ScValTypeScvSymbol" case Str(_) => "ScValTypeScvString"
    case Bytes(_) => "ScValTypeScvBytes" case AddressVal(_) => "ScValTypeScvAddress"
    case Vec(_) => "ScValTypeScvVec" case NilVec => "ScValTypeScvVec"
    case Map(_) => "ScValTypeScvMap" case NilMap => "ScValTypeScvMap"
    case ContractInstance(_) => "ScValTypeScvContractInstance"
    case LedgerKeyContractInstance => "ScValTypeScvLedgerKeyContractInstance"
    case LedgerKeyNonce(_) => "ScValTypeScvLedgerKeyNonce"
    case Other(name) => name
  }

  function Tagged(t: string, n: int): (j: Json)
  {
    JObj(map["type" := JStr(t), "value" := JInt(n)])
  }

  function Halves(t: string, hi: int, lo: int, value: string): (j: Json)
  {
    JObj(map["type" := JStr(t), "hi" := JInt(hi), "lo" := JInt(lo), "value" := JStr(value)])
  }

  function Quarters(t: string, limbs: seq<int>, value: string, hex: string): (j: Json)
    requires |limbs| == 4
  {
    JObj(map["type" := JStr(t), "hi_hi" := JInt(limbs[0]), "hi_lo" := JInt(limbs[1]), "lo_hi" := JInt(limbs[2]),
             "lo_lo" := JInt(limbs[3]), "value" := JStr(value), "hex" := JStr(hex)])
  }

  function ConvertAddress(lib: Lib, a: Address): (r: Result<Json>)
  {
    match a
    case Account(None) => Err("ScAddressTypeAccount has nil AccountId")
    case Account(Some(key)) =>
      (match lib.accountKey(key)
       case Ok(s) => Ok(JObj(map["type" := JStr("account"), "address" := JStr(s)]))
       case Err(e) => Err("error encoding account address: " + e))
    case Contract(None) => Err("ScAddressTypeContract has nil ContractId")
    case Contract(Some(hash)) =>
      (match lib.contractKey(hash)
       case Ok(s) => Ok(JObj(map["type" := JStr("contract"), "address" := JStr(s)]))
       case Err(e) => Err("error encoding contract address: " + e))
    case OtherAddress(name) => Err("unsupported ScAddress type: " + name)
  }

  /** Every value but a non-nil vector or map. */
  function ConvertScalar(lib: Lib, v: ScVal): (r: Result<Json>)
    requires !v.Vec? && !v.Map?
  {
    match v
    case Bool(None) => Err("ScvBool has nil value")
    case Bool(Some(b)) => Ok(JBool(b))
    case Void => Ok(JNull)
    case U32(None) => Err("ScvU32 has nil value")
    case U32(Some(n)) => Ok(JInt(n))
    case I32(None) => Err("ScvI32 has nil value")
    case I32(Some(n)) => Ok(JInt(n))
    case U64Val(None) => Err("ScvU64 has nil value")
    case U64Val(Some(n)) => Ok(JInt(n))
    case I64Val(None) => Err("ScvI64 has nil value")
    case I64Val(Some(n)) => Ok(JInt(n))
    case Timepoint(None) => Err("ScvTimepoint has nil value")
    case Timepoint(Some(n)) => Ok(Tagged("timepoint", n))
    case Duration(None) => Err("ScvDuration has nil value")
    case Duration(Some(n)) => Ok(Tagged("duration", n))
    case U128Val(None) => Err("ScvU128 has nil value")
    case U128Val(Some(p)) => Ok(Halves("u128", p.hi, p.lo, Decimal(U128(p))))
    case I128Val(None) => Err("ScvI128 has nil value")
    case I128Val(Some(p)) => Ok(Halves("i128", p.hi, p.lo, Decimal(I128(p))))
    case U256Val(None) => Err("ScvU256 has nil value")
    case U256Val(Some(p)) =>
      Ok(Quarters("u256", [p.hiHi, p.hiLo, p.loHi, p.loLo], Decimal(U256(p)), Uint256ToHex(p)))
    case I256Val(None) => Err("ScvI256 has nil value")
    case I256Val(Some(p)) =>
      Ok(Quarters("i256", [p.hiHi, p.hiLo, p.loHi, p.loLo], Decimal(I256(p)), Int256ToHex(p)))
    case Symbol(None) => Err("ScvSymbol has nil value")
    case Symbol(Some(s)) => Ok(JStr(s))
    case Str(None) => Err("ScvString has nil value")
    case Str(Some(s)) => Ok(JStr(s))
    case Bytes(None) => Err("ScvBytes has nil value")
    case Bytes(Some(bs)) =>
      Ok(JObj(map["type" := JStr("bytes"), "hex" := JStr(lib.hex(bs)), "base64" := JStr(lib.base64(bs)),
                  "length" := JInt(|bs|)]))
    case AddressVal(None) => Err("ScvAddress has nil value")
    case AddressVal(Some(a)) => ConvertAddress(lib, a)
    case NilVec => Err("ScvVec has nil value")
    case NilMap => Err("ScvMap has nil value")
    case ContractInstance(present) =>
      if present then Ok(JObj(map["type" := JStr("contract_instance"), "value" := JStr("complex_contract_instance")]))
      else Err("ScvContractInstance has nil value")
    case LedgerKeyContractInstance => Ok(JObj(map["type" := JStr("ledger_key_contract_instance")]))
    case LedgerKeyNonce(None) => Err("ScvLedgerKeyNonce has nil value")
    case LedgerKeyNonce(Some(n)) => Ok(JObj(map["type" := JStr("ledger_key_nonce"), "nonce" := JInt(n)]))
    case Other(name) => Err("unsupported ScVal type: " + name)
  }

  // ----- the recursive conversion, as a function

  /** ConvertScValToJSON. */
  function Convert(lib: Lib, v: ScVal): (r: Result<Json>)
    decreases v, 0
  {
    match v
    case Vec(items) => Ok(JList(seq(|items|, i requires 0 <= i < |items| => ItemJson(lib, i, items[i]))))
    case Map(es) =>
      Ok(MapJson(EntryMap(lib, es), seq(|es|, i requires 0 <= i < |es| => KeyJson(lib, es[i].key))))
    case _ => ConvertScalar(lib, v)
  }

  function MapJson(entries: map<string, Json>, keys: seq<Json>): (j: Json)
  {
    JObj(map["type" := JStr("map"), "entries" := JObj(entries), "keys" := JList(keys)])
  }

  /** An element of a vector: its conversion, or a note of its position, error and type. */
  function ItemJson(lib: Lib, i: nat, v: ScVal): (j: Json)
    decreases v, 1
  {
    match Convert(lib, v)
    case Ok(j) => j
    case Err(e) => JObj(map["index" := JInt(i), "error" := JStr(e), "type" := JStr(TypeName(v))])
  }

  /** A key as listed in order: a key that does not convert is listed as null. */
  function KeyJson(lib: Lib, v: ScVal): (j: Json)
    decreases v, 1
  {
    match Convert(lib, v)
    case Ok(j) => j
    case Err(_) => JNull
  }

  /** A key as printed into the entries map. */
  function KeyText(lib: Lib, v: ScVal): (s: string)
    decreases v, 1
  {
    match Convert(lib, v)
    case Ok(j) => lib.show(j)
    case Err(e) => "error:" + e
  }

  function ValJson(lib: Lib, v: ScVal): (j: Json)
    decreases v, 1
  {
    match Convert(lib, v)
    case Ok(j) => j
    case Err(e) => JObj(map["error" := JStr(e), "type" := JStr(TypeName(v))])
  }

  function EntryKey(lib: Lib, e: Entry): (s: string)
    decreases e, 2
  {
    KeyText(lib, e.key)
  }

  function EntryJson(lib: Lib, e: Entry): (j: Json)
    decreases e, 2
  {
    ValJson(lib, e.val)
  }

  /** The entries in order, each overwriting an earlier one with the same printed key. */
  function EntryMap(lib: Lib, es: seq<Entry>): (m: map<string, Json>)
    decreases es, 0
  {
    if es == [] then map[]
    else
      var n := |es| - 1;
      EntryMap(lib, es[..n])[EntryKey(lib, es[n]) := EntryJson(lib, es[n])]
  }

  lemma EntryMapAppend(lib: Lib, es: seq<Entry>, i: nat)
    requires i < |es|
    ensures EntryMap(lib, es[..i + 1]) == EntryMap(lib, es[..i])[EntryKey(lib, es[i]) := EntryJson(lib, es[i])]
  {
    assert es[..i + 1][..i] == es[..i];
  }

  // ----- the recursive conversion, as the loops of the source

  /** ConvertScValToJSON. */
  method ConvertScValToJson(lib: Lib, v: ScVal) returns (r: Result<Json>)
    ensures r == Convert(lib, v)
    decreases v, 1
  {
    match v {
      case Vec(items) => r := ConvertVec(lib, v);
      case Map(es) => r := ConvertMap(lib, v);
      case _ => r := ConvertArm(lib, v);
    }
  }

  /** The arms of the wide integers print them through math/big; the other arms are expressions. */
  method ConvertArm(lib: Lib, v: ScVal) returns (r: Result<Json>)
    requires !v.Vec? && !v.Map?
    ensures r == ConvertScalar(lib, v)
  {
    match v {
      case U128Val(Some(p)) =>
        var value := Uint128ToString(p);
        r := Ok(JObj(map["type" := JStr("u128"), "hi" := JInt(p.hi), "lo" := JInt(p.lo), "value" := JStr(value)]));
      case I128Val(Some(p)) =>
        var value := Int128ToString(p);
        r := Ok(JObj(map["type" := JStr("i128"), "hi" := JInt(p.hi), "lo" := JInt(p.lo), "value" := JStr(value)]));
      case U256Val(Some(p)) =>
        var value := Uint256ToString(p);
        r := Ok(JObj(map["type" := JStr("u256"), "hi_hi" := JInt(p.hiHi), "hi_lo" := JInt(p.hiLo),
                         "lo_hi" := JInt(p.loHi), "lo_lo" := JInt(p.loLo),
                         "value" := JStr(value), "hex" := JStr(Uint256ToHex(p))]));
      case I256Val(Some(p)) =>
        var value := Int256ToString(p);
        r := Ok(JObj(map["type" := JStr("i256"), "hi_hi" := JInt(p.hiHi), "hi_lo" := JInt(p.hiLo),
                         "lo_hi" := JInt(p.loHi), "lo_lo" := JInt(p.loLo),
                         "value" := JStr(value), "hex" := JStr(Int256ToHex(p))]));
      case _ => r := ConvertScalar(lib, v);
    }
  }

  /** The vector arm: a child that fails is replaced by a note, never an error. */
  method ConvertVec(lib: Lib, v: ScVal) returns (r: Result<Json>)
    requires v.Vec?
    ensures r == Convert(lib, v)
    decreases v, 0
  {
    var items := v.items;
    var result: seq<Json> := [];
    var i := 0;
    while i < |items|
      invariant 0 <= i == |result| <= |items|
      invariant forall k :: 0 <= k < i ==> result[k] == ItemJson(lib, k, items[k])
    {
      var converted := ConvertScValToJson(lib, items[i]);
      match converted {
        case Err(e) =>
          result := result + [JObj(map["index" := JInt(i), "error" := JStr(e), "type" := JStr(TypeName(items[i]))])];
        case Ok(j) => result := result + [j];
      }
      i := i + 1;
    }
    assert result == seq(|items|, i requires 0 <= i < |items| => ItemJson(lib, i, items[i]));
    r := Ok(JList(result));
  }

  /** One turn of the loop over a map: the printed key, the listed key and the value. */
  method ConvertEntry(lib: Lib, e: Entry) returns (keyStr: string, listed: Json, value: Json)
    ensures keyStr == EntryKey(lib, e) && listed == KeyJson(lib, e.key) && value == EntryJson(lib, e)
    decreases e, 0
  {
    var key := ConvertScValToJson(lib, e.key);
    var val := ConvertScValToJson(lib, e.val);
    keyStr := match key case Err(x) => "error:" + x case Ok(j) => lib.show(j);
    listed := if key.Ok? then key.value else JNull;
    value := match val
             case Err(x) => JObj(map["error" := JStr(x), "type" := JStr(TypeName(e.val))])
             case Ok(j) => j;
  }

  /** The map arm: printed keys may collide, the list of keys keeps them all in order. */
  method ConvertMap(lib: Lib, v: ScVal) returns (r: Result<Json>)
    requires v.Map?
    ensures r == Convert(lib, v)
    decreases v, 0
  {
    var es := v.entries;
    var result: map<string, Json> := map[];
    var orderedKeys: seq<Json> := [];
    var i := 0;
    while i < |es|
      invariant 0 <= i == |orderedKeys| <= |es|
      invariant forall k :: 0 <= k < i ==> orderedKeys[k] == KeyJson(lib, es[k].key)
      invariant result == EntryMap(lib, es[..i])
    {
      var keyStr, listed, value := ConvertEntry(lib, es[i]);
      EntryMapAppend(lib, es, i);
      result := result[keyStr := value];
      orderedKeys := orderedKeys + [listed];
      i := i + 1;
    }
    assert es[..i] == es;
    assert orderedKeys == seq(|es|, i requires 0 <= i < |es| => KeyJson(lib, es[i].key));
    r := Ok(JObj(map["type" := JStr("map"), "entries" := JObj(result), "keys" := JList(orderedKeys)]));
  }

  // ----- what the conversion keeps

  /** A printed key is present exactly when some entry prints it. */
  lemma {:induction false} KeyPresence(lib: Lib, es: seq<Entry>, k: string)
    ensures k in EntryMap(lib, es) <==> exists i :: 0 <= i < |es| && EntryKey(lib, es[i]) == k
  {
    if es != [] {
      var n := |es| - 1;
      KeyPresence(lib, es[..n], k);
      assert forall i :: 0 <= i < n ==> es[..n][i] == es[i];
    }
  }

  /** The last entry printed under a key decides its value. */
  lemma {:induction false} LastWriterWins(lib: Lib, es: seq<Entry>, i: nat)
    requires i < |es|
    requires forall j :: i < j < |es| ==> EntryKey(lib, es[j]) != EntryKey(lib, es[i])
    ensures EntryKey(lib, es[i]) in EntryMap(lib, es)
    ensures EntryMap(lib, es)[EntryKey(lib, es[i])] == EntryJson(lib, es[i])
  {
    var n := |es| - 1;
    if i < n {
      assert forall j :: 0 <= j < n ==> es[..n][j] == es[j];
      LastWriterWins(lib, es[..n], i);
      assert EntryKey(lib, es[n]) != EntryKey(lib, es[i]);
    }
  }

  /** One step down into a value: an element, a key in entry order, or the value of an entry. */
  datatype Dir = At(i: nat) | KeyAt(i: nat) | ValAt(i: nat)

  /** The child in a direction; ValAt only for the last entry printed under its key. */
  ghost predicate HasChild(lib: Lib, v: ScVal, d: Dir)
  {
    match d
    case At(i) => v.Vec? && i < |v.items|
    case KeyAt(i) => v.Map? && i < |v.entries|
    case ValAt(i) =>
      v.Map? && i < |v.entries|
      && forall j :: i < j < |v.entries| ==> EntryKey(lib, v.entries[j]) != EntryKey(lib, v.entries[i])
  }

  function Child(v: ScVal, d: Dir): (c: ScVal)
    requires match d case At(i) => v.Vec? && i < |v.items| case _ => v.Map? && d.i < |v.entries|
  {
    match d
    case At(i) => v.items[i]
    case KeyAt(i) => v.entries[i].key
    case ValAt(i) => v.entries[i].val
  }

  /** How a child is rendered in its parent. */
  function ChildJson(lib: Lib, d: Dir, c: ScVal): (j: Json)
  {
    match d
    case At(i) => ItemJson(lib, i, c)
    case KeyAt(_) => KeyJson(lib, c)
    case ValAt(_) => ValJson(lib, c)
  }

  /** The same step in the JSON of v: list position, position in "keys", or printed key in "entries". */
  ghost function JsonChild(lib: Lib, v: ScVal, d: Dir, j: Json): (r: Option<Json>)
    requires HasChild(lib, v, d)
  {
    match d
    case At(i) => if j.JList? && |j.items| == |v.items| then Some(j.items[i]) else None
    case KeyAt(i) =>
      if j.JObj? && "keys" in j.fields && j.fields["keys"].JList? && |j.fields["keys"].items| == |v.entries|
      then Some(j.fields["keys"].items[i]) else None
    case ValAt(i) =>
      var k := EntryKey(lib, v.entries[i]);
      if j.JObj? && "entries" in j.fields && j.fields["entries"].JObj? && k in j.fields["entries"].fields
      then Some(j.fields["entries"].fields[k]) else None
  }

  ghost predicate HasPath(lib: Lib, v: ScVal, path: seq<Dir>)
    decreases |path|
  {
    path == [] || (HasChild(lib, v, path[0]) && HasPath(lib, Child(v, path[0]), path[1..]))
  }

  /** Descends v and its JSON together; Some only if every step finds the same place in both, with the
      same number of elements, keys, or the printed key. */
  ghost function Descend(lib: Lib, v: ScVal, j: Json, path: seq<Dir>): (r: Option<(ScVal, Json)>)
    requires HasPath(lib, v, path)
    decreases |path|
  {
    if path == [] then Some((v, j))
    else
      var k := JsonChild(lib, v, path[0], j);
      if k.None? then None else Descend(lib, Child(v, path[0]), k.value, path[1..])
  }

  lemma ChildIsRendered(lib: Lib, v: ScVal, d: Dir)
    requires HasChild(lib, v, d)
    ensures Convert(lib, v).Ok?
    ensures JsonChild(lib, v, d, Convert(lib, v).value) == Some(ChildJson(lib, d, Child(v, d)))
  {
    if d.ValAt? {
      LastWriterWins(lib, v.entries, d.i);
    }
  }

  /** A vector or map never fails because of a child, so at every depth, along every path, the JSON has
      the child's rendering at the child's place: its own conversion or, if that fails, the note left
      by its parent. */
  lemma {:induction false} PlacesAreKept(lib: Lib, v: ScVal, path: seq<Dir>)
    requires path != [] && HasPath(lib, v, path)
    ensures Convert(lib, v).Ok?
    ensures var found := Descend(lib, v, Convert(lib, v).value, path);
            && found.Some?
            && found.value.1 == ChildJson(lib, path[|path| - 1], found.value.0)
            && (Convert(lib, found.value.0).Ok? ==> found.value.1 == Convert(lib, found.value.0).value)
    decreases |path|
  {
    var d, c := path[0], Child(v, path[0]);
    ChildIsRendered(lib, v, d);
    if |path| == 1 {
      assert path[1..] == [];
    } else {
      PlacesAreKept(lib, c, path[1..]);
      assert ChildJson(lib, d, c) == Convert(lib, c).value;
      assert path[1..][|path| - 2] == path[|path| - 1];
    }
  }

  // ----- extractArguments

  /** fmt.Sprintf("arg_%d", i). */
  function ArgName(i: nat): (s: string)
  {
    "arg_" + Decimal(i)
  }

  lemma ArgNameInjective(i: nat, j: nat)
    requires ArgName(i) == ArgName(j)
    ensures i == j
  {
    assert ArgName(i)[4..] == Decimal(i) && ArgName(j)[4..] == Decimal(j);
    DecimalInjective(i, j);
  }

  predicate Extractable(lib: Lib, arg: ScVal)
  {
    Convert(lib, arg).Ok? && lib.marshal(Convert(lib, arg).value).Ok?
  }

  /** The keys are the names of 0..n and nothing else. */
  ghost predicate BoundTo(name: nat -> string, n: nat, decoded: map<string, Json>)
  {
    && (forall i: nat :: i < n ==> name(i) in decoded)
    && (forall k :: k in decoded ==> exists i: nat :: i < n && k == name(i))
  }

  lemma BindOne(name: nat -> string, n: nat, decoded: map<string, Json>, j: Json)
    requires BoundTo(name, n, decoded)
    ensures BoundTo(name, n + 1, decoded[name(n) := j])
  {
  }

  /** n arguments have been extracted, in order and under their own names, and nothing else. */
  ghost predicate Extracted(lib: Lib, args: seq<ScVal>, n: nat, raw: seq<string>, decoded: map<string, Json>)
  {
    && n <= |args| && |raw| == n
    && (forall i :: 0 <= i < n ==>
          Extractable(lib, args[i]) && raw[i] == lib.marshal(Convert(lib, args[i]).value).value)
    && BoundTo(ArgName, n, decoded) && (forall i :: 0 <= i < n ==> decoded[ArgName(i)] == Convert(lib, args[i]).value)
  }

  lemma ExtractOne(lib: Lib, args: seq<ScVal>, n: nat, raw: seq<string>, decoded: map<string, Json>)
    requires Extracted(lib, args, n, raw, decoded) && n < |args| && Extractable(lib, args[n])
    ensures var j := Convert(lib, args[n]).value;
            Extracted(lib, args, n + 1, raw + [lib.marshal(j).value], decoded[ArgName(n) := j])
  {
    var j := Convert(lib, args[n]).value;
    BindOne(ArgName, n, decoded, j);
    forall i | 0 <= i < n
      ensures decoded[ArgName(n) := j][ArgName(i)] == decoded[ArgName(i)]
    {
      if ArgName(i) == ArgName(n) {
        ArgNameInjective(i, n);
      }
    }
  }

  lemma NamedByPosition(lib: Lib, args: seq<ScVal>, n: nat, raw: seq<string>, decoded: map<string, Json>)
    requires Extracted(lib, args, n, raw, decoded)
    ensures forall i :: 0 <= i < n ==>
              "arg_" + Decimal(i) in decoded && Ok(decoded["arg_" + Decimal(i)]) == Convert(lib, args[i])
  {
    forall i: nat | i < n
      ensures "arg_" + Decimal(i) in decoded && Ok(decoded["arg_" + Decimal(i)]) == Convert(lib, args[i])
    {
      assert ArgName(i) == "arg_" + Decimal(i);
    }
  }

  /** The loop over the arguments. */
  method ExtractLoop(lib: Lib, args: seq<ScVal>)
    returns (copied: seq<ScVal>, raw: seq<string>, decoded: map<string, Json>, err: Option<string>)
    ensures copied == args
    ensures Extracted(lib, args, |raw|, raw, decoded)
    ensures err.None? <==> |raw| == |args|
    ensures err.Some? ==>
              && !Extractable(lib, args[|raw|])
              && err.value == match Convert(lib, args[|raw|])
                              case Err(e) => "error decoding argument " + Decimal(|raw|) + ": " + e
                              case Ok(j) => "error marshaling argument " + Decimal(|raw|) + ": " + lib.marshal(j).error
  {
    copied, raw, decoded := args, [], map[];
    var i := 0;
    while i < |args|
      invariant 0 <= i <= |args| && |raw| == i
      invariant Extracted(lib, args, i, raw, decoded)
    {
      var converted := ConvertScValToJson(lib, args[i]);
      if converted.Err? {
        return copied, raw, decoded, Some("error decoding argument " + Decimal(i) + ": " + converted.error);
      }
      var bytes := lib.marshal(converted.value);
      if bytes.Err? {
        return copied, raw, decoded, Some("error marshaling argument " + Decimal(i) + ": " + bytes.error);
      }
      ExtractOne(lib, args, i, raw, decoded);
      raw := raw + [bytes.value];
      decoded := decoded[ArgName(i) := converted.value];
      i := i + 1;
    }
    return copied, raw, decoded, None;
  }

  /** The results hold exactly the arguments before the first one that does not convert or marshal;
      there is an error exactly when there is such an argument, and it names its position. */
  method ExtractArguments(lib: Lib, args: seq<ScVal>)
    returns (copied: seq<ScVal>, raw: seq<string>, decoded: map<string, Json>, err: Option<string>)
    ensures copied == args
    ensures Extracted(lib, args, |raw|, raw, decoded)
    ensures forall i :: 0 <= i < |raw| ==>
              "arg_" + Decimal(i) in decoded && Ok(decoded["arg_" + Decimal(i)]) == Convert(lib, args[i])
    ensures err.None? <==> |raw| == |args|
    ensures err.Some? ==>
              && !Extractable(lib, args[|raw|])
              && err.value == match Convert(lib, args[|raw|])
                              case Err(e) => "error decoding argument " + Decimal(|raw|) + ": " + e
                              case Ok(j) => "error marshaling argument " + Decimal(|raw|) + ": " + lib.marshal(j).error
  {
    copied, raw, decoded, err := ExtractLoop(lib, args);
    NamedByPosition(lib, args, |raw|, raw, decoded);
  }
}
