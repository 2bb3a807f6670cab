/** What the JSON of each Soroban value holds, field by field, and which values have none
    (pkg/stellar/processors/contract_invocation/helpers.go:62-319). */
module ScalarJson {
  import opened Basics
  import opened ScVal
  import opened WideInt

  /** A field of the object that the value becomes, if there is one. */
  function Field(r: Result<Json>, name: string): (j: Option<Json>)
  {
    if r.Ok? && r.value.JObj? && name in r.value.fields then Some(r.value.fields[name]) else None
  }

  /** The text in a field. */
  function Text(r: Result<Json>, name: string): (s: string)
  {
    match Field(r, name) case Some(JStr(s)) => s case _ => ""
  }

  /** An object with exactly these fields. */
  ghost predicate HasFields(r: Result<Json>, names: set<string>)
  {
    r.Ok? && r.value.JObj? && r.value.fields.Keys == names
  }

  /** The field holds the decimal of the number. */
  ghost predicate Prints(r: Result<Json>, name: string, n: int)
  {
    Field(r, name) == Some(JStr(Decimal(n))) && Parse(Text(r, name)) == n
  }

  /** The fields of a 128-bit type: each limb under its own key, and the number they make. */
  ghost predicate HasHalves(r: Result<Json>, tag: string, hi: int, lo: int)
  {
    && HasFields(r, {"type", "hi", "lo", "value"}) && Text(r, "type") == tag
    && Field(r, "hi") == Some(JInt(hi)) && Field(r, "lo") == Some(JInt(lo)) && Prints(r, "value", hi * TWO_64 + lo)
  }

  lemma HalvesHaveFields(tag: string, hi: int, lo: int, value: string)
    ensures var r := Ok(Halves(tag, hi, lo, value));
            && HasFields(r, {"type", "hi", "lo", "value"}) && Text(r, "type") == tag && Text(r, "value") == value
            && Field(r, "hi") == Some(JInt(hi)) && Field(r, "lo") == Some(JInt(lo))
            && Field(r, "value") == Some(JStr(value))
  {
  }

  lemma HalvesOf128(lib: Lib, u: UInt128Parts, i: Int128Parts)
    ensures Convert(lib, U128Val(Some(u))) == Ok(Halves("u128", u.hi, u.lo, Decimal(U128(u))))
    ensures Convert(lib, I128Val(Some(i))) == Ok(Halves("i128", i.hi, i.lo, Decimal(I128(i))))
  {
  }

  /** The 128-bit types: the high limb is unsigned in the one and signed in the other. */
  lemma Json128(lib: Lib, u: UInt128Parts, i: Int128Parts)
    ensures HasHalves(Convert(lib, U128Val(Some(u))), "u128", u.hi, u.lo)
    ensures HasHalves(Convert(lib, I128Val(Some(i))), "i128", i.hi, i.lo)
  {
    HalvesOf128(lib, u, i);
    SignedTopLimb128(i);
    HalvesHaveFields("u128", u.hi, u.lo, Decimal(U128(u)));
    HalvesHaveFields("i128", i.hi, i.lo, Decimal(I128(i)));
    DecimalRoundTrip(U128(u));
    DecimalRoundTrip(I128(i));
  }

  /** The fields of a 256-bit type, the number among them. */
  ghost predicate HasLimbs(r: Result<Json>, tag: string, hiHi: int, hiLo: int, loHi: int, loLo: int, n: int)
  {
    && HasFields(r, {"type", "hi_hi", "hi_lo", "lo_hi", "lo_lo", "value", "hex"}) && Text(r, "type") == tag
    && Field(r, "hi_hi") == Some(JInt(hiHi)) && Field(r, "hi_lo") == Some(JInt(hiLo))
    && Field(r, "lo_hi") == Some(JInt(loHi)) && Field(r, "lo_lo") == Some(JInt(loLo))
    && Prints(r, "value", n)
  }

  lemma QuartersHaveFields(tag: string, a: int, b: int, c: int, d: int, value: string, hex: string)
    ensures var r := Ok(Quarters(tag, [a, b, c, d], value, hex));
            && HasFields(r, {"type", "hi_hi", "hi_lo", "lo_hi", "lo_lo", "value", "hex"}) && Text(r, "type") == tag
            && Field(r, "hi_hi") == Some(JInt(a)) && Field(r, "hi_lo") == Some(JInt(b))
            && Field(r, "lo_hi") == Some(JInt(c)) && Field(r, "lo_lo") == Some(JInt(d))
            && Field(r, "value") == Some(JStr(value)) && Text(r, "value") == value && Text(r, "hex") == hex
  {
  }

  /** The text is 64 hexadecimal digits of the number. */
  ghost predicate HexDenotes(s: string, n: int) { |s| == 64 && IsHex(s) && HexValue(s) == n }

  lemma QuartersOfU256(lib: Lib, p: UInt256Parts)
    ensures Convert(lib, U256Val(Some(p)))
            == Ok(Quarters("u256", [p.hiHi, p.hiLo, p.loHi, p.loLo], Decimal(U256(p)), Uint256ToHex(p)))
  {
  }

  lemma QuartersOfI256(lib: Lib, p: Int256Parts)
    ensures Convert(lib, I256Val(Some(p)))
            == Ok(Quarters("i256", [p.hiHi, p.hiLo, p.loHi, p.loLo], Decimal(I256(p)), Int256ToHex(p)))
  {
  }

  lemma FieldsU256(lib: Lib, p: UInt256Parts)
    ensures var r := Convert(lib, U256Val(Some(p)));
            HasLimbs(r, "u256", p.hiHi, p.hiLo, p.loHi, p.loLo, U256(p)) && Text(r, "hex") == Uint256ToHex(p)
  {
    QuartersOfU256(lib, p);
    QuartersHaveFields("u256", p.hiHi, p.hiLo, p.loHi, p.loLo, Decimal(U256(p)), Uint256ToHex(p));
    DecimalRoundTrip(U256(p));
  }

  lemma FieldsI256(lib: Lib, p: Int256Parts)
    ensures var r := Convert(lib, I256Val(Some(p)));
            HasLimbs(r, "i256", p.hiHi, p.hiLo, p.loHi, p.loLo, I256(p)) && Text(r, "hex") == Int256ToHex(p)
  {
    QuartersOfI256(lib, p);
    QuartersHaveFields("i256", p.hiHi, p.hiLo, p.loHi, p.loLo, Decimal(I256(p)), Int256ToHex(p));
    DecimalRoundTrip(I256(p));
  }

  /** The unsigned 256-bit type: the sum of the limbs, and 64 hexadecimal digits of the same number. */
  lemma JsonU256(lib: Lib, p: UInt256Parts)
    ensures var r, n := Convert(lib, U256Val(Some(p))), p.hiHi * TWO_192 + p.hiLo * TWO_128 + p.loHi * TWO_64 + p.loLo;
            HasLimbs(r, "u256", p.hiHi, p.hiLo, p.loHi, p.loLo, n) && HexDenotes(Text(r, "hex"), n)
  {
    FieldsU256(lib, p);
    Uint256HexDenotes(p);
  }

  lemma HexOfI256(p: Int256Parts)
    ensures HexDenotes(Int256ToHex(p), I256(p)) <==> p.hiHi >= 0
    ensures p.hiHi < 0 ==>
              var hex := Int256ToHex(p);
              && |hex| > 0 && hex[0] == '-' && IsHex(hex[1..])
              && HexValue(hex[1..]) == p.hiLo * TWO_128 + p.loHi * TWO_64 + p.loLo - p.hiHi * TWO_192
  {
    Int256HexDenotes(p);
    if p.hiHi < 0 {
      NegativeInt256Hex(p);
    }
  }

  /** The signed 256-bit type: the sum of the limbs with a signed top limb, and 64 hexadecimal digits of the same number
      if and only if the top limb is not negative; otherwise a minus sign before the digits of the absolute top limb and
      of the lower limbs. */
  lemma JsonI256(lib: Lib, p: Int256Parts)
    ensures var r, n := Convert(lib, I256Val(Some(p))), p.hiHi * TWO_192 + p.hiLo * TWO_128 + p.loHi * TWO_64 + p.loLo;
            && HasLimbs(r, "i256", p.hiHi, p.hiLo, p.loHi, p.loLo, n)
            && (HexDenotes(Text(r, "hex"), n) <==> p.hiHi >= 0)
            && (p.hiHi < 0 ==>
                  var hex := Text(r, "hex");
                  && |hex| > 0 && hex[0] == '-' && IsHex(hex[1..])
                  && HexValue(hex[1..]) == p.hiLo * TWO_128 + p.loHi * TWO_64 + p.loLo - p.hiHi * TWO_192)
  {
    FieldsI256(lib, p);
    SignedTopLimb256(p);
    HexOfI256(p);
  }

  // ----- the other scalars

  /** Booleans, small integers and texts become themselves; the rest become objects with a tag. */
  lemma JsonOfScalars(lib: Lib, v: ScVal)
    ensures v.Void? ==> Convert(lib, v) == Ok(JNull)
    ensures v.Bool? && v.b.Some? ==> Convert(lib, v) == Ok(JBool(v.b.value))
    ensures v.U32? && v.u32.Some? ==> Convert(lib, v) == Ok(JInt(v.u32.value))
    ensures v.I32? && v.i32.Some? ==> Convert(lib, v) == Ok(JInt(v.i32.value))
    ensures v.U64Val? && v.u64.Some? ==> Convert(lib, v) == Ok(JInt(v.u64.value))
    ensures v.I64Val? && v.i64.Some? ==> Convert(lib, v) == Ok(JInt(v.i64.value))
    ensures v.Symbol? && v.sym.Some? ==> Convert(lib, v) == Ok(JStr(v.sym.value))
    ensures v.Str? && v.str.Some? ==> Convert(lib, v) == Ok(JStr(v.str.value))
  {
  }

  /** The objects with a single content. */
  lemma JsonOfTagged(lib: Lib, v: ScVal)
    ensures v.Timepoint? && v.t.Some? ==>
              HasFields(Convert(lib, v), {"type", "value"}) && Field(Convert(lib, v), "value") == Some(JInt(v.t.value))
    ensures v.Duration? && v.d.Some? ==>
              HasFields(Convert(lib, v), {"type", "value"}) && Field(Convert(lib, v), "value") == Some(JInt(v.d.value))
    ensures v.LedgerKeyNonce? && v.nonce.Some? ==>
              && HasFields(Convert(lib, v), {"type", "nonce"})
              && Field(Convert(lib, v), "nonce") == Some(JInt(v.nonce.value))
    ensures v.LedgerKeyContractInstance? ==> HasFields(Convert(lib, v), {"type"})
    ensures v.ContractInstance? && v.present ==>
              && HasFields(Convert(lib, v), {"type", "value"})
              && Text(Convert(lib, v), "value") == "complex_contract_instance"
  {
  }

  lemma JsonOfBytes(lib: Lib, bs: seq<bv8>)
    ensures var r := Convert(lib, Bytes(Some(bs)));
            && HasFields(r, {"type", "hex", "base64", "length"})
            && Field(r, "hex") == Some(JStr(lib.hex(bs))) && Field(r, "base64") == Some(JStr(lib.base64(bs)))
            && Field(r, "length") == Some(JInt(|bs|))
  {
  }

  /** What strkey answers for an address, and with which version byte. */
  function Key(lib: Lib, a: Address): (r: Result<string>)
  {
    match a
    case Account(Some(key)) => lib.accountKey(key)
    case Contract(Some(hash)) => lib.contractKey(hash)
    case Account(None) => Err("nil")
    case Contract(None) => Err("nil")
    case OtherAddress(name) => Err(name)
  }

  lemma JsonOfAddress(lib: Lib, a: Address)
    ensures Convert(lib, AddressVal(Some(a))).Ok? <==> Key(lib, a).Ok?
    ensures Key(lib, a).Ok? ==>
              && HasFields(Convert(lib, AddressVal(Some(a))), {"type", "address"})
              && Text(Convert(lib, AddressVal(Some(a))), "address") == Key(lib, a).value
  {
  }

  // ----- tags and failures

  /** The tag of a value's JSON; empty for those without one. */
  function TypeTag(v: ScVal): (t: string)
  {
    match v
    case Timepoint(_) => "timepoint" case Duration(_) => "duration"
    case U128Val(_) => "u128" case I128Val(_) => "i128" case U256Val(_) => "u256" case I256Val(_) => "i256"
    case Bytes(_) => "bytes" case Map(_) => "map"
    case AddressVal(Some(Account(_))) => "account" case AddressVal(Some(Contract(_))) => "contract"
    case ContractInstance(_) => "contract_instance"
    case LedgerKeyContractInstance => "ledger_key_contract_instance"
    case LedgerKeyNonce(_) => "ledger_key_nonce"
    case _ => ""
  }

  lemma TextOfNumberTag(lib: Lib, v: ScVal)
    requires !v.Vec? && !v.Map? && ConvertScalar(lib, v).Ok?
    requires v.U128Val? || v.I128Val? || v.U256Val? || v.I256Val? || v.Timepoint? || v.Duration? || v.Bytes?
    ensures Text(ConvertScalar(lib, v), "type") == TypeTag(v)
  {
  }

  lemma TextOfOtherTag(lib: Lib, v: ScVal)
    requires !v.Vec? && !v.Map? && ConvertScalar(lib, v).Ok?
    requires !(v.U128Val? || v.I128Val? || v.U256Val? || v.I256Val? || v.Timepoint? || v.Duration? || v.Bytes?)
    ensures Text(ConvertScalar(lib, v), "type") == TypeTag(v)
  {
  }

  /** The text under "type" is the tag of the type, ... */
  lemma TextIsTypeTag(lib: Lib, v: ScVal)
    requires Convert(lib, v).Ok?
    ensures Text(Convert(lib, v), "type") == TypeTag(v)
  {
    if v.Vec? || v.Map? {
    } else if v.U128Val? || v.I128Val? || v.U256Val? || v.I256Val? || v.Timepoint? || v.Duration? || v.Bytes? {
      TextOfNumberTag(lib, v);
    } else {
      TextOfOtherTag(lib, v);
    }
  }

  /** ... and no two types share one. */
  lemma TagsDiffer(v: ScVal, w: ScVal)
    requires TypeTag(v) == TypeTag(w) != ""
    ensures (v.U128Val? <==> w.U128Val?) && (v.I128Val? <==> w.I128Val?)
    ensures (v.U256Val? <==> w.U256Val?) && (v.I256Val? <==> w.I256Val?)
    ensures (v.Timepoint? <==> w.Timepoint?) && (v.Duration? <==> w.Duration?) && (v.Bytes? <==> w.Bytes?)
    ensures (v.Map? <==> w.Map?) && (v.AddressVal? <==> w.AddressVal?)
    ensures (v.ContractInstance? <==> w.ContractInstance?) && (v.LedgerKeyNonce? <==> w.LedgerKeyNonce?)
    ensures (v.LedgerKeyContractInstance? <==> w.LedgerKeyContractInstance?)
    ensures v.AddressVal? ==> (v.address.value.Account? <==> w.address.value.Account?)
  {
    assert forall i :: 0 <= i < |TypeTag(v)| ==> TypeTag(v)[i] == TypeTag(w)[i];
  }

  /** The pointer of the value's type is nil. */
  predicate NilValue(v: ScVal)
  {
    match v
    case Bool(x) => x.None?
    case U32(x) => x.None?
    case I32(x) => x.None?
    case U64Val(x) => x.None?
    case I64Val(x) => x.None?
    case Timepoint(x) => x.None?
    case Duration(x) => x.None?
    case U128Val(x) => x.None?
    case I128Val(x) => x.None?
    case U256Val(x) => x.None?
    case I256Val(x) => x.None?
    case Symbol(x) => x.None?
    case Str(x) => x.None?
    case Bytes(x) => x.None?
    case AddressVal(x) => x.None?
    case NilVec => true
    case NilMap => true
    case ContractInstance(present) => !present
    case LedgerKeyNonce(x) => x.None?
    case _ => false
  }

  /** strkey cannot encode the address. */
  predicate Unencodable(lib: Lib, v: ScVal)
  {
    v.AddressVal? && v.address.Some? && Key(lib, v.address.value).Err?
  }

  lemma ScalarFailsExactlyOn(lib: Lib, v: ScVal)
    requires !v.Vec? && !v.Map? && !v.AddressVal?
    ensures ConvertScalar(lib, v).Err? <==> NilValue(v) || v.Other?
  {
  }

  /** A value has no JSON exactly when its pointer is nil, its type is not supported or its address cannot be encoded;
      in particular no vector or map fails for its content. */
  lemma FailsExactlyOn(lib: Lib, v: ScVal)
    ensures Convert(lib, v).Err? <==> NilValue(v) || v.Other? || Unencodable(lib, v)
    ensures v.Other? ==> Convert(lib, v) == Err("unsupported ScVal type: " + v.typeName)
  {
    if v.AddressVal? && v.address.Some? {
      JsonOfAddress(lib, v.address.value);
    } else if !v.Vec? && !v.Map? && !v.AddressVal? {
      ScalarFailsExactlyOn(lib, v);
    }
  }

  /** The note that a vector or map leaves for a failing value names its type, ... */
  lemma NoteNamesType(v: ScVal)
    ensures match v
            case Bool(_) => TypeName(v) == "ScValTypeScvBool"
            case U32(_) => TypeName(v) == "ScValTypeScvU32"
            case I32(_) => TypeName(v) == "ScValTypeScvI32"
            case U64Val(_) => TypeName(v) == "ScValTypeScvU64"
            case I64Val(_) => TypeName(v) == "ScValTypeScvI64"
            case Timepoint(_) => TypeName(v) == "ScValTypeScvTimepoint"
            case Duration(_) => TypeName(v) == "ScValTypeScvDuration"
            case U128Val(_) => TypeName(v) == "ScValTypeScvU128"
            case I128Val(_) => TypeName(v) == "ScValTypeScvI128"
            case U256Val(_) => TypeName(v) == "ScValTypeScvU256"
            case I256Val(_) => TypeName(v) == "ScValTypeScvI256"
            case Symbol(_) => TypeName(v) == "ScValTypeScvSymbol"
            case Str(_) => TypeName(v) == "ScValTypeScvString"
            case Bytes(_) => TypeName(v) == "ScValTypeScvBytes"
            case AddressVal(_) => TypeName(v) == "ScValTypeScvAddress"
            case NilVec => TypeName(v) == "ScValTypeScvVec"
            case NilMap => TypeName(v) == "ScValTypeScvMap"
            case ContractInstance(_) => TypeName(v) == "ScValTypeScvContractInstance"
            case LedgerKeyNonce(_) => TypeName(v) == "ScValTypeScvLedgerKeyNonce"
            case _ => true
  {
  }

  /** ... and so does the error of a nil pointer, for the numbers and for the others. */
  lemma NilNumberNamesType(lib: Lib, v: ScVal)
    requires NilValue(v)
    ensures match v
            case Bool(_) => ConvertScalar(lib, v).error == "ScvBool has nil value"
            case U32(_) => ConvertScalar(lib, v).error == "ScvU32 has nil value"
            case I32(_) => ConvertScalar(lib, v).error == "ScvI32 has nil value"
            case U64Val(_) => ConvertScalar(lib, v).error == "ScvU64 has nil value"
            case I64Val(_) => ConvertScalar(lib, v).error == "ScvI64 has nil value"
            case Timepoint(_) => ConvertScalar(lib, v).error == "ScvTimepoint has nil value"
            case Duration(_) => ConvertScalar(lib, v).error == "ScvDuration has nil value"
            case U128Val(_) => ConvertScalar(lib, v).error == "ScvU128 has nil value"
            case I128Val(_) => ConvertScalar(lib, v).error == "ScvI128 has nil value"
            case U256Val(_) => ConvertScalar(lib, v).error == "ScvU256 has nil value"
            case I256Val(_) => ConvertScalar(lib, v).error == "ScvI256 has nil value"
            case _ => true
  {
  }

  lemma NilErrorNamesType(lib: Lib, v: ScVal)
    requires NilValue(v)
    ensures match v
            case Symbol(_) => ConvertScalar(lib, v).error == "ScvSymbol has nil value"
            case Str(_) => ConvertScalar(lib, v).error == "ScvString has nil value"
            case Bytes(_) => ConvertScalar(lib, v).error == "ScvBytes has nil value"
            case AddressVal(_) => ConvertScalar(lib, v).error == "ScvAddress has nil value"
            case NilVec => ConvertScalar(lib, v).error == "ScvVec has nil value"
            case NilMap => ConvertScalar(lib, v).error == "ScvMap has nil value"
            case ContractInstance(_) => ConvertScalar(lib, v).error == "ScvContractInstance has nil value"
            case LedgerKeyNonce(_) => ConvertScalar(lib, v).error == "ScvLedgerKeyNonce has nil value"
            case _ => true
  {
  }

  // ----- vectors and maps

  /** Each element is rendered at its position, by its JSON or by a note of its position, error and type. */
  lemma VecByPosition(lib: Lib, items: seq<ScVal>, i: nat)
    requires i < |items|
    ensures var r := Convert(lib, Vec(items));
            && r.Ok? && r.value.JList? && |r.value.items| == |items|
            && r.value.items[i] == match Convert(lib, items[i])
                                   case Ok(j) => j
                                   case Err(e) => JObj(map["index" := JInt(i), "error" := JStr(e),
                                                           "type" := JStr(TypeName(items[i]))])
  {
  }

  /** A key is printed by %v or, without JSON, as its error. */
  lemma PrintedKey(lib: Lib, e: Entry)
    ensures EntryKey(lib, e) == match Convert(lib, e.key) case Ok(j) => lib.show(j) case Err(x) => "error:" + x
  {
  }

  /** `keys` lists every key in order, null for one without JSON. */
  lemma MapListsKeys(lib: Lib, es: seq<Entry>, i: nat)
    requires i < |es|
    ensures var r := Convert(lib, Map(es));
            && HasFields(r, {"type", "entries", "keys"})
            && match Field(r, "keys")
               case Some(JList(keys)) =>
                 && |keys| == |es|
                 && keys[i] == (match Convert(lib, es[i].key) case Ok(j) => j case Err(_) => JNull)
               case _ => false
  {
  }

  /** `entries` holds under a printed key the value of the last entry printed so, by its JSON or by a note of its error
      and type. */
  lemma MapHoldsLastEntry(lib: Lib, es: seq<Entry>, i: nat)
    requires i < |es|
    requires forall j :: i < j < |es| ==> EntryKey(lib, es[j]) != EntryKey(lib, es[i])
    ensures match Field(Convert(lib, Map(es)), "entries")
            case Some(JObj(entries)) =>
              && EntryKey(lib, es[i]) in entries
              && entries[EntryKey(lib, es[i])] ==
                 (match Convert(lib, es[i].val)
                  case Ok(j) => j
                  case Err(e) => JObj(map["error" := JStr(e), "type" := JStr(TypeName(es[i].val))]))
            case _ => false
  {
    LastWriterWins(lib, es, i);
  }
}
