/**
 * core/schema.py: the receiving record, its validation, and its plain-dict form.
 * A Python value of unknown type is a `Py`. ISO-8601 parsing is the parameter `iso`.
 */
module Schema {
  import opened Wrappers
  import opened Text

  datatype Py =
    | PyNone
    | PyStr(s: string)
    | PyInt(i: int)
    | PyBool(b: bool)
    | PyFloat(r: real)
    | PyDict(d: map<Key, Py>)

  // Dict keys the program uses, and any other.
  datatype Key =
    | Truck | Stop | SalesOrder | ModelNumber | ProductCategory | ProductSize | Quantity
    | ReceivingId | Timestamp | MatchStatus | PurchaseOrder | InventoryId
    | Serial | Brand | Vendor | Tags
    | W | D | H | Emitted | Other(name: string)

  type Dict = map<Key, Py>

  const STR_FIELDS: seq<Key> :=
    [Truck, Stop, SalesOrder, ModelNumber, ProductCategory, ReceivingId, Timestamp, MatchStatus,
     PurchaseOrder, InventoryId]
  const OPTIONAL_STR_FIELDS: seq<Key> := [Serial, Brand, Vendor, Tags]
  const VALID_MATCH_STATUSES: set<string> := {"received", "no_match", "needs_attention", "already_scanned"}
  const DIMENSIONS: seq<Key> := [W, D, H]

  datatype Record = Record(
    truck: string, stop: string, salesOrder: string, modelNumber: string, productCategory: string,
    productSize: Dict, quantity: int, receivingId: string, timestamp: string, matchStatus: string,
    purchaseOrder: string, inventoryId: string,
    serial: string, brand: string, vendor: string, tags: string)

  datatype ValidationError = ValidationError

  // `s.strip()` is empty
  predicate Blank(s: string) {
    forall i :: 0 <= i < |s| ==> IsSpace(s[i])
  }

  // ---- What a valid record is -------------------------------------------------

  predicate StrFieldOk(f: Key, data: Dict) {
    && f in data
    && data[f].PyStr?
    && (f == ReceivingId ==> !Blank(data[f].s))
    && (f == MatchStatus ==> data[f].s in VALID_MATCH_STATUSES)
  }

  predicate OptionalFieldOk(f: Key, data: Dict) {
    f in data ==> data[f].PyNone? || data[f].PyStr?
  }

  predicate TimestampOk(iso: string -> bool, data: Dict) {
    Timestamp in data && data[Timestamp].PyStr? && !Blank(data[Timestamp].s) ==> iso(data[Timestamp].s)
  }

  predicate QuantityOk(data: Dict) {
    Quantity in data && data[Quantity].PyInt? && data[Quantity].i >= 1
  }

  predicate DimensionOk(dim: Key, size: Dict) {
    && dim in size
    && match size[dim] {
         case PyInt(i) => i >= 0
         case PyFloat(r) => r >= 0.0
         case _ => false
       }
  }

  predicate SizeOk(data: Dict) {
    && ProductSize in data
    && data[ProductSize].PyDict?
    && forall dim :: dim in DIMENSIONS ==> DimensionOk(dim, data[ProductSize].d)
  }

  predicate WellFormed(iso: string -> bool, data: Dict) {
    && (forall f :: f in STR_FIELDS ==> StrFieldOk(f, data))
    && (forall f :: f in OPTIONAL_STR_FIELDS ==> OptionalFieldOk(f, data))
    && TimestampOk(iso, data)
    && QuantityOk(data)
    && SizeOk(data)
  }

  // ---- validate_record --------------------------------------------------------

  // The field f has something wrong with it.
  predicate Faulty(iso: string -> bool, data: Dict, f: Key) {
    || (f in STR_FIELDS && !StrFieldOk(f, data))
    || (f in OPTIONAL_STR_FIELDS && !OptionalFieldOk(f, data))
    || (f == Timestamp && !TimestampOk(iso, data))
    || (f == Quantity && !QuantityOk(data))
    || (f == ProductSize && !SizeOk(data))
  }

  method StrFieldProblems(data: Dict) returns (problems: seq<Key>)
    ensures forall f :: f in problems <==> f in STR_FIELDS && !StrFieldOk(f, data)
  {
    problems := [];
    for i := 0 to |STR_FIELDS|
      invariant forall f :: f in problems <==> f in STR_FIELDS[..i] && !StrFieldOk(f, data)
    {
      var field := STR_FIELDS[i];
      if field !in data || data[field].PyNone? {
        problems := problems + [field];
      } else if !data[field].PyStr? {
        problems := problems + [field];
      } else if field == ReceivingId && Blank(data[field].s) {
        problems := problems + [field];
      } else if field == MatchStatus && data[field].s !in VALID_MATCH_STATUSES {
        problems := problems + [field];
      }
      assert STR_FIELDS[..i + 1] == STR_FIELDS[..i] + [field];
    }
    assert STR_FIELDS[..|STR_FIELDS|] == STR_FIELDS;
  }

  method OptionalFieldProblems(data: Dict) returns (problems: seq<Key>)
    ensures forall f :: f in problems <==> f in OPTIONAL_STR_FIELDS && !OptionalFieldOk(f, data)
  {
    problems := [];
    for i := 0 to |OPTIONAL_STR_FIELDS|
      invariant forall f :: f in problems <==> f in OPTIONAL_STR_FIELDS[..i] && !OptionalFieldOk(f, data)
    {
      var field := OPTIONAL_STR_FIELDS[i];
      if field in data && !data[field].PyNone? && !data[field].PyStr? {
        problems := problems + [field];
      }
      assert OPTIONAL_STR_FIELDS[..i + 1] == OPTIONAL_STR_FIELDS[..i] + [field];
    }
    assert OPTIONAL_STR_FIELDS[..|OPTIONAL_STR_FIELDS|] == OPTIONAL_STR_FIELDS;
  }

  // One problem for each dimension.
  method SizeProblems(data: Dict) returns (problems: seq<Key>)
    ensures forall f :: f in problems <==> f == ProductSize && !SizeOk(data)
  {
    if ProductSize !in data || !data[ProductSize].PyDict? {
      return [ProductSize];
    }
    var size := data[ProductSize].d;
    problems := [];
    for i := 0 to |DIMENSIONS|
      invariant problems == [] <==> forall k :: 0 <= k < i ==> DimensionOk(DIMENSIONS[k], size)
      invariant forall f :: f in problems ==> f == ProductSize
    {
      var dim := DIMENSIONS[i];
      if dim !in size {
        problems := problems + [ProductSize];
      } else if !size[dim].PyInt? && !size[dim].PyFloat? {
        problems := problems + [ProductSize];
      } else if (size[dim].PyInt? && size[dim].i < 0) || (size[dim].PyFloat? && size[dim].r < 0.0) {
        problems := problems + [ProductSize];
      }
    }
    assert problems != [] ==> problems[0] in problems;
  }

  // The field of each problem found: exactly the faulty fields are named, so no problem means
  // well-formed.
  method ValidateRecord(iso: string -> bool, data: Dict) returns (problems: seq<Key>)
    ensures forall f :: f in problems <==> Faulty(iso, data, f)
    ensures problems == [] <==> WellFormed(iso, data)
  {
    var required := StrFieldProblems(data);
    var optional := OptionalFieldProblems(data);
    problems := required + optional;
    if Timestamp in data && data[Timestamp].PyStr? && !Blank(data[Timestamp].s) {
      if !iso(data[Timestamp].s) {
        problems := problems + [Timestamp];
      }
    }
    if Quantity !in data || !data[Quantity].PyInt? || data[Quantity].i < 1 {
      problems := problems + [Quantity];
    }
    var size := SizeProblems(data);
    problems := problems + size;
    NoProblemIff(iso, data, problems);
  }

  lemma NoProblemIff(iso: string -> bool, data: Dict, problems: seq<Key>)
    requires forall f :: f in problems <==> Faulty(iso, data, f)
    ensures problems == [] <==> WellFormed(iso, data)
  {
    if problems == [] {
      assert !Faulty(iso, data, Timestamp) && !Faulty(iso, data, Quantity) && !Faulty(iso, data, ProductSize);
      forall f | f in STR_FIELDS ensures StrFieldOk(f, data) { assert !Faulty(iso, data, f); }
      forall f | f in OPTIONAL_STR_FIELDS ensures OptionalFieldOk(f, data) { assert !Faulty(iso, data, f); }
    } else {
      assert problems[0] in problems;
    }
  }

  lemma StrFieldNames()
    ensures Truck in STR_FIELDS && Stop in STR_FIELDS && SalesOrder in STR_FIELDS && ModelNumber in STR_FIELDS
    ensures ProductCategory in STR_FIELDS && ReceivingId in STR_FIELDS && Timestamp in STR_FIELDS
    ensures MatchStatus in STR_FIELDS && PurchaseOrder in STR_FIELDS && InventoryId in STR_FIELDS
  {
    var s := STR_FIELDS;
    assert s[0] == Truck && s[1] == Stop && s[2] == SalesOrder && s[3] == ModelNumber && s[4] == ProductCategory;
    assert s[5] == ReceivingId && s[6] == Timestamp && s[7] == MatchStatus && s[8] == PurchaseOrder;
    assert s[9] == InventoryId;
  }

  // ---- Dict form --------------------------------------------------------------

  // v1 -> v2: absent optional fields become "".
  function Migrate(data: Dict): Dict {
    map[Serial := PyStr(""), Brand := PyStr(""), Vendor := PyStr(""), Tags := PyStr("")] + data
  }

  // `data.get(f) or ""`
  function TextOr(data: Dict, f: Key): string {
    if f in data && data[f].PyStr? then data[f].s else ""
  }

  function FromDict(iso: string -> bool, data: Dict): Result<Record, ValidationError> {
    var d := Migrate(data);
    if !WellFormed(iso, d) then Err(ValidationError)
    else
      StrFieldNames();
      Ok(Record(
        d[Truck].s, d[Stop].s, d[SalesOrder].s, d[ModelNumber].s, d[ProductCategory].s,
        d[ProductSize].d, d[Quantity].i, d[ReceivingId].s, d[Timestamp].s, d[MatchStatus].s,
        d[PurchaseOrder].s, d[InventoryId].s,
        TextOr(d, Serial), TextOr(d, Brand), TextOr(d, Vendor), TextOr(d, Tags)))
  }

  function ToDict(r: Record): Dict {
    map[
      Truck := PyStr(r.truck), Stop := PyStr(r.stop), SalesOrder := PyStr(r.salesOrder),
      ModelNumber := PyStr(r.modelNumber), ProductCategory := PyStr(r.productCategory),
      ProductSize := PyDict(r.productSize), Quantity := PyInt(r.quantity),
      ReceivingId := PyStr(r.receivingId), Timestamp := PyStr(r.timestamp),
      MatchStatus := PyStr(r.matchStatus), PurchaseOrder := PyStr(r.purchaseOrder),
      InventoryId := PyStr(r.inventoryId), Serial := PyStr(r.serial), Brand := PyStr(r.brand),
      Vendor := PyStr(r.vendor), Tags := PyStr(r.tags)]
  }

  // What validation leaves to check once every field has its declared type.
  predicate ValidRecord(iso: string -> bool, r: Record) {
    && !Blank(r.receivingId)
    && r.matchStatus in VALID_MATCH_STATUSES
    && (Blank(r.timestamp) || iso(r.timestamp))
    && r.quantity >= 1
    && forall dim :: dim in DIMENSIONS ==> DimensionOk(dim, r.productSize)
  }

  // `d` holds the required fields of `r`, and an optional text or nothing elsewhere.
  predicate Carries(d: Dict, r: Record) {
    && Truck in d && d[Truck] == PyStr(r.truck)
    && Stop in d && d[Stop] == PyStr(r.stop)
    && SalesOrder in d && d[SalesOrder] == PyStr(r.salesOrder)
    && ModelNumber in d && d[ModelNumber] == PyStr(r.modelNumber)
    && ProductCategory in d && d[ProductCategory] == PyStr(r.productCategory)
    && ProductSize in d && d[ProductSize] == PyDict(r.productSize)
    && Quantity in d && d[Quantity] == PyInt(r.quantity)
    && ReceivingId in d && d[ReceivingId] == PyStr(r.receivingId)
    && Timestamp in d && d[Timestamp] == PyStr(r.timestamp)
    && MatchStatus in d && d[MatchStatus] == PyStr(r.matchStatus)
    && PurchaseOrder in d && d[PurchaseOrder] == PyStr(r.purchaseOrder)
    && InventoryId in d && d[InventoryId] == PyStr(r.inventoryId)
    && (forall f :: f in OPTIONAL_STR_FIELDS ==> OptionalFieldOk(f, d))
  }

  // A dict that drops optional fields and adds a foreign key still carries the record.
  lemma CarriesWithoutOptionals(d: Dict, e: Dict, r: Record)
    requires Carries(d, r)
    requires forall k :: k in d && k !in OPTIONAL_STR_FIELDS ==> k in e && e[k] == d[k]
    requires forall k :: k in e && k in OPTIONAL_STR_FIELDS ==> k in d && e[k] == d[k]
    ensures Carries(e, r)
  {
    forall f | f in OPTIONAL_STR_FIELDS ensures OptionalFieldOk(f, e) {
      assert OptionalFieldOk(f, d);
    }
  }

  lemma CarriedIsWellFormedIff(iso: string -> bool, d: Dict, r: Record)
    requires Carries(d, r)
    ensures WellFormed(iso, d) <==> ValidRecord(iso, r)
  {
    assert STR_FIELDS[5] == ReceivingId && STR_FIELDS[7] == MatchStatus;
    if WellFormed(iso, d) {
      assert StrFieldOk(STR_FIELDS[5], d) && StrFieldOk(STR_FIELDS[7], d);
    }
    if ValidRecord(iso, r) {
      forall f | f in STR_FIELDS ensures StrFieldOk(f, d) {}
    }
  }

  // from_dict recovers every required field, fills absent optional ones with "", and refuses
  // exactly the invalid records. Keys it does not know make no difference.
  lemma FromDictRecovers(iso: string -> bool, d: Dict, r: Record)
    requires Carries(d, r)
    ensures FromDict(iso, d)
         == if ValidRecord(iso, r)
            then Ok(r.(serial := TextOr(d, Serial), brand := TextOr(d, Brand),
                       vendor := TextOr(d, Vendor), tags := TextOr(d, Tags)))
            else Err(ValidationError)
  {
    var m := Migrate(d);
    assert Carries(m, r) by {
      forall f | f in OPTIONAL_STR_FIELDS ensures OptionalFieldOk(f, m) {
        assert f in d ==> OptionalFieldOk(f, d);
      }
    }
    CarriedIsWellFormedIff(iso, m, r);
  }

  // to_dict then from_dict gives the record back, or refuses it exactly when it is not valid.
  lemma DictRoundTrip(iso: string -> bool, r: Record)
    ensures FromDict(iso, ToDict(r)) == if ValidRecord(iso, r) then Ok(r) else Err(ValidationError)
  {
    assert Carries(ToDict(r), r);
    FromDictRecovers(iso, ToDict(r), r);
  }
}
