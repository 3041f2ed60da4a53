/** The JSON behind the fingerprints (shared/src/idempotency.ts): what `commandFingerprint` and
    `orderFingerprint` hash. Up to collisions of the hash, a command's fingerprint is its content
    and an order's is its payload, which is how the rest of this project treats them. */
module Fingerprints {
  import opened Contracts
  import opened Identifiers
  import opened Idempotency
  import Acceptance
  import Basket
  import Catalog

  // ---------- Texts ----------

  predicate IsAscii(s: string) {
    forall i :: 0 <= i < |s| ==> s[i] < 128 as char
  }

  /** A string of ASCII characters as code units. */
  function Ascii(s: string): (text: Text)
    ensures |text| == |s|
    ensures forall i :: 0 <= i < |s| && s[i] < 128 as char ==> text[i] == s[i] as int
  {
    seq(|s|, i requires 0 <= i < |s| => if s[i] < 128 as char then s[i] as int else 0)
  }

  lemma AsciiTells(s: string, t: string)
    requires IsAscii(s) && IsAscii(t) && Ascii(s) == Ascii(t)
    ensures s == t
  {
    forall i | 0 <= i < |s| ensures s[i] == t[i] {
      assert Ascii(s)[i] == Ascii(t)[i];
    }
  }

  function Id(u: Uuid): Json
    requires u < UUIDS
  {
    String(Ascii(TextOf(u)))
  }

  lemma IdTells(u: Uuid, v: Uuid)
    requires u < UUIDS && v < UUIDS && Id(u) == Id(v)
    ensures u == v
  {
    assert IsAscii(TextOf(u)) && IsAscii(TextOf(v));
    hide TextOf, IsUuid, Lower;
    AsciiTells(TextOf(u), TextOf(v));
    WrittenAll(u);
    WrittenAll(v);
  }

  function CurrencyName(currency: Currency): string {
    match currency
    case USD => "USD"
    case BDT => "BDT"
  }

  function MethodName(paymentMethod: PaymentMethod): string {
    match paymentMethod
    case COD => "COD"
    case BankTransfer => "BANK_TRANSFER"
  }

  lemma NameTextTells(p: Operation, q: Operation)
    requires Ascii(Name(p)) == Ascii(Name(q))
    ensures p == q
  {
    assert |Name(p)| == |Name(q)|;
    assert Ascii(Name(p))[0] == Ascii(Name(q))[0] && Ascii(Name(p))[2] == Ascii(Name(q))[2];
  }

  lemma CurrencyTells(a: Currency, b: Currency)
    requires Ascii(CurrencyName(a)) == Ascii(CurrencyName(b))
    ensures a == b
  {
    assert Ascii(CurrencyName(a))[0] == Ascii(CurrencyName(b))[0];
  }

  lemma MethodTells(a: PaymentMethod, b: PaymentMethod)
    requires Ascii(MethodName(a)) == Ascii(MethodName(b))
    ensures a == b
  {
  }

  // ---------- Keys ----------

  datatype Label =
    | VersionKey | OrderIdKey | SagaIdKey | OperationKey | PayloadKey | CustomerIdKey
    | AmountMinorKey | CurrencyKey | PaymentMethodKey | ItemsKey | ShippingAddressKey
    | RecipientKey | Line1Key | Line2Key | CityKey | RegionKey
    | PostalCodeKey | CountryCodeKey | ProductIdKey | QuantityKey

  function Spelling(k: Label): string {
    match k
    case VersionKey => "version"
    case OrderIdKey => "orderId"
    case SagaIdKey => "sagaId"
    case OperationKey => "operation"
    case PayloadKey => "payload"
    case CustomerIdKey => "customerId"
    case AmountMinorKey => "amountMinor"
    case CurrencyKey => "currency"
    case PaymentMethodKey => "paymentMethod"
    case ItemsKey => "items"
    case ShippingAddressKey => "shippingAddress"
    case RecipientKey => "recipient"
    case Line1Key => "line1"
    case Line2Key => "line2"
    case CityKey => "city"
    case RegionKey => "region"
    case PostalCodeKey => "postalCode"
    case CountryCodeKey => "countryCode"
    case ProductIdKey => "productId"
    case QuantityKey => "quantity"
  }

  function At(k: Label, value: Json): Field {
    Field(Ascii(Spelling(k)), value)
  }

  function Signature(s: string): (int, char, char)
    requires s != []
  {
    (|s|, s[0], s[|s| - 1])
  }

  lemma SpellingsAreAscii(k: Label)
    ensures Spelling(k) != [] && Spelling(k)[0] < 128 as char && Spelling(k)[|Spelling(k)| - 1] < 128 as char
  {
  }

  lemma SignaturesTell(k: Label, l: Label)
    requires Spelling(k) != [] && Spelling(l) != [] && Signature(Spelling(k)) == Signature(Spelling(l))
    ensures k == l
  {
  }

  /** No two keys are spelled alike. */
  lemma LabelsTell(k: Label, l: Label, v: Json, w: Json)
    ensures At(k, v).key == At(l, w).key <==> k == l
  {
    SpellingsAreAscii(k);
    SpellingsAreAscii(l);
    hide Spelling;
    if At(k, v).key == At(l, w).key {
      var s, t := Spelling(k), Spelling(l);
      assert |s| == |t| && Ascii(s)[0] == Ascii(t)[0] && Ascii(s)[|s| - 1] == Ascii(t)[|t| - 1];
      SignaturesTell(k, l);
    }
  }

  // ---------- Records ----------

  predicate Unique(labels: seq<Label>) {
    forall i, j :: 0 <= i < j < |labels| ==> labels[i] != labels[j]
  }

  /** An object with these keys and values. */
  function Record(labels: seq<Label>, values: seq<Json>): (v: Json)
    requires |labels| == |values|
    ensures v.Object? && |v.fields| == |labels|
    ensures forall i :: 0 <= i < |labels| ==> v.fields[i] == At(labels[i], values[i])
  {
    Object(seq(|labels|, i requires 0 <= i < |labels| => At(labels[i], values[i])))
  }

  predicate Live(v: Json) { v.Undefined? || Valid(v) }

  lemma RecordIsValid(labels: seq<Label>, values: seq<Json>)
    requires |labels| == |values| && Unique(labels)
    requires forall i :: 0 <= i < |values| ==> Live(values[i])
    ensures Valid(Record(labels, values))
  {
    var v := Record(labels, values);
    forall i, j | 0 <= i < j < |v.fields| ensures v.fields[i].key != v.fields[j].key {
      LabelsTell(labels[i], labels[j], values[i], values[j]);
    }
    forall i | 0 <= i < |v.fields| ensures v.fields[i].value.Undefined? || Valid(v.fields[i].value) {
      assert Live(values[i]);
    }
  }

  /** Simple values are equal, left out or not; others are the same. */
  ghost predicate Meets(v: Json, w: Json) {
    if v.Array? || v.Object? then Same(v, w) else v == w
  }

  lemma SameMeets(v: Json, w: Json)
    requires Same(v, w)
    ensures Meets(v, w)
  {
  }

  lemma FieldThere(a: Json, b: Json, i: nat) returns (k: nat)
    requires a.Object? && b.Object? && Same(a, b) && i < |a.fields| && !a.fields[i].value.Undefined?
    ensures k < |b.fields| && b.fields[k].key == a.fields[i].key
    ensures !b.fields[k].value.Undefined? && Same(a.fields[i].value, b.fields[k].value)
  {
    k :| 0 <= k < |b.fields| && Alike(a, b, i, k);
  }

  lemma FieldBack(a: Json, b: Json, j: nat) returns (k: nat)
    requires a.Object? && b.Object? && Same(a, b) && j < |b.fields| && !b.fields[j].value.Undefined?
    ensures k < |a.fields| && a.fields[k].key == b.fields[j].key
    ensures !a.fields[k].value.Undefined? && Same(a.fields[k].value, b.fields[j].value)
  {
    k :| 0 <= k < |a.fields| && Alike(a, b, k, j);
  }

  lemma FieldTells(labels: seq<Label>, xs: seq<Json>, ys: seq<Json>, i: nat)
    requires |labels| == |xs| == |ys| && Unique(labels) && i < |labels|
    requires Same(Record(labels, xs), Record(labels, ys))
    ensures Meets(xs[i], ys[i])
  {
    hide Same, Record;
    var a, b := Record(labels, xs), Record(labels, ys);
    if !xs[i].Undefined? {
      var k := FieldThere(a, b, i);
      LabelsTell(labels[i], labels[k], xs[i], ys[k]);
      SameMeets(xs[i], ys[i]);
    } else if !ys[i].Undefined? {
      var k := FieldBack(a, b, i);
      LabelsTell(labels[k], labels[i], xs[k], ys[i]);
      assert false;
    }
  }

  /** Records of the same shape are the same field by field. */
  lemma RecordsTell(labels: seq<Label>, xs: seq<Json>, ys: seq<Json>)
    requires |labels| == |xs| == |ys| && Unique(labels)
    requires Same(Record(labels, xs), Record(labels, ys))
    ensures forall i :: 0 <= i < |xs| ==> Meets(xs[i], ys[i])
  {
    hide Same, Record, Meets, Unique;
    forall i | 0 <= i < |xs| ensures Meets(xs[i], ys[i]) {
      FieldTells(labels, xs, ys, i);
    }
  }

  /** A record that lacks a key of another is not the same. */
  lemma RecordsDiffer(labels: seq<Label>, xs: seq<Json>, i: nat, others: seq<Label>, ys: seq<Json>)
    requires |labels| == |xs| && |others| == |ys| && i < |labels| && labels[i] !in others && !xs[i].Undefined?
    ensures !Same(Record(labels, xs), Record(others, ys)) && !Same(Record(others, ys), Record(labels, xs))
  {
    var a, b := Record(labels, xs), Record(others, ys);
    forall j | 0 <= j < |others| ensures a.fields[i].key != b.fields[j].key {
      LabelsTell(labels[i], others[j], xs[i], ys[j]);
    }
    hide At, Record;
    assert !a.fields[i].value.Undefined?;
  }

  // ---------- Addresses ----------

  function Line(text: Option<Text>): Json {
    if text.Some? then String(text.value) else Undefined
  }

  const ADDRESS := [RecipientKey, Line1Key, Line2Key, CityKey, RegionKey, PostalCodeKey, CountryCodeKey]

  function AddressValues(a: Address): seq<Json> {
    [String(a.recipient), String(a.line1), Line(a.line2), String(a.city), Line(a.region), String(a.postalCode),
     String(a.countryCode)]
  }

  function AddressJson(a: Address): (v: Json)
    ensures v.Object?
  {
    Record(ADDRESS, AddressValues(a))
  }

  lemma AddressLabels()
    ensures Unique(ADDRESS)
  {
  }

  lemma AddressIsValid(a: Address)
    ensures Valid(AddressJson(a))
  {
    RecordIsValid(ADDRESS, AddressValues(a));
  }

  lemma LinesMeet(x: Address, y: Address)
    requires Meets(String(x.recipient), String(y.recipient)) && Meets(String(x.line1), String(y.line1))
    requires Meets(Line(x.line2), Line(y.line2)) && Meets(String(x.city), String(y.city))
    requires Meets(Line(x.region), Line(y.region)) && Meets(String(x.postalCode), String(y.postalCode))
    requires Meets(String(x.countryCode), String(y.countryCode))
    ensures x == y
  {
  }

  lemma AddressTells(x: Address, y: Address)
    requires Same(AddressJson(x), AddressJson(y))
    ensures x == y
  {
    hide Same, Record, Unique, Meets, Line;
    AddressLabels();
    var xs, ys := AddressValues(x), AddressValues(y);
    RecordsTell(ADDRESS, xs, ys);
    assert Meets(xs[0], ys[0]) && Meets(xs[1], ys[1]) && Meets(xs[2], ys[2]) && Meets(xs[3], ys[3]);
    assert Meets(xs[4], ys[4]) && Meets(xs[5], ys[5]) && Meets(xs[6], ys[6]);
    LinesMeet(x, y);
  }

  // ---------- Items ----------

  predicate ItemsFit(items: seq<Item>) {
    forall i :: 0 <= i < |items| ==> items[i].productId < UUIDS
  }

  const ITEM := [ProductIdKey, QuantityKey]

  function ItemValues(item: Item): seq<Json>
    requires item.productId < UUIDS
  {
    [Id(item.productId), Number(item.quantity)]
  }

  function ItemJson(item: Item): Json
    requires item.productId < UUIDS
  {
    Record(ITEM, ItemValues(item))
  }

  function ItemsJson(items: seq<Item>): (v: Json)
    requires ItemsFit(items)
    ensures v.Array? && |v.elements| == |items|
    ensures forall i :: 0 <= i < |items| ==> v.elements[i] == ItemJson(items[i])
  {
    Array(seq(|items|, i requires 0 <= i < |items| => ItemJson(items[i])))
  }

  lemma ItemTells(x: Item, y: Item)
    requires x.productId < UUIDS && y.productId < UUIDS && Same(ItemJson(x), ItemJson(y))
    ensures x == y
  {
    hide TextOf, Same, Record;
    var xs, ys := ItemValues(x), ItemValues(y);
    RecordsTell(ITEM, xs, ys);
    assert Meets(xs[0], ys[0]) && Meets(xs[1], ys[1]);
    IdTells(x.productId, y.productId);
  }

  lemma ItemIsValid(item: Item)
    requires item.productId < UUIDS
    ensures Valid(ItemJson(item))
  {
    hide TextOf, Record;
    RecordIsValid(ITEM, ItemValues(item));
  }

  lemma ItemsAreValid(items: seq<Item>)
    requires ItemsFit(items)
    ensures Valid(ItemsJson(items))
  {
    hide ItemJson;
    forall i | 0 <= i < |items| ensures Valid(ItemJson(items[i])) {
      ItemIsValid(items[i]);
    }
  }

  lemma ItemsTell(x: seq<Item>, y: seq<Item>)
    requires ItemsFit(x) && ItemsFit(y) && Same(ItemsJson(x), ItemsJson(y))
    ensures x == y
  {
    hide ItemJson;
    forall i | 0 <= i < |x| ensures x[i] == y[i] {
      assert Same(ItemJson(x[i]), ItemJson(y[i]));
      ItemTells(x[i], y[i]);
    }
  }

  // ---------- Commands ----------

  /** Ids are UUIDs. */
  predicate PayloadFits(payload: CommandPayload) {
    match payload
    case ChargePayload(customerId, _, _, _) => customerId < UUIDS
    case ItemsPayload(items) => ItemsFit(items)
    case ShipmentPayload(items, _) => ItemsFit(items)
    case EmptyPayload => true
  }

  predicate Fits(c: Command) {
    c.orderId < UUIDS && c.sagaId < UUIDS && PayloadFits(c.payload)
  }

  function PayloadLabels(payload: CommandPayload): seq<Label> {
    match payload
    case ChargePayload(_, _, _, _) => [CustomerIdKey, AmountMinorKey, CurrencyKey, PaymentMethodKey]
    case ItemsPayload(_) => [ItemsKey]
    case ShipmentPayload(_, _) => [ItemsKey, ShippingAddressKey]
    case EmptyPayload => []
  }

  function PayloadValues(payload: CommandPayload): (values: seq<Json>)
    requires PayloadFits(payload)
    ensures |values| == |PayloadLabels(payload)|
  {
    match payload
    case ChargePayload(customerId, amountMinor, currency, paymentMethod) =>
      [Id(customerId), Number(amountMinor), String(Ascii(CurrencyName(currency))),
       String(Ascii(MethodName(paymentMethod)))]
    case ItemsPayload(items) => [ItemsJson(items)]
    case ShipmentPayload(items, address) => [ItemsJson(items), AddressJson(address)]
    case EmptyPayload => []
  }

  function PayloadJson(payload: CommandPayload): (v: Json)
    requires PayloadFits(payload)
    ensures v.Object?
  {
    Record(PayloadLabels(payload), PayloadValues(payload))
  }

  const COMMAND := [VersionKey, OrderIdKey, SagaIdKey, OperationKey, PayloadKey]

  function CommandValues(c: Command): seq<Json>
    requires Fits(c)
  {
    [Number(1), Id(c.orderId), Id(c.sagaId), String(Ascii(Name(c.operation))), PayloadJson(c.payload)]
  }

  /** The command without its key. */
  function CommandJson(c: Command): Json
    requires Fits(c)
  {
    Record(COMMAND, CommandValues(c))
  }

  lemma PayloadIsValid(payload: CommandPayload)
    requires PayloadFits(payload)
    ensures Valid(PayloadJson(payload))
  {
    hide ItemsJson, AddressJson, TextOf, CurrencyName, MethodName, Ascii, Record;
    match payload {
      case ItemsPayload(items) => ItemsAreValid(items);
      case ShipmentPayload(items, address) => ItemsAreValid(items); AddressIsValid(address);
      case _ =>
    }
    RecordIsValid(PayloadLabels(payload), PayloadValues(payload));
  }

  lemma ChargeTells(x: CommandPayload, y: CommandPayload)
    requires PayloadFits(x) && PayloadFits(y) && x.ChargePayload? && y.ChargePayload?
    requires Same(PayloadJson(x), PayloadJson(y))
    ensures x == y
  {
    hide TextOf, CurrencyName, MethodName, Ascii, Record, Same;
    var xs, ys := PayloadValues(x), PayloadValues(y);
    RecordsTell(PayloadLabels(x), xs, ys);
    assert Meets(xs[0], ys[0]) && Meets(xs[1], ys[1]) && Meets(xs[2], ys[2]) && Meets(xs[3], ys[3]);
    IdTells(x.customerId, y.customerId);
    CurrencyTells(x.currency, y.currency);
    MethodTells(x.paymentMethod, y.paymentMethod);
  }

  lemma ItemPayloadsTell(x: CommandPayload, y: CommandPayload)
    requires PayloadFits(x) && PayloadFits(y) && Same(PayloadJson(x), PayloadJson(y))
    requires (x.ItemsPayload? && y.ItemsPayload?) || (x.ShipmentPayload? && y.ShipmentPayload?)
    ensures x == y
  {
    hide ItemsJson, AddressJson, Record, Same;
    var xs, ys := PayloadValues(x), PayloadValues(y);
    RecordsTell(PayloadLabels(x), xs, ys);
    assert Meets(xs[0], ys[0]);
    ItemsTell(x.items, y.items);
    if x.ShipmentPayload? {
      assert Meets(xs[1], ys[1]);
      AddressTells(x.address, y.address);
    }
  }

  /** Payloads of different shapes have different fields. */
  lemma ShapesDiffer(x: CommandPayload, y: CommandPayload)
    requires PayloadFits(x) && PayloadFits(y)
    requires
      || (x.ChargePayload? && !y.ChargePayload?)
      || (x.ShipmentPayload? && (y.ItemsPayload? || y.EmptyPayload?))
      || (x.ItemsPayload? && y.EmptyPayload?)
    ensures !Same(PayloadJson(x), PayloadJson(y)) && !Same(PayloadJson(y), PayloadJson(x))
  {
    hide ItemsJson, TextOf, CurrencyName, MethodName, Ascii, Record, Same;
    RecordsDiffer(PayloadLabels(x), PayloadValues(x), if x.ShipmentPayload? then 1 else 0,
                  PayloadLabels(y), PayloadValues(y));
  }

  lemma PayloadTells(x: CommandPayload, y: CommandPayload)
    requires PayloadFits(x) && PayloadFits(y) && Same(PayloadJson(x), PayloadJson(y))
    ensures x == y
  {
    hide Same, PayloadJson;
    if x.ChargePayload? && y.ChargePayload? {
      ChargeTells(x, y);
    } else if (x.ItemsPayload? && y.ItemsPayload?) || (x.ShipmentPayload? && y.ShipmentPayload?) {
      ItemPayloadsTell(x, y);
    } else if !(x.EmptyPayload? && y.EmptyPayload?) {
      if x.ChargePayload? || (x.ShipmentPayload? && !y.ChargePayload?) || (x.ItemsPayload? && y.EmptyPayload?) {
        ShapesDiffer(x, y);
      } else {
        ShapesDiffer(y, x);
      }
    }
  }

  lemma CommandLabels()
    ensures Unique(COMMAND)
  {
  }

  lemma CommandIsValid(c: Command)
    requires Fits(c)
    ensures Valid(CommandJson(c))
  {
    hide PayloadJson, TextOf, Name, Ascii, Record, Unique;
    CommandLabels();
    PayloadIsValid(c.payload);
    RecordIsValid(COMMAND, CommandValues(c));
  }

  lemma CommandFieldsMeet(c: Command, d: Command)
    requires Fits(c) && Fits(d) && Same(CommandJson(c), CommandJson(d))
    ensures Meets(Id(c.orderId), Id(d.orderId)) && Meets(Id(c.sagaId), Id(d.sagaId))
    ensures Meets(String(Ascii(Name(c.operation))), String(Ascii(Name(d.operation))))
    ensures Meets(PayloadJson(c.payload), PayloadJson(d.payload))
  {
    hide PayloadJson, Id, Ascii, Record, Same, Unique, Meets;
    CommandLabels();
    var xs, ys := CommandValues(c), CommandValues(d);
    RecordsTell(COMMAND, xs, ys);
    assert Meets(xs[1], ys[1]) && Meets(xs[2], ys[2]) && Meets(xs[3], ys[3]) && Meets(xs[4], ys[4]);
  }

  lemma SameCommands(c: Command, d: Command)
    requires Fits(c) && Fits(d) && Same(CommandJson(c), CommandJson(d))
    ensures Fingerprint(c) == Fingerprint(d)
  {
    hide PayloadJson, TextOf, Ascii, Same, CommandJson;
    CommandFieldsMeet(c, d);
    IdTells(c.orderId, d.orderId);
    IdTells(c.sagaId, d.sagaId);
    NameTextTells(c.operation, d.operation);
    PayloadTells(c.payload, d.payload);
  }

  /** The canonical text of a command without its key determines its content, and is determined by
      it: comparing hashes compares `Fingerprint`s. */
  lemma CommandTextTells(c: Command, d: Command)
    requires Fits(c) && Fits(d)
    ensures Canonical(CommandJson(c)) == Canonical(CommandJson(d)) <==> Fingerprint(c) == Fingerprint(d)
  {
    CommandIsValid(c);
    CommandIsValid(d);
    CanonicalTells(CommandJson(c), CommandJson(d));
    hide Valid, Same, Canonical, TextOf, Name, Ascii, Record, PayloadJson;
    if Same(CommandJson(c), CommandJson(d)) {
      SameCommands(c, d);
    }
  }

  // ---------- Orders ----------

  predicate OrderFits(p: OrderPayload) { p.customerId < UUIDS && ItemsFit(p.items) }

  const ORDER := [CustomerIdKey, ItemsKey, AmountMinorKey, CurrencyKey, PaymentMethodKey, ShippingAddressKey]

  function OrderValues(p: OrderPayload): seq<Json>
    requires OrderFits(p)
  {
    [Id(p.customerId), ItemsJson(p.items), Number(p.amountMinor), String(Ascii(CurrencyName(p.currency))),
     String(Ascii(MethodName(p.paymentMethod))), AddressJson(p.address)]
  }

  function OrderJson(p: OrderPayload): Json
    requires OrderFits(p)
  {
    Record(ORDER, OrderValues(p))
  }

  lemma OrderLabels()
    ensures Unique(ORDER)
  {
  }

  lemma OrderIsValid(p: OrderPayload)
    requires OrderFits(p)
    ensures Valid(OrderJson(p))
  {
    hide ItemsJson, AddressJson, TextOf, CurrencyName, MethodName, Ascii, Record, Unique;
    OrderLabels();
    ItemsAreValid(p.items);
    AddressIsValid(p.address);
    RecordIsValid(ORDER, OrderValues(p));
  }

  lemma OrderFieldsMeet(p: OrderPayload, q: OrderPayload)
    requires OrderFits(p) && OrderFits(q) && Same(OrderJson(p), OrderJson(q))
    ensures Meets(Id(p.customerId), Id(q.customerId)) && Meets(ItemsJson(p.items), ItemsJson(q.items))
    ensures Meets(Number(p.amountMinor), Number(q.amountMinor)) && Meets(AddressJson(p.address), AddressJson(q.address))
    ensures Meets(String(Ascii(CurrencyName(p.currency))), String(Ascii(CurrencyName(q.currency))))
    ensures Meets(String(Ascii(MethodName(p.paymentMethod))), String(Ascii(MethodName(q.paymentMethod))))
  {
    hide ItemsJson, AddressJson, Id, Ascii, Record, Same, Unique, Meets, CurrencyName, MethodName;
    OrderLabels();
    var xs, ys := OrderValues(p), OrderValues(q);
    RecordsTell(ORDER, xs, ys);
    assert Meets(xs[0], ys[0]) && Meets(xs[1], ys[1]) && Meets(xs[2], ys[2]);
    assert Meets(xs[3], ys[3]) && Meets(xs[4], ys[4]) && Meets(xs[5], ys[5]);
  }

  lemma SameOrders(p: OrderPayload, q: OrderPayload)
    requires OrderFits(p) && OrderFits(q) && Same(OrderJson(p), OrderJson(q))
    ensures p == q
  {
    hide ItemsJson, AddressJson, TextOf, Ascii, Same, OrderJson, CurrencyName, MethodName;
    OrderFieldsMeet(p, q);
    IdTells(p.customerId, q.customerId);
    ItemsTell(p.items, q.items);
    CurrencyTells(p.currency, q.currency);
    MethodTells(p.paymentMethod, q.paymentMethod);
    AddressTells(p.address, q.address);
  }

  /** The canonical text of an accepted payload determines the payload. */
  lemma OrderTextTells(p: OrderPayload, q: OrderPayload)
    requires OrderFits(p) && OrderFits(q)
    ensures Canonical(OrderJson(p)) == Canonical(OrderJson(q)) <==> p == q
  {
    OrderIsValid(p);
    OrderIsValid(q);
    CanonicalTells(OrderJson(p), OrderJson(q));
    hide Valid, Same, Canonical, TextOf, CurrencyName, MethodName, Ascii, Record, ItemsJson, AddressJson;
    if Same(OrderJson(p), OrderJson(q)) {
      SameOrders(p, q);
    }
  }

  // ---------- What is accepted and sent ----------

  lemma SortedItemsFit(items: seq<Item>)
    requires ItemsFit(items)
    ensures ItemsFit(Basket.Sort(items))
  {
    Basket.SortSorts(items);
    var sorted := Basket.Sort(items);
    forall i | 0 <= i < |sorted| ensures sorted[i].productId < UUIDS {
      assert sorted[i] in multiset(items);
    }
  }

  lemma AcceptedFits(r: Acceptance.Request)
    requires Acceptance.Schema(r)
    ensures OrderFits(Acceptance.PayloadOf(r))
  {
    RoomForUuids();
    SpelledInRoom(r.customer, 36);
    var items := Catalog.ItemsOf(r.items);
    forall i | 0 <= i < |items| ensures items[i].productId < UUIDS {
      SpelledInRoom(r.items[i].productId, 36);
    }
    SortedItemsFit(items);
  }

  /** The check on a repeated key: the stored fingerprint's text is that of the second request
      exactly when both mean the same order. */
  lemma AcceptedTextTells(a: Acceptance.Request, b: Acceptance.Request)
    requires Acceptance.Schema(a) && Acceptance.Schema(b)
    ensures OrderFits(Acceptance.PayloadOf(a)) && OrderFits(Acceptance.PayloadOf(b))
    ensures
      Canonical(OrderJson(Acceptance.PayloadOf(a))) == Canonical(OrderJson(Acceptance.PayloadOf(b)))
      <==> Acceptance.SameOrder(a, b)
  {
    hide Canonical, OrderJson, OrderFits, Acceptance.SameOrder, Acceptance.PayloadOf, Acceptance.Schema;
    AcceptedFits(a);
    AcceptedFits(b);
    OrderTextTells(Acceptance.PayloadOf(a), Acceptance.PayloadOf(b));
    Acceptance.SamePayload(a, b);
  }
}
