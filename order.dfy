/** The order announcement: the message the webshop signs and sends to the
    processor. Its field setters check formats before they assign, its
    signature fields follow the processor's fixed order, and its JSON form
    carries optional keys only for fields that are set.

    The nested parts of an order (`Money`, `OrderItems`, `Address`,
    `CustomerInformation`) are not part of this model: each is represented
    only by the signature fields its own `get_signature_fields` appends, and
    an order appends them unchanged. */
module OrderMessage {
  import opened Wrappers
  import opened DataHelper
  import opened Security
  import Message

  // ---------------------------------------------------------------------
  // Values
  // ---------------------------------------------------------------------

  /** The amount (currency and minor units), as the fields it signs. */
  datatype Money = Money(signatureFields: seq<string>)

  /** The list of order lines, as the fields it signs. */
  datatype OrderItems = OrderItems(signatureFields: seq<string>)

  /** A shipping or billing address, as the fields it signs. */
  datatype Address = Address(signatureFields: seq<string>)

  /** The customer's details, as the fields they sign. */
  datatype CustomerInformation = CustomerInformation(signatureFields: seq<string>)

  /** Brand-specific extra data, such as the issuer of a bank redirect. */
  datatype MetaData = MetaData(properties: map<string, string>)

  /** The state of an order: one component per private field. The timestamp
      is kept as its ISO 8601 (`DATE_ATOM`) rendering. */
  datatype OrderData = OrderData(
    timestamp: string,
    merchantOrderId: string,
    description: Option<string>,
    orderItems: Option<OrderItems>,
    amount: Money,
    shippingDetail: Option<Address>,
    billingDetail: Option<Address>,
    customerInformation: Option<CustomerInformation>,
    language: Option<string>,
    merchantReturnUrl: string,
    paymentBrand: Option<string>,
    paymentBrandForce: Option<string>,
    paymentBrandMetaData: Option<MetaData>)

  /** The field names the checks report. */
  const MerchantOrderIdField := "Order.merchantOrderId"
  const MerchantReturnUrlField := "Order.merchantReturnURL"
  const DescriptionField := "Order.description"
  const LanguageField := "Order.language"
  const PaymentBrandField := "Order.paymentBrand"
  const PaymentBrandForceField := "Order.paymentBrandForce"

  /** What the `AN`/`ANS` checks accept: at most `length` characters and no
      markup (see `ValidateAnAccepts`). */
  predicate Accepted(value: string, length: nat) {
    |value| <= length && '<' !in value
  }

  /** What `validate_null_or_an` accepts (see `ValidateNullOrAnAccepts`). */
  predicate NullOrAccepted(value: Option<string>, length: nat) {
    value.Some? ==> Accepted(value.value, length)
  }

  /** Every checked field holds a value its check accepts: merchant order id
      `ANS..24`, return URL `AN..1024`, and, when set, description `AN..35`,
      language `AN..2`, payment brand and its force mode `AN..50`. */
  predicate WellFormed(o: OrderData) {
    && Accepted(o.merchantOrderId, 24)
    && Accepted(o.merchantReturnUrl, 1024)
    && NullOrAccepted(o.description, 35)
    && NullOrAccepted(o.language, 2)
    && NullOrAccepted(o.paymentBrand, 50)
    && NullOrAccepted(o.paymentBrandForce, 50)
  }

  // ---------------------------------------------------------------------
  // Signature fields
  // ---------------------------------------------------------------------

  /** `(string) $value` on a nullable string: `null` becomes "". */
  function OrEmpty(s: Option<string>): string {
    if s.Some? then s.value else ""
  }

  /** The fields an optional part appends: its own when it is set, none
      when it is `null`. */
  function ItemsFields(i: Option<OrderItems>): seq<string> {
    if i.Some? then i.value.signatureFields else []
  }

  function AddressFields(a: Option<Address>): seq<string> {
    if a.Some? then a.value.signatureFields else []
  }

  function CustomerFields(c: Option<CustomerInformation>): seq<string> {
    if c.Some? then c.value.signatureFields else []
  }

  function StringField(s: Option<string>): seq<string> {
    if s.Some? then [s.value] else []
  }

  /** The block every order signs, whichever optional fields are set:
      timestamp, merchant order id, the amount's fields, language,
      description, return URL. A `null` language or description still takes
      its place, as "". */
  function MandatoryFields(o: OrderData): (m: seq<string>)
    ensures var a := |o.amount.signatureFields|;
      && |m| == 5 + a
      && m[0] == o.timestamp && m[1] == o.merchantOrderId
      && m[2..2 + a] == o.amount.signatureFields
      && m[2 + a] == OrEmpty(o.language)
      && m[3 + a] == OrEmpty(o.description)
      && m[4 + a] == o.merchantReturnUrl
  {
    [o.timestamp, o.merchantOrderId] + o.amount.signatureFields
    + [OrEmpty(o.language), OrEmpty(o.description), o.merchantReturnUrl]
  }

  /** The optional blocks, each appended only when its field is set, in the
      order items, shipping address, payment brand, force mode, customer
      information, billing address. */
  function OptionalFields(o: OrderData): seq<string> {
    ItemsFields(o.orderItems) + AddressFields(o.shippingDetail)
    + StringField(o.paymentBrand) + StringField(o.paymentBrandForce)
    + CustomerFields(o.customerInformation) + AddressFields(o.billingDetail)
  }

  /** `get_signature_fields`: appends the mandatory block, then the optional
      blocks, to `fields`, and never touches what was already there. */
  function SignatureFields(o: OrderData, fields: seq<string>): (r: seq<string>)
    ensures |r| >= |fields| && r[..|fields|] == fields
  {
    var withMandatory := fields + MandatoryFields(o);
    assert (withMandatory + OptionalFields(o))[..|fields|] == fields;
    withMandatory + OptionalFields(o)
  }

  /** A block in the middle of a concatenation sits right after the part
      before it. */
  lemma BlockAt(front: seq<string>, block: seq<string>, back: seq<string>)
    ensures (front + block + back)[|front|..|front| + |block|] == block
  {
  }

  /** The mandatory block comes right after the fields already there. */
  lemma MandatoryLayout(o: OrderData, fields: seq<string>)
    ensures |SignatureFields(o, fields)| >= |fields| + |MandatoryFields(o)|
    ensures forall i :: 0 <= i < |MandatoryFields(o)| ==>
      SignatureFields(o, fields)[|fields| + i] == MandatoryFields(o)[i]
  {
    var p := fields + MandatoryFields(o);
    assert SignatureFields(o, fields) == p + OptionalFields(o);
    assert forall i :: 0 <= i < |p| ==> SignatureFields(o, fields)[i] == p[i];
  }

  /** Where each optional block sits: the items right after the mandatory
      block, each later block right after the one before it (shipping
      address, payment brand, force mode, customer information, billing
      address), and nothing after the billing address. A block whose field
      is `null` is empty. */
  lemma OptionalLayout(o: OrderData, fields: seq<string>)
    ensures var r := SignatureFields(o, fields);
      var k0 := |fields| + |MandatoryFields(o)|;
      var k1 := k0 + |ItemsFields(o.orderItems)|;
      var k2 := k1 + |AddressFields(o.shippingDetail)|;
      var k3 := k2 + |StringField(o.paymentBrand)|;
      var k4 := k3 + |StringField(o.paymentBrandForce)|;
      var k5 := k4 + |CustomerFields(o.customerInformation)|;
      && |r| == k5 + |AddressFields(o.billingDetail)|
      && r[k0..k1] == ItemsFields(o.orderItems)
      && r[k1..k2] == AddressFields(o.shippingDetail)
      && r[k2..k3] == StringField(o.paymentBrand)
      && r[k3..k4] == StringField(o.paymentBrandForce)
      && r[k4..k5] == CustomerFields(o.customerInformation)
      && r[k5..] == AddressFields(o.billingDetail)
  {
    var b1, b2, b3 := ItemsFields(o.orderItems), AddressFields(o.shippingDetail), StringField(o.paymentBrand);
    var b4, b5, b6 := StringField(o.paymentBrandForce), CustomerFields(o.customerInformation), AddressFields(o.billingDetail);
    var p := fields + MandatoryFields(o);
    var r := SignatureFields(o, fields);
    assert r == p + (b1 + b2 + b3 + b4 + b5 + b6);
    assert r == p + b1 + (b2 + (b3 + (b4 + (b5 + b6))));
    BlockAt(p, b1, b2 + (b3 + (b4 + (b5 + b6))));
    assert r == (p + b1) + b2 + (b3 + (b4 + (b5 + b6)));
    BlockAt(p + b1, b2, b3 + (b4 + (b5 + b6)));
    assert r == (p + b1 + b2) + b3 + (b4 + (b5 + b6));
    BlockAt(p + b1 + b2, b3, b4 + (b5 + b6));
    assert r == (p + b1 + b2 + b3) + b4 + (b5 + b6);
    BlockAt(p + b1 + b2 + b3, b4, b5 + b6);
    assert r == (p + b1 + b2 + b3 + b4) + b5 + b6;
    BlockAt(p + b1 + b2 + b3 + b4, b5, b6);
  }

  /** Exactly how many fields an order appends: five of its own, the
      amount's, and each optional part's only when that part is set. */
  lemma SignatureFieldCount(o: OrderData, fields: seq<string>)
    ensures |SignatureFields(o, fields)| ==
      |fields| + 5 + |o.amount.signatureFields|
      + (if o.orderItems.Some? then |o.orderItems.value.signatureFields| else 0)
      + (if o.shippingDetail.Some? then |o.shippingDetail.value.signatureFields| else 0)
      + (if o.paymentBrand.Some? then 1 else 0)
      + (if o.paymentBrandForce.Some? then 1 else 0)
      + (if o.customerInformation.Some? then |o.customerInformation.value.signatureFields| else 0)
      + (if o.billingDetail.Some? then |o.billingDetail.value.signatureFields| else 0)
  {
    OptionalLayout(o, fields);
  }

  /** A `null` language or description signs exactly like an empty one. */
  lemma NullSignsAsEmpty(o: OrderData, fields: seq<string>)
    ensures SignatureFields(o.(description := None), fields) == SignatureFields(o.(description := Some("")), fields)
    ensures SignatureFields(o.(language := None), fields) == SignatureFields(o.(language := Some("")), fields)
  {
  }

  /** Replacing one entry of the middle part of a concatenation. */
  lemma UpdateMiddle(front: seq<string>, middle: seq<string>, back: seq<string>, i: nat, v: string)
    requires i < |middle|
    ensures (front + middle + back)[|front| + i := v] == front + middle[i := v] + back
  {
  }

  /** Changing the merchant order id changes exactly one signature field,
      the one right after the timestamp, to the new id. */
  lemma MerchantOrderIdPosition(o: OrderData, id: string, fields: seq<string>)
    ensures var r := SignatureFields(o, fields);
      |fields| + 1 < |r| && SignatureFields(o.(merchantOrderId := id), fields) == r[|fields| + 1 := id]
  {
    var o2 := o.(merchantOrderId := id);
    assert MandatoryFields(o2) == MandatoryFields(o)[1 := id];
    assert OptionalFields(o2) == OptionalFields(o);
    UpdateMiddle(fields, MandatoryFields(o), OptionalFields(o), 1, id);
  }

  /** Changing the return URL changes exactly one signature field, the last
      of the mandatory block, to the new URL. */
  lemma ReturnUrlPosition(o: OrderData, url: string, fields: seq<string>)
    ensures var r := SignatureFields(o, fields);
      var k := |fields| + 4 + |o.amount.signatureFields|;
      k < |r| && SignatureFields(o.(merchantReturnUrl := url), fields) == r[k := url]
  {
    var o2 := o.(merchantReturnUrl := url);
    var a := |o.amount.signatureFields|;
    assert MandatoryFields(o2) == MandatoryFields(o)[4 + a := url];
    assert OptionalFields(o2) == OptionalFields(o);
    UpdateMiddle(fields, MandatoryFields(o), OptionalFields(o), 4 + a, url);
  }

  // ---------------------------------------------------------------------
  // JSON object
  // ---------------------------------------------------------------------

  /** The keys of the JSON object, one per field. */
  datatype JsonKey =
    | TimestampKey | MerchantOrderIdKey | DescriptionKey | OrderItemsKey | AmountKey
    | ShippingDetailKey | BillingDetailKey | CustomerInformationKey | LanguageKey
    | MerchantReturnUrlKey | PaymentBrandKey | PaymentBrandForceKey | PaymentBrandMetaDataKey

  /** The key as it is spelled on the wire. */
  function KeyName(k: JsonKey): string {
    match k
    case TimestampKey => "timestamp"
    case MerchantOrderIdKey => "merchantOrderId"
    case DescriptionKey => "description"
    case OrderItemsKey => "orderItems"
    case AmountKey => "amount"
    case ShippingDetailKey => "shippingDetail"
    case BillingDetailKey => "billingDetail"
    case CustomerInformationKey => "customerInformation"
    case LanguageKey => "language"
    case MerchantReturnUrlKey => "merchantReturnURL"
    case PaymentBrandKey => "paymentBrand"
    case PaymentBrandForceKey => "paymentBrandForce"
    case PaymentBrandMetaDataKey => "paymentBrandMetaData"
  }

  /** A value in the JSON object; nested parts are serialised by their own
      classes. */
  datatype JsonValue =
    | JString(text: string)
    | JMoney(money: Money)
    | JItems(items: OrderItems)
    | JAddress(address: Address)
    | JCustomer(customer: CustomerInformation)
    | JMeta(metaData: MetaData)

  /** The keys in the order the object is built. */
  const KeyOrder: seq<JsonKey> := [
    TimestampKey, MerchantOrderIdKey, DescriptionKey, OrderItemsKey, AmountKey,
    ShippingDetailKey, BillingDetailKey, CustomerInformationKey, LanguageKey,
    MerchantReturnUrlKey, PaymentBrandKey, PaymentBrandForceKey, PaymentBrandMetaDataKey]

  /** The position of a key in `KeyOrder`. */
  function Rank(k: JsonKey): (i: nat)
    ensures i < |KeyOrder| && KeyOrder[i] == k
  {
    match k
    case TimestampKey => 0
    case MerchantOrderIdKey => 1
    case DescriptionKey => 2
    case OrderItemsKey => 3
    case AmountKey => 4
    case ShippingDetailKey => 5
    case BillingDetailKey => 6
    case CustomerInformationKey => 7
    case LanguageKey => 8
    case MerchantReturnUrlKey => 9
    case PaymentBrandKey => 10
    case PaymentBrandForceKey => 11
    case PaymentBrandMetaDataKey => 12
  }

  /** The field each key carries, or `None` when that field is `null`. */
  function FieldValue(o: OrderData, k: JsonKey): Option<JsonValue> {
    match k
    case TimestampKey => Some(JString(o.timestamp))
    case MerchantOrderIdKey => Some(JString(o.merchantOrderId))
    case DescriptionKey => if o.description.Some? then Some(JString(o.description.value)) else None
    case OrderItemsKey => if o.orderItems.Some? then Some(JItems(o.orderItems.value)) else None
    case AmountKey => Some(JMoney(o.amount))
    case ShippingDetailKey => if o.shippingDetail.Some? then Some(JAddress(o.shippingDetail.value)) else None
    case BillingDetailKey => if o.billingDetail.Some? then Some(JAddress(o.billingDetail.value)) else None
    case CustomerInformationKey =>
      if o.customerInformation.Some? then Some(JCustomer(o.customerInformation.value)) else None
    case LanguageKey => if o.language.Some? then Some(JString(o.language.value)) else None
    case MerchantReturnUrlKey => Some(JString(o.merchantReturnUrl))
    case PaymentBrandKey => if o.paymentBrand.Some? then Some(JString(o.paymentBrand.value)) else None
    case PaymentBrandForceKey => if o.paymentBrandForce.Some? then Some(JString(o.paymentBrandForce.value)) else None
    case PaymentBrandMetaDataKey =>
      if o.paymentBrandMetaData.Some? then Some(JMeta(o.paymentBrandMetaData.value)) else None
  }

  /** The keys that are always present. */
  predicate IsMandatory(k: JsonKey) {
    k == TimestampKey || k == MerchantOrderIdKey || k == AmountKey || k == MerchantReturnUrlKey
  }

  /** The entries of `keys` whose field is set, in the order of `keys`. */
  function Entries(o: OrderData, keys: seq<JsonKey>): (r: seq<(JsonKey, JsonValue)>)
    ensures |r| <= |keys|
    ensures forall i :: 0 <= i < |r| ==> r[i].0 in keys && FieldValue(o, r[i].0) == Some(r[i].1)
  {
    if keys == [] then []
    else
      var rest := Entries(o, keys[1..]);
      var v := FieldValue(o, keys[0]);
      if v.Some? then [(keys[0], v.value)] + rest else rest
  }

  /** `jsonSerialize`: the ordered key/value pairs of the wire object. Each
      pair carries its own field's value, and the keys follow the order the
      object is built in, so none appears twice. */
  function JsonSerialize(o: OrderData): (r: seq<(JsonKey, JsonValue)>)
    ensures |r| <= |KeyOrder|
    ensures forall i :: 0 <= i < |r| ==> FieldValue(o, r[i].0) == Some(r[i].1)
    ensures forall i, j :: 0 <= i < j < |r| ==> Rank(r[i].0) < Rank(r[j].0)
  {
    KeyOrderAscending();
    EntriesAscending(o, KeyOrder);
    Entries(o, KeyOrder)
  }

  /** The value stored under `k`, if any (the first entry with that key). */
  function Lookup(entries: seq<(JsonKey, JsonValue)>, k: JsonKey): Option<JsonValue> {
    if entries == [] then None
    else if entries[0].0 == k then Some(entries[0].1)
    else Lookup(entries[1..], k)
  }

  /** Keys listed in strictly increasing rank. */
  predicate Ascending(keys: seq<JsonKey>) {
    forall i, j :: 0 <= i < j < |keys| ==> Rank(keys[i]) < Rank(keys[j])
  }

  /** `KeyOrder` lists every key once, in rank order. */
  lemma KeyOrderAscending()
    ensures Ascending(KeyOrder)
  {
    assert forall i :: 0 <= i < |KeyOrder| ==> Rank(KeyOrder[i]) == i;
  }

  /** A suffix of ascending keys is ascending. */
  lemma AscendingTail(keys: seq<JsonKey>)
    requires keys != [] && Ascending(keys)
    ensures Ascending(keys[1..])
    ensures forall i :: 0 <= i < |keys[1..]| ==> Rank(keys[0]) < Rank(keys[1..][i])
  {
    forall i | 0 <= i < |keys[1..]| ensures keys[1..][i] == keys[i + 1] {
    }
  }

  /** The entries of ascending keys are ascending in the same order. */
  lemma {:induction false} EntriesAscending(o: OrderData, keys: seq<JsonKey>)
    requires Ascending(keys)
    ensures forall i, j :: 0 <= i < j < |Entries(o, keys)| ==> Rank(Entries(o, keys)[i].0) < Rank(Entries(o, keys)[j].0)
  {
    if keys != [] {
      AscendingTail(keys);
      EntriesAscending(o, keys[1..]);
      var rest := Entries(o, keys[1..]);
      forall i | 0 <= i < |rest| ensures Rank(keys[0]) < Rank(rest[i].0) {
        var t :| 0 <= t < |keys[1..]| && keys[1..][t] == rest[i].0;
      }
    }
  }

  /** Looking a key up in the entries finds its field's value, provided the
      keys are listed without repetition. */
  lemma {:induction false} LookupEntries(o: OrderData, keys: seq<JsonKey>, k: JsonKey)
    requires forall i, j :: 0 <= i < j < |keys| ==> keys[i] != keys[j]
    ensures Lookup(Entries(o, keys), k) == if k in keys then FieldValue(o, k) else None
  {
    if keys != [] {
      LookupEntries(o, keys[1..], k);
      if keys[0] == k {
        assert k !in keys[1..] by {
          forall i | 0 <= i < |keys[1..]| ensures keys[1..][i] != k {
            assert keys[1..][i] == keys[i + 1];
          }
        }
        if FieldValue(o, k).None? {
          LookupAbsent(o, keys[1..], k);
        }
      }
    }
  }

  /** A key that is not among `keys` does not occur in their entries. */
  lemma {:induction false} LookupAbsent(o: OrderData, keys: seq<JsonKey>, k: JsonKey)
    requires k !in keys
    ensures Lookup(Entries(o, keys), k) == None
  {
    if keys != [] {
      assert k !in keys[1..];
      LookupAbsent(o, keys[1..], k);
    }
  }

  /** Every key carries its field: the four mandatory keys always, every
      other key exactly when its field is not `null`, and no key twice, in
      the order the object is built. */
  lemma JsonContents(o: OrderData)
    ensures forall k :: Lookup(JsonSerialize(o), k) == FieldValue(o, k)
    ensures forall k :: IsMandatory(k) ==> Lookup(JsonSerialize(o), k).Some?
  {
    KeyOrderAscending();
    forall k ensures Lookup(JsonSerialize(o), k) == FieldValue(o, k) {
      LookupEntries(o, KeyOrder, k);
      assert KeyOrder[Rank(k)] == k;
    }
  }

  /** No two keys share a wire name. */
  lemma KeyNameInjective()
    ensures forall a, b :: KeyName(a) == KeyName(b) ==> a == b
  {
    forall a, b | KeyName(a) == KeyName(b) ensures a == b {
      assert |KeyName(a)| == |KeyName(b)|;
      assert KeyName(a)[0] == KeyName(b)[0];
    }
  }

  /** The serialised object never names a member twice on the wire. */
  lemma JsonWireNamesDistinct(o: OrderData)
    ensures forall i, j :: 0 <= i < j < |JsonSerialize(o)| ==>
      KeyName(JsonSerialize(o)[i].0) != KeyName(JsonSerialize(o)[j].0)
  {
    KeyNameInjective();
  }

  /** The brand metadata is sent but not signed: setting it adds its key to
      the JSON object and leaves the signature fields as they were. */
  lemma MetaDataSentNotSigned(o: OrderData, m: MetaData, fields: seq<string>)
    ensures Lookup(JsonSerialize(o.(paymentBrandMetaData := Some(m))), PaymentBrandMetaDataKey) == Some(JMeta(m))
    ensures SignatureFields(o.(paymentBrandMetaData := Some(m)), fields) == SignatureFields(o, fields)
  {
    JsonContents(o.(paymentBrandMetaData := Some(m)));
  }

  // ---------------------------------------------------------------------
  // The order object
  // ---------------------------------------------------------------------

  class Order {
    var timestamp: string
    var merchantOrderId: string
    var description: Option<string>
    var orderItems: Option<OrderItems>
    var amount: Money
    var shippingDetail: Option<Address>
    var billingDetail: Option<Address>
    var customerInformation: Option<CustomerInformation>
    var language: Option<string>
    var merchantReturnUrl: string
    var paymentBrand: Option<string>
    var paymentBrandForce: Option<string>
    var paymentBrandMetaData: Option<MetaData>

    /** The signature state every message has. */
    const message: Message.Message

    /** The current field values. */
    function Data(): OrderData
      reads this
    {
      OrderData(timestamp, merchantOrderId, description, orderItems, amount, shippingDetail,
                billingDetail, customerInformation, language, merchantReturnUrl, paymentBrand,
                paymentBrandForce, paymentBrandMetaData)
    }

    /** Every checked field holds a value that passed its check. */
    predicate Valid()
      reads this
    {
      WellFormed(Data())
    }

    /** A new, unsigned order with its mandatory fields; the values have
        already passed their checks. */
    constructor Init(now: string, merchantOrderId: string, amount: Money, merchantReturnUrl: string)
      requires Accepted(merchantOrderId, 24) && Accepted(merchantReturnUrl, 1024)
      ensures Valid()
      ensures Data() == OrderData(now, merchantOrderId, None, None, amount, None, None, None, None,
                                  merchantReturnUrl, None, None, None)
      ensures fresh(message) && message.signature == None
    {
      timestamp := now;
      this.merchantOrderId := merchantOrderId;
      description := None;
      orderItems := None;
      this.amount := amount;
      shippingDetail := None;
      billingDetail := None;
      customerInformation := None;
      language := None;
      this.merchantReturnUrl := merchantReturnUrl;
      paymentBrand := None;
      paymentBrandForce := None;
      paymentBrandMetaData := None;
      message := new Message.Message();
    }

    /** `__construct`: stamps the order with `now` (the clock is read by the
        caller), then checks the merchant order id and the return URL in that
        order; the first check that fails is the exception thrown, and no
        order comes into being. */
    static method Create(now: string, merchantOrderId: string, amount: Money, merchantReturnUrl: string)
      returns (r: Result<Order, FieldError>)
      ensures r.Success? <==>
        ValidateAns(merchantOrderId, 24, MerchantOrderIdField).Pass?
        && ValidateAn(merchantReturnUrl, 1024, MerchantReturnUrlField).Pass?
      ensures r.Failure? && ValidateAns(merchantOrderId, 24, MerchantOrderIdField).Fail? ==>
        r.error == ValidateAns(merchantOrderId, 24, MerchantOrderIdField).error
      ensures r.Failure? && ValidateAns(merchantOrderId, 24, MerchantOrderIdField).Pass? ==>
        r.error == ValidateAn(merchantReturnUrl, 1024, MerchantReturnUrlField).error
      ensures r.Success? ==>
        && fresh(r.value) && fresh(r.value.message)
        && r.value.Valid()
        && r.value.Data() == OrderData(now, merchantOrderId, None, None, amount, None, None, None, None,
                                       merchantReturnUrl, None, None, None)
        && r.value.message.signature == None
    {
      var idCheck := ValidateAns(merchantOrderId, 24, MerchantOrderIdField);
      if idCheck.Fail? {
        return Failure(idCheck.error);
      }
      var urlCheck := ValidateAn(merchantReturnUrl, 1024, MerchantReturnUrlField);
      if urlCheck.Fail? {
        return Failure(urlCheck.error);
      }
      ValidateAnAccepts(merchantOrderId, 24, MerchantOrderIdField);
      ValidateAnAccepts(merchantReturnUrl, 1024, MerchantReturnUrlField);
      var order := new Order.Init(now, merchantOrderId, amount, merchantReturnUrl);
      r := Success(order);
    }

    /** `set_timestamp`. */
    method SetTimestamp(now: string)
      requires Valid()
      modifies this`timestamp
      ensures Valid()
      ensures Data() == old(Data()).(timestamp := now)
    {
      timestamp := now;
    }

    /** `set_merchant_order_id`: checks `ANS..24` first and assigns only a
        value that passed; a refused value leaves the order as it was. */
    method SetMerchantOrderId(id: string) returns (r: Check)
      requires Valid()
      modifies this`merchantOrderId
      ensures Valid()
      ensures r == ValidateAns(id, 24, MerchantOrderIdField)
      ensures Data() == if r.Pass? then old(Data()).(merchantOrderId := id) else old(Data())
    {
      r := ValidateAns(id, 24, MerchantOrderIdField);
      if r.Pass? {
        ValidateAnAccepts(id, 24, MerchantOrderIdField);
        merchantOrderId := id;
      }
    }

    /** `set_amount`. */
    method SetAmount(m: Money)
      requires Valid()
      modifies this`amount
      ensures Valid()
      ensures Data() == old(Data()).(amount := m)
    {
      amount := m;
    }

    /** `set_merchant_return_url`: checks `AN..1024` first and assigns only
        a value that passed. */
    method SetMerchantReturnUrl(url: string) returns (r: Check)
      requires Valid()
      modifies this`merchantReturnUrl
      ensures Valid()
      ensures r == ValidateAn(url, 1024, MerchantReturnUrlField)
      ensures Data() == if r.Pass? then old(Data()).(merchantReturnUrl := url) else old(Data())
    {
      r := ValidateAn(url, 1024, MerchantReturnUrlField);
      if r.Pass? {
        ValidateAnAccepts(url, 1024, MerchantReturnUrlField);
        merchantReturnUrl := url;
      }
    }

    /** `set_description`: `null` or `AN..35`. */
    method SetDescription(d: Option<string>) returns (r: Check)
      requires Valid()
      modifies this`description
      ensures Valid()
      ensures r == ValidateNullOrAn(d, 35, DescriptionField)
      ensures Data() == if r.Pass? then old(Data()).(description := d) else old(Data())
    {
      r := ValidateNullOrAn(d, 35, DescriptionField);
      if r.Pass? {
        ValidateNullOrAnAccepts(d, 35, DescriptionField);
        description := d;
      }
    }

    /** `set_language`: `null` or `AN..2`. */
    method SetLanguage(l: Option<string>) returns (r: Check)
      requires Valid()
      modifies this`language
      ensures Valid()
      ensures r == ValidateNullOrAn(l, 2, LanguageField)
      ensures Data() == if r.Pass? then old(Data()).(language := l) else old(Data())
    {
      r := ValidateNullOrAn(l, 2, LanguageField);
      if r.Pass? {
        ValidateNullOrAnAccepts(l, 2, LanguageField);
        language := l;
      }
    }

    /** `set_payment_brand`: `null` or `AN..50`. */
    method SetPaymentBrand(b: Option<string>) returns (r: Check)
      requires Valid()
      modifies this`paymentBrand
      ensures Valid()
      ensures r == ValidateNullOrAn(b, 50, PaymentBrandField)
      ensures Data() == if r.Pass? then old(Data()).(paymentBrand := b) else old(Data())
    {
      r := ValidateNullOrAn(b, 50, PaymentBrandField);
      if r.Pass? {
        ValidateNullOrAnAccepts(b, 50, PaymentBrandField);
        paymentBrand := b;
      }
    }

    /** `set_payment_brand_force`: `null` or `AN..50`. */
    method SetPaymentBrandForce(f: Option<string>) returns (r: Check)
      requires Valid()
      modifies this`paymentBrandForce
      ensures Valid()
      ensures r == ValidateNullOrAn(f, 50, PaymentBrandForceField)
      ensures Data() == if r.Pass? then old(Data()).(paymentBrandForce := f) else old(Data())
    {
      r := ValidateNullOrAn(f, 50, PaymentBrandForceField);
      if r.Pass? {
        ValidateNullOrAnAccepts(f, 50, PaymentBrandForceField);
        paymentBrandForce := f;
      }
    }

    /** `set_payment_brand_meta_data`: no check. */
    method SetPaymentBrandMetaData(m: Option<MetaData>)
      requires Valid()
      modifies this`paymentBrandMetaData
      ensures Valid()
      ensures Data() == old(Data()).(paymentBrandMetaData := m)
    {
      paymentBrandMetaData := m;
    }

    /** `new_items`: replaces the order lines by a new, empty list and
        returns it. An empty list signs no fields. */
    method NewItems() returns (items: OrderItems)
      requires Valid()
      modifies this`orderItems
      ensures Valid()
      ensures items == OrderItems([])
      ensures Data() == old(Data()).(orderItems := Some(items))
    {
      items := OrderItems([]);
      orderItems := Some(items);
    }

    /** `set_order_items`. */
    method SetOrderItems(items: Option<OrderItems>)
      requires Valid()
      modifies this`orderItems
      ensures Valid()
      ensures Data() == old(Data()).(orderItems := items)
    {
      orderItems := items;
    }

    /** `set_shipping_detail`. */
    method SetShippingDetail(a: Option<Address>)
      requires Valid()
      modifies this`shippingDetail
      ensures Valid()
      ensures Data() == old(Data()).(shippingDetail := a)
    {
      shippingDetail := a;
    }

    /** `set_billing_detail`. */
    method SetBillingDetail(a: Option<Address>)
      requires Valid()
      modifies this`billingDetail
      ensures Valid()
      ensures Data() == old(Data()).(billingDetail := a)
    {
      billingDetail := a;
    }

    /** `set_customer_information`: takes a value, never `null`. */
    method SetCustomerInformation(c: CustomerInformation)
      requires Valid()
      modifies this`customerInformation
      ensures Valid()
      ensures Data() == old(Data()).(customerInformation := Some(c))
    {
      customerInformation := Some(c);
    }

    /** `sign` on an order: signs its current signature fields. */
    method Sign(signer: Signer, key: string)
      modifies message
      ensures message.signature == Some(SignatureOf(signer, SignatureFields(Data(), []), key))
    {
      message.Sign(signer, SignatureFields(Data(), []), key);
    }

    /** `is_valid` on an order: checks the carried signature against its
        current signature fields; changes nothing. */
    method IsValid(signer: Signer, key: string) returns (ok: bool)
      ensures ok == Message.Verdict(signer, SignatureFields(Data(), []), key, message.signature)
    {
      ok := message.IsValid(signer, SignatureFields(Data(), []), key);
    }
  }

  /** A signed order stays valid when only its brand metadata changes
      afterwards: the metadata is not covered by the signature. */
  lemma MetaDataChangeKeepsValidity(signer: Signer, key: string, o: OrderData, m: Option<MetaData>)
    requires ComparesByEquality(signer)
    requires !Message.IsEmpty(SignatureOf(signer, SignatureFields(o, []), key))
    ensures Message.Verdict(signer, SignatureFields(o.(paymentBrandMetaData := m), []), key,
                            Some(SignatureOf(signer, SignatureFields(o, []), key)))
  {
    assert SignatureFields(o.(paymentBrandMetaData := m), []) == SignatureFields(o, []);
  }

  /** A signed order whose merchant order id is changed afterwards is no
      longer valid, when the hash is injective. */
  lemma ChangedOrderIdInvalidates(signer: Signer, key: string, o: OrderData, id: string)
    requires ComparesByEquality(signer) && HashInjective(signer, key)
    requires id != o.merchantOrderId
    ensures !Message.Verdict(signer, SignatureFields(o.(merchantOrderId := id), []), key,
                             Some(SignatureOf(signer, SignatureFields(o, []), key)))
  {
    var r := SignatureFields(o, []);
    MerchantOrderIdPosition(o, id, []);
    MandatoryLayout(o, []);
    assert r[1] == o.merchantOrderId;
    Message.OneFieldTamperedNotValid(signer, r, 1, id, key);
  }

  /** A signed order whose return URL is changed afterwards is no longer
      valid, when the hash is injective. */
  lemma ChangedReturnUrlInvalidates(signer: Signer, key: string, o: OrderData, url: string)
    requires ComparesByEquality(signer) && HashInjective(signer, key)
    requires url != o.merchantReturnUrl
    ensures !Message.Verdict(signer, SignatureFields(o.(merchantReturnUrl := url), []), key,
                             Some(SignatureOf(signer, SignatureFields(o, []), key)))
  {
    var r := SignatureFields(o, []);
    var k := 4 + |o.amount.signatureFields|;
    ReturnUrlPosition(o, url, []);
    MandatoryLayout(o, []);
    assert r[k] == o.merchantReturnUrl;
    Message.OneFieldTamperedNotValid(signer, r, k, url, key);
  }

  /** Announcing an order: sign it, then check it. With no change in
      between, the check succeeds (under the round-trip assumptions) and the
      order's fields are untouched. */
  method SignThenIsValid(order: Order, signer: Signer, key: string) returns (ok: bool)
    requires ComparesByEquality(signer)
    requires !Message.IsEmpty(SignatureOf(signer, SignatureFields(order.Data(), []), key))
    modifies order.message
    ensures ok
    ensures order.Data() == old(order.Data())
  {
    order.Sign(signer, key);
    ok := order.IsValid(signer, key);
  }
}
