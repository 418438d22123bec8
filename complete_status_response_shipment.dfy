/** `CompleteStatusResponseShipment`: one shipment in a complete-status
    response. Its serialisable-property table, the normalisation its
    `jsonDeserialize` applies before the generic deserialiser, and the entity
    object with its getters and setters. */
module Shipments {
  import opened Wrappers
  import opened Values
  import opened Http

  // The nested entity classes are not part of this model; their values are
  // carried as opaque entities.
  type StatusAddress = Entity
  type Amount = Entity
  type Customer = Entity
  type Dimension = Entity
  type CompleteStatusResponseEvent = Entity
  type Expectation = Entity
  type Group = Entity
  type CompleteStatusResponseOldStatus = Entity
  type ProductOption = Entity
  type Status = Entity
  type Warning = Entity

  /* ---------------- Serialisable-property table ---------------- */

  /** A property's declared type: the scalar `'string'` or a class name. */
  datatype PropertyType = StringType | ClassType(className: string)

  /** One `SerializableProperty` attribute: the property's name, its type,
      whether it is declared `isArray`, and the wire names it also accepts. */
  datatype SerializableProperty = SerializableProperty(name: string, propertyType: PropertyType, isArray: bool, aliases: seq<string>)

  /** The declared properties, in declaration order. */
  const Properties: seq<SerializableProperty> := [
    SerializableProperty("Addresses", ClassType("StatusAddress"), true, []),
    SerializableProperty("Amounts", ClassType("Amount"), true, ["Amount"]),
    SerializableProperty("Barcode", StringType, false, []),
    SerializableProperty("Customer", ClassType("Customer"), false, []),
    SerializableProperty("DeliveryDate", ClassType("DateTimeInterface"), false, []),
    SerializableProperty("Dimension", ClassType("Dimension"), false, []),
    SerializableProperty("Events", ClassType("CompleteStatusResponseEvent"), true, []),
    SerializableProperty("Expectation", ClassType("Expectation"), false, []),
    SerializableProperty("Groups", ClassType("Group"), false, []),
    SerializableProperty("MainBarcode", StringType, false, []),
    SerializableProperty("OldStatuses", ClassType("CompleteStatusResponseOldStatus"), true, []),
    SerializableProperty("ProductCode", StringType, false, []),
    SerializableProperty("ProductDescription", StringType, false, []),
    SerializableProperty("ProductOptions", ClassType("ProductOption"), true, []),
    SerializableProperty("Reference", StringType, false, []),
    SerializableProperty("ShipmentAmount", StringType, false, []),
    SerializableProperty("ShipmentCounter", StringType, false, []),
    SerializableProperty("Status", ClassType("Status"), false, []),
    SerializableProperty("Warnings", ClassType("Warning"), true, [])
  ]

  /** A wire field name denotes a property when it is its name or one of its aliases. */
  predicate Accepts(property: SerializableProperty, wireName: string)
  {
    property.name == wireName || wireName in property.aliases
  }

  /** The position of the first declared property that accepts `wireName`. */
  function FindProperty(properties: seq<SerializableProperty>, wireName: string): (r: Option<nat>)
    ensures r.Some? ==> r.value < |properties| && Accepts(properties[r.value], wireName)
    ensures r.Some? ==> forall j :: 0 <= j < r.value ==> !Accepts(properties[j], wireName)
    ensures r.None? ==> forall j :: 0 <= j < |properties| ==> !Accepts(properties[j], wireName)
  {
    if properties == [] then None
    else if Accepts(properties[0], wireName) then Some(0)
    else
      match FindProperty(properties[1..], wireName)
      case None => None
      case Some(i) => Some(i + 1)
  }

  /** The names of the properties from position `from` on that are declared
      `isArray`, in declaration order. */
  function ArrayPropertyNames(properties: seq<SerializableProperty>, from: nat): (names: seq<string>)
    requires from <= |properties|
    decreases |properties| - from
  {
    if from == |properties| then []
    else if properties[from].isArray then [properties[from].name] + ArrayPropertyNames(properties, from + 1)
    else ArrayPropertyNames(properties, from + 1)
  }

  /** ArrayPropertyNames lists a name exactly when a property from `from` on
      carries it and is declared `isArray`. */
  lemma {:induction false} ArrayPropertyNamesExact(properties: seq<SerializableProperty>, from: nat)
    requires from <= |properties|
    ensures forall i :: from <= i < |properties| && properties[i].isArray ==> properties[i].name in ArrayPropertyNames(properties, from)
    ensures forall n :: n in ArrayPropertyNames(properties, from) ==>
      exists i :: from <= i < |properties| && properties[i].isArray && properties[i].name == n
    decreases |properties| - from
  {
    if from < |properties| {
      ArrayPropertyNamesExact(properties, from + 1);
    }
  }

  /** Exactly six properties are declared as arrays. */
  lemma ArrayProperties()
    ensures ArrayPropertyNames(Properties, 0) == ["Addresses", "Amounts", "Events", "OldStatuses", "ProductOptions", "Warnings"]
  {
    assert ArrayPropertyNames(Properties, 18) == ["Warnings"];
    assert ArrayPropertyNames(Properties, 17) == ["Warnings"];
    assert ArrayPropertyNames(Properties, 16) == ["Warnings"];
    assert ArrayPropertyNames(Properties, 15) == ["Warnings"];
    assert ArrayPropertyNames(Properties, 14) == ["Warnings"];
    assert ArrayPropertyNames(Properties, 13) == ["ProductOptions", "Warnings"];
    assert ArrayPropertyNames(Properties, 12) == ["ProductOptions", "Warnings"];
    assert ArrayPropertyNames(Properties, 11) == ["ProductOptions", "Warnings"];
    assert ArrayPropertyNames(Properties, 10) == ["OldStatuses", "ProductOptions", "Warnings"];
    assert ArrayPropertyNames(Properties, 9) == ["OldStatuses", "ProductOptions", "Warnings"];
    assert ArrayPropertyNames(Properties, 8) == ["OldStatuses", "ProductOptions", "Warnings"];
    assert ArrayPropertyNames(Properties, 7) == ["OldStatuses", "ProductOptions", "Warnings"];
    assert ArrayPropertyNames(Properties, 6) == ["Events", "OldStatuses", "ProductOptions", "Warnings"];
    assert ArrayPropertyNames(Properties, 5) == ["Events", "OldStatuses", "ProductOptions", "Warnings"];
    assert ArrayPropertyNames(Properties, 4) == ["Events", "OldStatuses", "ProductOptions", "Warnings"];
    assert ArrayPropertyNames(Properties, 3) == ["Events", "OldStatuses", "ProductOptions", "Warnings"];
    assert ArrayPropertyNames(Properties, 2) == ["Events", "OldStatuses", "ProductOptions", "Warnings"];
    assert ArrayPropertyNames(Properties, 1) == ["Amounts", "Events", "OldStatuses", "ProductOptions", "Warnings"];
    assert ArrayPropertyNames(Properties, 0) == ["Addresses", "Amounts", "Events", "OldStatuses", "ProductOptions", "Warnings"];
  }

  /** The wire name `Amount` is read into the `Amounts` property. */
  lemma AmountAliasResolvesToAmounts()
    ensures FindProperty(Properties, "Amount") == Some(1)
    ensures Properties[1].name == "Amounts" && Properties[1].isArray
  {
    ResolvesToDeclaringProperty(1, "Amount");
  }

  /** `Groups` holds a list of groups but is not declared `isArray`. */
  lemma GroupsIsNotDeclaredArray()
    ensures FindProperty(Properties, "Groups") == Some(8)
    ensures Properties[8].propertyType == ClassType("Group") && !Properties[8].isArray
  {
    ResolvesToDeclaringProperty(8, "Groups");
  }

  /** A wire name accepted by the property at `i` resolves to `i`. */
  lemma ResolvesToDeclaringProperty(i: nat, wireName: string)
    requires i < |Properties| && Accepts(Properties[i], wireName)
    ensures FindProperty(Properties, wireName) == Some(i)
  {
    PropertiesAreUnambiguous();
  }

  /** No wire name is accepted by two different properties. */
  lemma PropertiesAreUnambiguous()
    ensures forall i, j, wireName :: 0 <= i < j < |Properties| && Accepts(Properties[i], wireName) ==> !Accepts(Properties[j], wireName)
  {
  }

  /* ---------------- jsonDeserialize ---------------- */

  const WrapperKey: string := "CompleteStatusResponseShipment"

  /** PHP's `isset($json->CompleteStatusResponseShipment->Address)`: the wrapper
      is an object and has an `Address` that is not null. */
  predicate HasAddress(json: map<string, Json>)
  {
    WrapperKey in json && json[WrapperKey].JObject?
    && "Address" in json[WrapperKey].properties
    && json[WrapperKey].properties["Address"] != JNull
  }

  /** A value that is not a list becomes a one-element list; a list is kept. */
  function AsList(value: Json): (r: Json)
    ensures r.JArray?
    ensures value.JArray? ==> r == value
    ensures !value.JArray? ==> r.items == [value]
  {
    if value.JArray? then value else JArray([value])
  }

  /** The step `jsonDeserialize` runs before the generic deserialiser: an
      `Address` inside the wrapper object is moved to `Addresses`, as a list. */
  function NormalizeAddresses(json: map<string, Json>): (r: map<string, Json>)
    ensures r.Keys == json.Keys
    ensures forall k :: k in json && k != WrapperKey ==> r[k] == json[k]
    ensures !HasAddress(json) ==> r == json
    ensures HasAddress(json) ==>
      var before := json[WrapperKey].properties;
      && r[WrapperKey].JObject?
      && r[WrapperKey].properties.Keys == before.Keys - {"Address"} + {"Addresses"}
      && r[WrapperKey].properties["Addresses"] == AsList(before["Address"])
      && forall k :: k in before && k != "Address" && k != "Addresses" ==> r[WrapperKey].properties[k] == before[k]
  {
    if HasAddress(json) then
      var shipment := json[WrapperKey].properties;
      var moved := (shipment - {"Address"})["Addresses" := AsList(shipment["Address"])];
      json[WrapperKey := JObject(moved)]
    else
      json
  }

  /** `jsonDeserialize`: the generic deserialiser `deserialize` sees the
      normalised document, which is the document itself when there is no
      `Address` to move. */
  function JsonDeserialize<T>(json: map<string, Json>, deserialize: map<string, Json> -> T): (r: T)
    ensures !HasAddress(json) ==> r == deserialize(json)
    ensures HasAddress(json) ==> r == deserialize(NormalizeAddresses(json))
  {
    deserialize(NormalizeAddresses(json))
  }

  /** Normalising twice is normalising once. */
  lemma NormalizeAddressesIsIdempotent(json: map<string, Json>)
    ensures NormalizeAddresses(NormalizeAddresses(json)) == NormalizeAddresses(json)
  {
  }

  /** A single `Address` object and a one-element `Address` list normalise to
      the same document. */
  lemma SingleAddressIsOneElementList(shipment: map<string, Json>, json: map<string, Json>, address: Json)
    requires address != JNull && !address.JArray?
    ensures NormalizeAddresses(json[WrapperKey := JObject(shipment["Address" := address])])
         == NormalizeAddresses(json[WrapperKey := JObject(shipment["Address" := JArray([address])])])
  {
    assert shipment["Address" := address] - {"Address"} == shipment["Address" := JArray([address])] - {"Address"};
  }

  /** After normalisation `Addresses` holds a list, which is what the property
      table's `isArray` declaration for it expects. */
  lemma NormalizedAddressesFitTheTable(json: map<string, Json>)
    requires HasAddress(json)
    ensures FindProperty(Properties, "Addresses") == Some(0) && Properties[0].isArray
    ensures NormalizeAddresses(json)[WrapperKey].properties["Addresses"].JArray?
  {
  }

  /* ---------------- The entity object ---------------- */

  /** A `DateTimeInterface` value: an instant and the zone it is read in. */
  datatype DateTime = DateTime(timestamp: int, timezone: string)

  /** `new DateTimeImmutable($text, new DateTimeZone($zone))`, or the exception it throws. */
  type DateParser = (string, string) -> Result<DateTime, Throwable>

  const AmsterdamTimezone: string := "Europe/Amsterdam"

  /** What `setDeliveryDate` accepts: a string, a date object, or null. */
  datatype DeliveryDateInput = DateText(text: string) | DateObject(date: DateTime) | NoDate

  /** The value `setDeliveryDate` stores, or the exception it throws. */
  function DeliveryDateValue(input: DeliveryDateInput, parseDate: DateParser): (r: Result<Option<DateTime>, Throwable>)
    ensures input.NoDate? ==> r == Success(None)
    ensures input.DateObject? ==> r == Success(Some(input.date))
    // A string is read in the Europe/Amsterdam zone, whatever the process's zone.
    ensures input.DateText? ==> (r.Success? <==> parseDate(input.text, "Europe/Amsterdam").Success?)
    ensures input.DateText? && r.Success? ==> r.value == Some(parseDate(input.text, "Europe/Amsterdam").value)
    // A parse failure becomes an InvalidArgumentException with the inner message,
    // code 0 and the inner exception as previous.
    ensures input.DateText? && r.Failure? ==>
      var inner := parseDate(input.text, "Europe/Amsterdam").error;
      r.error == Throwable(InvalidArgument, inner.message, 0, Some(inner))
  {
    match input
    case NoDate => Success(None)
    case DateObject(date) => Success(Some(date))
    case DateText(text) =>
      match parseDate(text, AmsterdamTimezone)
      case Success(date) => Success(Some(date))
      case Failure(inner) => Failure(Throwable(InvalidArgument, inner.message, 0, Some(inner)))
  }

  /** The values of the nineteen properties, in declaration order. */
  datatype ShipmentFields = ShipmentFields(
    Addresses: Option<seq<StatusAddress>>,
    Amounts: Option<seq<Amount>>,
    Barcode: Option<string>,
    Customer: Option<Customer>,
    DeliveryDate: Option<DateTime>,
    Dimension: Option<Dimension>,
    Events: Option<seq<CompleteStatusResponseEvent>>,
    Expectation: Option<Expectation>,
    Groups: Option<seq<Group>>,
    MainBarcode: Option<string>,
    OldStatuses: Option<seq<CompleteStatusResponseOldStatus>>,
    ProductCode: Option<string>,
    ProductDescription: Option<string>,
    ProductOptions: Option<seq<ProductOption>>,
    Reference: Option<string>,
    ShipmentAmount: Option<string>,
    ShipmentCounter: Option<string>,
    Status: Option<Status>,
    Warnings: Option<seq<Warning>>)

  /** Every property null: the state before the constructor's setters run. */
  const NoFields: ShipmentFields := ShipmentFields(None, None, None, None, None, None, None, None, None, None, None, None, None, None, None, None, None, None, None)


  class CompleteStatusResponseShipment {
    var Addresses: Option<seq<StatusAddress>>
    var Amounts: Option<seq<Amount>>
    var Barcode: Option<string>
    var Customer: Option<Customer>
    var DeliveryDate: Option<DateTime>
    var Dimension: Option<Dimension>
    var Events: Option<seq<CompleteStatusResponseEvent>>
    var Expectation: Option<Expectation>
    var Groups: Option<seq<Group>>
    var MainBarcode: Option<string>
    var OldStatuses: Option<seq<CompleteStatusResponseOldStatus>>
    var ProductCode: Option<string>
    var ProductDescription: Option<string>
    var ProductOptions: Option<seq<ProductOption>>
    var Reference: Option<string>
    var ShipmentAmount: Option<string>
    var ShipmentCounter: Option<string>
    var Status: Option<Status>
    var Warnings: Option<seq<Warning>>

    function Fields(): (fields: ShipmentFields)
      reads this
    {
      ShipmentFields(Addresses, Amounts, Barcode, Customer, DeliveryDate, Dimension, Events, Expectation, Groups, MainBarcode, OldStatuses, ProductCode, ProductDescription, ProductOptions, Reference, ShipmentAmount, ShipmentCounter, Status, Warnings)
    }

    /** The object as the property defaults leave it. */
    constructor Empty()
      ensures Fields() == NoFields
    {
      Addresses := None;
      Amounts := None;
      Barcode := None;
      Customer := None;
      DeliveryDate := None;
      Dimension := None;
      Events := None;
      Expectation := None;
      Groups := None;
      MainBarcode := None;
      OldStatuses := None;
      ProductCode := None;
      ProductDescription := None;
      ProductOptions := None;
      Reference := None;
      ShipmentAmount := None;
      ShipmentCounter := None;
      Status := None;
      Warnings := None;
    }

    function GetAddresses(): (addresses: Option<seq<StatusAddress>>)
      reads this
    {
      Addresses
    }

    method SetAddresses(addresses: Option<seq<StatusAddress>>)
      modifies this
      ensures GetAddresses() == addresses
      ensures Fields() == old(Fields()).(Addresses := addresses)
    {
      Addresses := addresses;
    }

    function GetAmounts(): (amounts: Option<seq<Amount>>)
      reads this
    {
      Amounts
    }

    method SetAmounts(amounts: Option<seq<Amount>>)
      modifies this
      ensures GetAmounts() == amounts
      ensures Fields() == old(Fields()).(Amounts := amounts)
    {
      Amounts := amounts;
    }

    function GetBarcode(): (barcode: Option<string>)
      reads this
    {
      Barcode
    }

    method SetBarcode(barcode: Option<string>)
      modifies this
      ensures GetBarcode() == barcode
      ensures Fields() == old(Fields()).(Barcode := barcode)
    {
      Barcode := barcode;
    }

    function GetCustomer(): (customer: Option<Customer>)
      reads this
    {
      Customer
    }

    method SetCustomer(customer: Option<Customer>)
      modifies this
      ensures GetCustomer() == customer
      ensures Fields() == old(Fields()).(Customer := customer)
    {
      Customer := customer;
    }

    function GetDimension(): (dimension: Option<Dimension>)
      reads this
    {
      Dimension
    }

    method SetDimension(dimension: Option<Dimension>)
      modifies this
      ensures GetDimension() == dimension
      ensures Fields() == old(Fields()).(Dimension := dimension)
    {
      Dimension := dimension;
    }

    function GetEvents(): (events: Option<seq<CompleteStatusResponseEvent>>)
      reads this
    {
      Events
    }

    method SetEvents(events: Option<seq<CompleteStatusResponseEvent>>)
      modifies this
      ensures GetEvents() == events
      ensures Fields() == old(Fields()).(Events := events)
    {
      Events := events;
    }

    function GetExpectation(): (expectation: Option<Expectation>)
      reads this
    {
      Expectation
    }

    method SetExpectation(expectation: Option<Expectation>)
      modifies this
      ensures GetExpectation() == expectation
      ensures Fields() == old(Fields()).(Expectation := expectation)
    {
      Expectation := expectation;
    }

    function GetGroups(): (groups: Option<seq<Group>>)
      reads this
    {
      Groups
    }

    method SetGroups(groups: Option<seq<Group>>)
      modifies this
      ensures GetGroups() == groups
      ensures Fields() == old(Fields()).(Groups := groups)
    {
      Groups := groups;
    }

    function GetMainBarcode(): (mainBarcode: Option<string>)
      reads this
    {
      MainBarcode
    }

    method SetMainBarcode(mainBarcode: Option<string>)
      modifies this
      ensures GetMainBarcode() == mainBarcode
      ensures Fields() == old(Fields()).(MainBarcode := mainBarcode)
    {
      MainBarcode := mainBarcode;
    }

    function GetOldStatuses(): (oldStatuses: Option<seq<CompleteStatusResponseOldStatus>>)
      reads this
    {
      OldStatuses
    }

    method SetOldStatuses(oldStatuses: Option<seq<CompleteStatusResponseOldStatus>>)
      modifies this
      ensures GetOldStatuses() == oldStatuses
      ensures Fields() == old(Fields()).(OldStatuses := oldStatuses)
    {
      OldStatuses := oldStatuses;
    }

    function GetProductCode(): (productCode: Option<string>)
      reads this
    {
      ProductCode
    }

    method SetProductCode(productCode: Option<string>)
      modifies this
      ensures GetProductCode() == productCode
      ensures Fields() == old(Fields()).(ProductCode := productCode)
    {
      ProductCode := productCode;
    }

    function GetProductDescription(): (productDescription: Option<string>)
      reads this
    {
      ProductDescription
    }

    method SetProductDescription(productDescription: Option<string>)
      modifies this
      ensures GetProductDescription() == productDescription
      ensures Fields() == old(Fields()).(ProductDescription := productDescription)
    {
      ProductDescription := productDescription;
    }

    function GetProductOptions(): (productOptions: Option<seq<ProductOption>>)
      reads this
    {
      ProductOptions
    }

    method SetProductOptions(productOptions: Option<seq<ProductOption>>)
      modifies this
      ensures GetProductOptions() == productOptions
      ensures Fields() == old(Fields()).(ProductOptions := productOptions)
    {
      ProductOptions := productOptions;
    }

    function GetReference(): (reference: Option<string>)
      reads this
    {
      Reference
    }

    method SetReference(reference: Option<string>)
      modifies this
      ensures GetReference() == reference
      ensures Fields() == old(Fields()).(Reference := reference)
    {
      Reference := reference;
    }

    function GetShipmentAmount(): (shipmentAmount: Option<string>)
      reads this
    {
      ShipmentAmount
    }

    method SetShipmentAmount(shipmentAmount: Option<string>)
      modifies this
      ensures GetShipmentAmount() == shipmentAmount
      ensures Fields() == old(Fields()).(ShipmentAmount := shipmentAmount)
    {
      ShipmentAmount := shipmentAmount;
    }

    function GetShipmentCounter(): (shipmentCounter: Option<string>)
      reads this
    {
      ShipmentCounter
    }

    method SetShipmentCounter(shipmentCounter: Option<string>)
      modifies this
      ensures GetShipmentCounter() == shipmentCounter
      ensures Fields() == old(Fields()).(ShipmentCounter := shipmentCounter)
    {
      ShipmentCounter := shipmentCounter;
    }

    function GetStatus(): (status: Option<Status>)
      reads this
    {
      Status
    }

    method SetStatus(status: Option<Status>)
      modifies this
      ensures GetStatus() == status
      ensures Fields() == old(Fields()).(Status := status)
    {
      Status := status;
    }

    function GetWarnings(): (warnings: Option<seq<Warning>>)
      reads this
    {
      Warnings
    }

    method SetWarnings(warnings: Option<seq<Warning>>)
      modifies this
      ensures GetWarnings() == warnings
      ensures Fields() == old(Fields()).(Warnings := warnings)
    {
      Warnings := warnings;
    }

    function GetDeliveryDate(): (deliveryDate: Option<DateTime>)
      reads this
    {
      DeliveryDate
    }

    /** A string is parsed in the Europe/Amsterdam zone, a date or null is
        stored as given; on a parse failure nothing changes and the
        InvalidArgumentException is thrown. */
    method SetDeliveryDate(deliveryDate: DeliveryDateInput, parseDate: DateParser) returns (thrown: Option<Throwable>)
      modifies this
      ensures match DeliveryDateValue(deliveryDate, parseDate)
        case Success(date) => thrown.None? && GetDeliveryDate() == date && Fields() == old(Fields()).(DeliveryDate := date)
        case Failure(e) => thrown == Some(e) && Fields() == old(Fields())
    {
      match DeliveryDateValue(deliveryDate, parseDate)
      case Failure(e) =>
        thrown := Some(e);
      case Success(date) =>
        DeliveryDate := date;
        thrown := None;
    }

    /** `new CompleteStatusResponseShipment(...)`: every property is set through
        its setter, in the constructor's order, so every property equals its
        argument except a string delivery date, which is stored parsed; a
        delivery date that does not parse makes construction throw. */
    static method Construct(
      addresses: Option<seq<StatusAddress>>,
      amounts: Option<seq<Amount>>,
      barcode: Option<string>,
      customer: Option<Customer>,
      deliveryDate: DeliveryDateInput,
      dimension: Option<Dimension>,
      events: Option<seq<CompleteStatusResponseEvent>>,
      expectation: Option<Expectation>,
      groups: Option<seq<Group>>,
      oldStatuses: Option<seq<CompleteStatusResponseOldStatus>>,
      productCode: Option<string>,
      productOptions: Option<seq<ProductOption>>,
      reference: Option<string>,
      status: Option<Status>,
      warnings: Option<seq<Warning>>,
      mainBarcode: Option<string>,
      shipmentAmount: Option<string>,
      shipmentCounter: Option<string>,
      productDescription: Option<string>,
      parseDate: DateParser)
      returns (r: Result<CompleteStatusResponseShipment, Throwable>)
      ensures match DeliveryDateValue(deliveryDate, parseDate)
        case Failure(e) => r == Failure(e)
        case Success(date) =>
          && r.Success? && fresh(r.value)
          && r.value.Fields() == ShipmentFields(addresses, amounts, barcode, customer, date, dimension, events, expectation, groups, mainBarcode, oldStatuses, productCode, productDescription, productOptions, reference, shipmentAmount, shipmentCounter, status, warnings)
    {
      var shipment := new CompleteStatusResponseShipment.Empty();
      var thrown: Option<Throwable>;
      shipment.SetAddresses(addresses);
      shipment.SetAmounts(amounts);
      shipment.SetBarcode(barcode);
      shipment.SetCustomer(customer);
      thrown := shipment.SetDeliveryDate(deliveryDate, parseDate);
      if thrown.Some? {
        return Failure(thrown.value);
      }
      shipment.SetDimension(dimension);
      shipment.SetEvents(events);
      shipment.SetExpectation(expectation);
      shipment.SetGroups(groups);
      shipment.SetOldStatuses(oldStatuses);
      shipment.SetProductCode(productCode);
      shipment.SetProductOptions(productOptions);
      shipment.SetReference(reference);
      shipment.SetStatus(status);
      shipment.SetWarnings(warnings);
      shipment.SetMainBarcode(mainBarcode);
      shipment.SetShipmentAmount(shipmentAmount);
      shipment.SetShipmentCounter(shipmentCounter);
      shipment.SetProductDescription(productDescription);
      r := Success(shipment);
    }
  }
}
