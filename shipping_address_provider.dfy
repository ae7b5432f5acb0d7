/**
 The shipping-address form coordinator: the state the provider component
 keeps, and the effects and callbacks that change it.

 Each effect is a step that can be invoked on its own. The pure functions
 over `Session` say what each step does; the class `ShippingAddressFormikProvider`
 performs the same steps on its fields and is proved against them.
 */
module ShippingAddressProvider {
  import opened FormValues
  import opened Validation

  /**
   Which address source is authoritative: the cart's own address (the
   `CART_SHIPPING_ADDRESS` sentinel) or a saved customer address, by id.
   */
  datatype Selection = CartShippingAddress | CustomerAddress(id: string)

  /** Edit/view mode of the section. */
  datatype Mode = Edit | View

  /** An entry of the country list; `stateRequired` is `state_required`. */
  datatype CountryEntry = CountryEntry(id: string, stateRequired: bool)

  /**
   The provider's state. `forceFilledAddress == None` stands for its initial
   value `false`, which equals no selection.
   */
  datatype Session = Session(
    values: Address,
    touched: set<string>,
    backupAddress: Option<Address>,
    forceViewMode: bool,
    forceFilledAddress: Option<Selection>,
    selectedAddress: Selection,
    customerAddressSelected: bool,
    mode: Mode)

  // ---------------------------------------------------------------------------
  // Steps, as functions of the state

  /** The state at mount, from the cached customer-address id ("" when none). */
  function Initial(addressIdInCache: string): (s: Session)
    ensures s.customerAddressSelected <==> s.selectedAddress.CustomerAddress?
    ensures s.selectedAddress.CustomerAddress? <==> addressIdInCache != ""
    ensures s.selectedAddress.CustomerAddress? ==> s.selectedAddress.id == addressIdInCache
    ensures s.forceFilledAddress != Some(s.selectedAddress)
    ensures !s.forceViewMode && s.mode == Edit && s.backupAddress == None
    ensures s.values == ResetValues() && s.touched == {}
  {
    var cached := addressIdInCache != "";
    Session(
      values := InitialValues,
      touched := {},
      backupAddress := None,
      forceViewMode := false,
      forceFilledAddress := None,
      selectedAddress := if cached then CustomerAddress(addressIdInCache) else CartShippingAddress,
      customerAddressSelected := cached,
      mode := Edit)
  }

  /** `resetShippingAddressFormFields`: defaults back in, touched cleared. */
  function ResetFields(s: Session): (r: Session)
    ensures r.values == ResetValues() && r.touched == {}
    ensures r == s.(values := r.values, touched := r.touched)
  {
    s.(values := InitialValues, touched := {})
  }

  /** `setShippingAddressFormFields`: the given address merged over the defaults. */
  function SetFields(s: Session, addressToSet: Address): (r: Session)
    ensures forall f :: f in addressToSet ==> f in r.values && r.values[f] == addressToSet[f]
    ensures forall f :: f in FormFields && f !in addressToSet ==> f in r.values && r.values[f] == InitialValues[f]
    ensures r == s.(values := r.values)
  {
    s.(values := SetFieldsValues(addressToSet))
  }

  /** Whether the fill effect overwrites the form in this pass. */
  predicate FillFires(s: Session, cartHasShippingAddress: bool)
  {
    s.forceFilledAddress != Some(s.selectedAddress) && cartHasShippingAddress
  }

  /**
   The fill effect: unless this selection was already filled or the cart
   address is not valid, the form takes the cart address merged over the
   defaults (whatever the selection is) and the selection is marked filled.
   */
  function FillFromCart(s: Session, cartShippingAddress: Address, cartHasShippingAddress: bool): (r: Session)
    ensures !FillFires(s, cartHasShippingAddress) ==> r == s
    ensures FillFires(s, cartHasShippingAddress) ==>
      r.values == SetFieldsValues(cartShippingAddress)
      && r == s.(values := r.values, forceFilledAddress := Some(s.selectedAddress))
    ensures cartHasShippingAddress ==> r.forceFilledAddress == Some(r.selectedAddress)
  {
    if s.forceFilledAddress == Some(s.selectedAddress) || !cartHasShippingAddress then
      s
    else
      SetFields(s, cartShippingAddress).(forceFilledAddress := Some(s.selectedAddress))
  }

  /**
   The view latch: the first time the cart has a valid address or the customer
   has a saved one, the section goes to VIEW and the latch is set.
   */
  function ViewLatch(s: Session, cartHasShippingAddress: bool, customerHasAddress: bool): (r: Session)
    ensures s.forceViewMode ==> r == s
    ensures !s.forceViewMode && (cartHasShippingAddress || customerHasAddress) ==>
      r == s.(mode := View, forceViewMode := true)
    ensures !(cartHasShippingAddress || customerHasAddress) ==> r == s
    ensures r.mode == s.mode || r.mode == View
  {
    if !s.forceViewMode && (cartHasShippingAddress || customerHasAddress) then
      s.(mode := View, forceViewMode := true)
    else
      s
  }

  // ---------------------------------------------------------------------------
  // Country change: the region rule follows the country table

  /** `country.id === countryValue`. */
  predicate IdMatches(c: CountryEntry, countryValue: Value)
  {
    countryValue == Str(c.id)
  }

  /** Entry `i` is the first one whose id matches. */
  predicate FirstMatch(countryList: seq<CountryEntry>, countryValue: Value, i: int)
    requires 0 <= i < |countryList|
  {
    IdMatches(countryList[i], countryValue)
    && forall j :: 0 <= j < i ==> !IdMatches(countryList[j], countryValue)
  }

  /** `countryList.find(...)`: the index of the first matching entry, if any. */
  function FindCountry(countryList: seq<CountryEntry>, countryValue: Value): (r: Option<nat>)
    ensures r.Some? ==> r.value < |countryList| && FirstMatch(countryList, countryValue, r.value)
    ensures r.None? ==> forall j :: 0 <= j < |countryList| ==> !IdMatches(countryList[j], countryValue)
  {
    if |countryList| == 0 then None
    else if IdMatches(countryList[0], countryValue) then Some(0)
    else
      match FindCountry(countryList[1..], countryValue)
      case None => None
      case Some(i) => Some(i + 1)
  }

  /** `!!countryList.find(...)?.state_required`. */
  function RegionRequired(countryList: seq<CountryEntry>, countryValue: Value): (r: bool)
    ensures r <==> exists i :: 0 <= i < |countryList|
                    && FirstMatch(countryList, countryValue, i) && countryList[i].stateRequired
  {
    match FindCountry(countryList, countryValue)
    case None => false
    case Some(i) =>
      FirstMatchUnique(countryList, countryValue, i);
      countryList[i].stateRequired
  }

  /** At most one entry is the first match. */
  lemma FirstMatchUnique(countryList: seq<CountryEntry>, countryValue: Value, i: nat)
    requires i < |countryList| && FirstMatch(countryList, countryValue, i)
    ensures forall k :: 0 <= k < |countryList| && FirstMatch(countryList, countryValue, k) ==> k == i
  {
  }

  /**
   The country effect: with a country list present and a truthy country value,
   the region rule becomes the one for that country's `state_required`;
   otherwise the rule is left as it is.
   */
  function CountryStep(current: RegionRule, values: Address, countryList: Option<seq<CountryEntry>>): (r: RegionRule)
    ensures !(countryList.Some? && Truthy(Lookup(values, Country))) ==> r == current
    ensures countryList.Some? && Truthy(Lookup(values, Country)) ==>
      (r == RequiredNullable <==> RegionRequired(countryList.value, values[Country]))
  {
    var countryValue := Lookup(values, Country);
    if countryList.Some? && Truthy(countryValue) then
      RegionRuleFor(RegionRequired(countryList.value, countryValue.value))
    else
      current
  }

  // ---------------------------------------------------------------------------
  // Runs of events

  /**
   What can happen to the section: a re-render with the current cart and
   customer data (the fill effect, then the view latch, in declaration order),
   a user editing one field, or a caller invoking reset or set-fields.
   */
  datatype Event =
    | Render(cart: Address, cartHasShippingAddress: bool, customerHasAddress: bool)
    | UserEdit(field: string, value: Value)
    | ResetRequested
    | SetRequested(address: Address)

  function Step(s: Session, e: Event): Session
  {
    match e
    case Render(cart, valid, hasAddress) => ViewLatch(FillFromCart(s, cart, valid), valid, hasAddress)
    case UserEdit(field, value) => s.(values := s.values[field := value])
    case ResetRequested => ResetFields(s)
    case SetRequested(address) => SetFields(s, address)
  }

  function Run(s: Session, events: seq<Event>): Session
    decreases |events|
  {
    if events == [] then s else Run(Step(s, events[0]), events[1..])
  }

  /** The form values that the explicit events alone produce: renders skipped. */
  function ExplicitOnly(values: Address, events: seq<Event>): Address
    decreases |events|
  {
    if events == [] then values
    else
      var next := match events[0]
        case Render(_, _, _) => values
        case UserEdit(field, value) => values[field := value]
        case ResetRequested => ResetValues()
        case SetRequested(address) => SetFieldsValues(address);
      ExplicitOnly(next, events[1..])
  }

  // ---------------------------------------------------------------------------
  // Properties

  /** Filling twice with the same selection is filling once, whatever the second cart. */
  lemma FillIdempotent(s: Session, cart: Address, cart': Address, valid': bool)
    ensures var once := FillFromCart(s, cart, true);
      FillFromCart(once, cart', valid') == once
  {
  }

  /**
   Once the current selection has been filled, no re-render overwrites the
   form again: the values are exactly what the user's edits and the explicit
   reset/set calls make of them, and the marker and the selection stay.
   */
  lemma {:induction false} FillAtMostOncePerSelection(s: Session, events: seq<Event>)
    requires s.forceFilledAddress == Some(s.selectedAddress)
    ensures Run(s, events).values == ExplicitOnly(s.values, events)
    ensures Run(s, events).forceFilledAddress == s.forceFilledAddress
    ensures Run(s, events).selectedAddress == s.selectedAddress
    decreases |events|
  {
    if events != [] {
      FillAtMostOncePerSelection(Step(s, events[0]), events[1..]);
    }
  }

  /**
   Once the view latch is set, no event changes the mode again: in particular
   a later render with an invalid cart and no saved address never brings
   the section back to EDIT.
   */
  lemma {:induction false} ViewLatchPermanent(s: Session, events: seq<Event>)
    requires s.forceViewMode
    ensures Run(s, events).mode == s.mode && Run(s, events).forceViewMode
    decreases |events|
  {
    if events != [] {
      ViewLatchPermanent(Step(s, events[0]), events[1..]);
    }
  }

  /** Once the section reached VIEW through the latch, it stays in VIEW. */
  lemma ViewStaysAfterLatch(s: Session, cart: Address, valid: bool, hasAddress: bool, events: seq<Event>)
    requires valid || hasAddress
    ensures var latched := Step(s, Render(cart, valid, hasAddress));
      latched.forceViewMode && Run(latched, events).mode == latched.mode
  {
    var latched := Step(s, Render(cart, valid, hasAddress));
    ViewLatchPermanent(latched, events);
  }

  /**
   The first render after mount with a valid cart address fills the form
   with the cart address, even when a saved customer address is selected,
   and switches to VIEW.
   */
  lemma FirstRenderFillsFromCart(addressIdInCache: string, cart: Address, hasAddress: bool)
    ensures var s := Step(Initial(addressIdInCache), Render(cart, true, hasAddress));
      s.values == SetFieldsValues(cart) && s.mode == View && s.forceViewMode
      && s.selectedAddress == Initial(addressIdInCache).selectedAddress
  {
  }

  /**
   No cached id, no valid cart address and no saved address: the selection is
   the cart sentinel, the mode stays EDIT and the fields stay at their defaults.
   */
  lemma NothingKnownStaysEditable(cart: Address)
    ensures var s := Step(Initial(""), Render(cart, false, false));
      s.selectedAddress == CartShippingAddress && !s.customerAddressSelected
      && s.mode == Edit && s.values == ResetValues() && s.values[Street] == Lines([""])
  {
  }

  /** A complete cart address is copied verbatim and passes validation. */
  lemma CompleteCartAddressFillsAndValidates(rule: RegionRule)
    ensures var cart := map[
        Firstname := Str("Jane"), Lastname := Str("Doe"), Street := Lines(["1 A St"]),
        Phone := Str("555"), Zipcode := Str("10001"), City := Str("NY"),
        Region := Str("NY"), Country := Str("US"), Company := Str("Acme")];
      var s := Step(Initial(""), Render(cart, true, false));
      s.values == cart && s.mode == View && Valid(rule, s.values)
  {
    var cart := map[
        Firstname := Str("Jane"), Lastname := Str("Doe"), Street := Lines(["1 A St"]),
        Phone := Str("555"), Zipcode := Str("10001"), City := Str("NY"),
        Region := Str("NY"), Country := Str("US"), Company := Str("Acme")];
    assert IsSameAsShipping !in cart;
    ValidIffEveryRulePasses(rule, cart);
  }

  /**
   The region rule follows the table: a first matching entry with
   `state_required` makes an unfilled region an error; a first matching
   entry without it makes any string, null or absent region acceptable.
   */
  lemma CountryDrivesRegionValidation(current: RegionRule, values: Address, countryList: seq<CountryEntry>, i: nat)
    requires Country in values && values[Country].Str? && values[Country].s != ""
    requires i < |countryList| && FirstMatch(countryList, values[Country], i)
    ensures countryList[i].stateRequired ==>
      (Region in Errors(CountryStep(current, values, Some(countryList)), values) <==> !FilledString(values, Region))
    ensures !countryList[i].stateRequired && (Region !in values || values[Region].Str? || values[Region].Null?) ==>
      Region !in Errors(CountryStep(current, values, Some(countryList)), values)
  {
  }

  /** A country missing from the list never requires a region. */
  lemma UnknownCountryNeverRequiresRegion(current: RegionRule, values: Address, countryList: seq<CountryEntry>)
    requires Country in values && values[Country].Str? && values[Country].s != ""
    requires forall j :: 0 <= j < |countryList| ==> !IdMatches(countryList[j], values[Country])
    ensures CountryStep(current, values, Some(countryList)) == OptionalNullable
  {
  }

  /**
   Switching from a country that does not require a region to one that does
   turns a complete address with an empty region from valid into invalid.
   */
  lemma CountrySwitchRequiresRegion(values: Address, a: string, b: string)
    requires a != "" && b != "" && a != b
    requires forall f :: f in AlwaysRequired ==> FilledString(values, f)
    requires StreetLineOneFilled(values)
    requires SameAsShippingTyped(values)
    requires Region in values && values[Region] == Str("")
    ensures var countries := [CountryEntry(a, false), CountryEntry(b, true)];
      var before := values[Country := Str(a)];
      var after := values[Country := Str(b)];
      Valid(CountryStep(RequiredNullable, before, Some(countries)), before)
      && Region in Errors(CountryStep(OptionalNullable, after, Some(countries)), after)
  {
    var countries := [CountryEntry(a, false), CountryEntry(b, true)];
    var before := values[Country := Str(a)];
    var after := values[Country := Str(b)];
    assert FirstMatch(countries, Str(a), 0);
    assert FirstMatch(countries, Str(b), 1);
    ValidIffEveryRulePasses(CountryStep(RequiredNullable, before, Some(countries)), before);
  }

  // ---------------------------------------------------------------------------
  // The component

  /**
   The provider's state fields (React state, the Formik section values and
   touched flags, and the edit-mode flag), with each effect and callback as
   a method. `schema` is the module-level validation schema: one object
   shared by every provider, which the country effect mutates.
   */
  class ShippingAddressFormikProvider {
    var values: Address
    var touched: set<string>
    var backupAddress: Option<Address>
    var forceViewMode: bool
    var forceFilledAddress: Option<Selection>
    var selectedAddress: Selection
    var customerAddressSelected: bool
    var mode: Mode
    const schema: ValidationSchema

    ghost function State(): Session
      reads this
    {
      Session(values, touched, backupAddress, forceViewMode, forceFilledAddress,
              selectedAddress, customerAddressSelected, mode)
    }

    constructor (addressIdInCache: string, schema: ValidationSchema)
      ensures State() == Initial(addressIdInCache) && this.schema == schema
    {
      values := InitialValues;
      touched := {};
      backupAddress := None;
      forceViewMode := false;
      forceFilledAddress := None;
      selectedAddress := if addressIdInCache != "" then CustomerAddress(addressIdInCache)
                         else CartShippingAddress;
      customerAddressSelected := addressIdInCache != "";
      mode := Edit;
      this.schema := schema;
    }

    method ResetShippingAddressFormFields()
      modifies this
      ensures State() == ResetFields(old(State()))
    {
      values := InitialValues;
      touched := {};
    }

    method SetShippingAddressFormFields(addressToSet: Address)
      modifies this
      ensures State() == SetFields(old(State()), addressToSet)
    {
      values := InitialValues + addressToSet;
    }

    /** The fill effect (cart address into the form, once per selection). */
    method FillFromCartEffect(cartShippingAddress: Address, cartHasShippingAddress: bool)
      modifies this
      ensures State() == FillFromCart(old(State()), cartShippingAddress, cartHasShippingAddress)
    {
      if forceFilledAddress == Some(selectedAddress) || !cartHasShippingAddress {
        return;
      }
      SetShippingAddressFormFields(cartShippingAddress);
      forceFilledAddress := Some(selectedAddress);
    }

    /** The view-mode latch effect. */
    method ViewLatchEffect(cartHasShippingAddress: bool, customerHasAddress: bool)
      modifies this
      ensures State() == ViewLatch(old(State()), cartHasShippingAddress, customerHasAddress)
    {
      if !forceViewMode && (cartHasShippingAddress || customerHasAddress) {
        mode := View;
        forceViewMode := true;
      }
    }

    /** The country effect: toggles the shared region rule. */
    method CountryEffect(countryList: Option<seq<CountryEntry>>)
      modifies schema
      ensures schema.region == CountryStep(old(schema.region), values, countryList)
    {
      var countryValue := Lookup(values, Country);
      if countryList.Some? && Truthy(countryValue) {
        var regionRequired := RegionRequired(countryList.value, countryValue.value);
        schema.ToggleRegionRequiredSchema(regionRequired);
      }
    }
  }

  /**
   Two providers mounted together share one schema: after the second one's
   country effect, the first validates with the region rule of the second's
   country, not of its own.
   */
  method SharedSchemaCrossTalk(a: string, b: string)
    returns (first: ShippingAddressFormikProvider, second: ShippingAddressFormikProvider)
    requires a != "" && b != "" && a != b
    ensures first.schema == second.schema
    ensures CountryStep(RequiredNullable, first.values, Some([CountryEntry(a, false), CountryEntry(b, true)]))
            == OptionalNullable
    ensures first.schema.region == RequiredNullable
  {
    var countries := [CountryEntry(a, false), CountryEntry(b, true)];
    assert FirstMatch(countries, Str(a), 0);
    assert FirstMatch(countries, Str(b), 1);
    var schema := new ValidationSchema();
    first := new ShippingAddressFormikProvider("", schema);
    first.SetShippingAddressFormFields(map[Country := Str(a)]);
    first.CountryEffect(Some(countries));
    assert schema.region == OptionalNullable;
    second := new ShippingAddressFormikProvider("", schema);
    second.SetShippingAddressFormFields(map[Country := Str(b)]);
    second.CountryEffect(Some(countries));
  }
}
