/**
 The values held by the shipping-address section of the checkout form.

 A form section is a plain object, so it is modelled as a map from field name
 to value; an object spread `{ ...a, ...b }` is the map union `a + b`, where
 the keys of `b` win.
 */
module FormValues {

  datatype Option<T> = None | Some(value: T)

  /** What a field can hold: a string, the list of street lines, a boolean, or null. */
  datatype Value = Str(s: string) | Lines(lines: seq<string>) | Bool(b: bool) | Null

  /** One form section (or one address object coming from the cart). */
  type Address = map<string, Value>

  const Company := "company"
  const Firstname := "firstname"
  const Lastname := "lastname"
  const Street := "street"
  const Phone := "phone"
  const Zipcode := "zipcode"
  const City := "city"
  const Region := "region"
  const Country := "country"
  const IsSameAsShipping := "isSameAsShipping"

  /** The fields that `initialValues` declares. */
  const FormFields: set<string> :=
    {Company, Firstname, Lastname, Street, Phone, Zipcode, City, Region, Country}

  /** `initialValues`: every string field empty and a single empty street line. */
  const InitialValues: Address := map[
    Company := Str(""),
    Firstname := Str(""),
    Lastname := Str(""),
    Street := Lines([""]),
    Phone := Str(""),
    Zipcode := Str(""),
    City := Str(""),
    Region := Str(""),
    Country := Str("")
  ]

  /** The value a reset writes into the section: a copy of the defaults. */
  function ResetValues(): (r: Address)
    ensures r.Keys == FormFields
    ensures r[Street] == Lines([""])
    ensures forall f :: f in r && f != Street ==> r[f] == Str("")
  {
    InitialValues
  }

  /**
   The value written by "set fields": the defaults, overridden by every field
   the given address carries. Fields of the address that the defaults do not
   declare are copied too.
   */
  function SetFieldsValues(addressToSet: Address): (r: Address)
    ensures r.Keys == FormFields + addressToSet.Keys
    ensures forall f :: f in addressToSet ==> r[f] == addressToSet[f]
    ensures forall f :: f in FormFields && f !in addressToSet ==> r[f] == InitialValues[f]
  {
    InitialValues + addressToSet
  }

  /** Resetting is setting the fields from an address that carries none. */
  lemma ResetIsSetFieldsOfNothing()
    ensures ResetValues() == SetFieldsValues(map[])
  {
  }

  /** Setting the fields from an already merged value changes nothing more. */
  lemma SetFieldsAbsorbs(addressToSet: Address)
    ensures SetFieldsValues(SetFieldsValues(addressToSet)) == SetFieldsValues(addressToSet)
  {
  }

  /** `_get(values, field)`: the value of a field, or None when it is absent. */
  function Lookup(a: Address, field: string): Option<Value>
  {
    if field in a then Some(a[field]) else None
  }

  /**
   JavaScript truthiness of a looked-up value: absent, null, `false` and the
   empty string are falsy; a non-empty string, `true` and any array are truthy.
   */
  predicate Truthy(v: Option<Value>)
  {
    match v
    case None => false
    case Some(Null) => false
    case Some(Str(s)) => s != ""
    case Some(Lines(_)) => true
    case Some(Bool(b)) => b
  }
}
