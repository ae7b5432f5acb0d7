/**
 The validation rules of the shipping-address form section.

 Every rule is fixed except the one for `region`, which lives in a shared,
 module-level schema object and is replaced whenever the selected country
 changes. The rules themselves only test presence and non-emptiness; the
 error message text is not modelled.
 */
module Validation {
  import opened FormValues

  /** The two rules the region field can carry. */
  datatype RegionRule = RequiredNullable | OptionalNullable

  /** The string fields that are required whatever the country. */
  const AlwaysRequired: set<string> :=
    {Company, Firstname, Lastname, Phone, Zipcode, City, Country}

  /** The fields that can carry an error. */
  const CheckedFields: set<string> := AlwaysRequired + {Street, Region, IsSameAsShipping}

  /** A required string rule: the field is present, a string, and not empty. */
  predicate FilledString(v: Address, field: string)
  {
    field in v && v[field].Str? && v[field].s != ""
  }

  /** The street rule: the first street line exists and is a non-empty string. */
  predicate StreetLineOneFilled(v: Address)
  {
    Street in v && v[Street].Lines? && |v[Street].lines| > 0 && v[Street].lines[0] != ""
  }

  /**
   The `isSameAsShipping` rule: a boolean schema with no presence rule, so an
   absent field or any boolean passes, and null or a value of another type fails.
   */
  predicate SameAsShippingTyped(v: Address)
  {
    IsSameAsShipping !in v || v[IsSameAsShipping].Bool?
  }

  /** Whether the region field passes the given rule. */
  predicate RegionAccepted(rule: RegionRule, v: Address)
  {
    match rule
    case RequiredNullable => FilledString(v, Region)
    case OptionalNullable => Region !in v || v[Region].Str? || v[Region].Null?
  }

  /** The set of fields that fail validation. */
  function Errors(rule: RegionRule, v: Address): (errs: set<string>)
    ensures errs <= CheckedFields
  {
    (set f | f in AlwaysRequired && !FilledString(v, f))
    + (if StreetLineOneFilled(v) then {} else {Street})
    + (if RegionAccepted(rule, v) then {} else {Region})
    + (if SameAsShippingTyped(v) then {} else {IsSameAsShipping})
  }

  /** The form section may be submitted only when no field fails. */
  predicate Valid(rule: RegionRule, v: Address)
  {
    Errors(rule, v) == {}
  }

  /** The rule `toggleRegionRequiredSchema` installs for a given flag. */
  function RegionRuleFor(regionRequired: bool): (r: RegionRule)
    ensures r.RequiredNullable? <==> regionRequired
  {
    if regionRequired then RequiredNullable else OptionalNullable
  }

  /**
   The module-level `validationSchema`. Only its `region` entry is ever
   reassigned, so it is the only field; the other rules are the functions
   above.
   */
  class ValidationSchema {
    var region: RegionRule

    /** At load time region is required. */
    constructor ()
      ensures region == RequiredNullable
    {
      region := RequiredNullable;
    }

    /** Replaces the region rule; the previous rule plays no part. */
    method ToggleRegionRequiredSchema(regionRequired: bool)
      modifies this
      ensures region == RegionRuleFor(regionRequired)
    {
      if !regionRequired {
        region := OptionalNullable;
      } else {
        region := RequiredNullable;
      }
    }
  }

  /** A section passes exactly when each rule passes. */
  lemma ValidIffEveryRulePasses(rule: RegionRule, v: Address)
    ensures Valid(rule, v) <==>
      (forall f :: f in AlwaysRequired ==> FilledString(v, f))
      && StreetLineOneFilled(v) && RegionAccepted(rule, v) && SameAsShippingTyped(v)
  {
  }

  /** An empty street list is an error. */
  lemma EmptyStreetRejected(rule: RegionRule, v: Address)
    ensures Street in Errors(rule, v[Street := Lines([])])
  {
  }

  /** Only the first street line is checked; the lines after it are ignored. */
  lemma StreetFirstLineDecides(rule: RegionRule, v: Address, first: string, rest: seq<string>)
    ensures Street in Errors(rule, v[Street := Lines([first] + rest)]) <==> first == ""
  {
  }

  /** An always-required field carries an error exactly when it is not a non-empty string. */
  lemma RequiredFieldErrorIff(rule: RegionRule, v: Address, field: string)
    requires field in AlwaysRequired
    ensures field in Errors(rule, v) <==> !FilledString(v, field)
  {
  }

  /** An empty, null or absent always-required field is an error, whatever the region rule. */
  lemma EmptyRequiredFieldRejected(rule: RegionRule, v: Address, field: string)
    requires field in AlwaysRequired
    requires field !in v || v[field] == Str("") || v[field] == Null
    ensures field in Errors(rule, v) && !Valid(rule, v)
  {
  }

  /**
   `isSameAsShipping` carries no presence rule: it fails only when present and
   not a boolean, and setting it to either boolean gives the errors of the
   section without it.
   */
  lemma SameAsShippingHasNoPresenceRule(rule: RegionRule, v: Address, b: bool)
    ensures IsSameAsShipping in Errors(rule, v) <==>
      IsSameAsShipping in v && !v[IsSameAsShipping].Bool?
    ensures Errors(rule, v[IsSameAsShipping := Bool(b)]) == Errors(rule, v - {IsSameAsShipping})
  {
  }

  /** With region required, an empty, null or absent region is an error. */
  lemma RegionRequiredRejectsEmpty(v: Address)
    ensures Region in Errors(RegionRuleFor(true), v) <==> !FilledString(v, Region)
  {
  }

  /** With region optional, any string region, empty, null or absent, is accepted. */
  lemma RegionOptionalAcceptsAnyString(v: Address)
    requires Region !in v || v[Region].Str? || v[Region].Null?
    ensures Region !in Errors(RegionRuleFor(false), v)
  {
  }

  /** The defaults fail every always-required rule and the street rule. */
  lemma DefaultsAreRejected(rule: RegionRule)
    ensures AlwaysRequired + {Street} <= Errors(rule, ResetValues())
    ensures Region in Errors(rule, ResetValues()) <==> rule == RequiredNullable
  {
  }
}
