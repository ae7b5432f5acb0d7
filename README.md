# Shipping-address form coordinator

A model of the provider component that coordinates the shipping-address
section of a checkout form (`ShippingAddressFormikProvider`). The component
keeps a small amount of state around the form library's own state:

- the form section's values (company, first and last name, street lines,
  phone, zip code, city, region, country) and its touched flags;
- the address selection: the cart's own address (the `CART_SHIPPING_ADDRESS`
  sentinel) or a saved customer address id read from the browser cache, and
  whether a customer address is selected;
- two one-shot markers, `forceFilledAddress` and `forceViewMode`;
- the section's edit/view mode;
- the region rule of the module-level validation schema, which the country
  effect replaces in place and which every mounted provider shares.

Three modules follow the file's structure:

- `FormValues` (`form_values.dfy`): a form section as a map from field name
  to value, the defaults (`initialValues`), "reset" and "set fields" (the
  given address spread over the defaults, which is map union).
- `Validation` (`validation.dfy`): the validation rules as a pure function
  `Errors` giving the set of failing fields, the region rule as the mutable
  field of the class `ValidationSchema`, and lemmas for the street rule, the
  always-required fields and the region toggle.
- `ShippingAddressProvider` (`shipping_address_provider.dfy`): the state as
  the datatype `Session`, each effect and callback as a function on it (mount,
  reset, set fields, cart fill, view latch, country step), the class
  `ShippingAddressFormikProvider` whose methods perform the same steps on its
  fields and are proved equal to those functions, and lemmas over arbitrary
  runs of events (re-renders, user edits, explicit reset and set calls).

The two predicates the component imports without their bodies,
`isCartAddressValid` and `customerHasAddress`, are boolean parameters of the
steps that use them. The cached customer-address id is a string parameter of
mount, the empty string meaning none. Every effect is a step that can be run
on its own; a re-render is modelled as the fill effect followed by the view
latch, their order of declaration.

Three facts about the code that the model makes explicit:

- `street` can end up with no lines: set-fields and the cart fill copy it as
  given (`SetFieldsValues`), so a cart address with `street: []` leaves none.
- `forceFilledAddress` and `forceViewMode` are never reset. The fill runs
  again after a selection change only because the marker no longer equals
  the new selection; the view latch stays set for the component's lifetime.
- `backupAddress` is never set by this component, which only exposes its
  setter.

## Model

| member | source | states |
|---|---|---|
| FormValues.ResetValues | src/reactapp/src/components/shippingAddress/components/ShippingAddressFormikProvider.jsx:27-37 | The defaults hold exactly the nine form fields, one empty street line, and the empty string in every other field. |
| FormValues.SetFieldsValues | src/reactapp/src/components/shippingAddress/components/ShippingAddressFormikProvider.jsx:99-107 | Every field the given address carries has the address's value; every default field it lacks has the default; no other field appears. |
| FormValues.ResetIsSetFieldsOfNothing | src/reactapp/src/components/shippingAddress/components/ShippingAddressFormikProvider.jsx:94-107 | Reset writes what set-fields writes for an address with no fields. |
| FormValues.SetFieldsAbsorbs | src/reactapp/src/components/shippingAddress/components/ShippingAddressFormikProvider.jsx:101-104 | Spreading an already merged value over the defaults again changes nothing. |
| Validation.Errors | src/reactapp/src/components/shippingAddress/components/ShippingAddressFormikProvider.jsx:41-58 | Errors are only ever reported on the seven required string fields, street, region and `isSameAsShipping`, the fields the schema constrains. |
| Validation.ValidIffEveryRulePasses | src/reactapp/src/components/shippingAddress/components/ShippingAddressFormikProvider.jsx:41-58 | A section passes exactly when every required string is a non-empty string, the first street line is non-empty, region passes the current rule, and `isSameAsShipping` is absent or a boolean. |
| Validation.EmptyStreetRejected | src/reactapp/src/components/shippingAddress/components/ShippingAddressFormikProvider.jsx:45-49 | An empty street list is an error. |
| Validation.StreetFirstLineDecides | src/reactapp/src/components/shippingAddress/components/ShippingAddressFormikProvider.jsx:45-49 | With street lines `[first] + rest`, street is an error exactly when `first` is empty, whatever the later lines. |
| Validation.RequiredFieldErrorIff | src/reactapp/src/components/shippingAddress/components/ShippingAddressFormikProvider.jsx:42-56 | Each of the seven always-required fields carries an error exactly when it is not a non-empty string: empty ones are rejected and filled ones are not. |
| Validation.EmptyRequiredFieldRejected | src/reactapp/src/components/shippingAddress/components/ShippingAddressFormikProvider.jsx:42-56 | An absent, null or empty company, first name, last name, phone, zip code, city or country is an error and blocks submission, under either region rule. |
| Validation.SameAsShippingHasNoPresenceRule | src/reactapp/src/components/shippingAddress/components/ShippingAddressFormikProvider.jsx:57 | `isSameAsShipping` carries no presence rule: it fails only when present and not a boolean (null included), and either boolean gives the same errors as leaving it out. |
| Validation.RegionRequiredRejectsEmpty | src/reactapp/src/components/shippingAddress/components/ShippingAddressFormikProvider.jsx:53-55 | Under the required rule region fails exactly when it is absent, null, not a string or empty. |
| Validation.RegionOptionalAcceptsAnyString | src/reactapp/src/components/shippingAddress/components/ShippingAddressFormikProvider.jsx:60-62 | Under the optional rule an absent, null or any string region, empty included, passes. |
| Validation.DefaultsAreRejected | src/reactapp/src/components/shippingAddress/components/ShippingAddressFormikProvider.jsx:27-58 | The defaults fail every always-required field and street, and fail region exactly when region is required. |
| Validation.RegionRuleFor | src/reactapp/src/components/shippingAddress/components/ShippingAddressFormikProvider.jsx:60-68 | The rule installed for a flag is the required one exactly when the flag is true. |
| Validation.ValidationSchema.constructor | src/reactapp/src/components/shippingAddress/components/ShippingAddressFormikProvider.jsx:53-55 | At load time the region rule is the required one. |
| Validation.ValidationSchema.ToggleRegionRequiredSchema | src/reactapp/src/components/shippingAddress/components/ShippingAddressFormikProvider.jsx:60-68 | The region rule becomes the one for the flag, independent of the previous rule, so toggling twice with one flag equals toggling once. |
| ShippingAddressProvider.Initial | src/reactapp/src/components/shippingAddress/components/ShippingAddressFormikProvider.jsx:73-84 | At mount a customer address is selected exactly when the cached id is non-empty, and then it is that id; the fill marker differs from the selection; the latch is unset, the mode is EDIT, the backup is null and the values are the defaults. |
| ShippingAddressProvider.ResetFields | src/reactapp/src/components/shippingAddress/components/ShippingAddressFormikProvider.jsx:94-97 | Reset puts the defaults back, clears touched, and changes nothing else. |
| ShippingAddressProvider.SetFields | src/reactapp/src/components/shippingAddress/components/ShippingAddressFormikProvider.jsx:99-107 | Set-fields gives each field of the address its value and each missing default field its default, and changes nothing but the values. |
| ShippingAddressProvider.FillFromCart | src/reactapp/src/components/shippingAddress/components/ShippingAddressFormikProvider.jsx:110-123 | When the selection is already filled or the cart address is invalid, nothing changes; otherwise the values become the cart address over the defaults, whatever the selection, and the marker becomes the selection. After a pass with a valid cart the marker equals the selection. |
| ShippingAddressProvider.ViewLatch | src/reactapp/src/components/shippingAddress/components/ShippingAddressFormikProvider.jsx:127-142 | With the latch set, nothing changes; unset with a valid cart or a saved address, the mode becomes VIEW and the latch is set; the mode never becomes EDIT. |
| ShippingAddressProvider.FindCountry | src/reactapp/src/components/shippingAddress/components/ShippingAddressFormikProvider.jsx:148-150 | The result is the index of the first entry whose id equals the country value, or none when no entry's id equals it. |
| ShippingAddressProvider.RegionRequired | src/reactapp/src/components/shippingAddress/components/ShippingAddressFormikProvider.jsx:148-150 | Region is required exactly when the first matching entry exists and has `state_required`. |
| ShippingAddressProvider.CountryStep | src/reactapp/src/components/shippingAddress/components/ShippingAddressFormikProvider.jsx:146-154 | Without a country list or with a falsy country value the rule is unchanged; otherwise it is the required one exactly when the country's first table entry requires a state. |
| ShippingAddressProvider.FillIdempotent | src/reactapp/src/components/shippingAddress/components/ShippingAddressFormikProvider.jsx:110-123 | A second fill pass after a successful one, with any cart, changes nothing. |
| ShippingAddressProvider.FillAtMostOncePerSelection | src/reactapp/src/components/shippingAddress/components/ShippingAddressFormikProvider.jsx:109-123 | Once the selection is filled, across any run of re-renders, user edits and explicit reset/set calls, the values are what the edits and calls alone make of them: no re-render overwrites user edits. |
| ShippingAddressProvider.ViewLatchPermanent | src/reactapp/src/components/shippingAddress/components/ShippingAddressFormikProvider.jsx:125-142 | Once the latch is set, no run of events changes the mode, even when the cart address later becomes invalid. |
| ShippingAddressProvider.ViewStaysAfterLatch | src/reactapp/src/components/shippingAddress/components/ShippingAddressFormikProvider.jsx:127-142 | A render with a valid cart or a saved address sets the latch, and the mode it leaves survives every later run of events. |
| ShippingAddressProvider.FirstRenderFillsFromCart | src/reactapp/src/components/shippingAddress/components/ShippingAddressFormikProvider.jsx:73-142 | The first render after mount with a valid cart fills the form from the cart even when a cached customer address is selected, and switches to VIEW. |
| ShippingAddressProvider.NothingKnownStaysEditable | src/reactapp/src/components/shippingAddress/components/ShippingAddressFormikProvider.jsx:73-142 | Without cached id, valid cart or saved address, the cart sentinel is selected, the mode stays EDIT and the values stay the defaults with one empty street line. |
| ShippingAddressProvider.CompleteCartAddressFillsAndValidates | src/reactapp/src/components/shippingAddress/components/ShippingAddressFormikProvider.jsx:41-123 | A complete cart address is copied field for field, the mode becomes VIEW, and the values pass validation under either region rule. |
| ShippingAddressProvider.CountryDrivesRegionValidation | src/reactapp/src/components/shippingAddress/components/ShippingAddressFormikProvider.jsx:146-154 | After the country step, if the country's first entry requires a state an unfilled region is an error, and if it does not any string, null or absent region passes. |
| ShippingAddressProvider.UnknownCountryNeverRequiresRegion | src/reactapp/src/components/shippingAddress/components/ShippingAddressFormikProvider.jsx:146-154 | A non-empty country that no entry matches makes region optional. |
| ShippingAddressProvider.CountrySwitchRequiresRegion | src/reactapp/src/components/shippingAddress/components/ShippingAddressFormikProvider.jsx:41-68 | Moving from a country without to one with `state_required` turns a complete address with an empty region from valid into failing on region. |
| ShippingAddressProvider.ShippingAddressFormikProvider.constructor | src/reactapp/src/components/shippingAddress/components/ShippingAddressFormikProvider.jsx:72-84 | The fields start as the mount state, and the provider uses the given shared schema. |
| ShippingAddressProvider.ShippingAddressFormikProvider.ResetShippingAddressFormFields | src/reactapp/src/components/shippingAddress/components/ShippingAddressFormikProvider.jsx:94-97 | The fields become the reset state. |
| ShippingAddressProvider.ShippingAddressFormikProvider.SetShippingAddressFormFields | src/reactapp/src/components/shippingAddress/components/ShippingAddressFormikProvider.jsx:99-107 | The fields become the set-fields state. |
| ShippingAddressProvider.ShippingAddressFormikProvider.FillFromCartEffect | src/reactapp/src/components/shippingAddress/components/ShippingAddressFormikProvider.jsx:110-123 | The fields become the state the fill step gives. |
| ShippingAddressProvider.ShippingAddressFormikProvider.ViewLatchEffect | src/reactapp/src/components/shippingAddress/components/ShippingAddressFormikProvider.jsx:127-142 | The fields become the state the view latch gives. |
| ShippingAddressProvider.ShippingAddressFormikProvider.CountryEffect | src/reactapp/src/components/shippingAddress/components/ShippingAddressFormikProvider.jsx:146-154 | The shared schema's region rule becomes the country step's rule for the current values. |
| ShippingAddressProvider.SharedSchemaCrossTalk | src/reactapp/src/components/shippingAddress/components/ShippingAddressFormikProvider.jsx:60-68 | Two mounted providers share one schema: the second's country effect sets the rule the first validates with, even when the first's own country would not require a region. |

## Left out

- Rendering: the `Form` element, the context Provider and the merging of the context object (lines 156-189) are presentation and are not modelled.
- React scheduling: each effect is a step invoked on its own; the order in which React re-runs them after a change is not modelled beyond "fill, then latch" in one render. The country effect is a separate step.
- Touched state: only the fact that a reset clears the section's touched flags is kept; how the form library marks fields touched is not modelled.
- Validation library behaviour beyond presence and non-emptiness: type coercion (a number or boolean cast to a string), the error message text and its translation are not modelled. A string rule accepts only a string value; a value that is not a string fails a required string rule.
- Values: an address value is a string, a list of street lines, a boolean or null. Numbers are not among them.
- SetFieldsValues: an address key holding an explicit `undefined` overrides the default in the spread at lines 101-104; the model has no `undefined` value, so a key is either present with a value or absent and takes the default.
- The browser cache read and `_toString` (lines 73-75) are storage I/O: the cached id is a parameter, the empty string meaning none.
- `isCartAddressValid` and `customerHasAddress` are not part of this model: their bodies live elsewhere, and they enter the steps as boolean parameters.
- The hooks `useRegionData`, `useSaveAddressAction` (saving the address, a network call), `useEnterActionInForm`, `useFormSection` and `useFormEditMode` are not part of this model. Of `useFormEditMode` only `setFormToViewMode` is kept, as the mode becoming VIEW. That the mode starts as EDIT and the section starts with the defaults is assumed of these hooks, and so is that validation reads `validationSchema.region` as it is at validation time (the object is handed to `useFormSection` and `useEnterActionInForm` at lines 171-182): if they built or kept their own copy once, the in-place replacement at lines 62 and 64 would not reach validation. Submission itself is not modelled; `Validation.Valid` is the condition it needs.
- The setters `setBackupAddress`, `setSelectedAddress` and `setCustomerAddressSelected` have no logic here and are not modelled, so `backupAddress` stays null and the selection stays as mounted within a model run.
- The value of `CART_SHIPPING_ADDRESS` is not part of this model: the sentinel is a separate constructor, so a cached id equal to that string is not treated as the sentinel.
- The test `validationSchema.region` at line 61 is always true (the entry always holds a schema), so the model drops it.
- `state_required` is taken to be a boolean; other truthy or falsy values are not modelled.
- `src/reactapp/src/components/billingAddress/BillingAddress.jsx` only composes interface components and has no logic to model.
