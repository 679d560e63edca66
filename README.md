# Deploy Insights checkout form — a Dafny model

The Deploy Insights landing page funnels visitors into a lead-capture form
(`CheckoutForm`) before sending them to a hosted checkout. This project models
that form's logic and proves what it promises:

- **Phone mask** (`phone_mask.dfy`, module `PhoneMask`). A change event on the
  phone input keeps only the digits and forces the Brazilian country code
  "55". It keeps at most 13 digits and renders them as `+55 (DD) NNNNN-NNNN`.
  Each group appears only once enough digits are present.
- **Form state** (`form_state.dfy`, module `FormState`). This is the `formData`
  record: name, email and phone, plus seven attribution fields. It also holds
  the keys of those fields and the record's initial value.
- **Attribution capture** (`attribution.dfy`, module `Attribution`). On mount,
  `utm_source`, `utm_medium`, `utm_campaign`, `utm_term`, `utm_content`, `sck`
  and `src` are read from the page's query string. Each field gets the value of
  the first parameter with its key, or `""`. The query string is modelled as a
  list of (key, value) pairs.
- **Redirect construction** (`redirect.dfy`, module `Redirect`). The base
  checkout URL keeps its own parameters, such as `checkoutMode`. Then come the
  non-empty attribution fields in a fixed order. Then `name`, `email`, and
  `phoneac`, which is the phone's digits without the leading "55" when there
  are more than 10 of them. `BuildRedirect` appends to the `searchParams` of a
  `UrlObject`, as the handler does. It is proved equal to the specification
  function `RedirectQuery`.
- **The component** (`checkout_form.dfy`, module `Checkout`). The class
  `CheckoutForm` has the `formData` and `loading` state and a `phase`:
  Idle → Submitting → Redirecting | Idle-with-error. Its methods are the
  mount-time capture, `handleChange`, and `handleSubmit` split at its awaited
  webhook call into `BeginSubmit` and `CompleteSubmit`. While the form is
  Submitting, the inputs stay live, and the redirect uses the form data
  captured when the button was pressed. Its invariant says three things: the
  stored phone is always a masked value, so is the phone of the data captured
  at submit, and the form is loading exactly while it is submitting or
  redirecting.

Notes on the code's behaviour:

- The code awaits the webhook `fetch(...).catch(...)` before it builds the
  redirect (components/forms/CheckoutForm.tsx:118-124). It is not a
  fire-and-forget call. A failed call still never stops the redirect.
- `phoneac` drops the "55" when the full digit string starts with "55" and has
  more than 10 digits (components/forms/CheckoutForm.tsx:147). The count is of
  all the digits, not of the digits left after the code.
- `loading` is never cleared on success, so the submit button stays disabled
  while the page navigates away.

## Model

| member | source | states |
|---|---|---|
| PhoneMask.Substring | components/forms/CheckoutForm.tsx:57-71 | `substring` takes the slice between its two indices whichever comes first; an index past the end is clamped to the length, so `substring(0, 13)` of fewer digits keeps them all; with both indices past the end it is empty |
| PhoneMask.Digits | components/forms/CheckoutForm.tsx:45 | the result has only digits and is no longer than the input; a string of digits is kept whole |
| PhoneMask.DigitsKeepsDigits | components/forms/CheckoutForm.tsx:45 | every digit of the input occurs in the result exactly as often as in the input, and no other character occurs |
| PhoneMask.DigitsAppend | components/forms/CheckoutForm.tsx:45 | stripping non-digits distributes over concatenation |
| PhoneMask.NormalizeDigits | components/forms/CheckoutForm.tsx:47-57 | the result starts with "55" and has at most 13 digits; digits already starting with "55" are only truncated; a lone "5" (and the empty string) becomes "55"; any other digits get "55" put before them, then are truncated |
| PhoneMask.NormalizeFixed | components/forms/CheckoutForm.tsx:49-57 | digits that start with "55" and number at most 13 pass unchanged |
| PhoneMask.RenderDigits | components/forms/CheckoutForm.tsx:59-72 | the digits shown by the rendering are exactly the first 13 digits, in order |
| PhoneMask.Render | components/forms/CheckoutForm.tsx:60-72 | the rendering starts with `+` and the first two digits; `RenderStep`, `RenderExtends`, `RenderFullLayout`, `RenderDigits` and `RenderShape` state the rest |
| PhoneMask.RenderStep | components/forms/CheckoutForm.tsx:60-72 | one more digit adds exactly that digit at the end, preceded by " (" when it is the 3rd digit, ") " when it is the 5th and "-" when it is the 10th |
| PhoneMask.RenderExtends | components/forms/CheckoutForm.tsx:60-72 | the rendering of a prefix of the digits is a prefix of the rendering of all of them, so each group appears once enough digits exist |
| PhoneMask.RenderFullLayout | components/forms/CheckoutForm.tsx:60-72 | 13 digits render as the 19 characters `+DD (DD) DDDDD-DDDD`, each group at its place between its separators |
| PhoneMask.MaskPhone | components/forms/CheckoutForm.tsx:43-74 | the masked value starts with `+55`, and its digits are the normalized digits of the input |
| PhoneMask.MaskPrefixAndBound | components/forms/CheckoutForm.tsx:49-60 | the masked phone begins with `+55` and holds at most 13 digits |
| PhoneMask.MaskResetsToCountryCode | components/forms/CheckoutForm.tsx:48-49 | input with no digits, or with only the digit "5", gives exactly `+55` |
| PhoneMask.InitialPhoneIsMasked | components/forms/CheckoutForm.tsx:14 | the initial phone `+55` is a value the mask leaves unchanged |
| PhoneMask.RenderShape | components/forms/CheckoutForm.tsx:60-72 | for 2 to 13 digits the result starts with `+`; `(` appears iff n > 2, `)` iff n > 4, `-` iff n > 9; the length is a function of n alone |
| PhoneMask.MaskShape | components/forms/CheckoutForm.tsx:45-72 | in every masked value, the separators that appear depend only on how many digits it shows |
| PhoneMask.MaskIdempotent | components/forms/CheckoutForm.tsx:45-72 | masking a masked value returns it unchanged |
| PhoneMask.MaskedPhoneDigits | components/forms/CheckoutForm.tsx:45-72 | a masked phone's digits start with "55", number at most 13, and render back to the phone |
| PhoneMask.MaskTypingDigit | components/forms/CheckoutForm.tsx:56-57 | typing a digit at the end of a masked phone adds exactly that digit while fewer than 13 are shown; at 13 digits the value does not change |
| FormState.KeyInjective | components/forms/CheckoutForm.tsx:11-22 | `Key` gives distinct fields of the state distinct keys |
| FormState.AttributionKeysMatch | components/forms/CheckoutForm.tsx:15-21 | `Key` maps exactly the seven attribution fields to the whitelisted query-string keys |
| FormState.InitialFormData | components/forms/CheckoutForm.tsx:11-22 | the initial state has the phone `+55` and every other field empty |
| FormState.FormData.Set | components/forms/CheckoutForm.tsx:74-78 | the spread update sets the named field to the value and leaves every other field unchanged |
| Attribution.Lookup | components/forms/CheckoutForm.tsx:26-37 | the lookup finds nothing iff no pair has the key |
| Attribution.LookupFirst | components/forms/CheckoutForm.tsx:30-36 | the lookup returns the value of the first pair that has the key |
| Attribution.LookupInsertOther | components/forms/CheckoutForm.tsx:30-36 | a pair with a different key, inserted anywhere in the query string, does not change what a key reads |
| Attribution.ValueOrEmpty | components/forms/CheckoutForm.tsx:30-36 | gives `""` iff the key is absent or its first value is empty; a non-empty result is the looked-up value |
| Attribution.Capture | components/forms/CheckoutForm.tsx:28-37 | name, email and phone are unchanged; each attribution field gets the value-or-empty of its key |
| Attribution.CaptureFirstOccurrence | components/forms/CheckoutForm.tsx:28-37 | each captured field holds the value of the first query parameter with its key |
| Attribution.CaptureAbsent | components/forms/CheckoutForm.tsx:28-37 | a field whose key is absent is captured as `""`, never left undefined |
| Attribution.CaptureIgnoresOtherKeys | components/forms/CheckoutForm.tsx:28-37 | a parameter whose key is not on the whitelist, wherever it occurs in the query string, does not change the capture |
| Redirect.UrlObject.constructor | components/forms/CheckoutForm.tsx:130 | a parsed URL object starts with the base URL's own parameters |
| Redirect.UrlObject.Append | components/forms/CheckoutForm.tsx:133-150 | appending adds one pair at the end and changes nothing before it |
| Redirect.AppendIfPresent | components/forms/CheckoutForm.tsx:133-139 | an empty value appends nothing; any other value appends exactly its pair |
| Redirect.PhoneForCheckout | components/forms/CheckoutForm.tsx:146-149 | `phoneac` has only digits; when the phone's digits start with "55" and number more than 10, "55" followed by `phoneac` is those digits; otherwise `phoneac` is all the digits |
| Redirect.PhoneForCheckoutOfMasked | components/forms/CheckoutForm.tsx:145-150 | for a masked phone, `phoneac` has at most 11 digits; it is the digits after "55" when there are more than 10 digits, and all the digits otherwise |
| Redirect.RedirectQuery | components/forms/CheckoutForm.tsx:130-150 | the base URL's parameters come first and unchanged, then the attribution parameters, then `name`, `email` and `phoneac` last |
| Redirect.PresentMembers | components/forms/CheckoutForm.tsx:133-139 | a pair is appended iff it is some field's key and value and that value is non-empty |
| Redirect.PresentKey | components/forms/CheckoutForm.tsx:133-139 | a field's key occurs iff the field is non-empty, and always with the field's value |
| Redirect.PresentOrder | components/forms/CheckoutForm.tsx:133-139 | non-empty fields are appended in the order of the field list |
| Redirect.AttributionQueryIsPresent | components/forms/CheckoutForm.tsx:133-139 | `AttributionQuery`, the seven conditional appends, gives the non-empty attribution fields in whitelist order |
| Redirect.AttributionParamPresence | components/forms/CheckoutForm.tsx:133-139 | an attribution key appears in the redirect iff its field is non-empty, and then with the field's value |
| Redirect.AttributionParamsWhitelisted | components/forms/CheckoutForm.tsx:133-139 | every attribution parameter is a whitelisted key with its field's non-empty value |
| Redirect.AttributionOrder | components/forms/CheckoutForm.tsx:133-139 | attribution parameters follow the order utm_source, utm_medium, utm_campaign, utm_term, utm_content, sck, src |
| Redirect.BuildRedirect | components/forms/CheckoutForm.tsx:130-150 | the URL the handler builds by successive appends is the base URL with `RedirectQuery` as its query string |
| Redirect.RedirectExample | components/forms/CheckoutForm.tsx:130-150 | with utm_source "ig", an empty utm_campaign and sck "abc", the redirect carries checkoutMode, utm_source, sck, name, email and phoneac, in that order |
| Checkout.ChangedValue | components/forms/CheckoutForm.tsx:43-78 | the value stored for the phone field is masked and starts with `+55` |
| Checkout.CheckoutForm.constructor | components/forms/CheckoutForm.tsx:10-22 | the form mounts idle and not loading; every field is empty except the phone, which is `+55` |
| Checkout.CheckoutForm.CaptureAttribution | components/forms/CheckoutForm.tsx:25-38 | the mount effect replaces the state with its capture; the invariant and the loading flag are kept |
| Checkout.CheckoutForm.HandleChange | components/forms/CheckoutForm.tsx:40-79 | exactly one field changes; the phone gets the masked value and any other field gets the raw text; the phone stays masked |
| Checkout.CheckoutForm.BeginSubmit | components/forms/CheckoutForm.tsx:81-124 | from a form that is not loading: the form is loading and Submitting with the current form data, which is unchanged |
| Checkout.CheckoutForm.CompleteSubmit | components/forms/CheckoutForm.tsx:118-159 | once the webhook call settles: if the base URL does not parse, the form is Idle-with-error and not loading; otherwise it is Redirecting to the URL built from the data captured at submit and stays loading; the current form data, including edits made while submitting, is kept; the submitted `phoneac` has at most 11 digits |

## Left out

- The webhook POST (components/forms/CheckoutForm.tsx:118-124) is network I/O and is not modelled. Its errors are swallowed. The model assumes the call settles, since a call that never settles would stop the redirect.
- The `dataLayer` push (components/forms/CheckoutForm.tsx:97-113) writes to a page-global analytics queue. It is not modelled.
- The webhook payload and its timestamps (components/forms/CheckoutForm.tsx:86-94) depend on the clock. They only feed the webhook, so they are not modelled.
- `new URL(productUrl)` parsing and percent-encoding are not modelled. `CompleteSubmit` takes the parser as the parameter `parse`, and `None` stands for the error it throws. The URL's query string is a list of (key, value) pairs. `urlObj.toString()` serialization is not modelled, so the worked example shows `a@b.com` unencoded.
- Navigation through `window.location.href`, `alert` and `console.error` are browser side effects. The model records them as the `Redirecting` and `IdleWithError` phases.
- Checkout.CheckoutForm.BeginSubmit: the browser's `required` checks (components/forms/CheckoutForm.tsx:174, 188, 202) and the `type="email"` check (line 185) are not preconditions, because the handler itself does not check them. The handler runs only while the button is enabled (`disabled={loading}`, line 211), so it requires `!loading`.
- Checkout.CheckoutForm.HandleChange: the input's `name` attribute is modelled as one of the ten state keys. The form renders inputs only for name, email and phone. A change event with any other name would add a new key to the state, and the model cannot express that.
- React's asynchronous state batching is not modelled. Each handler applies its updates at once and in order. The wait while the webhook call is in flight is the `Submitting` phase, during which `HandleChange` may run any number of times.
- Redirect.RedirectExample: the worked example keeps the phone symbolic. `phoneac` for a masked phone is covered in general by `PhoneForCheckoutOfMasked`.
- App.tsx (page layout, scrolling, opening the modal with one of the two checkout URLs) is not part of this model. Neither are components/visuals/AutomationVisual.tsx and components/visuals/MetricsVisual.tsx, which are static markup.
