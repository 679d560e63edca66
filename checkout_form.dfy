/** The checkout form component: its `formData` and `loading` state, the
    mount-time attribution capture, the change handler and the submit
    handler with its Idle -> Submitting -> Redirecting | Idle-with-error
    control flow. */
module Checkout {
  import opened Options
  import opened PhoneMask
  import opened FormState
  import opened Attribution
  import opened Redirect

  /** Where the submit control stands. `Submitting` holds the form data the
      handler captured when the button was pressed, while the webhook call is
      awaited. `Redirecting` is terminal: the page navigates away and the
      submit button stays disabled. */
  datatype Phase = Idle | Submitting(snapshot: FormData) | IdleWithError | Redirecting(target: Url)

  /** The stored value for a change event on `field`: the phone is masked,
      every other field keeps the raw text. */
  function ChangedValue(field: Field, value: string): (v: string)
    ensures field == Phone ==> IsMasked(v) && StartsWith(v, "+55")
  {
    if field == Phone then
      MaskIdempotent(value);
      MaskPrefixAndBound(value);
      MaskPhone(value)
    else value
  }

  class CheckoutForm {
    /** The base checkout URL the form was opened with. */
    const productUrl: string
    var formData: FormData
    var loading: bool
    var phase: Phase

    /** The phone is always a masked value, so is the phone of a submitted
        snapshot, and the form is loading exactly while it submits or
        redirects. */
    ghost predicate Valid()
      reads this
    {
      && IsMasked(formData.phone)
      && (phase.Submitting? ==> IsMasked(phase.snapshot.phone))
      && (loading <==> phase.Submitting? || phase.Redirecting?)
    }

    constructor (productUrl: string)
      ensures Valid()
      ensures this.productUrl == productUrl
      ensures formData == InitialFormData() && !loading && phase == Idle
    {
      this.productUrl := productUrl;
      formData := InitialFormData();
      loading := false;
      phase := Idle;
      InitialPhoneIsMasked();
    }

    /** The effect run once on mount: copy the attribution parameters of the
        page's query string into the form state. */
    method CaptureAttribution(q: Query)
      requires Valid()
      modifies this
      ensures Valid()
      ensures formData == Capture(old(formData), q)
      ensures loading == old(loading) && phase == old(phase)
    {
      formData := Capture(formData, q);
    }

    /** `handleChange`: store the new value of one field. */
    method HandleChange(field: Field, value: string)
      requires Valid()
      modifies this
      ensures Valid()
      ensures formData.Get(field) == ChangedValue(field, value)
      ensures forall g :: g != field ==> formData.Get(g) == old(formData).Get(g)
      ensures loading == old(loading) && phase == old(phase)
    {
      if field == Phone {
        var formatted := MaskPhone(value);
        MaskIdempotent(value);
        formData := formData.Set(Phone, formatted);
        return;
      }
      formData := formData.Set(field, value);
    }

    /** `handleSubmit` up to the awaited webhook call: set the loading flag
        and keep the form data the handler closes over. Inputs stay live while
        the call is in flight, so `HandleChange` may run before
        `CompleteSubmit`. */
    method BeginSubmit()
      requires Valid() && !loading
      modifies this
      ensures Valid()
      ensures formData == old(formData)
      ensures loading && phase == Submitting(formData)
    {
      loading := true;
      phase := Submitting(formData);
    }

    /** `handleSubmit` after the webhook call settles: parse the base URL and
        redirect to it with the captured form data appended; when the base
        URL does not parse, clear the loading flag and report the error.
        `parse` is the URL constructor, `None` standing for the error it
        throws. Changes made while the call was in flight stay in the state
        but do not reach the redirect. */
    method CompleteSubmit(parse: string -> Option<Url>)
      requires Valid() && phase.Submitting?
      modifies this
      ensures Valid()
      ensures formData == old(formData)
      ensures parse(productUrl).None? ==> !loading && phase == IdleWithError
      ensures parse(productUrl).Some? ==>
                loading && phase == Redirecting(
                  Url(parse(productUrl).value.origin,
                      RedirectQuery(old(phase).snapshot, parse(productUrl).value.query)))
      // the submitted phone was masked, so `phoneac` has at most 11 digits
      ensures |PhoneForCheckout(old(phase).snapshot.phone)| <= 11
    {
      PhoneForCheckoutOfMasked(phase.snapshot.phone);
      var parsed := parse(productUrl);
      if parsed.None? {
        loading := false;
        phase := IdleWithError;
        return;
      }
      var target := BuildRedirect(phase.snapshot, parsed.value);
      phase := Redirecting(target);
    }
  }
}
