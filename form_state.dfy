/** The checkout form's `formData` record: three visible contact fields and
    seven hidden attribution fields, all strings. */
module FormState {

  /** The state keys of `formData`; the `name` attribute of an input selects one. */
  datatype Field =
    | Name | Email | Phone
    | UtmSource | UtmMedium | UtmCampaign | UtmTerm | UtmContent | Sck | Src

  /** The query-string keys the mount effect copies into the state. */
  const AttributionKeys: seq<string> :=
    ["utm_source", "utm_medium", "utm_campaign", "utm_term", "utm_content", "sck", "src"]

  /** The key under which a field is stored, read from and sent. */
  function Key(f: Field): string {
    match f
    case Name => "name"
    case Email => "email"
    case Phone => "phone"
    case UtmSource => "utm_source"
    case UtmMedium => "utm_medium"
    case UtmCampaign => "utm_campaign"
    case UtmTerm => "utm_term"
    case UtmContent => "utm_content"
    case Sck => "sck"
    case Src => "src"
  }

  /** Distinct fields have distinct keys. */
  lemma KeyInjective(f: Field, g: Field)
    requires Key(f) == Key(g)
    ensures f == g
  {
  }

  /** A field is an attribution field exactly when its key is one of the
      whitelisted query-string keys. */
  lemma AttributionKeysMatch(f: Field)
    ensures IsAttribution(f) <==> Key(f) in AttributionKeys
  {
  }

  /** The attribution fields, in the order the redirect appends them. */
  const AttributionFields: seq<Field> :=
    [UtmSource, UtmMedium, UtmCampaign, UtmTerm, UtmContent, Sck, Src]

  predicate IsAttribution(f: Field) { f in AttributionFields }

  datatype FormData = FormData(
    name: string, email: string, phone: string,
    utmSource: string, utmMedium: string, utmCampaign: string,
    utmTerm: string, utmContent: string, sck: string, src: string)
  {
    function Get(f: Field): string {
      match f
      case Name => name
      case Email => email
      case Phone => phone
      case UtmSource => utmSource
      case UtmMedium => utmMedium
      case UtmCampaign => utmCampaign
      case UtmTerm => utmTerm
      case UtmContent => utmContent
      case Sck => sck
      case Src => src
    }

    /** `{ ...prev, [key]: value }`: the record with one field replaced. */
    function Set(f: Field, v: string): (r: FormData)
      ensures r.Get(f) == v
      ensures forall g :: g != f ==> r.Get(g) == Get(g)
    {
      match f
      case Name => this.(name := v)
      case Email => this.(email := v)
      case Phone => this.(phone := v)
      case UtmSource => this.(utmSource := v)
      case UtmMedium => this.(utmMedium := v)
      case UtmCampaign => this.(utmCampaign := v)
      case UtmTerm => this.(utmTerm := v)
      case UtmContent => this.(utmContent := v)
      case Sck => this.(sck := v)
      case Src => this.(src := v)
    }
  }

  /** Two records that agree on every field are the same record. */
  lemma FormDataExt(a: FormData, b: FormData)
    requires forall f :: a.Get(f) == b.Get(f)
    ensures a == b
  {
    assert a.Get(Name) == b.Get(Name) && a.Get(Email) == b.Get(Email) && a.Get(Phone) == b.Get(Phone);
    assert a.Get(UtmSource) == b.Get(UtmSource) && a.Get(UtmMedium) == b.Get(UtmMedium);
    assert a.Get(UtmCampaign) == b.Get(UtmCampaign) && a.Get(UtmTerm) == b.Get(UtmTerm);
    assert a.Get(UtmContent) == b.Get(UtmContent) && a.Get(Sck) == b.Get(Sck) && a.Get(Src) == b.Get(Src);
  }

  /** The state the form mounts with: everything empty but the phone,
      which is seeded with the country code. */
  function InitialFormData(): (r: FormData)
    ensures r.Get(Phone) == "+55"
    ensures forall f :: f != Phone ==> r.Get(f) == ""
  {
    FormData("", "", "+55", "", "", "", "", "", "", "")
  }
}
