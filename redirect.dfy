/** Construction of the checkout redirect: the base checkout URL keeps its
    own query parameters, then the non-empty attribution fields are
    appended in a fixed order, then the name, the email and the phone in
    the local format the checkout pre-fills (`phoneac`). */
module Redirect {
  import opened PhoneMask
  import opened FormState

  type Param = (string, string)

  /** A parsed URL: everything before the query string, and the query
      string as (key, value) pairs in order. */
  datatype Url = Url(origin: string, query: seq<Param>)

  /** The `URL` object whose `searchParams` the submit handler appends to. */
  class UrlObject {
    const origin: string
    var searchParams: seq<Param>

    constructor (u: Url)
      ensures origin == u.origin && searchParams == u.query
    {
      origin := u.origin;
      searchParams := u.query;
    }

    /** `searchParams.append(key, value)`. */
    method Append(key: string, value: string)
      modifies this
      ensures searchParams == old(searchParams) + [(key, value)]
    {
      searchParams := searchParams + [(key, value)];
    }

    function Href(): Url
      reads this
    {
      Url(origin, searchParams)
    }
  }

  /** The parameter `if (value) append(key, value)` contributes. */
  function ParamIfPresent(key: string, value: string): seq<Param> {
    if value != "" then [(key, value)] else []
  }

  /** The parameter one field contributes: none when the field is empty. */
  function Piece(fd: FormData, f: Field): seq<Param> {
    ParamIfPresent(Key(f), fd.Get(f))
  }

  /** The parameters the non-empty ones of `fields` contribute, in order. */
  function Present(fd: FormData, fields: seq<Field>): seq<Param> {
    if fields == [] then [] else Piece(fd, fields[0]) + Present(fd, fields[1..])
  }

  /** The attribution parameters a redirect carries, field by field in the
      order the submit handler appends them. */
  function AttributionQuery(fd: FormData): seq<Param> {
    Piece(fd, UtmSource) + Piece(fd, UtmMedium) + Piece(fd, UtmCampaign) + Piece(fd, UtmTerm)
    + Piece(fd, UtmContent) + Piece(fd, Sck) + Piece(fd, Src)
  }

  /** The `phoneac` value: the phone's digits, without the leading country
      code when they start with "55" and number more than 10. */
  function PhoneForCheckout(phone: string): (r: string)
    ensures AllDigits(r)
    ensures StartsWith(Digits(phone), CountryCode) && |Digits(phone)| > 10 ==> CountryCode + r == Digits(phone)
    ensures !(StartsWith(Digits(phone), CountryCode) && |Digits(phone)| > 10) ==> r == Digits(phone)
  {
    var digits := Digits(phone);
    if StartsWith(digits, CountryCode) && |digits| > 10 then digits[2..] else digits
  }

  /** The query string of the redirect built on a base URL whose query
      string is `existing`. */
  function RedirectQuery(fd: FormData, existing: seq<Param>): (r: seq<Param>)
    ensures |r| == |existing| + |AttributionQuery(fd)| + 3
    // the base URL's own parameters come first, unchanged
    ensures r[..|existing|] == existing
    ensures r[|existing|..|existing| + |AttributionQuery(fd)|] == AttributionQuery(fd)
    // the contact parameters always come last
    ensures r[|r| - 3..] == [("name", fd.name), ("email", fd.email), ("phoneac", PhoneForCheckout(fd.phone))]
  {
    existing + AttributionQuery(fd)
    + [("name", fd.name), ("email", fd.email), ("phoneac", PhoneForCheckout(fd.phone))]
  }

  /** Parameters of a list of fields split along the list. */
  lemma {:induction false} PresentSplit(fd: FormData, a: seq<Field>, b: seq<Field>)
    ensures Present(fd, a + b) == Present(fd, a) + Present(fd, b)
  {
    if a == [] {
      assert a + b == b;
    } else {
      assert (a + b)[0] == a[0];
      assert (a + b)[1..] == a[1..] + b;
      PresentSplit(fd, a[1..], b);
    }
  }

  /** A parameter is present exactly when it is the key and value of one of
      the fields and that value is non-empty. */
  lemma {:induction false} PresentMembers(fd: FormData, fields: seq<Field>, p: Param)
    ensures p in Present(fd, fields) <==>
            exists f :: f in fields && fd.Get(f) != "" && p == (Key(f), fd.Get(f))
  {
    if fields != [] {
      PresentMembers(fd, fields[1..], p);
      assert forall f :: f in fields <==> f == fields[0] || f in fields[1..];
    }
  }

  /** A field's key occurs among the parameters of `fields` exactly when
      the field is non-empty, and always with the field's value. */
  lemma PresentKey(fd: FormData, fields: seq<Field>, f: Field)
    requires f in fields
    ensures (exists i :: 0 <= i < |Present(fd, fields)| && Present(fd, fields)[i].0 == Key(f))
            <==> fd.Get(f) != ""
    ensures forall i :: 0 <= i < |Present(fd, fields)| && Present(fd, fields)[i].0 == Key(f) ==>
              Present(fd, fields)[i].1 == fd.Get(f)
  {
    var ps := Present(fd, fields);
    forall i | 0 <= i < |ps| && ps[i].0 == Key(f)
      ensures ps[i].1 == fd.Get(f) && fd.Get(f) != ""
    {
      PresentMembers(fd, fields, ps[i]);
      var g :| g in fields && fd.Get(g) != "" && ps[i] == (Key(g), fd.Get(g));
      KeyInjective(f, g);
    }
    if fd.Get(f) != "" {
      PresentMembers(fd, fields, (Key(f), fd.Get(f)));
      assert (Key(f), fd.Get(f)) in ps;
      var i :| 0 <= i < |ps| && ps[i] == (Key(f), fd.Get(f));
      assert ps[i].0 == Key(f);
    }
  }

  /** An attribution field's key occurs in the redirect's attribution
      parameters exactly when the field is non-empty, and then with the
      field's value. */
  lemma AttributionParamPresence(fd: FormData, f: Field)
    requires IsAttribution(f)
    ensures (exists i :: 0 <= i < |AttributionQuery(fd)| && AttributionQuery(fd)[i].0 == Key(f))
            <==> fd.Get(f) != ""
    ensures forall i :: 0 <= i < |AttributionQuery(fd)| && AttributionQuery(fd)[i].0 == Key(f) ==>
              AttributionQuery(fd)[i].1 == fd.Get(f)
  {
    AttributionQueryIsPresent(fd);
    PresentKey(fd, AttributionFields, f);
  }

  /** Every attribution parameter carries a non-empty value under the key
      of an attribution field. */
  lemma AttributionParamsWhitelisted(fd: FormData, i: nat)
    requires i < |AttributionQuery(fd)|
    ensures exists f :: IsAttribution(f) && AttributionQuery(fd)[i] == (Key(f), fd.Get(f)) && fd.Get(f) != ""
  {
    AttributionQueryIsPresent(fd);
    var ps := Present(fd, AttributionFields);
    PresentMembers(fd, AttributionFields, ps[i]);
  }

  /** Of two fields at positions i < j of `fields`, both non-empty, the
      parameter of the first comes before that of the second. */
  lemma PresentOrder(fd: FormData, fields: seq<Field>, i: nat, j: nat)
    requires i < j < |fields|
    requires fd.Get(fields[i]) != "" && fd.Get(fields[j]) != ""
    ensures exists p, q :: 0 <= p < q < |Present(fd, fields)|
              && Present(fd, fields)[p] == (Key(fields[i]), fd.Get(fields[i]))
              && Present(fd, fields)[q] == (Key(fields[j]), fd.Get(fields[j]))
  {
    var fi, fj := fields[i], fields[j];
    var a, b := fields[..j], fields[j..];
    assert a + b == fields;
    PresentSplit(fd, a, b);
    var pa, pb := Present(fd, a), Present(fd, b);
    assert fi == a[i];
    PresentMembers(fd, a, (Key(fi), fd.Get(fi)));
    assert (Key(fi), fd.Get(fi)) in pa;
    var p :| 0 <= p < |pa| && pa[p] == (Key(fi), fd.Get(fi));
    assert b[0] == fj;
    assert pb[0] == (Key(fj), fd.Get(fj));
    assert Present(fd, fields)[p] == pa[p];
    assert Present(fd, fields)[|pa|] == pb[0];
  }

  /** Attribution parameters follow the fixed order utm_source, utm_medium,
      utm_campaign, utm_term, utm_content, sck, src. */
  lemma AttributionOrder(fd: FormData, i: nat, j: nat)
    requires i < j < |AttributionFields|
    requires fd.Get(AttributionFields[i]) != "" && fd.Get(AttributionFields[j]) != ""
    ensures exists p, q :: 0 <= p < q < |AttributionQuery(fd)|
              && AttributionQuery(fd)[p] == (Key(AttributionFields[i]), fd.Get(AttributionFields[i]))
              && AttributionQuery(fd)[q] == (Key(AttributionFields[j]), fd.Get(AttributionFields[j]))
  {
    AttributionQueryIsPresent(fd);
    PresentOrder(fd, AttributionFields, i, j);
  }

  /** For a masked phone `phoneac` is the local number: the area code and
      subscriber digits once more than 10 digits are shown, every digit
      otherwise; it never has more than 11 digits. */
  lemma PhoneForCheckoutOfMasked(phone: string)
    requires IsMasked(phone)
    ensures var d, r := Digits(phone), PhoneForCheckout(phone);
      |r| <= 11
      && (|d| > 10 ==> d == CountryCode + r)
      && (|d| <= 10 ==> r == d)
  {
    MaskedPhoneDigits(phone);
  }

  /** The attribution parameters of the first `k + 1` fields extend those
      of the first `k` by the parameter of field `k`. */
  lemma AttributionPrefixStep(fd: FormData, k: nat)
    requires k < |AttributionFields|
    ensures Present(fd, AttributionFields[..k + 1])
            == Present(fd, AttributionFields[..k]) + Piece(fd, AttributionFields[k])
  {
    var fs := AttributionFields;
    assert fs[..k + 1] == fs[..k] + [fs[k]];
    PresentSplit(fd, fs[..k], [fs[k]]);
    assert [fs[k]][1..] == [];
  }

  /** `if (value) urlObj.searchParams.append(key, value)`. */
  method AppendIfPresent(urlObj: UrlObject, key: string, value: string)
    modifies urlObj
    ensures urlObj.searchParams == old(urlObj.searchParams) + ParamIfPresent(key, value)
  {
    if value != "" {
      urlObj.Append(key, value);
    }
  }

  /** The attribution parameters are those of the non-empty attribution
      fields, in the order of `AttributionFields`. */
  lemma AttributionQueryIsPresent(fd: FormData)
    ensures AttributionQuery(fd) == Present(fd, AttributionFields)
  {
    var fs := AttributionFields;
    assert fs[..0] == [];
    AttributionPrefixStep(fd, 0);
    assert Present(fd, fs[..1]) == Piece(fd, UtmSource);
    AttributionPrefixStep(fd, 1);
    assert Present(fd, fs[..2]) == Piece(fd, UtmSource) + Piece(fd, UtmMedium);
    AttributionPrefixStep(fd, 2);
    assert Present(fd, fs[..3]) == Piece(fd, UtmSource) + Piece(fd, UtmMedium) + Piece(fd, UtmCampaign);
    AttributionPrefixStep(fd, 3);
    assert Present(fd, fs[..4]) == Piece(fd, UtmSource) + Piece(fd, UtmMedium) + Piece(fd, UtmCampaign) + Piece(fd, UtmTerm);
    AttributionPrefixStep(fd, 4);
    assert Present(fd, fs[..5]) == Piece(fd, UtmSource) + Piece(fd, UtmMedium) + Piece(fd, UtmCampaign) + Piece(fd, UtmTerm) + Piece(fd, UtmContent);
    AttributionPrefixStep(fd, 5);
    assert Present(fd, fs[..6]) == Piece(fd, UtmSource) + Piece(fd, UtmMedium) + Piece(fd, UtmCampaign) + Piece(fd, UtmTerm) + Piece(fd, UtmContent) + Piece(fd, Sck);
    AttributionPrefixStep(fd, 6);
    assert Present(fd, fs[..7]) == Piece(fd, UtmSource) + Piece(fd, UtmMedium) + Piece(fd, UtmCampaign) + Piece(fd, UtmTerm) + Piece(fd, UtmContent) + Piece(fd, Sck) + Piece(fd, Src);
    assert fs[..7] == fs;
  }

  /** The redirect built by the submit handler: the attribution fields that
      are non-empty, then name and email, then `phoneac`, each appended to
      the base URL's query string. */
  method BuildRedirect(fd: FormData, base: Url) returns (target: Url)
    ensures target == Url(base.origin, RedirectQuery(fd, base.query))
  {
    var urlObj := new UrlObject(base);
    AppendIfPresent(urlObj, "utm_source", fd.utmSource);
    AppendIfPresent(urlObj, "utm_medium", fd.utmMedium);
    AppendIfPresent(urlObj, "utm_campaign", fd.utmCampaign);
    AppendIfPresent(urlObj, "utm_term", fd.utmTerm);
    AppendIfPresent(urlObj, "utm_content", fd.utmContent);
    AppendIfPresent(urlObj, "sck", fd.sck);
    AppendIfPresent(urlObj, "src", fd.src);
    assert urlObj.searchParams == base.query + AttributionQuery(fd);

    urlObj.Append("name", fd.name);
    urlObj.Append("email", fd.email);

    var cleanPhone := Digits(fd.phone);
    if StartsWith(cleanPhone, CountryCode) && |cleanPhone| > 10 {
      cleanPhone := cleanPhone[2..];
    }
    urlObj.Append("phoneac", cleanPhone);
    target := urlObj.Href();
  }

  /** A worked redirect: the empty utm_campaign is skipped, only the
      non-empty utm_source and sck are carried, and the base URL's
      checkoutMode stays first. */
  lemma RedirectExample(fd: FormData, base: seq<Param>)
    requires fd.name == "Ana" && fd.email == "a@b.com"
    requires fd.utmSource == "ig" && fd.sck == "abc"
    requires fd.utmMedium == fd.utmCampaign == fd.utmTerm == fd.utmContent == fd.src == ""
    requires base == [("checkoutMode", "10")]
    ensures RedirectQuery(fd, base)
            == [("checkoutMode", "10"), ("utm_source", "ig"), ("sck", "abc"),
                ("name", "Ana"), ("email", "a@b.com"), ("phoneac", PhoneForCheckout(fd.phone))]
  {
  }
}
