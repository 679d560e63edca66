/** Attribution capture: when the form mounts, the seven whitelisted
    query-string parameters are copied into the form state, each as its
    value or as the empty string. The query string is a list of
    (key, value) pairs in the order they occur. */
module Attribution {
  import opened Options
  import opened FormState

  type Query = seq<(string, string)>

  /** `URLSearchParams.get(key)`: the value of the first pair with `key`. */
  function Lookup(q: Query, key: string): (r: Option<string>)
    ensures r.None? <==> forall i :: 0 <= i < |q| ==> q[i].0 != key
  {
    if q == [] then None
    else if q[0].0 == key then Some(q[0].1)
    else Lookup(q[1..], key)
  }

  /** The value found is that of the first pair carrying the key. */
  lemma {:induction false} LookupFirst(q: Query, key: string, i: nat)
    requires i < |q| && q[i].0 == key
    requires forall j :: 0 <= j < i ==> q[j].0 != key
    ensures Lookup(q, key) == Some(q[i].1)
  {
    if i > 0 {
      assert q[0].0 != key;
      assert forall j :: 0 <= j < i - 1 ==> q[1..][j] == q[j + 1];
      LookupFirst(q[1..], key, i - 1);
    }
  }

  /** A pair inserted anywhere never changes what a different key reads. */
  lemma {:induction false} LookupInsertOther(a: Query, k: string, v: string, b: Query, key: string)
    requires k != key
    ensures Lookup(a + [(k, v)] + b, key) == Lookup(a + b, key)
  {
    if a == [] {
      assert a + [(k, v)] + b == [(k, v)] + b;
      assert ([(k, v)] + b)[1..] == b;
      assert a + b == b;
    } else {
      assert (a + [(k, v)] + b)[0] == a[0] == (a + b)[0];
      assert (a + [(k, v)] + b)[1..] == a[1..] + [(k, v)] + b;
      assert (a + b)[1..] == a[1..] + b;
      LookupInsertOther(a[1..], k, v, b, key);
    }
  }

  /** `params.get(key) || ''`: an absent key and an empty value both give "". */
  function ValueOrEmpty(q: Query, key: string): (v: string)
    ensures v != "" ==> Lookup(q, key) == Some(v)
    ensures v == "" <==> Lookup(q, key) == None || Lookup(q, key) == Some("")
  {
    Lookup(q, key).GetOr("")
  }

  /** The state update run once on mount: the seven attribution fields are
      read from the query string; name, email and phone are kept. */
  function Capture(prev: FormData, q: Query): (r: FormData)
    ensures r.name == prev.name && r.email == prev.email && r.phone == prev.phone
    ensures forall f :: IsAttribution(f) ==> r.Get(f) == ValueOrEmpty(q, Key(f))
  {
    prev.(
      utmSource := ValueOrEmpty(q, "utm_source"),
      utmMedium := ValueOrEmpty(q, "utm_medium"),
      utmCampaign := ValueOrEmpty(q, "utm_campaign"),
      utmTerm := ValueOrEmpty(q, "utm_term"),
      utmContent := ValueOrEmpty(q, "utm_content"),
      sck := ValueOrEmpty(q, "sck"),
      src := ValueOrEmpty(q, "src"))
  }

  /** A captured field holds the value of the first query pair with its key. */
  lemma CaptureFirstOccurrence(prev: FormData, q: Query, f: Field, i: nat)
    requires IsAttribution(f)
    requires i < |q| && q[i].0 == Key(f)
    requires forall j :: 0 <= j < i ==> q[j].0 != Key(f)
    ensures Capture(prev, q).Get(f) == q[i].1
  {
    LookupFirst(q, Key(f), i);
  }

  /** A field whose key is absent from the query string is captured as "". */
  lemma CaptureAbsent(prev: FormData, q: Query, f: Field)
    requires IsAttribution(f)
    requires forall i :: 0 <= i < |q| ==> q[i].0 != Key(f)
    ensures Capture(prev, q).Get(f) == ""
  {
  }

  /** Only the whitelisted keys matter: a parameter with any other key,
      wherever it occurs, leaves the capture unchanged. */
  lemma CaptureIgnoresOtherKeys(prev: FormData, q1: Query, k: string, v: string, q2: Query)
    requires forall f :: IsAttribution(f) ==> Key(f) != k
    ensures Capture(prev, q1 + [(k, v)] + q2) == Capture(prev, q1 + q2)
  {
    forall f | IsAttribution(f)
      ensures Lookup(q1 + [(k, v)] + q2, Key(f)) == Lookup(q1 + q2, Key(f))
    {
      LookupInsertOther(q1, k, v, q2, Key(f));
    }
    var a, b := Capture(prev, q1 + [(k, v)] + q2), Capture(prev, q1 + q2);
    forall f ensures a.Get(f) == b.Get(f) {
      if !IsAttribution(f) {
        assert f == Name || f == Email || f == Phone;
      }
    }
    FormDataExt(a, b);
  }
}
