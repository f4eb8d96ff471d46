/** Outgoing messages through the Twilio API and the check of the signature
    on incoming webhooks. The HTTP exchange is a parameter that says how the
    request ended. The signature is base64 of HMAC-SHA1 (RFC 2104 with SHA-1,
    base64 as in section 4 of RFC 4648), and it is a parameter too. */
module WhatsAppSender {
  import opened Common

  // ---------------------------------------------------------------------------
  // sendWhatsApp

  const ChannelPrefix := "whatsapp:"

  /** A number as Twilio's WhatsApp channel wants it: `whatsapp:` in front,
      added only when it is not there yet. */
  function ChannelAddress(number: string): (r: string)
    ensures StartsWith(r, ChannelPrefix)
    ensures StartsWith(number, ChannelPrefix) ==> r == number
    ensures r == number || r == ChannelPrefix + number
  {
    if StartsWith(number, ChannelPrefix) then number
    else
      StartsWithAppend(ChannelPrefix, number);
      ChannelPrefix + number
  }

  /** Addressing a number twice is addressing it once. */
  lemma ChannelAddressIdempotent(number: string)
    ensures ChannelAddress(ChannelAddress(number)) == ChannelAddress(number)
  {
    StartsWithAppend(ChannelPrefix, number);
  }

  /** Removing the prefix from an address gives back the number whenever the
      number did not already carry it. */
  lemma ChannelAddressKeepsNumber(number: string)
    requires !StartsWith(number, ChannelPrefix)
    ensures ChannelAddress(number)[|ChannelPrefix|..] == number
  {
  }

  /** The form posted to the Messages resource. */
  datatype Outgoing = Outgoing(from: string, to: string, body: string)

  /** How the request ended: `fetch` threw, the response was not OK, or the
      response was OK with this JSON `sid` field. */
  datatype Exchange = Threw | NotOk(status: int) | Ok(sid: Option<string>)

  /** `sendWhatsApp(to, body)` with the configured sender number `sender`;
      `post` is the HTTP exchange for a form. */
  function SendWhatsApp(to: string, body: string, sender: string, post: Outgoing -> Exchange): (r: Option<string>)
    ensures var exchange := post(Outgoing(ChannelAddress(sender), ChannelAddress(to), body));
      && (r.Some? <==> exchange.Ok? && exchange.sid.Some?)
      && (r.Some? ==> r == exchange.sid)
  {
    match post(Outgoing(ChannelAddress(sender), ChannelAddress(to), body))
    case Ok(sid) => sid
    case _ => None
  }

  /** The form always addresses both numbers on the WhatsApp channel and
      carries the body unchanged. */
  lemma SendAddressesChannel(to: string, body: string, sender: string)
    ensures var m := Outgoing(ChannelAddress(sender), ChannelAddress(to), body);
      StartsWith(m.from, ChannelPrefix) && StartsWith(m.to, ChannelPrefix) && m.body == body
  {
  }

  // ---------------------------------------------------------------------------
  // validateTwilioSignature

  lemma LexLessIsStrict()
    ensures StrictOrder(LexLess)
  {
    forall a, b | LexLess(a, b)
      ensures !LexLess(b, a)
    {
      LexLessAsymmetric(a, b);
    }
    forall a, b, c | LexLess(a, b) && LexLess(b, c)
      ensures LexLess(a, c)
    {
      LexLessTransitive(a, b, c);
    }
  }

  /** `Object.keys(params).sort()` */
  function SortedKeys(keys: seq<string>): (r: seq<string>)
    ensures multiset(r) == multiset(keys)
  {
    SortBy(keys, LexLess)
  }

  /** The parameters, key then value, one after the other in the order of
      `keys`. */
  function KeyValues(keys: seq<string>, params: map<string, string>): string
    requires forall j :: 0 <= j < |keys| ==> keys[j] in params
  {
    if |keys| == 0 then ""
    else
      var key := keys[|keys| - 1];
      KeyValues(keys[..|keys| - 1], params) + key + params[key]
  }

  /** The string the signature is computed over: the url, then every
      parameter in ascending key order; `keys` is `Object.keys(params)`. */
  function ValidationText(url: string, keys: seq<string>, params: map<string, string>): (r: string)
    requires forall k :: k in keys ==> k in params
    ensures |keys| == 0 ==> r == url
  {
    var sorted := SortedKeys(keys);
    assert forall j :: 0 <= j < |sorted| ==> sorted[j] in params by {
      forall j | 0 <= j < |sorted|
        ensures sorted[j] in params
      {
        assert sorted[j] in multiset(sorted);
      }
    }
    url + KeyValues(sorted, params)
  }

  /** Two ascending sequences of strings with the same elements are equal. */
  lemma {:induction false} SortedUnique(a: seq<string>, b: seq<string>)
    requires SortedBy(a, LexLess) && SortedBy(b, LexLess)
    requires multiset(a) == multiset(b)
    ensures a == b
  {
    assert |a| == |multiset(a)| == |multiset(b)| == |b|;
    if |a| > 0 {
      SortedHeads(a, b);
      assert a == [a[0]] + a[1..] && b == [b[0]] + b[1..];
      assert multiset(a[1..]) == multiset(a) - multiset{a[0]};
      assert multiset(b[1..]) == multiset(b) - multiset{b[0]};
      SortedUnique(a[1..], b[1..]);
    }
  }

  /** Two ascending sequences of strings with the same elements start with
      the same one. */
  lemma SortedHeads(a: seq<string>, b: seq<string>)
    requires SortedBy(a, LexLess) && SortedBy(b, LexLess)
    requires multiset(a) == multiset(b) && |a| > 0 && |b| > 0
    ensures a[0] == b[0]
  {
    assert a[0] in multiset(b);
    assert b[0] in multiset(a);
    var k :| 0 <= k < |b| && b[k] == a[0];
    var m :| 0 <= m < |a| && a[m] == b[0];
    if a[0] != b[0] {
      assert k > 0 && m > 0;
      assert !LexLess(b[k], b[0]);
      assert !LexLess(a[m], a[0]);
      LexLessTotal(a[0], b[0]);
    }
  }

  /** The validation string does not depend on the order in which the
      parameters were added. */
  lemma ValidationTextOrderFree(url: string, keys1: seq<string>, keys2: seq<string>, params: map<string, string>)
    requires forall k :: k in keys1 ==> k in params
    requires multiset(keys1) == multiset(keys2)
    ensures forall k :: k in keys2 ==> k in params
    ensures ValidationText(url, keys1, params) == ValidationText(url, keys2, params)
  {
    forall k | k in keys2
      ensures k in params
    {
      assert k in multiset(keys2);
      assert k in multiset(keys1);
    }
    LexLessIsStrict();
    SortBySorted(keys1, LexLess);
    SortBySorted(keys2, LexLess);
    SortedUnique(SortedKeys(keys1), SortedKeys(keys2));
  }

  lemma {:induction false} KeyValuesHasEach(keys: seq<string>, params: map<string, string>, i: int)
    requires forall j :: 0 <= j < |keys| ==> keys[j] in params
    requires 0 <= i < |keys|
    ensures Contains(KeyValues(keys, params), keys[i] + params[keys[i]])
  {
    var init := keys[..|keys| - 1];
    var last := keys[|keys| - 1];
    if i == |keys| - 1 {
      ContainsSuffix(KeyValues(init, params), last + params[last]);
      assert KeyValues(keys, params) == KeyValues(init, params) + (last + params[last]);
    } else {
      assert keys[i] == init[i];
      KeyValuesHasEach(init, params, i);
      ContainsExtend(KeyValues(init, params), last + params[last], keys[i] + params[keys[i]]);
      assert KeyValues(keys, params) == KeyValues(init, params) + (last + params[last]);
    }
  }

  /** The validation string starts with the url and holds every parameter's
      key followed by its value. */
  lemma ValidationTextHasEach(url: string, keys: seq<string>, params: map<string, string>, key: string)
    requires forall k :: k in keys ==> k in params
    requires key in keys
    ensures StartsWith(ValidationText(url, keys, params), url)
    ensures Contains(ValidationText(url, keys, params), key + params[key])
  {
    var sorted := SortedKeys(keys);
    assert key in multiset(sorted);
    var i :| 0 <= i < |sorted| && sorted[i] == key;
    forall j | 0 <= j < |sorted|
      ensures sorted[j] in params
    {
      assert sorted[j] in multiset(sorted);
    }
    KeyValuesHasEach(sorted, params, i);
    ContainsExtend(KeyValues(sorted, params), url, key + params[key]);
    StartsWithAppend(url, KeyValues(sorted, params));
  }

  lemma KeyValuesStep(url: string, keys: seq<string>, params: map<string, string>, i: int)
    requires forall j :: 0 <= j < |keys| ==> keys[j] in params
    requires 0 <= i < |keys|
    ensures url + KeyValues(keys[..i + 1], params) == url + KeyValues(keys[..i], params) + keys[i] + params[keys[i]]
  {
    assert keys[..i + 1][..i] == keys[..i];
  }

  /** The loop that builds `validationStr`. */
  method BuildValidationText(url: string, keys: seq<string>, params: map<string, string>) returns (text: string)
    requires forall k :: k in keys ==> k in params
    ensures text == ValidationText(url, keys, params)
  {
    var sortedKeys := SortBy(keys, LexLess);
    forall j | 0 <= j < |sortedKeys|
      ensures sortedKeys[j] in params
    {
      assert sortedKeys[j] in multiset(sortedKeys);
    }
    text := url;
    var i := 0;
    while i < |sortedKeys|
      invariant 0 <= i <= |sortedKeys|
      invariant text == url + KeyValues(sortedKeys[..i], params)
    {
      var key := sortedKeys[i];
      KeyValuesStep(url, sortedKeys, params, i);
      text := text + key + params[key];
      i := i + 1;
    }
    assert sortedKeys[..i] == sortedKeys;
  }

  /** `validateTwilioSignature`; `sign(token, text)` is base64 of the
      HMAC-SHA1 of `text` under `token`. */
  method ValidateSignature(authToken: string, signature: string, url: string, keys: seq<string>,
                           params: map<string, string>, sign: (string, string) -> string)
    returns (valid: bool)
    requires forall k :: k in keys ==> k in params
    ensures valid <==> sign(authToken, ValidationText(url, keys, params)) == signature
  {
    var text := BuildValidationText(url, keys, params);
    valid := sign(authToken, text) == signature;
  }
}
