/**
 * The Robokassa signature protocol: the colon-joined signing strings, their digest,
 * the outbound redirect request and the check of an inbound result notification.
 *
 * MD5 is not modelled: every operation that hashes takes `md5Hex`, standing for
 * `hashlib.md5(s.encode("utf-8")).hexdigest()`, as an uninterpreted function.
 */
module RobokassaClient {
  import opened Wrappers
  import opened Strings
  import opened Dicts

  /** The gateway's fixed entry endpoint. */
  const BaseUrl := "https://auth.robokassa.ru/Merchant/Index.aspx"

  /** A redirect URL: `endpoint + "?" + urlencode(query)`, the query kept as its ordered pairs. */
  datatype PaymentUrl = PaymentUrl(endpoint: string, query: Dict)

  /** `_md5_upper`: the hex digest of `s`, upper-cased. */
  function Md5Upper(md5Hex: string -> string, s: string): (r: string)
    ensures |r| == |md5Hex(s)|
    ensures forall i :: 0 <= i < |r| ==> !IsAsciiLower(r[i])
    ensures ToUpper(r) == r
  {
    ToUpperIdempotent(md5Hex(s));
    ToUpper(md5Hex(s))
  }

  /** One `Shp_key=value` element of the signing string. */
  function ShpEntry(x: Item): string {
    "Shp_" + x.0 + "=" + x.1
  }

  /** The entries of the signing string's Shp block: one `Shp_key=value` per entry, in the order given. */
  function ShpEntries(s: seq<Item>): (r: seq<string>)
    ensures |r| == |s|
    ensures forall j :: 0 <= j < |s| ==> r[j] == ShpEntry(s[j])
  {
    if |s| == 0 then [] else [ShpEntry(s[0])] + ShpEntries(s[1..])
  }

  /** `_format_shp_part`: the `Shp_key=value` entries in ascending key order, joined by ":". */
  function FormatShpPart(shp: Dict): (r: string)
    ensures r == "" <==> |shp| == 0
    ensures |shp| > 0 ==> StartsWith(r, "Shp_")
  {
    if |shp| == 0 then ""
    else
      var entries := ShpEntries(SortByKey(shp));
      StartsWithTransitive(Join(":", entries), entries[0], "Shp_");
      Join(":", entries)
  }

  /** The Shp block of a dict is its entries joined in any strictly ascending key order. */
  lemma FormatShpPartIsSortedJoin(shp: Dict, sorted: seq<Item>)
    requires StrictlySorted(sorted)
    requires forall x :: x in sorted <==> x in shp
    ensures FormatShpPart(shp) == Join(":", ShpEntries(sorted))
  {
    SortByKeyEntries(shp);
    SortedUnique(SortByKey(shp), sorted);
  }

  /** The Shp block depends only on the dict's contents, not on the order keys were inserted. */
  lemma FormatShpPartCanonical(shp1: Dict, shp2: Dict)
    requires ToMap(shp1) == ToMap(shp2)
    ensures FormatShpPart(shp1) == FormatShpPart(shp2)
  {
    SortByKeyCanonical(shp1, shp2);
    assert |shp1| == |SortByKey(shp1)| == |SortByKey(shp2)| == |shp2| by {
      assert |multiset(shp1)| == |multiset(SortByKey(shp1))|;
      assert |multiset(shp2)| == |multiset(SortByKey(shp2))|;
    }
  }

  /**
   * The string that is hashed: the fixed parts joined by ":", then, only for a
   * non-empty Shp dict, ":" and the Shp block; that is, the ":"-join of the parts with
   * the Shp block as one more part when the block is not empty.
   */
  function SigningString(parts: seq<string>, shp: Dict): (r: string)
    ensures |shp| == 0 ==> r == Join(":", parts)
    ensures |parts| > 0 ==> r == Join(":", parts + (if |shp| == 0 then [] else [FormatShpPart(shp)]))
  {
    JoinWithBlock(parts, FormatShpPart(shp), |shp| > 0);
    Join(":", parts) + (if |shp| == 0 then "" else ":" + FormatShpPart(shp))
  }

  /** Appending ":" and a block to joined parts is joining the block as one more part. */
  lemma {:induction false} JoinWithBlock(parts: seq<string>, block: string, present: bool)
    ensures !present ==> Join(":", parts) + "" == Join(":", parts)
    ensures |parts| > 0 ==>
      Join(":", parts) + (if present then ":" + block else "") == Join(":", parts + (if present then [block] else []))
  {
    assert parts + [] == parts;
    JoinAppend(":", parts, block);
  }

  /** The signature over `parts` and `shp`: an upper-case string as long as the hex digest of the signing string. */
  function Digest(md5Hex: string -> string, parts: seq<string>, shp: Dict): (r: string)
    ensures |r| == |md5Hex(SigningString(parts, shp))|
    ensures forall i :: 0 <= i < |r| ==> !IsAsciiLower(r[i])
    ensures ToUpper(r) == r
  {
    Md5Upper(md5Hex, SigningString(parts, shp))
  }

  /** `shp=None` is taken as the empty dict. */
  function ShpOrEmpty(shp: Option<Dict>): (d: Dict)
    ensures shp.None? ==> d == []
    ensures shp.Some? ==> d == shp.value
  {
    shp.GetOr([])
  }

  /** The outbound parts, `merchant_login:out_sum:inv_id:password1`. */
  function OutboundParts(merchantLogin: string, outSum: string, invId: string, password1: string): seq<string> {
    [merchantLogin, outSum, invId, password1]
  }

  /** The inbound parts, `out_sum:inv_id:password2`: no merchant login. */
  function InboundParts(outSum: string, invId: string, password2: string): seq<string> {
    [outSum, invId, password2]
  }

  /** The signature is independent of the order in which the Shp dict was filled. */
  lemma DigestCanonical(md5Hex: string -> string, parts: seq<string>, shp1: Dict, shp2: Dict)
    requires ToMap(shp1) == ToMap(shp2)
    ensures Digest(md5Hex, parts, shp1) == Digest(md5Hex, parts, shp2)
  {
    FormatShpPartCanonical(shp1, shp2);
  }

  /**
   * Both directions use one canonicalisation: the outbound signing string is the
   * merchant login, ":" and the inbound signing string built with the same secret.
   */
  lemma OutboundIsLoginThenInbound(merchantLogin: string, outSum: string, invId: string, password: string, shp: Dict)
    ensures SigningString(OutboundParts(merchantLogin, outSum, invId, password), shp)
         == merchantLogin + ":" + SigningString(InboundParts(outSum, invId, password), shp)
  {
    var out := OutboundParts(merchantLogin, outSum, invId, password);
    assert out[1..] == InboundParts(outSum, invId, password);
  }

  /** The signing string of four parts, spelled out. */
  lemma JoinFour(a: string, b: string, c: string, d: string)
    ensures Join(":", [a, b, c, d]) == a + ":" + b + ":" + c + ":" + d
  {
    assert [a, b, c, d][1..] == [b, c, d];
    assert [b, c, d][1..] == [c, d];
    assert [c, d][1..] == [d];
    assert Join(":", [c, d]) == c + ":" + d;
    assert Join(":", [b, c, d]) == b + ":" + (c + ":" + d);
  }

  /**
   * The query `build_payment_url` encodes, in the order its dict is filled: the five
   * fixed parameters, `IsTest=1` in test mode, then one `Shp_key` per Shp entry.
   */
  function PaymentQuery(merchantLogin: string, outSum: string, invId: string, description: string,
                        signature: string, shp: Dict, isTest: bool): (q: Dict)
    ensures |q| == 5 + (if isTest then 1 else 0) + |shp|
    ensures q[..5] == [("MerchantLogin", merchantLogin), ("OutSum", outSum), ("InvId", invId), ("Description", description),
                       ("SignatureValue", signature)]
    ensures isTest <==> "IsTest" in Keys(q)
    ensures isTest ==> q[5] == ("IsTest", "1")
    ensures forall j :: 0 <= j < |shp| ==> q[|q| - |shp| + j] == ("Shp_" + shp[j].0, shp[j].1)
  {
    var fixed := FixedParams(merchantLogin, outSum, invId, description, signature, isTest);
    FixedThenShp(fixed, shp);
    var q: Dict := fixed + ShpParams(shp);
    assert q[..5] == fixed[..5];
    q
  }

  /** Prefix-free parameters followed by the Shp parameters: distinct keys, the keys of both parts, no `IsTest` among the Shp ones. */
  lemma FixedThenShp(fixed: Dict, shp: Dict)
    requires forall j :: 0 <= j < |fixed| ==> !StartsWith(fixed[j].0, "Shp_")
    ensures KeysUnique(fixed + ShpParams(shp))
    ensures Keys(fixed + ShpParams(shp)) == Keys(fixed) + Keys(ShpParams(shp))
    ensures "IsTest" !in Keys(ShpParams(shp))
  {
    FixedThenShpUnique(fixed, shp);
    assert "IsTest" !in Keys(ShpParams(shp)) by {
      forall j | 0 <= j < |shp| ensures ShpParams(shp)[j].0 != "IsTest" {
        ShpKeyIsNotFixed(shp[j].0);
      }
    }
    KeysConcat(fixed, ShpParams(shp));
  }

  /** The Shp parameters appended to parameters without the `Shp_` prefix keep every key distinct. */
  lemma FixedThenShpUnique(fixed: Dict, shp: Dict)
    requires forall j :: 0 <= j < |fixed| ==> !StartsWith(fixed[j].0, "Shp_")
    ensures KeysUnique(fixed + ShpParams(shp))
  {
    ShpParamsAfterFixed(fixed, shp, |shp|);
    assert shp[..|shp|] == shp;
  }

  lemma PaymentQueryIsFixedThenShp(merchantLogin: string, outSum: string, invId: string, description: string,
                                   signature: string, shp: Dict, isTest: bool)
    ensures PaymentQuery(merchantLogin, outSum, invId, description, signature, shp, isTest)
         == FixedParams(merchantLogin, outSum, invId, description, signature, isTest) + ShpParams(shp)
  {
  }

  /** A key shorter than "Shp_" or differing from it in its first two characters lacks the prefix. */
  lemma NotShpKey(k: string)
    requires |k| < 4 || k[0] != 'S' || k[1] != 'h'
    ensures !StartsWith(k, "Shp_")
  {
    assert |k| >= 4 ==> k[..4][0] == k[0] && k[..4][1] == k[1];
  }

  /** None of the fixed parameter names carries the `Shp_` prefix. */
  lemma FixedNamesNotShp()
    ensures !StartsWith("MerchantLogin", "Shp_") && !StartsWith("OutSum", "Shp_") && !StartsWith("InvId", "Shp_")
    ensures !StartsWith("Description", "Shp_") && !StartsWith("SignatureValue", "Shp_") && !StartsWith("IsTest", "Shp_")
  {
    NotShpKey("MerchantLogin");
    NotShpKey("OutSum");
    NotShpKey("InvId");
    NotShpKey("Description");
    NotShpKey("SignatureValue");
    NotShpKey("IsTest");
  }

  /** The dict literal of `build_payment_url`: the five always-present parameters. */
  function FiveParams(merchantLogin: string, outSum: string, invId: string, description: string,
                      signature: string): (p: Dict)
    ensures |p| == 5
    ensures forall j :: 0 <= j < 5 ==> !StartsWith(p[j].0, "Shp_") && p[j].0 != "IsTest"
  {
    FixedNamesNotShp();
    [("MerchantLogin", merchantLogin), ("OutSum", outSum), ("InvId", invId),
     ("Description", description), ("SignatureValue", signature)]
  }

  /** The five always-present parameters, then `IsTest=1` in test mode. */
  function FixedParams(merchantLogin: string, outSum: string, invId: string, description: string,
                       signature: string, isTest: bool): (p: Dict)
    ensures |p| == 5 + (if isTest then 1 else 0)
    ensures p[..5] == [("MerchantLogin", merchantLogin), ("OutSum", outSum), ("InvId", invId),
                       ("Description", description), ("SignatureValue", signature)]
    ensures isTest ==> p[5] == ("IsTest", "1")
    ensures isTest <==> "IsTest" in Keys(p)
    ensures forall j :: 0 <= j < |p| ==> !StartsWith(p[j].0, "Shp_")
  {
    var five := FiveParams(merchantLogin, outSum, invId, description, signature);
    FixedNamesNotShp();
    var p: Dict := if isTest then five + [("IsTest", "1")] else five;
    assert p[..5] == five;
    p
  }

  /** Assigning `IsTest` to the five fixed parameters gives `FixedParams` in test mode. */
  lemma TestFlagAssignment(merchantLogin: string, outSum: string, invId: string, description: string,
                           signature: string, isTest: bool)
    ensures (if isTest then Put(FiveParams(merchantLogin, outSum, invId, description, signature), "IsTest", "1")
             else FiveParams(merchantLogin, outSum, invId, description, signature))
         == FixedParams(merchantLogin, outSum, invId, description, signature, isTest)
  {
    var five := FiveParams(merchantLogin, outSum, invId, description, signature);
    assert "IsTest" !in Keys(five);
  }

  /**
   * One `Shp_key` query parameter per Shp entry, in the dict's own order; distinct dict
   * keys stay distinct once prefixed.
   */
  function ShpParams(s: seq<Item>): (r: seq<Item>)
    ensures |r| == |s|
    ensures forall j :: 0 <= j < |s| ==> r[j] == ("Shp_" + s[j].0, s[j].1)
    ensures KeysUnique(s) ==> KeysUnique(r)
  {
    ShpPrefixInjectiveAll();
    seq(|s|, j requires 0 <= j < |s| => ("Shp_" + s[j].0, s[j].1))
  }

  /** "Shp_" + k determines k, for every pair of keys. */
  lemma ShpPrefixInjectiveAll()
    ensures forall k1: string, k2: string :: "Shp_" + k1 == "Shp_" + k2 ==> k1 == k2
  {
    forall k1: string, k2: string | "Shp_" + k1 == "Shp_" + k2 ensures k1 == k2 {
      ShpPrefixInjective(k1, k2);
    }
  }

  lemma KeysConcat(a: seq<Item>, b: seq<Item>)
    ensures Keys(a + b) == Keys(a) + Keys(b)
  {
    var c := a + b;
    forall k | k in Keys(a + b) ensures k in Keys(a) + Keys(b) {
      var i :| 0 <= i < |c| && c[i].0 == k;
      if i < |a| {
        assert a[i].0 == k;
      } else {
        assert b[i - |a|].0 == k;
      }
    }
    forall k | k in Keys(a) ensures k in Keys(c) {
      var i :| 0 <= i < |a| && a[i].0 == k;
      assert c[i].0 == k;
    }
    forall k | k in Keys(b) ensures k in Keys(c) {
      var i :| 0 <= i < |b| && b[i].0 == k;
      assert c[|a| + i].0 == k;
    }
  }

  /** A `Shp_`-prefixed key is never one of the fixed parameter names. */
  lemma ShpKeyIsNotFixed(k: string)
    ensures StartsWith("Shp_" + k, "Shp_")
    ensures "Shp_" + k !in {"MerchantLogin", "OutSum", "InvId", "Description", "SignatureValue", "IsTest"}
  {
    var s := "Shp_" + k;
    assert s[..4] == "Shp_";
    assert s[0] == 'S' && s[1] == 'h' && s[2] == 'p';
  }

  /** "Shp_" + k determines k. */
  lemma ShpPrefixInjective(k1: string, k2: string)
    ensures "Shp_" + k1 == "Shp_" + k2 ==> k1 == k2
  {
    if "Shp_" + k1 == "Shp_" + k2 {
      assert k1 == ("Shp_" + k1)[4..];
      assert k2 == ("Shp_" + k2)[4..];
    }
  }

  /** The fixed parameters followed by the first `n` Shp parameters form a dict. */
  lemma ShpParamsAfterFixed(fixed: Dict, shp: Dict, n: nat)
    requires n <= |shp|
    requires forall j :: 0 <= j < |fixed| ==> !StartsWith(fixed[j].0, "Shp_")
    ensures KeysUnique(fixed + ShpParams(shp[..n]))
  {
    var s := fixed + ShpParams(shp[..n]);
    forall i, j | 0 <= i < j < |s| ensures s[i].0 != s[j].0 {
      if j >= |fixed| {
        ShpKeyIsNotFixed(shp[j - |fixed|].0);
        if i >= |fixed| {
          ShpPrefixInjective(shp[i - |fixed|].0, shp[j - |fixed|].0);
        }
      }
    }
  }

  lemma ShpParamsSnoc(d: Dict, i: nat)
    requires i < |d|
    ensures ShpParams(d[..i + 1]) == ShpParams(d[..i]) + [("Shp_" + d[i].0, d[i].1)]
  {
  }

  /** The last key of a dict does not occur before it. */
  lemma LastKeyFresh(params: seq<Item>, x: Item)
    requires KeysUnique(params + [x])
    ensures x.0 !in Keys(params)
  {
    var next := params + [x];
    forall j | 0 <= j < |params| ensures params[j].0 != x.0 {
      assert next[j] == params[j] && next[|params|] == x;
    }
  }

  /** The query stays a dict when the next Shp parameter is appended. */
  lemma ShpParamsExtend(fixed: Dict, d: Dict, i: nat)
    requires i < |d|
    requires forall j :: 0 <= j < |fixed| ==> !StartsWith(fixed[j].0, "Shp_")
    requires KeysUnique(fixed + ShpParams(d[..i]))
    ensures KeysUnique((fixed + ShpParams(d[..i])) + [("Shp_" + d[i].0, d[i].1)])
    ensures fixed + ShpParams(d[..i + 1]) == (fixed + ShpParams(d[..i])) + [("Shp_" + d[i].0, d[i].1)]
  {
    ShpParamsAfterFixed(fixed, d, i + 1);
    ShpParamsSnoc(d, i);
    assert fixed + ShpParams(d[..i + 1]) == (fixed + ShpParams(d[..i])) + [("Shp_" + d[i].0, d[i].1)];
  }

  /** Assigning a key that is not yet present appends the entry. */
  lemma PutFreshAppends(params: Dict, x: Item)
    requires KeysUnique(params + [x])
    ensures Put(params, x.0, x.1) == params + [x]
  {
    LastKeyFresh(params, x);
  }

  /** The signing string `build_payment_url` accumulates equals the outbound signing string. */
  lemma {:induction false} InlineSigningString(merchantLogin: string, outSum: string, invId: string, password1: string, d: Dict)
    ensures |d| == 0 ==>
      (merchantLogin + ":" + outSum + ":" + invId + ":" + password1
       == SigningString(OutboundParts(merchantLogin, outSum, invId, password1), d))
    ensures |d| > 0 ==>
      (merchantLogin + ":" + outSum + ":" + invId + ":" + password1 + ":" + Join(":", ShpEntries(SortByKey(d)))
       == SigningString(OutboundParts(merchantLogin, outSum, invId, password1), d))
  {
    JoinFour(merchantLogin, outSum, invId, password1);
    if |d| > 0 {
      var block := Join(":", ShpEntries(SortByKey(d)));
      assert FormatShpPart(d) == block;
      JoinFourThen(merchantLogin, outSum, invId, password1, block);
    }
  }

  /** Four joined parts followed by ":" and a block, spelled out. */
  lemma JoinFourThen(a: string, b: string, c: string, d: string, block: string)
    ensures Join(":", [a, b, c, d]) + ":" + block == a + ":" + b + ":" + c + ":" + d + ":" + block
  {
    JoinFour(a, b, c, d);
  }

  /**
   * The first half of `build_payment_url`: the outbound signing string, built step by
   * step (the sorted Shp block appended only for a non-empty dict), and its digest.
   */
  method PaymentSignature(merchantLogin: string, password1: string, outSum: string, invId: string,
                          shp: Dict, md5Hex: string -> string)
    returns (signature: string)
    ensures signature == Digest(md5Hex, OutboundParts(merchantLogin, outSum, invId, password1), shp)
  {
    var signatureBase := merchantLogin + ":" + outSum + ":" + invId + ":" + password1;
    if |shp| > 0 {
      var sortedShp := SortByKey(shp);
      var shpParams := ShpEntries(sortedShp);
      signatureBase := signatureBase + ":" + Join(":", shpParams);
    }
    InlineSigningString(merchantLogin, outSum, invId, password1, shp);
    signature := Md5Upper(md5Hex, signatureBase);
  }

  /**
   * The closing loop of `build_payment_url`: each Shp entry, in the dict's own order,
   * is assigned to the query as `Shp_key`; none of them collides with a fixed parameter.
   */
  method AddShpParams(params: Dict, shp: Dict) returns (query: Dict)
    requires forall j :: 0 <= j < |params| ==> !StartsWith(params[j].0, "Shp_")
    ensures query == params + ShpParams(shp)
  {
    query := params;
    for i := 0 to |shp|
      invariant query == params + ShpParams(shp[..i])
    {
      assert Put(query, "Shp_" + shp[i].0, shp[i].1) == params + ShpParams(shp[..i + 1]) by {
        ShpParamsExtend(params, shp, i);
        PutFreshAppends(query, ("Shp_" + shp[i].0, shp[i].1));
      }
      query := Put(query, "Shp_" + shp[i].0, shp[i].1);
    }
    assert shp[..|shp|] == shp;
  }

  /**
   * `build_payment_url`: the signature, then the parameter dict filled key by key;
   * the result is the endpoint with that query.
   */
  method BuildPaymentUrl(merchantLogin: string, password1: string, outSum: string, invId: string,
                         description: string, shp: Option<Dict>, isTest: bool, md5Hex: string -> string)
    returns (url: PaymentUrl)
    ensures url.endpoint == BaseUrl
    ensures url.query == PaymentQuery(merchantLogin, outSum, invId, description,
                                      Digest(md5Hex, OutboundParts(merchantLogin, outSum, invId, password1), ShpOrEmpty(shp)),
                                      ShpOrEmpty(shp), isTest)
  {
    var d := ShpOrEmpty(shp);
    var signature := PaymentSignature(merchantLogin, password1, outSum, invId, d, md5Hex);
    var params := FiveParams(merchantLogin, outSum, invId, description, signature);
    if isTest {
      params := Put(params, "IsTest", "1");
    }
    assert params == FixedParams(merchantLogin, outSum, invId, description, signature, isTest) by {
      TestFlagAssignment(merchantLogin, outSum, invId, description, signature, isTest);
    }
    params := AddShpParams(params, d);
    PaymentQueryIsFixedThenShp(merchantLogin, outSum, invId, description, signature, d, isTest);
    url := PaymentUrl(BaseUrl, params);
  }

  /**
   * `verify_signature_from_result`: the inbound signing string is built as the source
   * builds it (the Shp block appended only when it is a non-empty string) and the
   * received signature, upper-cased, is compared with the expected digest.
   */
  function VerifySignatureFromResult(outSum: string, invId: string, signatureValue: string, password2: string,
                                     shp: Option<Dict>, md5Hex: string -> string): (ok: bool)
    ensures ok <==> ToUpper(signatureValue) == Digest(md5Hex, InboundParts(outSum, invId, password2), ShpOrEmpty(shp))
  {
    var d := ShpOrEmpty(shp);
    var signatureValues := [outSum, invId, password2];
    var shpPart := FormatShpPart(d);
    var values := if shpPart != "" then signatureValues + [shpPart] else signatureValues;
    JoinAppend(":", signatureValues, shpPart);
    assert Join(":", values) == SigningString(InboundParts(outSum, invId, password2), d);
    ToUpper(signatureValue) == Md5Upper(md5Hex, Join(":", values))
  }

  /**
   * Round trip: the digest of the inbound string, sent back in any letter case together
   * with the same fields, is accepted.
   */
  lemma VerifyAcceptsDigestInAnyCase(outSum: string, invId: string, password2: string, shp: Option<Dict>,
                                     md5Hex: string -> string, signatureValue: string)
    requires ToUpper(signatureValue) == ToUpper(Digest(md5Hex, InboundParts(outSum, invId, password2), ShpOrEmpty(shp)))
    ensures VerifySignatureFromResult(outSum, invId, signatureValue, password2, shp, md5Hex)
  {
  }

  /** Verification does not depend on the order the Shp fields arrived in. */
  lemma VerifyCanonical(outSum: string, invId: string, signatureValue: string, password2: string,
                        shp1: Dict, shp2: Dict, md5Hex: string -> string)
    requires ToMap(shp1) == ToMap(shp2)
    ensures VerifySignatureFromResult(outSum, invId, signatureValue, password2, Some(shp1), md5Hex)
        == VerifySignatureFromResult(outSum, invId, signatureValue, password2, Some(shp2), md5Hex)
  {
    DigestCanonical(md5Hex, InboundParts(outSum, invId, password2), shp1, shp2);
  }

  /** `shp=None` and `shp={}` are verified alike. */
  lemma VerifyNoneIsEmpty(outSum: string, invId: string, signatureValue: string, password2: string,
                          md5Hex: string -> string)
    ensures VerifySignatureFromResult(outSum, invId, signatureValue, password2, None, md5Hex)
        == VerifySignatureFromResult(outSum, invId, signatureValue, password2, Some([]), md5Hex)
  {
  }

  /** The Shp block of seeded order `1001` (app.py:18-24): `product` sorts before `user`. */
  lemma ExampleShpPart()
    ensures FormatShpPart([("user", "1"), ("product", "basic")])
         == ("Shp_" + "product" + "=" + "basic") + ":" + ("Shp_" + "user" + "=" + "1")
  {
    var sorted := [("product", "basic"), ("user", "1")];
    assert Less("product", "user");
    FormatShpPartIsSortedJoin([("user", "1"), ("product", "basic")], sorted);
    assert sorted[1..] == [("user", "1")];
    assert [("user", "1")][1..] == [];
  }

  /**
   * The outbound signing string of seeded order `1001` (app.py:18-24) under the default
   * settings, merchant login `demo` and password1 `password1` (config.py:8-9), with
   * `str(Decimal("100.00"))` being `100.00`.
   */
  lemma ExampleSigningString()
    ensures SigningString(OutboundParts("demo", "100.00", "1001", "password1"), [("user", "1"), ("product", "basic")])
         == "demo" + ":" + "100.00" + ":" + "1001" + ":" + "password1"
            + ":" + (("Shp_" + "product" + "=" + "basic") + ":" + ("Shp_" + "user" + "=" + "1"))
  {
    ExampleShpPart();
    JoinFour("demo", "100.00", "1001", "password1");
  }
}
