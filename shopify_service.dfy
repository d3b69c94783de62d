/**
 * The decisions of `src/services/shopify_service.py`: how `_request` classifies an HTTP
 * status, the `backoff` retry around it, the product payload and its tags, how each
 * endpoint wrapper picks its result out of the reply, and `_is_valid_url`.
 * The HTTP server is an oracle: `replies[i]` is what attempt `i` receives.
 */
module ShopifyService {
  import opened Base
  import opened Strings
  import opened Urls

  const ApiVersion: string := "2024-07"
  /** `backoff.on_exception(..., max_tries=4)`. */
  const MaxTries: nat := 4
  const DefaultProductType: string := "Artist Trading Card"
  const DefaultInventoryQuantity: int := 100

  /** JSON values as `response.json()` returns them. */
  datatype Json = JNull | JBool(b: bool) | JInt(i: int) | JStr(s: string) | JList(items: seq<Json>)
                | JObject(fields: map<string, Json>)

  /** Python truthiness of a decoded JSON value. */
  predicate Truthy(j: Json) {
    match j
    case JNull => false
    case JBool(b) => b
    case JInt(i) => i != 0
    case JStr(s) => s != []
    case JList(items) => items != []
    case JObject(fields) => fields != map[]
  }

  /** `d.get(key)` on a decoded object, `None` for anything absent. */
  function Get(j: Json, key: string): (v: Json)
    ensures v != JNull ==> j.JObject? && key in j.fields && v == j.fields[key]
  {
    if j.JObject? && key in j.fields then j.fields[key] else JNull
  }

  const ShopDomain: string := ".myshopify.com"
  const ApiPath: string := "/admin/api/" + ApiVersion

  /** The shop's own host, `{shop_name}.myshopify.com`. */
  function ShopHost(shopName: string): string { shopName + ShopDomain }

  /** `f"https://{shop_name}.myshopify.com/admin/api/2024-07"`. */
  function BaseUrl(shopName: string): string {
    "https://" + ShopHost(shopName) + ApiPath
  }

  /** The shop's host is the network location of its base URL. */
  lemma BaseUrlHost(shopName: string)
    requires shopName != [] && HostSafe(shopName)
    ensures IsValidUrl(BaseUrl(shopName))
    ensures Netloc(BaseUrl(shopName)) == ShopHost(shopName)
  {
    assert HostSafe(ShopDomain) by {
      forall i | 0 <= i < |ShopDomain| ensures !IsNetlocEnd(ShopDomain[i]) {
        assert ShopDomain[i] in ".myshopifycom";
      }
    }
    HostSafeConcat(shopName, ShopDomain);
    HttpsUrl(ShopHost(shopName), ApiPath);
  }

  // ---------------------------------------------------------------------------
  // _request and its retry decorator
  // ---------------------------------------------------------------------------

  /** What one HTTP exchange produced: a status with a decoded body, or an aiohttp
      client / timeout error. */
  datatype Reply = Reply(status: int, body: Json) | NetworkError

  /** What a call returned, or that it raised. */
  datatype Response = Returned(body: Option<Json>) | Raised

  datatype StatusClass = Success | ServerError | Rejected

  function Classify(status: int): (c: StatusClass)
    ensures c == Success <==> status == 200 || status == 201
    ensures c == ServerError <==> 500 <= status < 600
  {
    if status == 200 || status == 201 then Success
    else if 500 <= status < 600 then ServerError
    else Rejected
  }

  /** One attempt of `_request`: the decoded body on 200/201 (`response.json()` of a `null`
      body is `None`), a raise on 5xx or a network error, `None` for every other status. */
  function RequestOnce(r: Reply): (out: Response)
    ensures out.Raised? <==> r.NetworkError? || Classify(r.status) == ServerError
    ensures out.Returned? && out.body.Some? <==> r.Reply? && Classify(r.status) == Success && r.body != JNull
    ensures out.Returned? && out.body.Some? ==> out.body.value == r.body
  {
    match r
    case NetworkError => Raised
    case Reply(status, body) =>
      match Classify(status)
      case Success => if body == JNull then Returned(None) else Returned(Some(body))
      case ServerError => Raised
      case Rejected => Returned(None)
  }

  function ReplyAt(replies: seq<Reply>, i: nat): Reply {
    if i < |replies| then replies[i] else NetworkError
  }

  /** `_request` under its decorator: attempt `from` and the ones after it, up to four in all;
      the second component is the number of attempts made. */
  function Request(replies: seq<Reply>, from: nat): (r: (Response, nat))
    requires from < MaxTries
    ensures from < r.1 <= MaxTries
    decreases MaxTries - from
  {
    var out := RequestOnce(ReplyAt(replies, from));
    if out.Raised? && from + 1 < MaxTries then Request(replies, from + 1)
    else (out, from + 1)
  }

  /** The request raises only after four raising attempts; otherwise it returns what the
      first non-raising attempt gave, and no attempt follows it. */
  lemma {:induction false} RequestRetries(replies: seq<Reply>, from: nat)
    requires from < MaxTries
    ensures var (out, tries) := Request(replies, from);
            (forall j :: from <= j < tries - 1 ==> RequestOnce(ReplyAt(replies, j)).Raised?) &&
            (out.Raised? ==> tries == MaxTries) &&
            out == RequestOnce(ReplyAt(replies, tries - 1))
    decreases MaxTries - from
  {
    var out := RequestOnce(ReplyAt(replies, from));
    if out.Raised? && from + 1 < MaxTries {
      RequestRetries(replies, from + 1);
    }
  }

  /** A 4xx (or any non-success, non-5xx) status is not retried. */
  lemma ClientErrorNotRetried(replies: seq<Reply>)
    requires |replies| > 0 && replies[0].Reply? && Classify(replies[0].status) == Rejected
    ensures Request(replies, 0) == (Returned(None), 1)
  {
  }

  // ---------------------------------------------------------------------------
  // Endpoint wrappers
  // ---------------------------------------------------------------------------

  /** `if response: x = response.get(key); if x: return x` and `None` otherwise. */
  function Extract(response: Option<Json>, key: string): (r: Option<Json>)
    ensures r.Some? <==> response.Some? && Truthy(response.value) && Truthy(Get(response.value, key))
    ensures r.Some? ==> r.value == response.value.fields[key]
  {
    if response.Some? && Truthy(response.value) && Truthy(Get(response.value, key))
    then Some(Get(response.value, key)) else None
  }

  /** A wrapper that extracts `key` from the reply; a raise inside `_request` propagates. */
  function ExtractResponse(out: Response, key: string): (r: Response)
    ensures r.Raised? <==> out.Raised?
    ensures out.Returned? ==> r == Returned(Extract(out.body, key))
  {
    if out.Raised? then Raised else Returned(Extract(out.body, key))
  }

  /** `create_product`, `create_custom_collection` and `create_collect`: the entry the reply
      carries under their key (`product`, `custom_collection`, `collect`). */
  function CreateEntity(replies: seq<Reply>, key: string): Response {
    ExtractResponse(Request(replies, 0).0, key)
  }

  /** An entity whose `id` can be read: an object with an `id` entry. */
  predicate HasId(j: Json) { j.JObject? && "id" in j.fields }

  /** The success log line of a wrapper that reads `x['id']` of the entity it found: a
      `KeyError` (or a `TypeError` for a non-object) replaces the result when there is none. */
  function LogId(out: Response): (r: Response)
    ensures r.Raised? <==> out.Raised? || (out.body.Some? && !HasId(out.body.value))
    ensures r.Returned? ==> r == out
    ensures r.Returned? && r.body.Some? ==> HasId(r.body.value)
  {
    if out.Returned? && out.body.Some? && !HasId(out.body.value) then Raised else out
  }

  /** `create_product`, whose success log reads `product['id']`. */
  function CreateProductReply(replies: seq<Reply>): (r: Response)
    ensures r.Returned? && r.body.Some? ==> HasId(r.body.value) && Truthy(r.body.value) &&
                                            CreateEntity(replies, "product") == r
  {
    LogId(CreateEntity(replies, "product"))
  }

  /** `create_custom_collection`, whose success log reads `collection['id']`. */
  function CreateCollectionReply(replies: seq<Reply>): (r: Response)
    ensures r.Returned? && r.body.Some? ==> HasId(r.body.value) && CreateEntity(replies, "custom_collection") == r
  {
    LogId(CreateEntity(replies, "custom_collection"))
  }

  /** `create_collect`, whose log lines name only the two ids it was given. */
  function CreateCollectReply(replies: seq<Reply>): (r: Response)
    ensures r.Raised? <==> Request(replies, 0).0.Raised?
    ensures r.Returned? ==> r.body == Extract(Request(replies, 0).0.body, "collect")
  {
    CreateEntity(replies, "collect")
  }

  /** `delete_product`: true iff `_request` returned anything, even an empty object. */
  function DeleteProduct(replies: seq<Reply>): (r: Result<bool, ()>)
    ensures r.Ok? <==> Request(replies, 0).0.Returned?
    ensures r.Ok? ==> (r.value <==> Request(replies, 0).0.body.Some?)
  {
    var out := Request(replies, 0).0;
    if out.Raised? then Err(()) else Ok(out.body.Some?)
  }

  /** A 200 reply whose body is JSON `null` decodes to `None`, so the deletion is reported as
      failed although the server accepted it. */
  lemma DeleteNullBody()
    ensures DeleteProduct([Reply(200, JNull)]) == Ok(false)
    ensures DeleteProduct([Reply(204, JObject(map[]))]) == Ok(false)
  {
  }

  /** An empty JSON object counts as deleted, while create_product reports it as a failure. */
  lemma DeleteAcceptsEmptyBody()
    ensures DeleteProduct([Reply(200, JObject(map[]))]) == Ok(true)
    ensures CreateEntity([Reply(200, JObject(map[]))], "product") == Returned(None)
  {
  }

  /** The collections of a lookup reply; an entry that is not a list is read as none. */
  function CollectionsOf(body: Json): seq<Json> {
    var c := Get(body, "custom_collections");
    if c.JList? then c.items else []
  }

  /** `get_custom_collection_by_title`: the first collection of a truthy reply, or `None`; the
      success log reads `collections[0]['id']`. */
  function CollectionByTitle(replies: seq<Reply>): (r: Response)
    ensures Request(replies, 0).0.Raised? ==> r.Raised?
    ensures var out := Request(replies, 0).0;
            out.Returned? && !(out.body.Some? && Truthy(out.body.value) && CollectionsOf(out.body.value) != []) ==>
              r == Returned(None)
    ensures r.Returned? && r.body.Some? ==>
              var body := Request(replies, 0).0.body;
              body.Some? && Truthy(body.value) && CollectionsOf(body.value) != [] &&
              r.body.value == CollectionsOf(body.value)[0] && HasId(r.body.value)
  {
    var out := Request(replies, 0).0;
    if out.Raised? then Raised
    else if out.body.Some? && Truthy(out.body.value) && CollectionsOf(out.body.value) != []
    then LogId(Returned(Some(CollectionsOf(out.body.value)[0])))
    else Returned(None)
  }

  /** `f"{price:.2f}"` for a price held exactly as a number of cents. */
  function PriceText(cents: nat): (s: string)
    ensures |s| >= 4 && s[|s| - 3] == '.' && IsDigit(s[|s| - 2]) && IsDigit(s[|s| - 1])
  {
    NatToString(cents / 100) + "." + [DigitChar((cents % 100) / 10), DigitChar(cents % 10)]
  }

  /** The `product` object `create_product` posts: built, then given `tags` when there are any. */
  function ProductPayload(title: string, description: string, images: Option<seq<Json>>, vendor: string,
                          priceCents: nat, productType: string, inventoryQuantity: int,
                          tags: Option<seq<string>>): map<string, Json>
  {
    var product := map["title" := JStr(title), "body_html" := JStr(description), "vendor" := JStr(vendor),
                       "product_type" := JStr(productType),
                       "images" := JList(if images.Some? && images.value != [] then images.value else []),
                       "variants" := JList([JObject(map["price" := JStr(PriceText(priceCents)),
                                                         "inventory_management" := JStr("shopify"),
                                                         "inventory_quantity" := JInt(inventoryQuantity)])])];
    if tags.Some? && tags.value != [] then product["tags" := JStr(Join(tags.value, ","))] else product
  }

  /** The payload has a `tags` entry exactly when tags were given, and splitting it on `,` gives
      them back when no tag holds a comma; a missing image list is sent as `[]`. */
  lemma ProductPayloadTags(title: string, description: string, images: Option<seq<Json>>, vendor: string,
                           priceCents: nat, productType: string, inventoryQuantity: int,
                           tags: Option<seq<string>>)
    ensures var p := ProductPayload(title, description, images, vendor, priceCents, productType,
                                    inventoryQuantity, tags);
            ("tags" in p <==> tags.Some? && tags.value != []) &&
            (images.None? ==> p["images"] == JList([])) &&
            p["title"] == JStr(title) && p["vendor"] == JStr(vendor)
    ensures var p := ProductPayload(title, description, images, vendor, priceCents, productType,
                                    inventoryQuantity, tags);
            tags.Some? && tags.value != [] && (forall k :: 0 <= k < |tags.value| ==> ',' !in tags.value[k]) ==>
              p["tags"].JStr? && Split(p["tags"].s, ",") == tags.value
  {
    if tags.Some? && tags.value != [] && (forall k :: 0 <= k < |tags.value| ==> ',' !in tags.value[k]) {
      SplitJoin(tags.value, ',');
    }
  }

  // ---------------------------------------------------------------------------
  // _is_valid_url and upload_product_image
  // ---------------------------------------------------------------------------

  /** `_is_valid_url` as written: `all([...]).env` reads an attribute of a `bool`, so every call
      raises `AttributeError`. */
  function IsValidUrlAsWritten(url: string): (r: Result<bool, string>)
    ensures r.Err?
  {
    var _ := IsValidUrl(url);
    Err("AttributeError: 'bool' object has no attribute 'env'")
  }

  /** The body of `upload_product_image`, given what the URL test produced: a raise propagates,
      an invalid URL gives `None` without a request, and a valid one posts the image and returns
      the reply's `image` entry, whose `id` the success log reads. */
  function UploadWith(test: Result<bool, string>, replies: seq<Reply>): (r: Response)
    ensures test.Err? ==> r == Raised
    ensures test.Ok? && !test.value ==> r == Returned(None)
    ensures test.Ok? && test.value ==> r == LogId(ExtractResponse(Request(replies, 0).0, "image"))
  {
    match test
    case Err(_) => Raised
    case Ok(valid) => if !valid then Returned(None) else LogId(ExtractResponse(Request(replies, 0).0, "image"))
  }

  /** `upload_product_image` as written. */
  function UploadProductImageAsWritten(url: string, replies: seq<Reply>): Response {
    UploadWith(IsValidUrlAsWritten(url), replies)
  }

  /** Even a well-formed image URL makes the upload raise. */
  lemma UploadAlwaysRaisesAsWritten(url: string, replies: seq<Reply>)
    ensures UploadProductImageAsWritten(url, replies) == Raised
  {
  }

  /** `_is_valid_url` as intended: `all([parsed.scheme, parsed.netloc])`. */
  function IsValidUrlCorrected(url: string): (r: Result<bool, string>)
    ensures r.Ok? && (r.value <==> Scheme(url) != [] && Netloc(url) != [])
  {
    Ok(IsValidUrl(url))
  }

  /** `upload_product_image` with the corrected test. */
  function UploadProductImage(url: string, replies: seq<Reply>): (r: Response)
    ensures !IsValidUrl(url) ==> r == Returned(None)
    ensures IsValidUrl(url) ==> r == LogId(ExtractResponse(Request(replies, 0).0, "image"))
  {
    UploadWith(IsValidUrlCorrected(url), replies)
  }

  /** With the corrected test, a valid URL and a 201 reply carrying the image upload it. */
  lemma UploadSucceedsCorrected(host: string, path: string, image: Json)
    requires host != [] && HostSafe(host)
    requires path == [] || path[0] == '/'
    requires HasId(image)
    ensures UploadProductImage("https://" + host + path,
                               [Reply(201, JObject(map["image" := image]))]) == Returned(Some(image))
  {
    HttpsUrl(host, path);
    var body := JObject(map["image" := image]);
    assert "image" in body.fields;
    assert Get(body, "image") == image;
    assert Truthy(image) by {
      assert "id" in image.fields;
    }
    assert Request([Reply(201, body)], 0) == (Returned(Some(body)), 1);
  }
}
