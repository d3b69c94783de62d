/**
 * `src/handlers/product_handler.py`: the short-circuit chain of `add_product_to_shopify`
 * (create the product, resolve the image URL, attach the image, find or create the
 * artist's collection, associate the product with it) and the product URL.
 * Every service call is recorded in a call list; each service's reply is an oracle.
 * The image upload is a parameter so that the chain can be run both with the
 * `upload_product_image` the service has and with the corrected one.
 */
module ProductHandler {
  import opened Base
  import opened Strings
  import opened Urls
  import BackblazeHandler
  import opened ShopifyService

  /** The entries `add_product_to_shopify` reads from `product_data`; `price` is
      `variants[0]["price"]`, held exactly in cents. */
  datatype ProductData = ProductData(title: Option<string>, bodyHtml: Option<string>, vendor: Option<string>,
                                     priceCents: Option<nat>, productType: Option<string>,
                                     inventoryQuantity: Option<int>, tags: Option<seq<string>>,
                                     imageUrl: Option<string>)

  /** The calls the handler makes on Shopify and Backblaze, in the order of the chain. */
  datatype Call =
    | CreateProduct(payload: map<string, Json>)
    | ResolveImageKey(key: string)
    | UploadImage(productId: Json, url: string)
    | FindCollection(title: string)
    | CreateCollection(title: string)
    | Associate(productId: Json, collectionId: Json)

  function Rank(c: Call): nat {
    match c
    case CreateProduct(_) => 0
    case ResolveImageKey(_) => 1
    case UploadImage(_, _) => 2
    case FindCollection(_) => 3
    case CreateCollection(_) => 4
    case Associate(_, _) => 5
  }

  /** Each kind of call happens at most once, and in the order of the chain. */
  predicate InChainOrder(calls: seq<Call>) {
    forall i, j :: 0 <= i < j < |calls| ==> Rank(calls[i]) < Rank(calls[j])
  }

  /** Two ordered call lists, the second wholly after the first, make an ordered list. */
  lemma ConcatInChainOrder(a: seq<Call>, b: seq<Call>)
    requires InChainOrder(a) && InChainOrder(b)
    requires forall x, y :: x in a && y in b ==> Rank(x) < Rank(y)
    ensures InChainOrder(a + b)
  {
    forall i, j | 0 <= i < j < |a + b| ensures Rank((a + b)[i]) < Rank((a + b)[j]) {
      if j < |a| {
        assert (a + b)[i] == a[i] && (a + b)[j] == a[j];
      } else if i >= |a| {
        assert (a + b)[i] == b[i - |a|] && (a + b)[j] == b[j - |a|];
      } else {
        assert (a + b)[i] in a && (a + b)[j] in b;
      }
    }
  }

  /** What the two services answer during one run of the chain. */
  datatype Services = Services(storage: BackblazeHandler.Handler, baseUrl: string,
                               create: seq<Reply>, head: BackblazeHandler.HeadAnswer, upload: seq<Reply>,
                               lookup: seq<Reply>, createCollection: seq<Reply>, collect: seq<Reply>)

  /** `d[key]` on a decoded object: the value, or the `KeyError` / `TypeError` it raises. */
  function Index(j: Json, key: string): (r: Result<Json, ()>)
    ensures r.Ok? <==> j.JObject? && key in j.fields
    ensures r.Ok? ==> r.value == j.fields[key]
  {
    if j.JObject? && key in j.fields then Ok(j.fields[key]) else Err(())
  }

  /** Python's `str()` of a decoded scalar, as an f-string renders it; lists and objects render
      as the empty string here. */
  function Render(j: Json): string {
    match j
    case JNull => "None"
    case JBool(b) => if b then "True" else "False"
    case JInt(i) => IntToString(i)
    case JStr(s) => s
    case JList(_) => ""
    case JObject(_) => ""
  }

  // ---------------------------------------------------------------------------
  // The steps
  // ---------------------------------------------------------------------------

  /** `_create_shopify_product`: a missing required entry raises `KeyError` before any call;
      otherwise one `create_product` call. Its raises (a product without an `id` among them)
      are swallowed into `None`. */
  function CreateShopifyProduct(data: ProductData, create: seq<Reply>): (r: (Option<Json>, seq<Call>))
    ensures r.1 == [] <==>
            data.title.None? || data.bodyHtml.None? || data.vendor.None? || data.priceCents.None?
    ensures r.1 != [] ==> |r.1| == 1 && r.1[0].CreateProduct? && "title" in r.1[0].payload &&
                          r.1[0].payload["title"] == JStr(data.title.value)
    ensures r.0.Some? ==> r.1 != [] && Truthy(r.0.value) && Index(r.0.value, "id").Ok? &&
                          CreateEntity(create, "product") == Returned(r.0)
  {
    if data.title.None? || data.bodyHtml.None? || data.vendor.None? || data.priceCents.None? then (None, [])
    else
      var payload := ProductPayload(data.title.value, data.bodyHtml.value, Some([]), data.vendor.value,
                                    data.priceCents.value, GetOr(data.productType, DefaultProductType),
                                    GetOr(data.inventoryQuantity, DefaultInventoryQuantity),
                                    Some(GetOr(data.tags, [])));
      ProductPayloadTags(data.title.value, data.bodyHtml.value, Some([]), data.vendor.value,
                         data.priceCents.value, GetOr(data.productType, DefaultProductType),
                         GetOr(data.inventoryQuantity, DefaultInventoryQuantity), Some(GetOr(data.tags, [])));
      var out := CreateProductReply(create);
      (if out.Raised? then None else out.body, [CreateProduct(payload)])
  }

  /** `_get_image_url`: nothing for an empty key, the input itself for a valid URL, and
      otherwise the Backblaze URL of the key (a failed lookup is swallowed into `None`). */
  function GetImageUrl(storage: BackblazeHandler.Handler, key: Option<string>,
                       head: BackblazeHandler.HeadAnswer): (r: (Option<string>, seq<Call>))
    ensures key.None? || key.value == [] ==> r == (None, [])
    ensures key.Some? && IsValidUrl(key.value) ==> r == (key, [])
    ensures key.Some? && key.value != [] && !IsValidUrl(key.value) ==>
              r.1 == [ResolveImageKey(key.value)] &&
              (r.0.Some? <==> head == BackblazeHandler.Found) &&
              (r.0.Some? ==> r.0.value == BackblazeHandler.PublicUrl(storage, key.value))
  {
    if key.None? || key.value == [] then (None, [])
    else if IsValidUrl(key.value) then (key, [])
    else
      var (url, _) := BackblazeHandler.GetFileUrl(storage, key.value, head);
      (if url.Some? && url.value != [] then url else None, [ResolveImageKey(key.value)])
  }

  /** `_upload_image_to_shopify`: the uploaded image when the service returns one; a raise or
      a falsy answer becomes `None`. */
  function UploadImageToShopify(answer: Response): (r: Option<Json>)
    ensures r.Some? <==> answer.Returned? && answer.body.Some? && Truthy(answer.body.value)
  {
    if answer.Returned? && answer.body.Some? && Truthy(answer.body.value) then answer.body else None
  }

  /** `f"Artist-{username}"`. */
  function CollectionTitle(username: string): (t: string)
    ensures StartsWith(t, "Artist-") && t[7..] == username
  {
    "Artist-" + username
  }

  /** `_get_or_create_collection`: the collection found by title, else a newly created one;
      create is called only when the lookup finds none. Reading the `id` of the collection
      for the log line raises for a collection without one, and any raise becomes `None`. */
  function GetOrCreateCollection(title: string, lookup: seq<Reply>, createCollection: seq<Reply>)
    : (r: (Option<Json>, seq<Call>))
    ensures |r.1| >= 1 && r.1[0] == FindCollection(title)
    ensures var found := CollectionByTitle(lookup);
            found.Returned? && found.body.Some? ==> r == (found.body, [FindCollection(title)])
    ensures CollectionByTitle(lookup).Raised? ==> r == (None, [FindCollection(title)])
    ensures r.0.Some? ==> Index(r.0.value, "id").Ok?
    ensures |r.1| <= 2 && (|r.1| == 2 ==> r.1[1] == CreateCollection(title))
  {
    var found := CollectionByTitle(lookup);
    if found.Raised? then (None, [FindCollection(title)])
    else if found.body.Some? then (found.body, [FindCollection(title)])
    else
      var created := CreateCollectionReply(createCollection);
      var calls := [FindCollection(title), CreateCollection(title)];
      if created.Returned? && created.body.Some? then (created.body, calls) else (None, calls)
  }

  /** `_add_product_to_collection`: true iff the service returns a `collect`. */
  function AddProductToCollection(collect: seq<Reply>): (ok: bool)
    ensures ok <==> CreateCollectReply(collect).Returned? && CreateCollectReply(collect).body.Some?
  {
    var out := CreateCollectReply(collect);
    out.Returned? && out.body.Some?
  }

  /** `base_url.split('//')[1].split('/')[0]`, or the `IndexError` of a URL without `//`. */
  function HostOf(baseUrl: string): (r: Result<string, ()>)
    ensures r.Ok? <==> |Split(baseUrl, "//")| >= 2
  {
    var parts := Split(baseUrl, "//");
    if |parts| < 2 then Err(()) else Ok(Split(parts[1], "/")[0])
  }

  /** `_construct_product_url`. */
  function ConstructProductUrl(baseUrl: string, handle: string): (r: Result<string, ()>)
    ensures r.Ok? <==> HostOf(baseUrl).Ok?
    ensures r.Ok? ==> r.value == "https://" + HostOf(baseUrl).value + "/products/" + handle
  {
    var host := HostOf(baseUrl);
    if host.Err? then Err(()) else Ok("https://" + host.value + "/products/" + handle)
  }

  /** The myshopify host of a shop holds no `/`. */
  lemma ShopHostNoSlash(shopName: string)
    requires forall i :: 0 <= i < |shopName| ==> shopName[i] != '/'
    ensures '/' !in ShopHost(shopName)
  {
    var host := ShopHost(shopName);
    forall i | 0 <= i < |host| ensures host[i] != '/' {
      if i >= |shopName| {
        assert host[i] == ShopDomain[i - |shopName|];
      }
    }
  }

  /** The API path never holds two slashes in a row. */
  lemma ApiPathNoDoubleSlash(j: nat)
    requires j + 1 < |ApiPath|
    ensures ApiPath[j] != '/' || ApiPath[j + 1] != '/'
  {
  }

  /** Splitting the base URL on `//` cuts off the scheme and nothing else. */
  lemma SplitBaseUrl(host: string)
    requires '/' !in host
    ensures Split("https://" + host + ApiPath, "//") == ["https:", host + ApiPath]
  {
    var rest := host + ApiPath;
    var url := "https:" + "//" + rest;
    assert "https://" + host + ApiPath == url;
    forall i | 0 <= i < 6 ensures !StartsWith(url[i..], "//") {
      assert url[i..][0] == "https:"[i];
    }
    SplitAtFirst("https:", "//", rest);
    assert NoOccurrence(rest, "//") by {
      forall i | 0 <= i < |rest| ensures !StartsWith(rest[i..], "//") {
        if i + 1 < |rest| {
          assert rest[i..][..2] == [rest[i], rest[i + 1]];
          if i < |host| {
            assert rest[i] == host[i];
            assert host[i] in host;
          } else {
            var j := i - |host|;
            assert rest[i] == ApiPath[j] && rest[i + 1] == ApiPath[j + 1];
            ApiPathNoDoubleSlash(j);
          }
        }
      }
    }
    SplitNoOccurrence(rest, "//");
    assert Split(url, "//") == ["https:"] + [rest];
  }

  /** For the service's own base URL the host is the shop's myshopify domain, so the product
      URL names the product's handle on the shop. */
  lemma ProductUrlOfShop(shopName: string, handle: string)
    requires forall i :: 0 <= i < |shopName| ==> shopName[i] != '/'
    ensures ConstructProductUrl(BaseUrl(shopName), handle) ==
            Ok("https://" + ShopHost(shopName) + "/products/" + handle)
  {
    var host := ShopHost(shopName);
    ShopHostNoSlash(shopName);
    SplitBaseUrl(host);
    var path := ApiPath[1..];
    assert ApiPath == ['/'] + path;
    assert host + ApiPath == host + ['/'] + path;
    SplitAt(host, path, '/');
    assert HostOf(BaseUrl(shopName)) == Ok(host);
  }

  // ---------------------------------------------------------------------------
  // add_product_to_shopify
  // ---------------------------------------------------------------------------

  /** What `add_product_to_shopify` returns. */
  datatype Added = Added(product: Json, productUrl: string)

  predicate RanksFrom(calls: seq<Call>, k: nat) {
    InChainOrder(calls) && forall c :: c in calls ==> Rank(c) >= k
  }

  /** Prepending calls of lower rank keeps the chain order. */
  lemma Prepend(a: seq<Call>, b: seq<Call>, k: nat, m: nat)
    requires RanksFrom(a, k) && RanksFrom(b, m) && k <= m
    requires forall c :: c in a ==> Rank(c) < m
    ensures RanksFrom(a + b, k)
  {
    ConcatInChainOrder(a, b);
    forall c | c in a + b ensures Rank(c) >= k {
      assert c in a || c in b;
    }
  }

  /** The last step: the product's `handle` and `title` are read (a `KeyError` escapes) and the
      URL is built. */
  function Finish(product: Json, env: Services): (r: Result<Option<Added>, ()>) {
    if Index(product, "handle").Err? || Index(product, "title").Err? then Err(())
    else
      var url := ConstructProductUrl(env.baseUrl, Render(Index(product, "handle").value));
      if url.Err? then Err(()) else Ok(Some(Added(product, url.value)))
  }

  /** The association step and what follows it. */
  function AfterCollection(product: Json, id: Json, collection: Json, env: Services)
    : (r: (Result<Option<Added>, ()>, seq<Call>))
    requires Index(collection, "id").Ok?
    ensures RanksFrom(r.1, 5)
  {
    var calls := [Associate(id, Index(collection, "id").value)];
    if !AddProductToCollection(env.collect) then (Ok(None), calls) else (Finish(product, env), calls)
  }

  /** The collection step and what follows it. */
  function AfterUpload(product: Json, id: Json, username: string, env: Services)
    : (r: (Result<Option<Added>, ()>, seq<Call>))
    ensures RanksFrom(r.1, 3)
  {
    var (collection, calls) := GetOrCreateCollection(CollectionTitle(username), env.lookup, env.createCollection);
    assert RanksFrom(calls, 3);
    if collection.None? then (Ok(None), calls)
    else
      var (r, rest) := AfterCollection(product, id, collection.value, env);
      Prepend(calls, rest, 3, 5);
      (r, calls + rest)
  }

  /** The image-attachment step and what follows it. */
  function AfterImage(product: Json, id: Json, imageUrl: string, username: string, env: Services,
                      upload: (string, seq<Reply>) -> Response): (r: (Result<Option<Added>, ()>, seq<Call>))
    ensures RanksFrom(r.1, 2)
  {
    var calls := [UploadImage(id, imageUrl)];
    if UploadImageToShopify(upload(imageUrl, env.upload)).None? then (Ok(None), calls)
    else
      var (r, rest) := AfterUpload(product, id, username, env);
      Prepend(calls, rest, 2, 3);
      (r, calls + rest)
  }

  /** The chain after a product exists: the product's `id` is read (a `KeyError` escapes the
      method, which has no handler of its own) and every failed step returns `None`. */
  function AfterCreate(product: Json, data: ProductData, username: string, env: Services,
                       upload: (string, seq<Reply>) -> Response): (r: (Result<Option<Added>, ()>, seq<Call>))
    ensures RanksFrom(r.1, 1)
  {
    var (imageUrl, calls) := GetImageUrl(env.storage, data.imageUrl, env.head);
    assert RanksFrom(calls, 1);
    if imageUrl.None? then (Ok(None), calls)
    else if Index(product, "id").Err? then (Err(()), calls)
    else
      var (r, rest) := AfterImage(product, Index(product, "id").value, imageUrl.value, username, env, upload);
      Prepend(calls, rest, 1, 2);
      (r, calls + rest)
  }

  /** `add_product_to_shopify`: `Ok(None)` on the first failed step, `Err` for an exception
      that escapes it, and the product with its URL when every step succeeds. Without a
      `title` entry, `_create_shopify_product`'s own error log reads `product_data['title']`
      and raises `KeyError` again, out of the handler. */
  function AddProductToShopify(data: ProductData, username: string, env: Services,
                               upload: (string, seq<Reply>) -> Response): (r: (Result<Option<Added>, ()>, seq<Call>))
    ensures InChainOrder(r.1)
  {
    var (product, createCalls) := CreateShopifyProduct(data, env.create);
    if data.title.None? then (Err(()), [])
    else if product.None? then (Ok(None), createCalls)
    else
      var (result, rest) := AfterCreate(product.value, data, username, env, upload);
      Prepend(createCalls, rest, 0, 1);
      (result, createCalls + rest)
  }

  /** The chain stops at the first failing step: without a title the handler raises before any
      call, and when creation fails nothing else is called. */
  lemma ChainStopsAtCreate(data: ProductData, username: string, env: Services,
                           upload: (string, seq<Reply>) -> Response)
    ensures var (r, calls) := AddProductToShopify(data, username, env, upload);
            (data.title.None? ==> r == Err(()) && calls == []) &&
            (data.title.Some? && CreateShopifyProduct(data, env.create).0.None? ==>
               r == Ok(None) && forall c :: c in calls ==> c.CreateProduct?)
  {
  }

  /** Calls that stop at rank `k`: no step after the one of rank `k` is called. */
  predicate RanksAtMost(calls: seq<Call>, k: int) {
    forall c :: c in calls ==> Rank(c) <= k
  }

  /** Joining calls that stop at rank `k`, with at least one call in the second part whose last
      call is an association, keeps both facts. */
  lemma ConcatStops(a: seq<Call>, b: seq<Call>, k: int)
    ensures RanksAtMost(a, k) && RanksAtMost(b, k) ==> RanksAtMost(a + b, k)
    ensures b != [] && b[|b| - 1].Associate? ==> (a + b)[|a + b| - 1].Associate?
  {
    if RanksAtMost(a, k) && RanksAtMost(b, k) {
      forall c | c in a + b ensures Rank(c) <= k {
        assert c in a || c in b;
      }
    }
  }

  /** The collection step stops the chain when no collection is found or made, and the
      association is the last call whether or not it succeeds. */
  lemma AfterUploadStops(p: Json, id: Json, username: string, env: Services)
    ensures var (r, calls) := AfterUpload(p, id, username, env);
            var collection := GetOrCreateCollection(CollectionTitle(username), env.lookup, env.createCollection).0;
            (collection.None? ==> r == Ok(None) && RanksAtMost(calls, 4)) &&
            (collection.Some? && !AddProductToCollection(env.collect) ==>
               r == Ok(None) && calls != [] && calls[|calls| - 1].Associate?)
  {
    var (collection, collectionCalls) := GetOrCreateCollection(CollectionTitle(username), env.lookup, env.createCollection);
    if collection.None? {
      forall c | c in collectionCalls ensures Rank(c) <= 4 {
        assert c == collectionCalls[0] || c == collectionCalls[1];
      }
    } else {
      var rest := AfterCollection(p, id, collection.value, env).1;
      ConcatStops(collectionCalls, rest, 5);
    }
  }

  /** The upload step stops the chain when the upload gives no image, and otherwise hands on to
      the collection step. */
  lemma AfterImageStops(p: Json, id: Json, imageUrl: string, username: string, env: Services,
                        upload: (string, seq<Reply>) -> Response)
    ensures var (r, calls) := AfterImage(p, id, imageUrl, username, env, upload);
            var collection := GetOrCreateCollection(CollectionTitle(username), env.lookup, env.createCollection).0;
            var uploaded := UploadImageToShopify(upload(imageUrl, env.upload));
            (uploaded.None? ==> r == Ok(None) && RanksAtMost(calls, 2)) &&
            (uploaded.Some? && collection.None? ==> r == Ok(None) && RanksAtMost(calls, 4)) &&
            (uploaded.Some? && collection.Some? && !AddProductToCollection(env.collect) ==>
               r == Ok(None) && calls != [] && calls[|calls| - 1].Associate?)
  {
    if UploadImageToShopify(upload(imageUrl, env.upload)).Some? {
      AfterUploadStops(p, id, username, env);
      ConcatStops([UploadImage(id, imageUrl)], AfterUpload(p, id, username, env).1, 4);
    }
  }

  /** After creation, the image-URL step stops the chain when it finds no URL, and a product
      without an `id` raises before the upload. */
  lemma AfterCreateStops(p: Json, data: ProductData, username: string, env: Services,
                         upload: (string, seq<Reply>) -> Response)
    ensures var (r, calls) := AfterCreate(p, data, username, env, upload);
            var imageUrl := GetImageUrl(env.storage, data.imageUrl, env.head).0;
            (imageUrl.None? ==> r == Ok(None) && RanksAtMost(calls, 1)) &&
            (imageUrl.Some? && Index(p, "id").Err? ==> r == Err(()) && RanksAtMost(calls, 1)) &&
            (imageUrl.Some? && Index(p, "id").Ok? ==>
               var uploaded := UploadImageToShopify(upload(imageUrl.value, env.upload));
               var collection := GetOrCreateCollection(CollectionTitle(username), env.lookup, env.createCollection).0;
               (uploaded.None? ==> r == Ok(None) && RanksAtMost(calls, 2)) &&
               (uploaded.Some? && collection.None? ==> r == Ok(None) && RanksAtMost(calls, 4)) &&
               (uploaded.Some? && collection.Some? && !AddProductToCollection(env.collect) ==>
                  r == Ok(None) && calls != [] && calls[|calls| - 1].Associate?))
  {
    var (imageUrl, resolveCalls) := GetImageUrl(env.storage, data.imageUrl, env.head);
    if imageUrl.Some? && Index(p, "id").Ok? {
      var id := Index(p, "id").value;
      AfterImageStops(p, id, imageUrl.value, username, env, upload);
      var rest := AfterImage(p, id, imageUrl.value, username, env, upload).1;
      ConcatStops(resolveCalls, rest, 2);
      ConcatStops(resolveCalls, rest, 4);
    }
  }

  /** Once the product exists, every later failing step ends the chain with `None` and no step
      after it runs: no image URL (rank 1), a failed image upload (rank 2), no collection found
      or made (rank 4), or a failed association (rank 5, the last call). A product without an
      `id` raises `KeyError` out of the method before the upload. */
  lemma ChainStopsAtFirstFailure(data: ProductData, username: string, env: Services,
                                 upload: (string, seq<Reply>) -> Response)
    ensures var (r, calls) := AddProductToShopify(data, username, env, upload);
            var product := CreateShopifyProduct(data, env.create).0;
            var imageUrl := GetImageUrl(env.storage, data.imageUrl, env.head).0;
            data.title.Some? && product.Some? ==>
              (imageUrl.None? ==> r == Ok(None) && RanksAtMost(calls, 1)) &&
              (imageUrl.Some? && Index(product.value, "id").Err? ==> r == Err(()) && RanksAtMost(calls, 1)) &&
              (imageUrl.Some? && Index(product.value, "id").Ok? ==>
                 var uploaded := UploadImageToShopify(upload(imageUrl.value, env.upload));
                 var collection := GetOrCreateCollection(CollectionTitle(username), env.lookup, env.createCollection).0;
                 (uploaded.None? ==> r == Ok(None) && RanksAtMost(calls, 2)) &&
                 (uploaded.Some? && collection.None? ==> r == Ok(None) && RanksAtMost(calls, 4)) &&
                 (uploaded.Some? && collection.Some? && !AddProductToCollection(env.collect) ==>
                    r == Ok(None) && calls[|calls| - 1].Associate?))
  {
    var (product, createCalls) := CreateShopifyProduct(data, env.create);
    if data.title.Some? && product.Some? {
      var p := product.value;
      AfterCreateStops(p, data, username, env, upload);
      var rest := AfterCreate(p, data, username, env, upload).1;
      assert RanksAtMost(createCalls, 0) by {
        forall c | c in createCalls ensures Rank(c) <= 0 {
          assert c == createCalls[0];
        }
      }
      ConcatStops(createCalls, rest, 1);
      ConcatStops(createCalls, rest, 2);
      ConcatStops(createCalls, rest, 4);
    }
  }

  /** Success needs every step: the product was created, the image attached, a collection with
      an id found or made, and the association made; the URL is built from the handle. */
  lemma SuccessNeedsEveryStep(data: ProductData, username: string, env: Services,
                              upload: (string, seq<Reply>) -> Response)
    requires AddProductToShopify(data, username, env, upload).0 .Ok?
    requires AddProductToShopify(data, username, env, upload).0 .value.Some?
    ensures var (r, calls) := AddProductToShopify(data, username, env, upload);
            var added := r.value.value;
            CreateShopifyProduct(data, env.create).0 == Some(added.product) &&
            GetImageUrl(env.storage, data.imageUrl, env.head).0.Some? &&
            UploadImageToShopify(upload(GetImageUrl(env.storage, data.imageUrl, env.head).0.value, env.upload)).Some? &&
            GetOrCreateCollection(CollectionTitle(username), env.lookup, env.createCollection).0.Some? &&
            AddProductToCollection(env.collect) &&
            |calls| >= 4 && calls[0].CreateProduct? && calls[|calls| - 1].Associate? &&
            Index(added.product, "handle").Ok? &&
            ConstructProductUrl(env.baseUrl, Render(Index(added.product, "handle").value)) == Ok(added.productUrl)
  {
    var (product, createCalls) := CreateShopifyProduct(data, env.create);
    assert product.Some?;
    var p := product.value;
    var (imageUrl, resolveCalls) := GetImageUrl(env.storage, data.imageUrl, env.head);
    var afterCreate := AfterCreate(p, data, username, env, upload);
    assert imageUrl.Some? && Index(p, "id").Ok?;
    var id := Index(p, "id").value;
    var afterImage := AfterImage(p, id, imageUrl.value, username, env, upload);
    assert afterCreate == (afterImage.0, resolveCalls + afterImage.1);
    assert UploadImageToShopify(upload(imageUrl.value, env.upload)).Some?;
    var afterUpload := AfterUpload(p, id, username, env);
    assert afterImage == (afterUpload.0, [UploadImage(id, imageUrl.value)] + afterUpload.1);
    var (collection, collectionCalls) := GetOrCreateCollection(CollectionTitle(username), env.lookup, env.createCollection);
    assert collection.Some?;
    var afterCollection := AfterCollection(p, id, collection.value, env);
    assert afterUpload == (afterCollection.0, collectionCalls + afterCollection.1);
    assert AddProductToCollection(env.collect);
    assert afterCollection.1 == [Associate(id, Index(collection.value, "id").value)];
    var calls := createCalls + (resolveCalls + ([UploadImage(id, imageUrl.value)] + (collectionCalls + afterCollection.1)));
    assert AddProductToShopify(data, username, env, upload) == (afterCollection.0, calls);
    assert calls[0] == createCalls[0];
    assert calls[|calls| - 1] == afterCollection.1[0];
  }

  /** With the service's `upload_product_image` as written, no product is ever added: the chain
      always ends no later than the image step, after the product was already created. */
  lemma AsWrittenNeverAdds(data: ProductData, username: string, env: Services)
    ensures var (r, calls) := AddProductToShopify(data, username, env, UploadProductImageAsWritten);
            (r.Ok? ==> r.value.None?) &&
            forall c :: c in calls ==> Rank(c) <= 2
  {
    var (product, createCalls) := CreateShopifyProduct(data, env.create);
    if product.Some? {
      AsWrittenStopsAtUpload(product.value, data, username, env);
      var rest := AfterCreate(product.value, data, username, env, UploadProductImageAsWritten).1;
      forall c | c in createCalls + rest ensures Rank(c) <= 2 {
        if c in createCalls {
          assert c == createCalls[0];
        }
      }
    }
  }

  /** Once the product exists, the as-written chain stops at the image upload. */
  lemma AsWrittenStopsAtUpload(p: Json, data: ProductData, username: string, env: Services)
    ensures var (r, calls) := AfterCreate(p, data, username, env, UploadProductImageAsWritten);
            (r.Ok? ==> r.value.None?) &&
            forall c :: c in calls ==> Rank(c) <= 2
  {
    var (imageUrl, resolveCalls) := GetImageUrl(env.storage, data.imageUrl, env.head);
    if imageUrl.Some? && Index(p, "id").Ok? {
      var id := Index(p, "id").value;
      UploadAlwaysRaisesAsWritten(imageUrl.value, env.upload);
      assert AfterImage(p, id, imageUrl.value, username, env, UploadProductImageAsWritten) ==
             (Ok(None), [UploadImage(id, imageUrl.value)]);
    }
  }

}
