/**
 * `src/cogs/image_product_command.py`, the credit-gated pipeline: the `/dream` command
 * (credit check, deduction, cache insertion, enqueue), one cycle of each consumer loop
 * (image generation feeding the product queue; product creation, which always drops the
 * cached interaction), the periodic sweep and the product-title builder.
 *
 * Each operation is one atomic step. Its effect on the ledger, the cache and the two queues is
 * a step function on a `Pipeline` value; the class's methods are proved to perform exactly
 * that step, and the lemmas state what the steps promise. External results (Redis faults,
 * the generator's answer, the download, Discord's and Shopify's answers) are parameters.
 */
module ImageProductCog {
  import opened Base
  import opened Strings
  import opened InMemoryQueue
  import opened CreditLedger
  import opened Interactions
  import BackblazeHandler
  import Urls
  import opened ShopifyService
  import opened ProductHandler

  const ImageQueueSize: nat := 50
  const ProductQueueSize: nat := 100
  /** `"price": "6.99"`, in cents. */
  const PriceCents: nat := 699
  const TitleWords: nat := 8
  const TitleSuffix: string := " Artist Trading Card (ATC) by "
  /** The first line of `_get_product_description`. */
  const ProductDescription: string := "Artist Trading Card (ATC) - 2.5 x 3.5 inches"
  /** `upload_image`'s default ACL. */
  const PublicRead: string := "public-read"

  /** The slash command as Discord delivers it; `now` is `datetime.utcnow()` at that moment. */
  datatype Invocation = Invocation(id: int, userId: int, username: string, channelId: int,
                                   guildId: Option<int>, now: int, prompt: string)

  /** The items of the two queues. */
  datatype ImageJob = ImageJob(interactionId: int, prompt: string)
  datatype ProductJob = ProductJob(interactionId: int, data: ProductData, username: string)

  /** The state one step changes. */
  datatype Pipeline = Pipeline(credits: map<int, int>, cache: map<int, Cached>,
                               images: QueueState<ImageJob>, products: QueueState<ProductJob>)

  /** The ephemeral messages `/dream` sends back, in order. */
  datatype Notice = NotEnoughCredits | DeductFailed | Deducted(remaining: int) | Queued | TooBusy

  /** What Redis does during one `/dream`: faults of the balance read, the WATCH conflicts
      and reachability of the deduction, and faults of the second read. */
  datatype LedgerAnswers = LedgerAnswers(readFaults: seq<bool>, conflicts: seq<int>, reachable: bool,
                                         remainingFaults: seq<bool>)

  /** `CachedInteraction(...)` for an invocation. */
  function CachedOf(inv: Invocation): (c: Cached)
    ensures c.prompt == Some(inv.prompt) && c.timestamp == inv.now && c.userId == inv.userId
  {
    Cached(inv.channelId, inv.userId, inv.username, inv.guildId, inv.now, Some(inv.prompt), None)
  }

  /** `deduct_credit(user_id, 1)`, which answers `False` when the store cannot be reached. */
  function Deduct(credits: map<int, int>, u: int, a: LedgerAnswers): (map<int, int>, bool) {
    if a.reachable then Withdraw(credits, u, 1, a.conflicts) else (credits, false)
  }

  /** `generate_product` as written: deduct, then cache, then enqueue. */
  function OnGenerate(p: Pipeline, inv: Invocation, a: LedgerAnswers): (Pipeline, seq<Notice>) {
    if CreditsRead(p.credits, inv.userId, a.readFaults) < 1 then (p, [NotEnoughCredits])
    else
      var (debited, ok) := Deduct(p.credits, inv.userId, a);
      if !ok then (p.(credits := debited), [DeductFailed])
      else
        var remaining := CreditsRead(debited, inv.userId, a.remainingFaults);
        var (images, err) := OnEnqueue(p.images, ImageJob(inv.id, inv.prompt));
        (Pipeline(debited, p.cache[inv.id := CachedOf(inv)], images, p.products),
         [Deducted(remaining), if err.None? then Queued else TooBusy])
  }

  /** Whether the image queue would take one more item. */
  predicate HasRoom<T>(q: QueueState<T>) { !q.closed && |q.items| < q.maxSize }

  /** `generate_product` with the capacity check moved before the deduction, so that a request
      the queue refuses costs nothing. */
  function OnGenerateChecked(p: Pipeline, inv: Invocation, a: LedgerAnswers): (Pipeline, seq<Notice>) {
    if CreditsRead(p.credits, inv.userId, a.readFaults) < 1 then (p, [NotEnoughCredits])
    else if !HasRoom(p.images) then (p, [TooBusy])
    else OnGenerate(p, inv, a)
  }

  /** Without a credit the request is refused before anything changes. */
  lemma GenerateNeedsCredit(p: Pipeline, inv: Invocation, a: LedgerAnswers)
    requires CreditsRead(p.credits, inv.userId, a.readFaults) < 1
    ensures OnGenerate(p, inv, a) == (p, [NotEnoughCredits])
    ensures OnGenerateChecked(p, inv, a) == (p, [NotEnoughCredits])
  {
  }

  /** The deduction comes first: the cache and the image queue change only after a successful
      deduction, and then the interaction is cached with its prompt and timestamp. The product
      queue is never touched. */
  lemma GenerateDeductsFirst(p: Pipeline, inv: Invocation, a: LedgerAnswers)
    ensures var (q, notices) := OnGenerate(p, inv, a);
            q.products == p.products &&
            (q.cache != p.cache || q.images != p.images ==>
               CreditsRead(p.credits, inv.userId, a.readFaults) >= 1 && Deduct(p.credits, inv.userId, a).1) &&
            (Deduct(p.credits, inv.userId, a).1 && CreditsRead(p.credits, inv.userId, a.readFaults) >= 1 ==>
               q.credits == Deduct(p.credits, inv.userId, a).0 && q.cache == p.cache[inv.id := CachedOf(inv)] &&
               |notices| == 2 && notices[0] == Deducted(CreditsRead(q.credits, inv.userId, a.remainingFaults)))
  {
  }

  /** A queued request is the item `{interaction_id, prompt}` at the tail of the image queue. */
  lemma GenerateQueues(p: Pipeline, inv: Invocation, a: LedgerAnswers)
    ensures var (q, notices) := OnGenerate(p, inv, a);
            Queued in notices <==>
              CreditsRead(p.credits, inv.userId, a.readFaults) >= 1 && Deduct(p.credits, inv.userId, a).1 &&
              HasRoom(p.images)
    ensures var (q, notices) := OnGenerate(p, inv, a);
            Queued in notices ==> q.images.items == p.images.items + [ImageJob(inv.id, inv.prompt)]
  {
  }

  /** As written, a request the full image queue refuses has still been paid for: with a read that
      succeeds and no concurrent writer, the balance has dropped by one and the interaction stays
      cached, though nothing was scheduled. */
  lemma GenerateDebitsWhenBusy(p: Pipeline, inv: Invocation, a: LedgerAnswers)
    requires RetrySucceeds(a.readFaults) && Balance(p.credits, inv.userId) >= 1
    requires a.reachable && a.conflicts == []
    requires !HasRoom(p.images)
    ensures var (q, notices) := OnGenerate(p, inv, a);
            notices[|notices| - 1] == TooBusy && q.images == p.images &&
            Balance(q.credits, inv.userId) == Balance(p.credits, inv.userId) - 1 &&
            inv.id in q.cache
  {
    WithdrawUncontended(p.credits, inv.userId, 1);
  }

  /** With the check first, a refused request leaves the ledger, the cache and both queues as they
      were; otherwise it behaves exactly like the original. */
  lemma CheckedBusyCostsNothing(p: Pipeline, inv: Invocation, a: LedgerAnswers)
    ensures var (q, notices) := OnGenerateChecked(p, inv, a);
            TooBusy in notices ==> q == p
    ensures HasRoom(p.images) ==> OnGenerateChecked(p, inv, a) == OnGenerate(p, inv, a)
    ensures var (q, notices) := OnGenerateChecked(p, inv, a);
            Queued in notices <==> TooBusy !in notices && NotEnoughCredits !in notices && DeductFailed !in notices
  {
  }

  // ---------------------------------------------------------------------------
  // The product title and the product data
  // ---------------------------------------------------------------------------

  /** `_create_product_title`: the first eight words of the stripped prompt (all of them when
      fewer), joined by spaces and title-cased, then the suffix and the user name. */
  function CreateProductTitle(prompt: string, username: string): string {
    var words := Words(Strip(prompt));
    Title(Join(Take(words, TitleWords), " ")) + TitleSuffix + username
  }

  lemma TakeProper(ws: seq<string>, n: nat)
    requires ProperFields(ws, IsSpace)
    ensures ProperFields(Take(ws, n), IsSpace)
  {
  }

  /** The title's words before the suffix are the prompt's first eight words (all of them when
      fewer), each title-cased. */
  lemma CreateProductTitleWords(prompt: string, username: string)
    ensures var k := |CreateProductTitle(prompt, username)| - |TitleSuffix| - |username|;
            k >= 0 &&
            CreateProductTitle(prompt, username)[k..] == TitleSuffix + username &&
            Words(CreateProductTitle(prompt, username)[..k]) == MapTitle(Take(Words(prompt), TitleWords)) &&
            |Words(CreateProductTitle(prompt, username)[..k])| == Min(TitleWords, |Words(prompt)|)
  {
    StripWords(prompt);
    var ws := Take(Words(prompt), TitleWords);
    TakeProper(Words(prompt), TitleWords);
    var head := Title(Join(ws, " "));
    TitledJoinWords(ws);
    var t := CreateProductTitle(prompt, username);
    assert t == head + (TitleSuffix + username);
    assert t[..|head|] == head;
    assert t[|head|..] == TitleSuffix + username;
  }

  /** The `product_data` that `_process_image_generation` builds for `ProductHandler`. */
  function ProductDataFor(prompt: string, username: string, imageUrl: string): (d: ProductData)
    ensures d.vendor == Some(username) && d.tags == Some(["Artist-" + username])
    ensures d.imageUrl == Some(imageUrl) && d.priceCents == Some(PriceCents)
    ensures d.productType.None? && d.inventoryQuantity.None?
  {
    ProductData(Some(CreateProductTitle(prompt, username)), Some(ProductDescription), Some(username),
                Some(PriceCents), None, None, Some(["Artist-" + username]), Some(imageUrl))
  }

  // ---------------------------------------------------------------------------
  // _generate_and_upload_image
  // ---------------------------------------------------------------------------

  /** `_generate_and_upload_image`: the first generated image's URL, its downloaded content, and
      the upload as `ATC_<uuid>.jpg`; `None` as soon as a step gives nothing. */
  function GenerateAndUpload(storage: BackblazeHandler.Handler, generated: Option<seq<string>>,
                             content: Option<seq<BackblazeHandler.byte>>, fileId: string,
                             store: BackblazeHandler.StoreAnswer): (r: Option<string>)
    ensures r.Some? <==> generated.Some? && generated.value != [] && generated.value[0] != [] &&
                         content.Some? && content.value != [] && store == BackblazeHandler.Accepted
    ensures r.Some? ==> r.value == BackblazeHandler.PublicUrl(storage, "ATC_" + fileId + ".jpg")
  {
    if generated.None? || generated.value == [] || generated.value[0] == [] then None
    else if content.None? || content.value == [] then None
    else BackblazeHandler.UploadImage(storage, "ATC_" + fileId + ".jpg", content.value, PublicRead, store).0
  }

  /** The object stored for a generated image is sent as JPEG with a public-read ACL. */
  lemma UploadedAsJpeg(storage: BackblazeHandler.Handler, content: seq<BackblazeHandler.byte>, fileId: string,
                       store: BackblazeHandler.StoreAnswer)
    requires content != []
    ensures var put := BackblazeHandler.UploadImage(storage, "ATC_" + fileId + ".jpg", content, PublicRead, store).1;
            (store == BackblazeHandler.ClientFailed ==> put.None?) &&
            (store != BackblazeHandler.ClientFailed ==>
               put.Some? && put.value.contentType == BackblazeHandler.MimeJpeg && put.value.acl == PublicRead &&
               put.value.key == "ATC_" + fileId + ".jpg")
  {
    BackblazeHandler.GeneratedNamesAreJpeg(fileId);
  }

  /** The URL handed to the product queue is already a URL, so `ProductHandler` uses it as it is
      without asking storage. */
  lemma UploadedUrlNeedsNoLookup(storage: BackblazeHandler.Handler, generated: Option<seq<string>>,
                                 content: Option<seq<BackblazeHandler.byte>>, fileId: string,
                                 store: BackblazeHandler.StoreAnswer, head: BackblazeHandler.HeadAnswer)
    requires storage.bucketName != [] && Urls.HostSafe(storage.bucketName)
    requires Urls.HostSafe(storage.regionName)
    requires GenerateAndUpload(storage, generated, content, fileId, store).Some?
    ensures var url := GenerateAndUpload(storage, generated, content, fileId, store).value;
            GetImageUrl(storage, Some(url), head) == (Some(url), [])
  {
    var url := GenerateAndUpload(storage, generated, content, fileId, store).value;
    BackblazeHandler.PublicUrlValid(storage, "ATC_" + fileId + ".jpg");
    assert url != [];
  }

  // ---------------------------------------------------------------------------
  // The consumer loops
  // ---------------------------------------------------------------------------

  /** Which message a follow-up carries. */
  datatype Message = ImageFailed | ImageReady(url: string) | Unexpected

  /** One `_send_followup`: the message, how it ended, and the tiers tried. */
  datatype Followup = Followup(message: Message, delivery: Delivery, tried: seq<Tier>)

  /** One cycle of a `tasks.loop`: `QueueEmptyError` (then a 0.1 s sleep), an item handled with the
      follow-ups it sent, or an exception that escaped the handler (then a 1 s sleep). */
  datatype Cycle = Idle | Handled(sent: seq<Followup>) | Crashed

  /** Everything the image cycle learns from outside. */
  datatype ImageAnswers = ImageAnswers(generated: Option<seq<string>>, content: Option<seq<BackblazeHandler.byte>>,
                                       fileId: string, store: BackblazeHandler.StoreAnswer, first: Discord, second: Discord)

  function Lookup(cache: map<int, Cached>, id: int): Option<Cached> {
    if id in cache then Some(cache[id]) else None
  }

  function Send(cache: map<int, Cached>, id: int, m: Message, d: Discord): Followup {
    var (delivery, tried) := FollowupCogs(Lookup(cache, id), d);
    Followup(m, delivery, tried)
  }

  /** `_process_image_generation` for a dequeued job. */
  function ProcessImageGeneration(p: Pipeline, job: ImageJob, storage: BackblazeHandler.Handler,
                                  a: ImageAnswers): (Pipeline, seq<Followup>) {
    AfterUpload(p, job, GenerateAndUpload(storage, a.generated, a.content, a.fileId, a.store), a)
  }

  /** The part of `_process_image_generation` after the upload gave `url` (or nothing). */
  function AfterUpload(p: Pipeline, job: ImageJob, url: Option<string>, a: ImageAnswers): (Pipeline, seq<Followup>) {
    if url.None? then (p, [Send(p.cache, job.interactionId, ImageFailed, a.first)])
    else
      var ready := Send(p.cache, job.interactionId, ImageReady(url.value), a.first);
      if job.interactionId !in p.cache then (p, [ready])
      else
        var username := p.cache[job.interactionId].username;
        var item := ProductJob(job.interactionId, ProductDataFor(job.prompt, username, url.value), username);
        var (products, err) := OnEnqueue(p.products, item);
        if err.None? then (p.(products := products), [ready])
        else (p, [ready, Send(p.cache, job.interactionId, Unexpected, a.second)])
  }

  /** One cycle of `process_image_generation_queue`. */
  function OnImageCycle(p: Pipeline, storage: BackblazeHandler.Handler, a: ImageAnswers): (Pipeline, Cycle) {
    var (images, removed) := OnDequeue(p.images);
    if removed.Raised? then (p, Idle)
    else
      var (q, sent) := ProcessImageGeneration(p.(images := images), removed.value, storage, a);
      (q, Handled(sent))
  }

  /** Handling a job changes at most the product queue, by at most one item. */
  lemma ProcessImageTouchesProductsOnly(p: Pipeline, job: ImageJob, storage: BackblazeHandler.Handler,
                                        a: ImageAnswers)
    ensures var q := ProcessImageGeneration(p, job, storage, a).0;
            q.credits == p.credits && q.cache == p.cache && q.images == p.images &&
            |q.products.items| <= |p.products.items| + 1
  {
    var url := GenerateAndUpload(storage, a.generated, a.content, a.fileId, a.store);
    AfterUploadTouchesProductsOnly(p, job, url, a);
  }

  lemma AfterUploadTouchesProductsOnly(p: Pipeline, job: ImageJob, url: Option<string>, a: ImageAnswers)
    ensures var q := AfterUpload(p, job, url, a).0;
            q.credits == p.credits && q.cache == p.cache && q.images == p.images &&
            |q.products.items| <= |p.products.items| + 1
  {
    if url.Some? && job.interactionId in p.cache {
      var username := p.cache[job.interactionId].username;
      var item := ProductJob(job.interactionId, ProductDataFor(job.prompt, username, url.value), username);
      var (products, err) := OnEnqueue(p.products, item);
      assert |products.items| <= |p.products.items| + 1;
      var r := AfterUpload(p, job, url, a).0;
      assert r == if err.None? then p.(products := products) else p;
    }
  }

  /** A cycle with an item takes the head of the image queue and is done with it: it is never put
      back, the ledger and the cache are untouched, and at most one product item is added. */
  lemma ImageCycleConsumes(p: Pipeline, storage: BackblazeHandler.Handler, a: ImageAnswers)
    ensures var (q, c) := OnImageCycle(p, storage, a);
            q.credits == p.credits && q.cache == p.cache &&
            (c == Idle <==> p.images.items == []) &&
            (c == Idle ==> q == p) &&
            (c != Idle ==> c.Handled? && q.images.items == p.images.items[1..] &&
                           |q.products.items| <= |p.products.items| + 1)
  {
    var (images, removed) := OnDequeue(p.images);
    if removed.Item? {
      ProcessImageTouchesProductsOnly(p.(images := images), removed.value, storage, a);
    }
  }

  /** After a successful upload, the product item carries the same interaction id and the tag
      `Artist-<name>`, and is enqueued only when the interaction is still cached. */
  lemma ImageCycleChainsToProducts(p: Pipeline, storage: BackblazeHandler.Handler, a: ImageAnswers)
    requires p.images.items != []
    ensures var (q, c) := OnImageCycle(p, storage, a);
            var job := p.images.items[0];
            var url := GenerateAndUpload(storage, a.generated, a.content, a.fileId, a.store);
            (q.products != p.products <==>
               url.Some? && job.interactionId in p.cache && HasRoom(p.products)) &&
            (q.products != p.products ==>
               var name := p.cache[job.interactionId].username;
               q.products.items == p.products.items +
                 [ProductJob(job.interactionId, ProductDataFor(job.prompt, name, url.value), name)] &&
               ProductDataFor(job.prompt, name, url.value).tags == Some(["Artist-" + name])) &&
            (url.None? ==> c == Handled([Send(p.cache, job.interactionId, ImageFailed, a.first)]))
  {
    var (images, removed) := OnDequeue(p.images);
    assert removed == Item(p.images.items[0]);
  }

  /** What the product cycle learns from Shopify and Backblaze. */
  datatype ShopAnswers = ShopAnswers(create: seq<Reply>, head: BackblazeHandler.HeadAnswer, upload: seq<Reply>,
                                     lookup: seq<Reply>, createCollection: seq<Reply>, collect: seq<Reply>)

  function ServicesOf(storage: BackblazeHandler.Handler, baseUrl: string, a: ShopAnswers): Services {
    Services(storage, baseUrl, a.create, a.head, a.upload, a.lookup, a.createCollection, a.collect)
  }

  /** One cycle of `process_product_creation_queue`: add the product, then, in the `finally`,
      drop the cached interaction. A `KeyError`/`TypeError` inside `add_product_to_shopify`
      escapes `_process_product_creation` and lands in the loop's handler (a 1 s sleep). The
      third component lists the calls made on the services. `upload` is the service's
      `upload_product_image`: `UploadProductImageAsWritten` for the cog as it runs,
      `UploadProductImage` for the corrected service. */
  function OnProductCycle(p: Pipeline, storage: BackblazeHandler.Handler, baseUrl: string,
                          a: ShopAnswers, upload: (string, seq<Reply>) -> Response): (Pipeline, Cycle, seq<Call>) {
    var (products, removed) := OnDequeue(p.products);
    if removed.Raised? then (p, Idle, [])
    else
      var job := removed.value;
      var (result, calls) := AddProductToShopify(job.data, job.username, ServicesOf(storage, baseUrl, a), upload);
      (p.(products := products, cache := p.cache - {job.interactionId}),
       if result.Err? then Crashed else Handled([]), calls)
  }

  /** Whatever Shopify answers, a handled product item leaves the cache without its interaction
      and leaves the ledger and the image queue alone; the services are called in chain order. */
  lemma ProductCycleDropsInteraction(p: Pipeline, storage: BackblazeHandler.Handler, baseUrl: string, a: ShopAnswers,
                                     upload: (string, seq<Reply>) -> Response)
    ensures var (q, c, calls) := OnProductCycle(p, storage, baseUrl, a, upload);
            q.credits == p.credits && q.images == p.images && InChainOrder(calls) &&
            (c == Idle <==> p.products.items == []) &&
            (c == Idle ==> q == p && calls == []) &&
            (c != Idle ==> q.cache == p.cache - {p.products.items[0].interactionId} &&
                           q.products.items == p.products.items[1..] &&
                           p.products.items[0].interactionId !in q.cache)
  {
    var (products, removed) := OnDequeue(p.products);
    if removed.Item? {
      assert removed.value == p.products.items[0];
    }
  }

  /** The whole run for one request once it reaches the product queue: the interaction is gone from
      the cache after its product cycle, so sweeping cannot find it later and follow-ups for it
      try nothing. */
  lemma NoFollowupAfterProduct(p: Pipeline, storage: BackblazeHandler.Handler, baseUrl: string,
                               a: ShopAnswers, upload: (string, seq<Reply>) -> Response, d: Discord)
    requires p.products.items != []
    ensures var (q, _, _) := OnProductCycle(p, storage, baseUrl, a, upload);
            var id := p.products.items[0].interactionId;
            FollowupCogs(Lookup(q.cache, id), d) == (Undelivered, [])
  {
    ProductCycleDropsInteraction(p, storage, baseUrl, a, upload);
  }

  /** As the cog runs, with the service's raising image upload, a product cycle never gets past
      the upload: it never looks up, creates or joins a collection, whatever Shopify answers. */
  lemma ProductCycleStopsAtUpload(p: Pipeline, storage: BackblazeHandler.Handler, baseUrl: string, a: ShopAnswers)
    ensures var (_, _, calls) := OnProductCycle(p, storage, baseUrl, a, UploadProductImageAsWritten);
            forall c :: c in calls ==> Rank(c) <= 2
  {
    var (products, removed) := OnDequeue(p.products);
    if removed.Item? {
      var job := removed.value;
      AsWrittenNeverAdds(job.data, job.username, ServicesOf(storage, baseUrl, a));
    }
  }

  // ---------------------------------------------------------------------------
  // The cog
  // ---------------------------------------------------------------------------

  /** `ImageProductCommand` with the bot's shared ledger and storage handler. */
  class ImageProductCommand {
    const ledger: CreditSystem
    const imageQueue: Queue<ImageJob>
    const productQueue: Queue<ProductJob>
    const cache: InteractionCache
    const storage: BackblazeHandler.Handler
    const shopBaseUrl: string

    ghost predicate Valid()
      reads this, imageQueue, productQueue
    {
      imageQueue.Valid() && productQueue.Valid() &&
      imageQueue.maxSize == ImageQueueSize && productQueue.maxSize == ProductQueueSize
    }

    function State(): Pipeline
      reads this, ledger, cache, imageQueue, productQueue
    {
      Pipeline(ledger.credits, cache.entries, imageQueue.State(), productQueue.State())
    }

    /** `__init__`: two fresh queues of capacity 50 and 100 and an empty cache. */
    constructor (ledger: CreditSystem, storage: BackblazeHandler.Handler, shopBaseUrl: string)
      ensures Valid() && fresh(imageQueue) && fresh(productQueue) && fresh(cache)
      ensures this.ledger == ledger && this.storage == storage && this.shopBaseUrl == shopBaseUrl
      ensures imageQueue.State() == Init(ImageQueueSize) && productQueue.State() == Init(ProductQueueSize)
      ensures cache.entries == map[]
    {
      this.ledger := ledger;
      this.storage := storage;
      this.shopBaseUrl := shopBaseUrl;
      imageQueue := new Queue(ImageQueueSize, "image_generation_queue");
      productQueue := new Queue(ProductQueueSize, "product_creation_queue");
      cache := new InteractionCache();
    }

    /** `generate_product` (`/dream`) as written. */
    method GenerateProduct(inv: Invocation, a: LedgerAnswers) returns (notices: seq<Notice>)
      requires Valid()
      modifies ledger, cache, imageQueue
      ensures Valid()
      ensures (State(), notices) == OnGenerate(old(State()), inv, a)
      ensures ledger.claimExpiry == old(ledger.claimExpiry)
    {
      var credits := ledger.GetCredits(inv.userId, a.readFaults);
      if credits < 1 {
        return [NotEnoughCredits];
      }
      var ok := ledger.DeductCredit(inv.userId, 1, a.conflicts, a.reachable);
      if !ok {
        return [DeductFailed];
      }
      var remaining := ledger.GetCredits(inv.userId, a.remainingFaults);
      cache.Insert(inv.id, CachedOf(inv));
      var err := imageQueue.Enqueue(ImageJob(inv.id, inv.prompt));
      notices := [Deducted(remaining), if err.None? then Queued else TooBusy];
    }

    /** `generate_product` with the capacity check before the deduction. */
    method GenerateProductChecked(inv: Invocation, a: LedgerAnswers) returns (notices: seq<Notice>)
      requires Valid()
      modifies ledger, cache, imageQueue
      ensures Valid()
      ensures (State(), notices) == OnGenerateChecked(old(State()), inv, a)
      ensures ledger.claimExpiry == old(ledger.claimExpiry)
    {
      var credits := ledger.GetCredits(inv.userId, a.readFaults);
      if credits < 1 {
        return [NotEnoughCredits];
      }
      if imageQueue.closed || |imageQueue.items| >= imageQueue.maxSize {
        return [TooBusy];
      }
      notices := GenerateProduct(inv, a);
    }

    /** One cycle of `process_image_generation_queue`. */
    method ImageCycle(a: ImageAnswers) returns (c: Cycle)
      requires Valid()
      modifies imageQueue, productQueue
      ensures Valid()
      ensures (State(), c) == OnImageCycle(old(State()), storage, a)
    {
      var removed := imageQueue.Dequeue();
      if removed.Raised? {
        return Idle;
      }
      var sent := ProcessImage(removed.value, a);
      c := Handled(sent);
    }

    /** `_process_image_generation` for one dequeued job. */
    method ProcessImage(job: ImageJob, a: ImageAnswers) returns (sent: seq<Followup>)
      requires Valid()
      modifies productQueue
      ensures Valid()
      ensures (State(), sent) == ProcessImageGeneration(old(State()), job, storage, a)
    {
      var url := GenerateAndUpload(storage, a.generated, a.content, a.fileId, a.store);
      var entries := cache.entries;
      if url.None? {
        return [Send(entries, job.interactionId, ImageFailed, a.first)];
      }
      var ready := Send(entries, job.interactionId, ImageReady(url.value), a.first);
      var cached := cache.Get(job.interactionId);
      if cached.None? {
        return [ready];
      }
      var username := cached.value.username;
      var err := productQueue.Enqueue(ProductJob(job.interactionId, ProductDataFor(job.prompt, username, url.value), username));
      if err.None? {
        sent := [ready];
      } else {
        sent := [ready, Send(entries, job.interactionId, Unexpected, a.second)];
      }
    }


    /** One cycle of `process_product_creation_queue`, with the service's image upload as
        written. */
    method ProductCycle(a: ShopAnswers) returns (c: Cycle, calls: seq<Call>)
      requires Valid()
      modifies productQueue, cache
      ensures Valid()
      ensures (State(), c, calls) == OnProductCycle(old(State()), storage, shopBaseUrl, a, UploadProductImageAsWritten)
    {
      c, calls := ProductCycleWith(a, UploadProductImageAsWritten);
    }

    /** One cycle of `process_product_creation_queue` with the corrected image upload. */
    method ProductCycleCorrected(a: ShopAnswers) returns (c: Cycle, calls: seq<Call>)
      requires Valid()
      modifies productQueue, cache
      ensures Valid()
      ensures (State(), c, calls) == OnProductCycle(old(State()), storage, shopBaseUrl, a, UploadProductImage)
    {
      c, calls := ProductCycleWith(a, UploadProductImage);
    }

    /** One cycle of the product loop, for a given `upload_product_image`. */
    method ProductCycleWith(a: ShopAnswers, upload: (string, seq<Reply>) -> Response) returns (c: Cycle, calls: seq<Call>)
      requires Valid()
      modifies productQueue, cache
      ensures Valid()
      ensures (State(), c, calls) == OnProductCycle(old(State()), storage, shopBaseUrl, a, upload)
    {
      var removed := productQueue.Dequeue();
      if removed.Raised? {
        return Idle, [];
      }
      var job := removed.value;
      var added := AddProductToShopify(job.data, job.username, ServicesOf(storage, shopBaseUrl, a), upload);
      var result := added.0;
      calls := added.1;
      cache.Remove(job.interactionId);
      c := if result.Err? then Crashed else Handled([]);
    }

    /** One pass of `_cleanup_interaction_cache` at time `now`. */
    method CleanupCache(now: int) returns (removed: nat)
      modifies cache
      ensures cache.entries == Swept(old(cache.entries), now)
      ensures removed == |Expired(old(cache.entries), now)|
    {
      removed := cache.Sweep(now);
    }
  }
}
