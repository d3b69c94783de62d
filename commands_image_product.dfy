/**
 * `src/commands/image_product_command.py`, the older variant of the pipeline. Generation is
 * queued without any credit check; a finished image is offered with an "Add to Shop" button
 * whose `custom_id` carries a short id into `image_url_cache` and the original interaction id;
 * the button click is parsed back and queued as a product item. As in the live variant, each
 * operation is an atomic step on a state value, performed by the class's methods.
 */
module ImageProductLegacy {
  import opened Base
  import opened Strings
  import opened InMemoryQueue
  import opened Interactions

  const ImageQueueSize: nat := 50
  const ProductQueueSize: nat := 100
  const ButtonPrefix: string := "add_to_shopify"
  const Separator: char := '|'
  const ShortIdLength: nat := 8
  const TitleSuffix: string := " Artist Trading Card (ATC) by "
  /** `"price": 6.99`, in cents. */
  const PriceCents: nat := 699
  /** The first line of `_get_product_description`. */
  const ProductDescription: string := "Artist Trading Card (ATC) - 2.5 x 3.5 inches"

  /** The `/generate` command as Discord delivers it. */
  datatype Invocation = Invocation(id: int, userId: int, username: string, channelId: int,
                                   guildId: Option<int>, now: int, prompt: string)

  datatype ImageJob = ImageJob(interactionId: int, prompt: string)

  /** The item `handle_add_to_shopify` queues. */
  datatype ProductJob = ProductJob(interactionId: int, originalInteractionId: int, imageUrl: string,
                                   userId: int, username: string, prompt: string)

  /** The state one step changes: the interaction cache, `image_url_cache` and the two queues. */
  datatype Legacy = Legacy(cache: map<int, Cached>, imageUrls: map<string, string>,
                           images: QueueState<ImageJob>, products: QueueState<ProductJob>)

  // ---------------------------------------------------------------------------
  // The button's custom id
  // ---------------------------------------------------------------------------

  /** `str(uuid.uuid4())[:8]`. */
  function ShortId(uuid: string): (s: string)
    ensures |s| == Min(ShortIdLength, |uuid|) && s <= uuid
  {
    Take(uuid, ShortIdLength)
  }

  /** `f"add_to_shopify|{short_id}|{interaction_id}"`. */
  function CustomId(shortId: string, interactionId: int): string {
    ButtonPrefix + [Separator] + shortId + [Separator] + IntToString(interactionId)
  }

  /** What a click's `custom_id` yields: the short id and original interaction id, a split into
      other than three parts, or a third part `int()` refuses (a `ValueError` out of the handler). */
  datatype Parsed = Ids(shortId: string, original: int) | WrongParts | NotAnInteger

  /** `custom_id.split('|')` and `int(custom_id_parts[2])`. */
  function ParseCustomId(customId: string): (r: Parsed)
    ensures r != WrongParts <==> |Split(customId, [Separator])| == 3
    ensures r.Ids? ==> r.shortId == Split(customId, [Separator])[1] &&
                       ParseInt(Split(customId, [Separator])[2]) == Some(r.original)
  {
    var parts := Split(customId, [Separator]);
    if |parts| != 3 then WrongParts
    else
      match ParseInt(parts[2])
      case None => NotAnInteger
      case Some(n) => Ids(parts[1], n)
  }

  /** Splitting a built custom id gives back its three parts when the short id holds no `|`. */
  lemma CustomIdParts(shortId: string, interactionId: int)
    requires Separator !in shortId
    ensures Split(CustomId(shortId, interactionId), [Separator]) ==
            [ButtonPrefix, shortId, IntToString(interactionId)]
  {
    var digits := IntToString(interactionId);
    var tail := shortId + [Separator] + digits;
    TailParts(shortId, digits, interactionId);
    assert Separator !in ButtonPrefix;
    SplitAt(ButtonPrefix, tail, Separator);
    assert CustomId(shortId, interactionId) == ButtonPrefix + [Separator] + tail;
  }

  lemma TailParts(shortId: string, digits: string, interactionId: int)
    requires Separator !in shortId && digits == IntToString(interactionId)
    ensures Split(shortId + [Separator] + digits, [Separator]) == [shortId, digits]
  {
    IntToStringNoChar(interactionId, Separator);
    SplitNoSep(digits, Separator);
    SplitAt(shortId, digits, Separator);
  }

  /** Parsing a built custom id recovers the short id and the interaction id. */
  lemma ParseCustomIdRoundTrip(shortId: string, interactionId: int)
    requires Separator !in shortId
    ensures ParseCustomId(CustomId(shortId, interactionId)) == Ids(shortId, interactionId)
  {
    CustomIdParts(shortId, interactionId);
    IntToStringRoundTrip(interactionId);
  }

  /** A custom id is split into three parts exactly when it holds exactly two `|`. */
  lemma WrongPartsIffSeparators(customId: string)
    ensures ParseCustomId(customId) == WrongParts <==> CountChar(customId, Separator) != 2
  {
    SplitCount(customId, Separator);
  }

  /** `on_interaction`: only component interactions whose custom id starts with the button
      prefix (an absent custom id reads as empty) reach `handle_add_to_shopify`. */
  predicate Routes(isComponent: bool, customId: Option<string>) {
    isComponent && StartsWith(GetOr(customId, ""), ButtonPrefix)
  }

  /** Every button this cog creates is routed back to it. */
  lemma ButtonsAreRouted(shortId: string, interactionId: int)
    ensures Routes(true, Some(CustomId(shortId, interactionId)))
    ensures !Routes(false, Some(CustomId(shortId, interactionId)))
    ensures !Routes(true, None)
  {
    var id := CustomId(shortId, interactionId);
    assert id == ButtonPrefix + ([Separator] + shortId + [Separator] + IntToString(interactionId));
    assert id[..|ButtonPrefix|] == ButtonPrefix;
  }

  // ---------------------------------------------------------------------------
  // The product data
  // ---------------------------------------------------------------------------

  /** The title prefix of `_create_product_data`: the first two words of the stripped prompt,
      joined and title-cased; the one word title-cased; or `Unique`. */
  function TitlePrefix(prompt: string): string {
    var words := Words(Strip(prompt));
    if |words| >= 2 then Title(Join(words[..2], " "))
    else if |words| == 1 then Title(words[0])
    else "Unique"
  }

  /** The product dict `_create_product_data` builds. */
  datatype ProductData = ProductData(title: string, description: string, imageUrl: string,
                                     vendor: string, priceCents: nat)

  function CreateProductData(username: string, imageUrl: string, prompt: string): (d: ProductData)
    ensures d.vendor == username && d.imageUrl == imageUrl && d.priceCents == PriceCents
    ensures d.title == TitlePrefix(prompt) + TitleSuffix + username
  {
    ProductData(TitlePrefix(prompt) + TitleSuffix + username, ProductDescription, imageUrl, username, PriceCents)
  }

  /** The prefix's words are the prompt's first two words title-cased, or `Unique` when the
      prompt has no words. */
  lemma TitlePrefixWords(prompt: string)
    ensures Words(prompt) == [] ==> TitlePrefix(prompt) == "Unique"
    ensures Words(prompt) != [] ==> Words(TitlePrefix(prompt)) == MapTitle(Take(Words(prompt), 2))
  {
    StripWords(prompt);
    var ws := Words(prompt);
    if ws != [] {
      var first := Take(ws, 2);
      assert ProperFields(first, IsSpace);
      assert |ws| == 1 ==> Join(first, " ") == ws[0];
      assert TitlePrefix(prompt) == Title(Join(first, " "));
      TitledJoinWords(first);
    }
  }

  // ---------------------------------------------------------------------------
  // The steps
  // ---------------------------------------------------------------------------

  /** What `/generate` answers. */
  datatype Notice = Queued | TooBusy

  function CachedOf(inv: Invocation): Cached {
    Cached(inv.channelId, inv.userId, inv.username, inv.guildId, inv.now, Some(inv.prompt), None)
  }

  /** `generate_product`: cache the interaction, then enqueue; no credit is consulted. */
  function OnGenerate(s: Legacy, inv: Invocation): (Legacy, Notice) {
    var (images, err) := OnEnqueue(s.images, ImageJob(inv.id, inv.prompt));
    (s.(cache := s.cache[inv.id := CachedOf(inv)], images := images), if err.None? then Queued else TooBusy)
  }

  /** Any request is queued exactly when the queue has room, and the interaction is cached either way. */
  lemma GenerateWithoutCredits(s: Legacy, inv: Invocation)
    ensures var (t, n) := OnGenerate(s, inv);
            (n == Queued <==> !s.images.closed && |s.images.items| < s.images.maxSize) &&
            (n == Queued ==> t.images.items == s.images.items + [ImageJob(inv.id, inv.prompt)]) &&
            (n == TooBusy ==> t.images == s.images) &&
            t.cache == s.cache[inv.id := CachedOf(inv)] && t.imageUrls == s.imageUrls && t.products == s.products
  {
  }

  /** `_create_product_options_view`: remember the image under its short id and build the button. */
  function OnOptionsView(s: Legacy, imageUrl: string, interactionId: int, uuid: string): (Legacy, string) {
    var shortId := ShortId(uuid);
    (s.(imageUrls := s.imageUrls[shortId := imageUrl]), CustomId(shortId, interactionId))
  }

  /** A button click. `dataIsDict` is `isinstance(interaction.data, dict)`. */
  datatype Click = Click(isComponent: bool, dataIsDict: bool, customId: Option<string>,
                         id: int, userId: int, username: string)

  /** How `handle_add_to_shopify` answers. */
  datatype ClickAnswer =
    | InvalidType | InvalidData | InvalidProductData | BadInteractionId
    | NotFound | ProductQueued | ProductBusy

  /** `handle_add_to_shopify`. */
  function OnClick(s: Legacy, click: Click): (Legacy, ClickAnswer) {
    if !click.isComponent then (s, InvalidType)
    else if !click.dataIsDict || click.customId.None? || click.customId.value == [] then (s, InvalidData)
    else
      match ParseCustomId(click.customId.value)
      case WrongParts => (s, InvalidProductData)
      case NotAnInteger => (s, BadInteractionId)
      case Ids(shortId, original) =>
        var url := GetOr(if shortId in s.imageUrls then Some(s.imageUrls[shortId]) else None, "");
        var prompt := if original in s.cache then GetOr(s.cache[original].prompt, "") else "";
        if url == [] || prompt == [] then (s, NotFound)
        else
          var job := ProductJob(click.id, original, url, click.userId, click.username, prompt);
          var (products, err) := OnEnqueue(s.products, job);
          (s.(products := products), if err.None? then ProductQueued else ProductBusy)
  }

  /** A click changes at most the product queue; a malformed custom id, a missing image or a
      missing prompt enqueue nothing. */
  lemma ClickRejections(s: Legacy, click: Click)
    ensures var (t, answer) := OnClick(s, click);
            t.cache == s.cache && t.imageUrls == s.imageUrls && t.images == s.images &&
            (answer != ProductQueued ==> t == s)
    ensures click.isComponent && click.dataIsDict && click.customId.Some? &&
            CountChar(click.customId.value, Separator) != 2 ==>
              OnClick(s, click) == (s, if click.customId.value == [] then InvalidData else InvalidProductData)
  {
    if click.customId.Some? {
      WrongPartsIffSeparators(click.customId.value);
    }
  }

  /** A click on a button the cog built, for a still-cached prompt, queues the item that carries
      the original interaction id, the remembered image and the prompt. */
  lemma ButtonClickQueues(s: Legacy, imageUrl: string, interactionId: int, uuid: string, click: Click)
    requires Separator !in uuid && imageUrl != []
    requires interactionId in s.cache && s.cache[interactionId].prompt.Some? && s.cache[interactionId].prompt.value != []
    requires !s.products.closed && |s.products.items| < s.products.maxSize
    requires click.isComponent && click.dataIsDict
    requires click.customId == Some(OnOptionsView(s, imageUrl, interactionId, uuid).1)
    ensures var (t, answer) := OnClick(OnOptionsView(s, imageUrl, interactionId, uuid).0, click);
            answer == ProductQueued &&
            t.products.items == s.products.items +
              [ProductJob(click.id, interactionId, imageUrl, click.userId, click.username, s.cache[interactionId].prompt.value)]
  {
    var shortId := ShortId(uuid);
    assert Separator !in shortId by {
      forall i | 0 <= i < |shortId| ensures shortId[i] != Separator {
        assert shortId[i] == uuid[i];
      }
    }
    ParseCustomIdRoundTrip(shortId, interactionId);
    assert CustomId(shortId, interactionId) != [];
  }

  /** `_process_product_creation` as written: `add_product_to_shopify(product_data)` misses its
      `username` argument, so the call raises `TypeError` before any service is contacted and the
      user is told an unexpected error happened. A channel delivery records the sent message id. */
  function OnProductCycle(s: Legacy, d: Discord, sentMessageId: int): (Legacy, Option<(Delivery, seq<Tier>)>) {
    var (products, removed) := OnDequeue(s.products);
    if removed.Raised? then (s, None)
    else
      var original := removed.value.originalInteractionId;
      var lookup := if original in s.cache then Some(s.cache[original]) else None;
      var sent := FollowupLegacy(lookup, d);
      var cache := if sent.0 == Delivery.Delivered(ViaChannel) && original in s.cache
                   then s.cache[original := s.cache[original].(messageId := Some(sentMessageId))]
                   else s.cache;
      (s.(products := products, cache := cache), Some(sent))
  }

  /** A product item yields one follow-up and nothing else: the cached interaction is kept (only
      the sweep drops it), and it gains a message id only when the channel delivered. */
  lemma ProductCycleOnlyReports(s: Legacy, d: Discord, sentMessageId: int)
    ensures var (t, sent) := OnProductCycle(s, d, sentMessageId);
            t.images == s.images && t.imageUrls == s.imageUrls && t.cache.Keys == s.cache.Keys &&
            (sent.None? <==> s.products.items == []) &&
            (sent.Some? ==> t.products.items == s.products.items[1..]) &&
            (sent.Some? ==>
               var original := s.products.items[0].originalInteractionId;
               forall id :: id in s.cache && (id != original || sent.value.0 != Delivery.Delivered(ViaChannel)) ==>
                 t.cache[id] == s.cache[id])
  {
    var (products, removed) := OnDequeue(s.products);
    if removed.Item? {
      assert removed.value == s.products.items[0];
    }
  }

  // ---------------------------------------------------------------------------
  // The cog
  // ---------------------------------------------------------------------------

  class ImageProductCommand {
    const imageQueue: Queue<ImageJob>
    const productQueue: Queue<ProductJob>
    const cache: InteractionCache
    var imageUrlCache: map<string, string>

    ghost predicate Valid()
      reads this, imageQueue, productQueue
    {
      imageQueue.Valid() && productQueue.Valid() &&
      imageQueue.maxSize == ImageQueueSize && productQueue.maxSize == ProductQueueSize
    }

    function State(): Legacy
      reads this, cache, imageQueue, productQueue
    {
      Legacy(cache.entries, imageUrlCache, imageQueue.State(), productQueue.State())
    }

    constructor ()
      ensures Valid() && fresh(imageQueue) && fresh(productQueue) && fresh(cache)
      ensures State() == Legacy(map[], map[], Init(ImageQueueSize), Init(ProductQueueSize))
    {
      imageQueue := new Queue(ImageQueueSize, "image_generation_queue");
      productQueue := new Queue(ProductQueueSize, "product_creation_queue");
      cache := new InteractionCache();
      imageUrlCache := map[];
    }

    /** `generate_product` (`/generate`). */
    method GenerateProduct(inv: Invocation) returns (n: Notice)
      requires Valid()
      modifies cache, imageQueue
      ensures Valid()
      ensures (State(), n) == OnGenerate(old(State()), inv)
    {
      cache.Insert(inv.id, CachedOf(inv));
      var err := imageQueue.Enqueue(ImageJob(inv.id, inv.prompt));
      n := if err.None? then Queued else TooBusy;
    }

    /** `_create_product_options_view`; the uuid is a parameter. */
    method CreateProductOptionsView(imageUrl: string, interactionId: int, uuid: string) returns (customId: string)
      modifies this
      ensures (State(), customId) == OnOptionsView(old(State()), imageUrl, interactionId, uuid)
    {
      var shortId := ShortId(uuid);
      imageUrlCache := imageUrlCache[shortId := imageUrl];
      customId := CustomId(shortId, interactionId);
    }

    /** `handle_add_to_shopify`. */
    method HandleAddToShopify(click: Click) returns (answer: ClickAnswer)
      requires Valid()
      modifies productQueue
      ensures Valid()
      ensures (State(), answer) == OnClick(old(State()), click)
    {
      if !click.isComponent {
        return InvalidType;
      }
      if !click.dataIsDict || click.customId.None? || click.customId.value == [] {
        return InvalidData;
      }
      var parsed := ParseCustomId(click.customId.value);
      if parsed.WrongParts? {
        return InvalidProductData;
      }
      if parsed.NotAnInteger? {
        return BadInteractionId;
      }
      var url := if parsed.shortId in imageUrlCache then imageUrlCache[parsed.shortId] else "";
      var cached := cache.Get(parsed.original);
      var prompt := if cached.Some? then GetOr(cached.value.prompt, "") else "";
      if url == [] || prompt == [] {
        return NotFound;
      }
      var err := productQueue.Enqueue(ProductJob(click.id, parsed.original, url, click.userId, click.username, prompt));
      answer := if err.None? then ProductQueued else ProductBusy;
    }

    /** One cycle of `process_product_creation_queue`; `None` when the queue was empty. */
    method ProductCycle(d: Discord, sentMessageId: int) returns (sent: Option<(Delivery, seq<Tier>)>)
      requires Valid()
      modifies productQueue, cache
      ensures Valid()
      ensures (State(), sent) == OnProductCycle(old(State()), d, sentMessageId)
    {
      var removed := productQueue.Dequeue();
      if removed.Raised? {
        return None;
      }
      var original := removed.value.originalInteractionId;
      var lookup := cache.Get(original);
      var result := FollowupLegacy(lookup, d);
      if result.0 == Delivery.Delivered(ViaChannel) {
        cache.SetMessageId(original, sentMessageId);
      }
      sent := Some(result);
    }

    /** One pass of `_cleanup_interaction_cache` at time `now`. */
    method CleanupCache(now: int) returns (removed: nat)
      modifies cache
      ensures cache.entries == Swept(old(cache.entries), now)
      ensures removed == |Expired(old(cache.entries), now)|
    {
      removed := cache.Sweep(now);
    }
  }
}
