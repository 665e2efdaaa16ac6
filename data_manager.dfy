/**
 * `DataManager`: cache-first access to the card list, persisted in a key-value store under one
 * fixed key, with a background refresh; and a URL-keyed in-memory image cache.
 *
 * The process-wide static state (`UserDefaults.standard` and the `NSCache`) is the state of one
 * `DataManager` object. Each network exchange is an oracle argument, and the detached refresh
 * `Task` is the separate step `CompleteBackgroundRefresh`.
 */
module DataManagement {
  import opened Wrappers
  import opened Json
  import opened Urls
  import opened Constants
  import opened CardListItemModel

  /** `NetworkError`. */
  datatype NetworkError = InvalidURL | InvalidServerResponse | InvalidImageData

  /** Everything a data-access call can throw: a `NetworkError`, a decoder error, or a transport error. */
  datatype Failure = Network(error: NetworkError) | DecodingFailed | TransportFailed

  /** A decoded image (a `UIImage`). */
  datatype Image = Image(pixels: seq<bv8>)

  /** A response: whether it is an HTTP response, its status code and its (already parsed) body. */
  datatype Reply<B> = Reply(isHttp: bool, statusCode: int, body: B)

  /**
   * The outcome of one `URLSession.data(from:)` exchange: a reply, or a thrown transport error.
   * For the card list the body is the parsed JSON text (`None` when the bytes are not JSON); for an
   * image it is what `UIImage(data:)` makes of the bytes (`None` when they are not an image).
   */
  datatype Transport<B> = Delivered(reply: Reply<B>) | Unreachable

  /** Success is the 2xx class of status codes (section 15.3 of RFC 9110). */
  predicate IsSuccessStatus(code: int) { 200 <= code <= 299 }

  /**
   * `URLComponents.url` for an absolute URL: undefined when a host is given and the path is neither
   * empty nor starts with `/`.
   */
  function ComponentsUrl(scheme: string, host: string, path: string): (r: Option<Url>)
    ensures r.None? <==> path != "" && path[0] != '/'
    ensures r.Some? ==> r.value.absoluteString == scheme + "://" + host + path
  {
    if path != "" && path[0] != '/' then None else Some(Url(scheme + "://" + host + path))
  }

  /** `endpoint()`: the card-list URL. */
  function Endpoint(): (r: Option<Url>)
    ensures r == Some(Url("https://api.tcgdex.net/v2/en/cards"))
  {
    assert Path[0] == '/';
    assert Scheme + "://" + Host + Path == "https://api.tcgdex.net/v2/en/cards";
    ComponentsUrl(Scheme, Host, Path)
  }

  /** The requests a list fetch sends: one to the endpoint, if the endpoint is defined. */
  function ListRequests(): (r: seq<Url>)
    ensures r == [Url("https://api.tcgdex.net/v2/en/cards")]
  {
    if Endpoint().Some? then [Endpoint().value] else []
  }

  /** The status guard shared by both fetches: a non-HTTP or non-2xx reply is `invalidServerResponse`. */
  function CheckedBody<B>(t: Transport<B>): (r: Result<B, Failure>)
    ensures r.Success? <==> t.Delivered? && t.reply.isHttp && IsSuccessStatus(t.reply.statusCode)
    ensures r.Success? ==> r.value == t.reply.body
    ensures t.Unreachable? ==> r == Failure(TransportFailed)
    ensures t.Delivered? && !(t.reply.isHttp && IsSuccessStatus(t.reply.statusCode)) ==>
              r == Failure(Network(InvalidServerResponse))
  {
    match t
    case Unreachable => Failure(TransportFailed)
    case Delivered(reply) =>
      if reply.isHttp && IsSuccessStatus(reply.statusCode) then Success(reply.body)
      else Failure(Network(InvalidServerResponse))
  }

  /** `fetchCardItems()`: the list the endpoint's reply decodes to. */
  function FetchCardItems(t: Transport<Option<Value>>): (r: Result<seq<CardListItem>, Failure>)
    ensures r.Success? <==>
              t.Delivered? && t.reply.isHttp && IsSuccessStatus(t.reply.statusCode) &&
              t.reply.body.Some? && DecodeItems(t.reply.body.value).Some?
    ensures r.Success? ==> Some(r.value) == DecodeItems(t.reply.body.value)
    ensures t.Unreachable? ==> r == Failure(TransportFailed)
    ensures t.Delivered? && !(t.reply.isHttp && IsSuccessStatus(t.reply.statusCode)) ==>
              r == Failure(Network(InvalidServerResponse))
    ensures t.Delivered? && t.reply.isHttp && IsSuccessStatus(t.reply.statusCode) && r.Failure? ==>
              r == Failure(DecodingFailed)
  {
    if Endpoint().None? then Failure(Network(InvalidURL))
    else
      var body :- CheckedBody(t);
      if body.None? then Failure(DecodingFailed)
      else
        match DecodeItems(body.value)
        case None => Failure(DecodingFailed)
        case Some(items) => Success(items)
  }

  /** `fetchImage(from:)`. */
  function FetchImage(url: Option<Url>, t: Transport<Option<Image>>): (r: Result<Image, Failure>)
    ensures url.None? ==> r == Failure(Network(InvalidURL))
    ensures url.Some? ==>
              (r.Success? <==> t.Delivered? && t.reply.isHttp && IsSuccessStatus(t.reply.statusCode) && t.reply.body.Some?)
    ensures r.Success? ==> Some(r.value) == t.reply.body
    ensures url.Some? && t.Unreachable? ==> r == Failure(TransportFailed)
    ensures url.Some? && t.Delivered? && !(t.reply.isHttp && IsSuccessStatus(t.reply.statusCode)) ==>
              r == Failure(Network(InvalidServerResponse))
    ensures url.Some? && t.Delivered? && t.reply.isHttp && IsSuccessStatus(t.reply.statusCode) && t.reply.body.None? ==>
              r == Failure(Network(InvalidImageData))
  {
    if url.None? then Failure(Network(InvalidURL))
    else
      var body :- CheckedBody(t);
      if body.None? then Failure(Network(InvalidImageData)) else Success(body.value)
  }

  class DataManager {
    /** `UserDefaults.standard`: the persisted key-value store. */
    var store: map<string, Value>
    /** The image `NSCache`, keyed by `url.absoluteString`. */
    var imageCache: map<string, Image>
    /** Background refreshes started by a cache hit and not yet finished. */
    var pendingRefreshes: nat
    /** Every network request issued so far, in order. */
    ghost var requests: seq<Url>

    constructor (persisted: map<string, Value>)
      ensures store == persisted && imageCache == map[] && pendingRefreshes == 0 && requests == []
    {
      store := persisted;
      imageCache := map[];
      pendingRefreshes := 0;
      requests := [];
    }

    /** `LocalData.loadCardItems()`: the persisted list, if the key is present and its value decodes. */
    function LoadCardItems(): (r: Option<seq<CardListItem>>)
      reads this
      ensures CachedCardItemsKey !in store ==> r == None
      ensures CachedCardItemsKey in store ==> r == DecodeItems(store[CachedCardItemsKey])
    {
      if CachedCardItemsKey in store then DecodeItems(store[CachedCardItemsKey]) else None
    }

    /** `LocalData.cache(cardItems:)`: replaces the single persisted value under the fixed key. */
    method Cache(items: seq<CardListItem>)
      modifies this`store
      ensures store == old(store)[CachedCardItemsKey := EncodeItems(items)]
      ensures LoadCardItems() == Some(items)
    {
      store := store[CachedCardItemsKey := EncodeItems(items)];
      ItemsRoundTrip(items);
    }

    /** `LocalData.clearCardsCache()`. */
    method ClearCardsCache()
      modifies this`store
      ensures store == old(store) - {CachedCardItemsKey}
      ensures LoadCardItems() == None
    {
      store := store - {CachedCardItemsKey};
    }

    /** `LocalData.clearImageCache()`. */
    method ClearImageCache()
      modifies this`imageCache
      ensures imageCache == map[]
    {
      imageCache := map[];
    }

    /** The platform evicting one image under memory pressure (`NSCache` may drop any entry). */
    method EvictImage(key: string)
      modifies this`imageCache
      ensures imageCache == old(imageCache) - {key}
    {
      imageCache := imageCache - {key};
    }

    /**
     * `NetworkData.getCardItems()`. A usable persisted list is returned at once and a background
     * refresh is started; otherwise the list is fetched (`net` is that exchange), persisted when the
     * fetch succeeds, and returned, or the fetch's error is thrown.
     */
    method GetCardItems(net: Transport<Option<Value>>) returns (r: Result<seq<CardListItem>, Failure>)
      modifies this`store, this`pendingRefreshes, this`requests
      ensures old(LoadCardItems()).Some? ==>
                && r == Success(old(LoadCardItems()).value)
                && store == old(store)
                && requests == old(requests)
                && pendingRefreshes == old(pendingRefreshes) + 1
      ensures old(LoadCardItems()).None? ==>
                && r == FetchCardItems(net)
                && requests == old(requests) + ListRequests()
                && pendingRefreshes == old(pendingRefreshes)
                && store == (if r.Success? then old(store)[CachedCardItemsKey := EncodeItems(r.value)] else old(store))
      ensures r.Success? ==> LoadCardItems() == Some(r.value)
    {
      var cached := LoadCardItems();
      if cached.Some? {
        pendingRefreshes := pendingRefreshes + 1;
        return Success(cached.value);
      }
      requests := requests + ListRequests();
      r := FetchCardItems(net);
      if r.Success? {
        Cache(r.value);
      }
    }

    /**
     * One background refresh finishing: the fresh list (from `net`) overwrites the persisted one on
     * success; a failure is logged and leaves the store as it was.
     */
    method CompleteBackgroundRefresh(net: Transport<Option<Value>>)
      requires pendingRefreshes > 0
      modifies this`store, this`pendingRefreshes, this`requests
      ensures pendingRefreshes == old(pendingRefreshes) - 1
      ensures requests == old(requests) + ListRequests()
      ensures FetchCardItems(net).Success? ==>
                store == old(store)[CachedCardItemsKey := EncodeItems(FetchCardItems(net).value)] &&
                LoadCardItems() == Some(FetchCardItems(net).value)
      ensures FetchCardItems(net).Failure? ==> store == old(store)
    {
      requests := requests + ListRequests();
      var freshItems := FetchCardItems(net);
      if freshItems.Success? {
        Cache(freshItems.value);
      }
      pendingRefreshes := pendingRefreshes - 1;
    }

    /**
     * `NetworkData.getImage(from:)`: a cached image is returned without a request; on a miss the
     * image is fetched (`net` is that exchange), cached under the URL's string and returned.
     */
    method GetImage(url: Option<Url>, net: Transport<Option<Image>>) returns (r: Result<Image, Failure>)
      modifies this`imageCache, this`requests
      ensures url.None? ==>
                r == Failure(Network(InvalidURL)) && imageCache == old(imageCache) && requests == old(requests)
      ensures url.Some? && url.value.absoluteString in old(imageCache) ==>
                && r == Success(old(imageCache)[url.value.absoluteString])
                && imageCache == old(imageCache)
                && requests == old(requests)
      ensures url.Some? && url.value.absoluteString !in old(imageCache) ==>
                && r == FetchImage(url, net)
                && requests == old(requests) + [url.value]
                && imageCache == (if r.Success? then old(imageCache)[url.value.absoluteString := r.value] else old(imageCache))
    {
      if url.None? {
        return Failure(Network(InvalidURL));
      }
      var key := url.value.absoluteString;
      if key in imageCache {
        return Success(imageCache[key]);
      }
      requests := requests + [url.value];
      r := FetchImage(url, net);
      if r.Success? {
        imageCache := imageCache[key := r.value];
      }
    }
  }

  /**
   * A caller's view of the stale-while-revalidate protocol: with a one-item list persisted and a
   * fetch that would return two items, the first call returns the persisted item, a second call
   * before the refresh finishes returns it again, and a call after the refresh returns the fresh list.
   */
  method StaleWhileRevalidateScenario(pikachu: CardListItem, raichu: CardListItem, net: Transport<Option<Value>>)
    returns (first: Result<seq<CardListItem>, Failure>, second: Result<seq<CardListItem>, Failure>,
             third: Result<seq<CardListItem>, Failure>)
    requires net == Delivered(Reply(true, 200, Some(EncodeItems([pikachu, raichu]))))
    ensures first == Success([pikachu]) && second == Success([pikachu])
    ensures third == Success([pikachu, raichu])
  {
    ItemsRoundTrip([pikachu]);
    ItemsRoundTrip([pikachu, raichu]);
    var dm := new DataManager(map[CachedCardItemsKey := EncodeItems([pikachu])]);
    first := dm.GetCardItems(net);
    second := dm.GetCardItems(net);
    dm.CompleteBackgroundRefresh(net);
    third := dm.GetCardItems(net);
  }

  /** A second request for the same URL is served from the cache even when the network now fails. */
  method ImageCacheScenario(u: Url, img: Image) returns (first: Result<Image, Failure>, second: Result<Image, Failure>)
    ensures first == Success(img) && second == Success(img)
  {
    var dm := new DataManager(map[]);
    first := dm.GetImage(Some(u), Delivered(Reply(true, 200, Some(img))));
    second := dm.GetImage(Some(u), Unreachable);
    assert dm.requests == [u];
  }
}
