/**
 * `CardCellView.ViewModel`: the title and thumbnail of one list row. The row is built from a
 * `CardListItem` (its callers pass `item:` and it reads `name` and `imageBaseURLString`).
 */
module CardCellView {
  import opened Wrappers
  import opened Urls
  import opened Constants
  import opened CardListItemModel
  import opened DataManagement

  /** `cellTitle`. */
  function CellTitle(item: CardListItem): (r: string)
    ensures r == item.name
  {
    item.name
  }

  /** `imageURL`: the low-quality thumbnail, `<base>/low.png`. */
  function ImageURL(item: CardListItem, parseUrl: string -> Option<Url>): (r: Option<Url>)
    ensures item.imageBaseURLString.None? ==> r.None?
    ensures item.imageBaseURLString.Some? ==> (r.Some? <==> parseUrl(item.imageBaseURLString.value).Some?)
    ensures r.Some? ==> r.value == AppendPathComponent(parseUrl(item.imageBaseURLString.value).value, "low.png")
    ensures r.Some? ==> EndsWith(r.value.absoluteString, "/low.png")
  {
    QualityImageUrl(item.imageBaseURLString, LowQuality, parseUrl)
  }

  class ViewModel {
    const item: CardListItem
    /** `URL(string:)`. */
    const parseUrl: string -> Option<Url>
    var cardImage: Option<Image>

    constructor (item: CardListItem, parseUrl: string -> Option<Url>)
      ensures this.item == item && this.parseUrl == parseUrl && cardImage == None
    {
      this.item := item;
      this.parseUrl := parseUrl;
      cardImage := None;
    }

    /**
     * `getCardImage()`: no URL means no image and no request; otherwise the image comes from
     * `DataManager.getImage` (`net` is its network exchange on a cache miss), is kept in
     * `cardImage` and returned, and a failure is swallowed, returning `None`.
     */
    method GetCardImage(dm: DataManager, net: Transport<Option<Image>>) returns (r: Option<Image>)
      modifies this`cardImage, dm`imageCache, dm`requests
      ensures ImageURL(item, parseUrl).None? ==>
                && r.None?
                && cardImage == old(cardImage)
                && dm.imageCache == old(dm.imageCache)
                && dm.requests == old(dm.requests)
      ensures ImageURL(item, parseUrl).Some? && ImageURL(item, parseUrl).value.absoluteString in old(dm.imageCache) ==>
                && r == Some(old(dm.imageCache)[ImageURL(item, parseUrl).value.absoluteString])
                && cardImage == r
                && dm.imageCache == old(dm.imageCache)
                && dm.requests == old(dm.requests)
      ensures ImageURL(item, parseUrl).Some? && ImageURL(item, parseUrl).value.absoluteString !in old(dm.imageCache) ==>
                && dm.requests == old(dm.requests) + [ImageURL(item, parseUrl).value]
                && (FetchImage(ImageURL(item, parseUrl), net).Success? ==>
                      && r == Some(FetchImage(ImageURL(item, parseUrl), net).value)
                      && cardImage == r
                      && dm.imageCache == old(dm.imageCache)[ImageURL(item, parseUrl).value.absoluteString := r.value])
                && (FetchImage(ImageURL(item, parseUrl), net).Failure? ==>
                      && r.None?
                      && cardImage == old(cardImage)
                      && dm.imageCache == old(dm.imageCache))
    {
      var url := ImageURL(item, parseUrl);
      if url.None? {
        return None;
      }
      var fetched := dm.GetImage(url, net);
      if fetched.Failure? {
        return None;
      }
      cardImage := Some(fetched.value);
      r := cardImage;
    }
  }
}
