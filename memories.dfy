/** The memories screen: the download URLs of every photo in storage, shown
    as a gallery, and a control that continues to the final screen. */
module MemoriesScreen {
  import opened Store
  import opened Navigation

  /** How listing the `photos` folder ended: a failure, or one
      `getDownloadURL` result per listed item, in item order. */
  datatype Listing = ListFailed | Listed(downloads: seq<Option<string>>)

  /** `Promise.all` over the download calls: every URL in order when all
      of them succeed, and a rejection as soon as any one fails. */
  function AllUrls(downloads: seq<Option<string>>): (r: Option<seq<string>>)
    ensures r.Some? <==> forall i :: 0 <= i < |downloads| ==> downloads[i].Some?
    ensures r.Some? ==> |r.value| == |downloads|
    ensures r.Some? ==> forall i :: 0 <= i < |downloads| ==> r.value[i] == downloads[i].value
  {
    if downloads == [] then Some([])
    else match downloads[0]
      case None => None
      case Some(url) =>
        match AllUrls(downloads[1..])
        case None => None
        case Some(rest) => Some([url] + rest)
  }

  /** One gallery tile: the image source and its alt text. */
  datatype Tile = Tile(src: string, alt: string)

  function Digit(d: nat): char
    requires d < 10
  {
    "0123456789"[d]
  }

  /** A number written in decimal, as a template literal prints it. */
  function Decimal(n: nat): (s: string)
    ensures |s| > 0
    ensures n > 0 ==> s[0] != '0'
    ensures n >= 10 ==> |s| >= 2
    decreases n
  {
    if n < 10 then [Digit(n)] else Decimal(n / 10) + [Digit(n % 10)]
  }

  /** Different numbers are written differently. */
  lemma {:induction false} DecimalInjective(a: nat, b: nat)
    requires Decimal(a) == Decimal(b)
    ensures a == b
    decreases a
  {
    if a < 10 && b < 10 {
      assert Decimal(a)[0] == Digit(a) && Decimal(b)[0] == Digit(b);
    } else if a >= 10 && b >= 10 {
      var da, db := Decimal(a), Decimal(b);
      assert da[|da| - 1] == Digit(a % 10) && db[|db| - 1] == Digit(b % 10);
      assert da[..|da| - 1] == Decimal(a / 10);
      assert db[..|db| - 1] == Decimal(b / 10);
      DecimalInjective(a / 10, b / 10);
    }
  }

  /** The number a string of decimal digits denotes, read most significant
      digit first; the reference reading of a numeral. */
  function DigitsValue(s: string): int
    decreases |s|
  {
    if s == [] then 0 else DigitsValue(s[..|s| - 1]) * 10 + (s[|s| - 1] as int - '0' as int)
  }

  /** The printed number reads back as the number itself. */
  lemma {:induction false} DecimalReadsBack(n: nat)
    ensures DigitsValue(Decimal(n)) == n
    decreases n
  {
    if n < 10 {
      assert Decimal(n)[..0] == [];
    } else {
      var s := Decimal(n);
      assert s[..|s| - 1] == Decimal(n / 10);
      assert s[|s| - 1] == Digit(n % 10);
      DecimalReadsBack(n / 10);
    }
  }

  function Label(i: nat): string {
    "Memory " + Decimal(i + 1)
  }

  /** `imageUrls.map((url, index) => ...)`: one tile per URL, in order, the
      tile at index i labelled with the 1-based number i + 1. */
  function Gallery(urls: seq<string>): (tiles: seq<Tile>)
    ensures |tiles| == |urls|
    ensures forall i :: 0 <= i < |urls| ==> tiles[i].src == urls[i] && tiles[i].alt == Label(i)
  {
    seq(|urls|, i requires 0 <= i < |urls| => Tile(urls[i], Label(i)))
  }

  /** No two tiles of a gallery carry the same alt text. */
  lemma GalleryLabelsDistinct(urls: seq<string>, i: nat, j: nat)
    requires i < j < |urls|
    ensures Gallery(urls)[i].alt != Gallery(urls)[j].alt
  {
    var tiles := Gallery(urls);
    if tiles[i].alt == tiles[j].alt {
      assert Label(i) == Label(j);
      assert Decimal(i + 1) == Label(i)[7..];
      assert Decimal(j + 1) == Label(j)[7..];
      DecimalInjective(i + 1, j + 1);
    }
  }

  /** All labels of a gallery are pairwise distinct. */
  lemma GalleryLabelsAllDistinct(urls: seq<string>)
    ensures forall i, j :: 0 <= i < j < |urls| ==> Gallery(urls)[i].alt != Gallery(urls)[j].alt
  {
    forall i, j | 0 <= i < j < |urls|
      ensures Gallery(urls)[i].alt != Gallery(urls)[j].alt
    {
      GalleryLabelsDistinct(urls, i, j);
    }
  }

  /** What the gallery area renders. */
  datatype GalleryView = LoadingMessage | Tiles(tiles: seq<Tile>)

  class MemoriesPage {
    var imageUrls: seq<string>
    var isLoading: bool
    var pushes: seq<Location>

    ghost predicate Valid()
      reads this
    {
      && (isLoading ==> imageUrls == [])
      && (forall i :: 0 <= i < |pushes| ==> Edge(Memories, pushes[i]))
    }

    constructor ()
      ensures Valid() && imageUrls == [] && isLoading && pushes == []
    {
      imageUrls, isLoading, pushes := [], true, [];
    }

    /** The mount effect's fetch settles: on success every URL, in item
        order; on any failure, listing or download, the list stays empty.
        Either way loading ends. */
    method ImagesSettled(listing: Listing)
      requires Valid() && isLoading
      modifies this`imageUrls, this`isLoading
      ensures Valid() && !isLoading
      ensures listing.Listed? && AllUrls(listing.downloads).Some? ==>
        imageUrls == AllUrls(listing.downloads).value && |imageUrls| == |listing.downloads|
      ensures !(listing.Listed? && AllUrls(listing.downloads).Some?) ==> imageUrls == []
    {
      if listing.Listed? {
        var urls := AllUrls(listing.downloads);
        if urls.Some? {
          imageUrls := urls.value;
        }
      }
      isLoading := false;
    }

    /** The gallery area: the loading message, then one tile per URL. */
    function View(): (v: GalleryView)
      reads this
      ensures v.LoadingMessage? <==> isLoading
      ensures v.Tiles? ==> |v.tiles| == |imageUrls|
      ensures v.Tiles? ==> forall i :: 0 <= i < |imageUrls| ==> v.tiles[i].src == imageUrls[i]
      ensures v.Tiles? ==> forall i, j :: 0 <= i < j < |v.tiles| ==> v.tiles[i].alt != v.tiles[j].alt
    {
      if isLoading then LoadingMessage
      else
        GalleryLabelsAllDistinct(imageUrls);
        Tiles(Gallery(imageUrls))
    }

    /** `goToNextPage`: the button is always rendered and always pushes the
        final screen. */
    method GoToNextPage()
      requires Valid()
      modifies this`pushes
      ensures Valid() && pushes == old(pushes) + [Plain(Final)]
    {
      pushes := pushes + [Plain(Final)];
    }
  }
}
