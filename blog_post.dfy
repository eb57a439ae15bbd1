/**
 * The post page: the fetched images put in display order in place, the alt
 * text and caption of each, and the one flag that shows or hides the
 * technical details of every image.
 */
module BlogPost {
  import opened Wrappers
  import opened Decimal

  /** A row of the `images` relation; `exif` is the serialised EXIF object, if any. */
  datatype Image = Image(url: string, caption: Option<string>, exif: Option<string>, displayOrder: int)

  predicate SortedByOrder(s: seq<Image>) {
    forall i, j :: 0 <= i < j < |s| ==> s[i].displayOrder <= s[j].displayOrder
  }

  /** The first `n` images are in display order. */
  ghost predicate PrefixSorted(a: array<Image>, n: int)
    reads a
  {
    forall p, q :: 0 <= p < q < n && q < a.Length ==> a[p].displayOrder <= a[q].displayOrder
  }

  /** Exchanges the images at `j - 1` and `j`. */
  method SwapDown(a: array<Image>, j: int)
    requires 0 < j < a.Length
    modifies a
    ensures a[..] == old(a[..])[j - 1 := old(a[j])][j := old(a[j - 1])]
    ensures multiset(a[..]) == multiset(old(a[..]))
  {
    a[j - 1], a[j] := a[j], a[j - 1];
  }

  /** Moves `a[i]` down into the sorted prefix `a[..i]`. */
  method InsertDown(a: array<Image>, i: int)
    requires 0 <= i < a.Length && PrefixSorted(a, i)
    modifies a
    ensures PrefixSorted(a, i + 1)
    ensures multiset(a[..]) == multiset(old(a[..]))
  {
    var j := i;
    while j > 0 && a[j - 1].displayOrder > a[j].displayOrder
      invariant 0 <= j <= i
      invariant forall p, q :: 0 <= p < q <= i && p != j && q != j ==> a[p].displayOrder <= a[q].displayOrder
      invariant forall p, q :: 0 <= p < j < q <= i ==> a[p].displayOrder <= a[q].displayOrder
      invariant forall q :: j < q <= i ==> a[j].displayOrder < a[q].displayOrder
      invariant multiset(a[..]) == multiset(old(a[..]))
    {
      SwapDown(a, j);
      j := j - 1;
    }
  }

  /**
   * `images.sort((a, b) => a.display_order - b.display_order)`, in place:
   * an insertion sort by adjacent exchanges.
   */
  method SortByDisplayOrder(a: array<Image>)
    modifies a
    ensures SortedByOrder(a[..])
    ensures multiset(a[..]) == multiset(old(a[..]))
  {
    var i := 0;
    while i < a.Length
      invariant 0 <= i <= a.Length
      invariant PrefixSorted(a, i)
      invariant multiset(a[..]) == multiset(old(a[..]))
    {
      InsertDown(a, i);
      i := i + 1;
    }
  }

  /** A caption counts only when it is present and not empty. */
  function CaptionText(img: Image): (c: Option<string>)
    ensures c.Some? <==> img.caption.Some? && img.caption.value != ""
    ensures c.Some? ==> c == img.caption
  {
    if img.caption.Some? && img.caption.value != "" then img.caption else None
  }

  /** `image.caption || \`Photo ${index + 1}\``. */
  function Alt(img: Image, index: nat): (alt: string)
    ensures alt != []
    ensures CaptionText(img).Some? ==> alt == CaptionText(img).value
    ensures CaptionText(img).None? ==> alt == "Photo " + FromNat(index + 1)
  {
    if CaptionText(img).Some? then CaptionText(img).value else "Photo " + FromNat(index + 1)
  }

  /** Without a caption, the alt text numbers the photo by its position from one. */
  lemma AltNumbersPhoto(img: Image, index: nat)
    requires CaptionText(img).None?
    ensures var alt := Alt(img, index);
      |alt| > 6 && alt[..6] == "Photo " && AllDigits(alt[6..]) && ToNat(alt[6..]) == index + 1
  {
    var alt := Alt(img, index);
    assert alt[6..] == FromNat(index + 1);
    ToNatFromNat(index + 1);
  }

  datatype Rendered = Rendered(
    src: string,
    alt: string,
    caption: Option<string>,
    exifButton: Option<string>,
    exifShown: Option<string>)

  /**
   * One image of the section: the figure with its alt text and caption, and,
   * when the image has EXIF data, the toggle naming the action it performs
   * and the details while the flag is on.
   */
  function RenderImage(img: Image, index: nat, showExif: bool): (r: Rendered)
    ensures r.src == img.url && r.alt == Alt(img, index) && r.caption == CaptionText(img)
    ensures r.exifButton.Some? <==> img.exif.Some?
    ensures r.exifButton.Some? ==>
      r.exifButton.value == (if showExif then "Hide technical details" else "Show technical details")
    ensures r.exifShown == if showExif then img.exif else None
  {
    Rendered(
      img.url,
      Alt(img, index),
      CaptionText(img),
      if img.exif.Some? then Some((if showExif then "Hide" else "Show") + " technical details") else None,
      if img.exif.Some? && showExif then img.exif else None)
  }

  /** The image section, or None when the post has no images to show. */
  function ImageSection(images: Option<seq<Image>>, showExif: bool): (r: Option<seq<Rendered>>)
    ensures r.Some? <==> images.Some? && images.value != []
    ensures r.Some? ==> |r.value| == |images.value|
    ensures r.Some? ==> forall i :: 0 <= i < |r.value| ==>
      && r.value[i].src == images.value[i].url
      && r.value[i].alt == Alt(images.value[i], i)
      && r.value[i].caption == CaptionText(images.value[i])
      && (r.value[i].exifButton.Some? <==> images.value[i].exif.Some?)
      && r.value[i].exifShown == (if showExif then images.value[i].exif else None)
  {
    if images.None? || images.value == [] then None
    else
      var imgs := images.value;
      Some(seq(|imgs|, i requires 0 <= i < |imgs| => RenderImage(imgs[i], i, showExif)))
  }

  /**
   * One flag serves every image: flipping it flips the details of each image
   * that has EXIF data and leaves the others without any.
   */
  lemma ToggleFlipsEvery(images: seq<Image>, showExif: bool)
    requires images != []
    ensures var before, after := ImageSection(Some(images), showExif).value, ImageSection(Some(images), !showExif).value;
      forall i :: 0 <= i < |images| ==>
        if images[i].exif.Some? then before[i].exifShown.Some? != after[i].exifShown.Some?
        else before[i].exifShown.None? && after[i].exifShown.None?
  {
  }

  datatype PostView = PostView(id: string, title: string, content: string, publishedAt: string,
                               images: Option<seq<Image>>)

  class Page {
    var post: Option<PostView>
    var loading: bool
    var showExif: bool

    constructor ()
      ensures post == None && loading && !showExif
    {
      post := None;
      loading := true;
      showExif := false;
    }

    /**
     * `fetchPost`: `found` says whether a published post with the id came
     * back; `images` is its image array, None when absent.
     */
    method FetchPost(found: bool, id: string, title: string, content: string, publishedAt: string,
                     images: Option<array<Image>>)
      modifies this, if images.Some? then {images.value} else {}
      ensures !loading && showExif == old(showExif)
      ensures !found ==> post == old(post)
      ensures !found && images.Some? ==> images.value[..] == old(images.value[..])
      ensures found && images.None? ==> post == Some(PostView(id, title, content, publishedAt, None))
      ensures found && images.Some? ==>
        && post == Some(PostView(id, title, content, publishedAt, Some(images.value[..])))
        && SortedByOrder(images.value[..])
        && multiset(images.value[..]) == multiset(old(images.value[..]))
    {
      if found {
        if images.Some? {
          SortByDisplayOrder(images.value);
          post := Some(PostView(id, title, content, publishedAt, Some(images.value[..])));
        } else {
          post := Some(PostView(id, title, content, publishedAt, None));
        }
      }
      loading := false;
    }

    method ToggleExif()
      modifies this`showExif
      ensures showExif == !old(showExif)
    {
      showExif := !showExif;
    }

    /** The image section of the page as it stands. */
    function Images(): (r: Option<seq<Rendered>>)
      reads this
      ensures r.Some? <==> post.Some? && post.value.images.Some? && post.value.images.value != []
    {
      if post.None? then None else ImageSection(post.value.images, showExif)
    }
  }
}
