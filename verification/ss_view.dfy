/**
 * The per-slide view `app.SSView` and its factory. A view is bound to one
 * photo, holds the url and the two caption strings the slide shows, and
 * reports the load state of its image element. The sizing variants
 * (letterbox, zoom, frame, full) differ only in how they render, so a view
 * carries its variant as a tag.
 *
 * Every write of `url`, `authorLabel` or `locationLabel` is pushed to the
 * template model; the `shown...` fields hold the values the model last
 * received.
 */
module Views {
  import opened Text
  import opened Photos

  /** The sizing modes of `app.SSViews.Type`. */
  const LETTERBOX: int := 0
  const ZOOM: int := 1
  const FRAME: int := 2
  const FULL: int := 3

  datatype ViewKind = LetterboxView | ZoomView | FrameView | FullView

  /** The variant `createView` builds for a sizing mode; unknown modes get a letterbox view. */
  function KindFor(sizing: int): (k: ViewKind)
    ensures k == ZoomView <==> sizing == ZOOM
    ensures k == FrameView <==> sizing == FRAME
    ensures k == FullView <==> sizing == FULL
    ensures k == LetterboxView <==> sizing != ZOOM && sizing != FRAME && sizing != FULL
  {
    if sizing == LETTERBOX then LetterboxView
    else if sizing == ZOOM then ZoomView
    else if sizing == FRAME then FrameView
    else if sizing == FULL then FullView
    else LetterboxView
  }

  /** How far a photo's aspect ratio may stray from the screen's before it looks bad cropped or stretched. */
  const CUT_OFF: real := 0.5

  /** A photo's aspect ratio as the photo record holds it: absent, NaN, or a number. */
  datatype Aspect = Missing | NotANumber | Ratio(value: real)

  function Abs(x: real): real {
    if x < 0.0 then -x else x
  }

  /** The aspect ratio `asp` deviates from the screen's by more than the cut-off. */
  function IsBadAspect(asp: real, screenAsp: real): (r: bool)
    ensures r <==> Abs(asp - screenAsp) > CUT_OFF
  {
    (asp < screenAsp - CUT_OFF) || (asp > screenAsp + CUT_OFF)
  }

  /**
   * Whether a photo is left out of the rotation: it has no usable aspect
   * ratio, or the `skip` preference is on, the sizing crops (zoom) or
   * stretches (full), and the ratio is far from the screen's.
   */
  function Ignore(asp: Aspect, sizing: int, skip: bool, screenAsp: real): (r: bool)
    ensures !asp.Ratio? || asp.value == 0.0 ==> r
    ensures asp.Ratio? && asp.value != 0.0 ==>
      (r <==> skip && (sizing == ZOOM || sizing == FULL) && Abs(asp.value - screenAsp) > CUT_OFF)
  {
    (!asp.Ratio? || asp.value == 0.0)
    || (skip && (sizing == ZOOM || sizing == FULL) && IsBadAspect(asp.value, screenAsp))
  }

  /** With `skip` off only photos without a usable ratio are ignored, whatever the sizing. */
  lemma IgnoreWithoutSkip(asp: Aspect, sizing: int, screenAsp: real)
    ensures Ignore(asp, sizing, false, screenAsp) <==> !asp.Ratio? || asp.value == 0.0
  {
  }

  const USER: string := "User"

  /**
   * The origin type as the author caption shows it: when it contains
   * "User", the text before the character that precedes the first "User"
   * ("Google User" becomes "Google"); otherwise the whole type.
   */
  function DisplayType(photoType: string): (r: string)
    ensures !Contains(photoType, USER) ==> r == photoType
    ensures Contains(photoType, USER) ==> |r| < |photoType| && r == photoType[..|r|]
    ensures Contains(photoType, USER) && |r| > 0 ==> FirstAt(photoType, USER, |r| + 1)
    ensures Contains(photoType, USER) && |r| == 0 ==>
      FirstAt(photoType, USER, 0) || FirstAt(photoType, USER, 1)
  {
    match IndexOf(photoType, USER)
    case None => photoType
    case Some(idx) => photoType[..if idx == 0 then 0 else idx - 1]
  }

  /**
   * The author caption. Photos whose type contains "User" get no caption
   * unless `showPhotog` is on; otherwise the caption names the photographer
   * and the display type, or, for a blank photographer, the localized
   * "photo from" text and the display type.
   */
  function AuthorLabel(photoType: string, photographer: string, showPhotog: bool, photoFrom: string): (r: string)
    ensures Contains(photoType, USER) && !showPhotog ==> r == ""
    ensures (!Contains(photoType, USER) || showPhotog) && !IsWhiteSpace(photographer) ==>
      r == photographer + " / " + DisplayType(photoType)
    ensures (!Contains(photoType, USER) || showPhotog) && IsWhiteSpace(photographer) ==>
      r == photoFrom + " " + DisplayType(photoType)
  {
    if !showPhotog && IndexOf(photoType, USER).Some? then ""
    else if !IsWhiteSpace(photographer) then photographer + " / " + DisplayType(photoType)
    else photoFrom + " " + DisplayType(photoType)
  }

  /** "Flickr User" is shown as "Flickr". */
  lemma DisplayTypeFlickrUser(t: string)
    requires t == "Flickr User"
    ensures DisplayType(t) == "Flickr"
  {
    forall j | 0 <= j < 7 ensures !OccursAt(t, USER, j) {
      assert t[j] != 'U';
    }
    assert OccursAt(t, USER, 7);
    FirstAtUnique(t, USER, IndexOf(t, USER).value, 7);
  }

  /** A user's own Flickr photo without a photographer: no caption unless `showPhotog` is on, then "<photo from> Flickr". */
  lemma AuthorLabelFlickrUser(t: string, photoFrom: string)
    requires t == "Flickr User"
    ensures AuthorLabel(t, "", false, photoFrom) == ""
    ensures AuthorLabel(t, "", true, photoFrom) == photoFrom + " Flickr"
  {
    assert OccursAt(t, USER, 7);
    DisplayTypeFlickrUser(t);
    assert IsWhiteSpace("");
  }

  const UNNAMED_ROAD: string := "Unnamed Road, "

  /** A resolved place name with its first "Unnamed Road, " removed. */
  function StripUnnamedRoad(location: string): (r: string)
    ensures !Contains(location, UNNAMED_ROAD) ==> r == location
    ensures Contains(location, UNNAMED_ROAD) ==>
      |r| == |location| - |UNNAMED_ROAD| &&
      exists i :: 0 <= i <= |r| && FirstAt(location, UNNAMED_ROAD, i) && location == r[..i] + UNNAMED_ROAD + r[i..]
  {
    match IndexOf(location, UNNAMED_ROAD)
    case None => location
    case Some(i) =>
      var r := location[..i] + location[i + |UNNAMED_ROAD|..];
      assert location == r[..i] + UNNAMED_ROAD + r[i..];
      r
  }

  /** Only the first occurrence goes. */
  lemma StripUnnamedRoadOnce()
    ensures StripUnnamedRoad("Unnamed Road, Unnamed Road, Paris") == "Unnamed Road, Paris"
  {
    assert OccursAt("Unnamed Road, Unnamed Road, Paris", UNNAMED_ROAD, 0);
  }

  /** The image element a view is wired to; its state changes as the image loads. */
  class ImageElement {
    var error: bool
    var loaded: bool
  }

  class SSView {
    const kind: ViewKind
    var photo: Photo?
    var image: ImageElement?
    var url: string
    var authorLabel: string
    var locationLabel: string
    var shownUrl: string
    var shownAuthorLabel: string
    var shownLocationLabel: string

    constructor (photo: Photo, kind: ViewKind)
      ensures this.kind == kind && this.photo == photo && url == photo.url
      ensures image == null && authorLabel == "" && locationLabel == ""
    {
      this.kind := kind;
      this.photo := photo;
      image := null;
      url := photo.url;
      authorLabel, locationLabel := "", "";
      shownUrl, shownAuthorLabel, shownLocationLabel := "", "", "";
    }

    /** Shows `u`, or the photo's own url when `u` is absent or empty. */
    method SetUrl(u: Option<string>)
      requires photo != null
      modifies this`url, this`shownUrl
      ensures u.Some? && u.value != "" ==> url == u.value
      ensures u.None? || u.value == "" ==> url == photo.url
      ensures shownUrl == url
    {
      url := if u.Some? && u.value != "" then u.value else photo.url;
      shownUrl := url;
    }

    /** Flags the bound photo unusable, if there is one. */
    method MarkPhotoBad()
      modifies photo
      ensures photo != null ==> !photo.isGood
    {
      if photo != null {
        photo.MarkBad();
      }
    }

    method SetAuthorLabel(showPhotog: bool, photoFrom: string)
      requires photo != null
      modifies this`authorLabel, this`shownAuthorLabel
      ensures authorLabel == AuthorLabel(photo.photoType, photo.photographer, showPhotog, photoFrom)
      ensures shownAuthorLabel == authorLabel
    {
      authorLabel := "";
      shownAuthorLabel := authorLabel;

      var photoType := photo.photoType;
      var photographer := photo.photographer;
      var newType := photoType;
      var idx := IndexOf(photoType, USER);

      if !showPhotog && idx.Some? {
        return;
      }

      if idx.Some? {
        newType := photoType[..if idx.value == 0 then 0 else idx.value - 1];
      }

      if !IsWhiteSpace(photographer) {
        authorLabel := photographer + " / " + newType;
      } else {
        authorLabel := photoFrom + " " + newType;
      }
      shownAuthorLabel := authorLabel;
    }

    /**
     * Clears the location caption; `lookup` says whether a geolocation
     * lookup for the photo's point is started.
     */
    method SetLocationLabel(showLocation: bool) returns (lookup: bool)
      requires photo != null
      modifies this`locationLabel, this`shownLocationLabel
      ensures locationLabel == "" && shownLocationLabel == ""
      ensures lookup <==> showLocation && photo.point.Some?
    {
      locationLabel := "";
      shownLocationLabel := locationLabel;
      lookup := showLocation && photo.point.Some?;
    }

    /** Binds the view to `p` and derives its url and captions afresh. */
    method SetPhoto(p: Photo, showPhotog: bool, showLocation: bool, photoFrom: string) returns (lookup: bool)
      modifies this`photo, this`url, this`shownUrl, this`authorLabel, this`shownAuthorLabel
      modifies this`locationLabel, this`shownLocationLabel
      ensures photo == p && url == p.url && shownUrl == url
      ensures authorLabel == AuthorLabel(p.photoType, p.photographer, showPhotog, photoFrom)
      ensures shownAuthorLabel == authorLabel
      ensures locationLabel == "" && shownLocationLabel == ""
      ensures lookup <==> showLocation && p.point.Some?
    {
      photo := p;
      SetUrl(None);
      SetAuthorLabel(showPhotog, photoFrom);
      lookup := SetLocationLabel(showLocation);
    }

    /** Wires the view to its image element and renders its photo. */
    method SetElements(image: ImageElement?, showPhotog: bool, showLocation: bool, photoFrom: string)
      returns (lookup: bool)
      requires photo != null
      modifies this`image, this`photo, this`url, this`shownUrl, this`authorLabel, this`shownAuthorLabel
      modifies this`locationLabel, this`shownLocationLabel
      ensures this.image == image && photo == old(photo) && url == photo.url && shownUrl == url
      ensures authorLabel == AuthorLabel(photo.photoType, photo.photographer, showPhotog, photoFrom)
      ensures shownAuthorLabel == authorLabel
      ensures locationLabel == "" && shownLocationLabel == ""
      ensures lookup <==> showLocation && photo.point.Some?
    {
      this.image := image;
      lookup := SetPhoto(photo, showPhotog, showLocation, photoFrom);
    }

    /** The image failed to load, or the view has no image element yet. */
    function IsError(): (r: bool)
      reads this, image
      ensures image == null ==> r
      ensures image != null ==> (r <==> image.error)
    {
      image == null || image.error
    }

    /** The image element exists and has finished loading. */
    function IsLoaded(): (r: bool)
      reads this, image
      ensures r <==> image != null && image.loaded
    {
      image != null && image.loaded
    }
  }

  /** A view that was never wired reports an error and is not loaded. */
  lemma UnwiredViewIsInError(v: SSView)
    requires v.image == null
    ensures v.IsError() && !v.IsLoaded()
  {
  }

  /**
   * Once wired, a view's status is its image element's: in error exactly
   * when the element failed, loaded exactly when the element finished; so a
   * loaded view is in error only when its element reports both.
   */
  lemma WiredViewStatus(v: SSView)
    requires v.image != null
    ensures v.IsError() <==> v.image.error
    ensures v.IsLoaded() <==> v.image.loaded
    ensures v.IsLoaded() && v.IsError() <==> v.image.loaded && v.image.error
  {
  }

  /** `createView`: a new view of the variant the sizing mode selects. */
  method CreateView(photo: Photo, sizing: int) returns (v: SSView)
    ensures fresh(v) && v.kind == KindFor(sizing)
    ensures v.photo == photo && v.url == photo.url
    ensures v.image == null && v.authorLabel == "" && v.locationLabel == ""
  {
    v := new SSView(photo, KindFor(sizing));
  }
}
