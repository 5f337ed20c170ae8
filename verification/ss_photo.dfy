/**
 * The photo entity a slide view is bound to. Only the parts the view and
 * the recovery handler use are kept: the identifier used to correlate a
 * photo with a freshly fetched one (`getEx().id`), its url, photographer,
 * optional geo point, origin type, and the usability flag `markBad` clears.
 */
module Photos {
  import opened Text

  /** Origin type of photos from the user's own Google Photos albums. */
  const GOOGLE_USER: string := "Google User"

  class Photo {
    const id: string
    const url: string
    const photographer: string
    const point: Option<string>
    const photoType: string
    var isGood: bool

    constructor (id: string, url: string, photographer: string, point: Option<string>, photoType: string)
      ensures this.id == id && this.url == url && this.photographer == photographer
      ensures this.point == point && this.photoType == photoType && isGood
    {
      this.id, this.url, this.photographer := id, url, photographer;
      this.point, this.photoType := point, photoType;
      isGood := true;
    }

    /** Flags the photo unusable; calling it again changes nothing. */
    method MarkBad()
      modifies this`isGood
      ensures !isGood
    {
      isGood := false;
    }
  }
}
