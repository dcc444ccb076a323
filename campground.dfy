/** The Campground document: the `thumbnail` virtual of its images, the
    `properties.popUpMarkup` virtual, the shape rule on `geometry`, and the
    review-removal request built after `findOneAndDelete`. A field that is
    absent or null is `None`; both throw when a method is called on them.
    `Interpolate` alone reads `None` as `undefined` only. */
module CampgroundModel {
  import opened Express
  import opened JsString

  /** Reading a property of `undefined` throws a TypeError. */
  datatype Outcome<T> = Value(value: T) | TypeError

  datatype Image = Image(url: Option<string>, filename: Option<string>)

  /** The GeoJSON-style `geometry` sub-document: its `type` tag and its
      `coordinates` list. */
  datatype Geometry = Geometry(kind: Option<string>, coordinates: Option<seq<real>>)

  datatype Campground = Campground(
    id: ObjectId,
    title: Option<string>,
    price: Option<real>,
    description: Option<string>,
    location: Option<string>,
    images: seq<Image>,
    reviews: seq<ObjectId>,
    author: Option<ObjectId>,
    geometry: Geometry)

  // ---------------------------------------------------------------------
  // Image thumbnails

  const UploadSegment: string := "/upload"
  const ResizeSuffix: string := "/w_200"

  /** The `thumbnail` virtual: `url.replace('/upload', '/upload/w_200')`. */
  function Thumbnail(img: Image): (r: Outcome<string>)
    ensures r.TypeError? <==> img.url.None?
  {
    match img.url
    case None => TypeError
    case Some(url) => Value(ReplaceFirst(url, UploadSegment, UploadSegment + ResizeSuffix))
  }

  /** A url without "/upload" is its own thumbnail. */
  lemma ThumbnailWithoutUpload(url: string)
    requires forall j: nat :: !OccursAt(url, UploadSegment, j)
    ensures Thumbnail(Image(Some(url), None)) == Value(url)
  {
  }

  /** With "/upload" first at index `i`, the thumbnail keeps the url up to and
      including that "/upload", inserts "/w_200" there, and continues with the
      rest of the url unchanged; it is six characters longer. Nothing before
      `i` is an occurrence, so only the first one is touched. */
  lemma ThumbnailInsertsAfterFirstUpload(url: string, i: nat)
    requires OccursAt(url, UploadSegment, i)
    requires forall j: nat :: j < i ==> !OccursAt(url, UploadSegment, j)
    ensures Thumbnail(Image(Some(url), None)).Value?
    ensures var t := Thumbnail(Image(Some(url), None)).value;
      && |t| == |url| + 6
      && t[..i + 7] == url[..i + 7]
      && t[i + 7..i + 13] == ResizeSuffix
      && t[i + 13..] == url[i + 7..]
  {
  }

  // ---------------------------------------------------------------------
  // Map pop-up markup

  const ExcerptLength: nat := 20

  /** `${value}` in a template literal: `undefined` prints as "undefined".
      Here `None` is `undefined` only; a null title would print "null". */
  function Interpolate(value: Option<string>): (r: string)
    ensures value.Some? ==> r == value.value
    ensures value.None? ==> r == "undefined"
  {
    match value
    case Some(v) => v
    case None => "undefined"
  }

  /** `description.substring(0, 20)`: the first twenty characters, or the
      whole description when it is shorter. */
  function Excerpt(description: string): (r: string)
    ensures |r| == if |description| < ExcerptLength then |description| else ExcerptLength
    ensures r <= description
  {
    Substring(description, 0, ExcerptLength)
  }

  /** The link to the campground's own page, with its title as link text. */
  function Anchor(id: ObjectId, title: Option<string>): string
  {
    "<a href=\"/campgrounds/" + id + "\">" + Interpolate(title) + "</a>"
  }

  /** The `properties.popUpMarkup` virtual: the bold link, then (after the
      template's line break and indentation) a paragraph with the excerpt
      followed by "...". A missing description throws. */
  function PopUpMarkup(c: Campground): (r: Outcome<string>)
    ensures r.TypeError? <==> c.description.None?
  {
    match c.description
    case None => TypeError
    case Some(d) =>
      Value("<strong>" + Anchor(c.id, c.title) + "</strong>\n    <p>" + Excerpt(d) + "...</p>")
  }

  /** The markup opens with the bold link to "/campgrounds/" + id whose text
      is the title, and ends with the excerpt and "..." in a paragraph. */
  lemma PopUpMarkupShape(c: Campground)
    requires c.description.Some?
    ensures PopUpMarkup(c).Value?
    ensures var m := PopUpMarkup(c).value;
      var a := Anchor(c.id, c.title);
      var tail := "<p>" + Excerpt(c.description.value) + "...</p>";
      && m[..8] == "<strong>"
      && 8 + |a| <= |m| && m[8..8 + |a|] == a
      && |tail| <= |m| && m[|m| - |tail|..] == tail
  {
  }

  // ---------------------------------------------------------------------
  // Geometry shape rule

  const PointTag: string := "Point"

  /** The Mongoose validators on `geometry.type` (required, enum ['Point'])
      and `geometry.coordinates` (required); returns the paths that fail. */
  function GeometryErrors(g: Geometry): (failing: set<string>)
    ensures failing <= {"geometry.type", "geometry.coordinates"}
    ensures "geometry.type" in failing <==> g.kind != Some(PointTag)
    ensures "geometry.coordinates" in failing <==> g.coordinates.None?
  {
    var typeFails := g.kind.None? || g.kind.value == "" || g.kind.value !in [PointTag];
    (if typeFails then {"geometry.type"} else {}) +
    (if g.coordinates.None? then {"geometry.coordinates"} else {})
  }

  /** A geometry passes validation exactly when its tag is "Point" and its
      coordinates are present. */
  lemma GeometryAccepted(g: Geometry)
    ensures GeometryErrors(g) == {} <==> g.kind == Some(PointTag) && g.coordinates.Some?
  {
  }

  /** The schema does not require a position of two numbers, as a GeoJSON
      Point (section 3.1.2 of RFC 7946) does: an empty or one-number list
      passes. */
  lemma PointWithoutPositionAccepted()
    ensures GeometryErrors(Geometry(Some(PointTag), Some([]))) == {}
    ensures GeometryErrors(Geometry(Some(PointTag), Some([1.0]))) == {}
  {
    GeometryAccepted(Geometry(Some(PointTag), Some([])));
    GeometryAccepted(Geometry(Some(PointTag), Some([1.0])));
  }

  // ---------------------------------------------------------------------
  // Review removal after delete

  /** `Review.remove({ <field>: { $in: <ids> } })`. */
  datatype ReviewRemoval = RemoveWhereIn(field: string, ids: seq<ObjectId>)

  /** The post-`findOneAndDelete` hook: when a document was deleted, one
      removal request over exactly its review ids, filtered on the field
      "id" as written; when nothing was deleted, no request. */
  function PostDeleteRequest(deleted: Option<Campground>): (r: Option<ReviewRemoval>)
    ensures r.Some? <==> deleted.Some?
    ensures r.Some? ==> r.value.ids == deleted.value.reviews
    ensures r.Some? ==> r.value.field == "id"
  {
    match deleted
    case None => None
    case Some(doc) => Some(RemoveWhereIn("id", doc.reviews))
  }
}
