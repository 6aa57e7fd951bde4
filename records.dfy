/** The shapes of what the scene store returns, and the deployment settings the
    projectors read from the environment. */
module Records {
  import opened Wrappers

  /** A longitude/latitude pair. */
  datatype Point = Point(lon: real, lat: real)

  /** One stored asset of a scene: its band name and its file path below the imagery root. */
  datatype AssetRef = AssetRef(band: string, href: string)

  /** A row of `stac_item`, with the `assets` JSON column already decoded.
      `tl`, `bl`, `br`, `tr` are the top-left, bottom-left, bottom-right and top-right corners. */
  datatype Scene = Scene(
    id: string,
    collection: string,
    datetime: string,
    tl: Point, bl: Point, br: Point, tr: Point,
    path: int,
    row: int,
    satellite: string,
    sensor: string,
    cloudCover: real,
    syncLoss: real,
    thumbnail: string,
    assets: seq<AssetRef>)

  /** A row of `stac_collection` left-joined with the `assets` of one of its
      scenes; `assets` is None when the collection has no scene. */
  datatype CollectionRecord = CollectionRecord(
    id: string,
    description: string,
    minX: real, minY: real, maxX: real, maxY: real,
    startDate: string,
    endDate: Option<string>,
    assets: Option<seq<AssetRef>>)

  /** A row of the grouped count query: a collection and how many scenes of it match. */
  datatype CountEntry = CountEntry(collection: string, matched: nat)

  /** The environment settings the projectors use: API_VERSION, BASE_URI,
      TIF_ROOT and PNG_ROOT. */
  datatype Config = Config(apiVersion: string, baseUri: string, tifRoot: string, pngRoot: string)
}
