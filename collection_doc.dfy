/** `make_json_collection` of inpe_stac/data.py: the STAC collection document
    built from one `stac_collection` row. */
module CollectionDoc {
  import opened Wrappers
  import opened Records
  import Items

  const STAC_EXTENSIONS: seq<string> := ["eo"]

  /** The STAC collection document. `license` is always None; `temporal` is
      `[start, end]` with `end` None for a collection still being acquired. */
  datatype Collection = Collection(
    stacVersion: string,
    stacExtensions: seq<string>,
    id: string,
    title: string,
    description: string,
    license: Option<string>,
    spatial: seq<real>,
    temporalStart: string,
    temporalEnd: Option<string>,
    eoBands: seq<Items.EoBand>,
    links: seq<Items.Link>)

  /** `json.loads(None)` raises a TypeError: a collection without a scene has no assets to decode. */
  datatype CollectionError = AssetsMissing

  /** The five links of a collection document: itself, its items, and the
      catalogue as parent and twice as root. */
  function CollectionLinks(cfg: Config, id: string): (links: seq<Items.Link>)
    ensures |links| == 5
    ensures links[0] == Items.Link(cfg.baseUri + "collections/" + id, "self")
    ensures links[1] == Items.Link(cfg.baseUri + "collections/" + id + "/items", "items")
    ensures links[2] == Items.Link(cfg.baseUri + "collections", "parent")
    ensures links[3] == Items.Link(cfg.baseUri + "collections", "root")
    ensures links[4] == Items.Link(cfg.baseUri + "stac", "root")
  {
    [ Items.Link(cfg.baseUri + "collections/" + id, "self"),
      Items.Link(cfg.baseUri + "collections/" + id + "/items", "items"),
      Items.Link(cfg.baseUri + "collections", "parent"),
      Items.Link(cfg.baseUri + "collections", "root"),
      Items.Link(cfg.baseUri + "stac", "root") ]
  }

  /** The document `make_json_collection` returns, or the error it raises. */
  function CollectionOf(cfg: Config, c: CollectionRecord): (r: Result<Collection, CollectionError>)
  {
    if c.assets.None? then Failure(AssetsMissing)
    else
      Success(Collection(
        cfg.apiVersion, STAC_EXTENSIONS, c.id, c.id, c.description, None,
        [c.minX, c.minY, c.maxX, c.maxY], c.startDate, c.endDate,
        Items.EoBandsOf(c.assets.value), CollectionLinks(cfg, c.id)))
  }

  /** `make_json_collection`, with its loop building `eo:bands`. */
  method MakeJsonCollection(cfg: Config, c: CollectionRecord) returns (r: Result<Collection, CollectionError>)
    ensures r == CollectionOf(cfg, c)
  {
    if c.assets.None? {
      return Failure(AssetsMissing);
    }
    var assets := c.assets.value;
    var eoBands: seq<Items.EoBand> := [];
    var i := 0;
    while i < |assets|
      invariant 0 <= i <= |assets|
      invariant eoBands == Items.EoBandsOf(assets[..i])
    {
      assert assets[..i + 1][..i] == assets[..i];
      eoBands := eoBands + [Items.EoBand(assets[i].band, assets[i].band)];
      i := i + 1;
    }
    assert assets[..|assets|] == assets;
    var links := [
      Items.Link(cfg.baseUri + "collections/" + c.id, "self"),
      Items.Link(cfg.baseUri + "collections/" + c.id + "/items", "items"),
      Items.Link(cfg.baseUri + "collections", "parent"),
      Items.Link(cfg.baseUri + "collections", "root"),
      Items.Link(cfg.baseUri + "stac", "root")];
    r := Success(Collection(
      cfg.apiVersion, ["eo"], c.id, c.id, c.description, None,
      [c.minX, c.minY, c.maxX, c.maxY], c.startDate, c.endDate, eoBands, links));
  }

  /** A record is rejected exactly when it carries no assets. */
  lemma RejectedIffNoAssets(cfg: Config, c: CollectionRecord)
    ensures CollectionOf(cfg, c).Failure? <==> c.assets.None?
  {
  }

  /** The document carries the record's identity, extent and dates back out
      unchanged (a null end date stays None), one band per asset in order,
      and the five catalogue links. */
  lemma CollectionContents(cfg: Config, c: CollectionRecord)
    requires c.assets.Some?
    ensures var d := CollectionOf(cfg, c).value;
      && d.id == c.id && d.title == c.id && d.description == c.description
      && d.stacVersion == cfg.apiVersion && d.stacExtensions == ["eo"] && d.license.None?
      && d.spatial == [c.minX, c.minY, c.maxX, c.maxY]
      && d.temporalStart == c.startDate && d.temporalEnd == c.endDate
      && |d.eoBands| == |c.assets.value|
      && (forall i :: 0 <= i < |c.assets.value| ==>
            d.eoBands[i].name == c.assets.value[i].band && d.eoBands[i].commonName == c.assets.value[i].band)
      && |d.links| == 5
      && d.links[0].href == cfg.baseUri + "collections/" + c.id
      && d.links[1].href == d.links[0].href + "/items"
  {
  }

  /** The document keeps everything of the record but the asset paths: two
      records with the same document agree on every column and on the band
      names of their assets, in order. */
  lemma DocumentDeterminesRecord(cfg: Config, c: CollectionRecord, c': CollectionRecord)
    requires c.assets.Some? && c'.assets.Some?
    requires CollectionOf(cfg, c) == CollectionOf(cfg, c')
    ensures c.(assets := None) == c'.(assets := None)
    ensures |c.assets.value| == |c'.assets.value|
    ensures forall i :: 0 <= i < |c.assets.value| ==> c.assets.value[i].band == c'.assets.value[i].band
  {
    var d := CollectionOf(cfg, c).value;
    assert |c.assets.value| == |d.eoBands| == |c'.assets.value|;
    forall i | 0 <= i < |c.assets.value| ensures c.assets.value[i].band == c'.assets.value[i].band {
      assert c.assets.value[i].band == d.eoBands[i].name == c'.assets.value[i].band;
    }
  }
}
