/** The item projectors of inpe_stac/data.py: `bbox`, `make_json_items`
    (one GeoJSON feature per scene row) and `make_json_item_collection` (the
    context extension added to the item collection in place). */
module Items {
  import opened Wrappers
  import opened Text
  import opened Records
  import opened OrderedDict
  import FilterBuilder
  import Search

  // ---- the footprint ----

  /** `x[i]` of a `[longitude, latitude]` pair. */
  function Coord(p: Point, axis: nat): (r: real)
    requires axis < 2
  {
    if axis == 0 then p.lon else p.lat
  }

  /** The first coordinate after sorting the ring on `axis`: its least value. */
  function LeastOn(ring: seq<Point>, axis: nat): (r: real)
    requires |ring| > 0 && axis < 2
    ensures forall k :: 0 <= k < |ring| ==> r <= Coord(ring[k], axis)
    ensures exists k :: 0 <= k < |ring| && Coord(ring[k], axis) == r
  {
    if |ring| == 1 then Coord(ring[0], axis)
    else
      var rest := LeastOn(ring[1..], axis);
      assert forall k :: 1 <= k < |ring| ==> ring[k] == ring[1..][k - 1];
      if Coord(ring[0], axis) <= rest then Coord(ring[0], axis)
      else
        var k :| 0 <= k < |ring[1..]| && Coord(ring[1..][k], axis) == rest;
        assert Coord(ring[k + 1], axis) == rest;
        rest
  }

  /** The last coordinate after sorting the ring on `axis`: its greatest value. */
  function GreatestOn(ring: seq<Point>, axis: nat): (r: real)
    requires |ring| > 0 && axis < 2
    ensures forall k :: 0 <= k < |ring| ==> Coord(ring[k], axis) <= r
    ensures exists k :: 0 <= k < |ring| && Coord(ring[k], axis) == r
  {
    if |ring| == 1 then Coord(ring[0], axis)
    else
      var rest := GreatestOn(ring[1..], axis);
      assert forall k :: 1 <= k < |ring| ==> ring[k] == ring[1..][k - 1];
      if Coord(ring[0], axis) >= rest then Coord(ring[0], axis)
      else
        var k :| 0 <= k < |ring[1..]| && Coord(ring[1..][k], axis) == rest;
        assert Coord(ring[k + 1], axis) == rest;
        rest
  }

  /** `bbox`: `[min lon, min lat, max lon, max lat]` of the ring. */
  function Bbox(ring: seq<Point>): (box: seq<real>)
    requires |ring| > 0
    ensures |box| == 4
  {
    [LeastOn(ring, 0), LeastOn(ring, 1), GreatestOn(ring, 0), GreatestOn(ring, 1)]
  }

  /** Each bound of the bbox is the coordinate of some point of the ring, and
      every point lies within them. */
  lemma BboxBounds(ring: seq<Point>)
    requires |ring| > 0
    ensures var box := Bbox(ring);
      && box[0] <= box[2] && box[1] <= box[3]
      && (forall k :: 0 <= k < |ring| ==> box[0] <= ring[k].lon <= box[2] && box[1] <= ring[k].lat <= box[3])
      && (exists k :: 0 <= k < |ring| && ring[k].lon == box[0])
      && (exists k :: 0 <= k < |ring| && ring[k].lat == box[1])
      && (exists k :: 0 <= k < |ring| && ring[k].lon == box[2])
      && (exists k :: 0 <= k < |ring| && ring[k].lat == box[3])
  {
    assert Coord(ring[0], 0) == ring[0].lon && Coord(ring[0], 1) == ring[0].lat;
    assert forall k :: 0 <= k < |ring| ==> Coord(ring[k], 0) == ring[k].lon && Coord(ring[k], 1) == ring[k].lat;
  }

  /** The closed polygon ring of a scene: top-left, bottom-left, bottom-right,
      top-right and top-left again. */
  function Ring(s: Scene): (r: seq<Point>)
  {
    [s.tl, s.bl, s.br, s.tr, s.tl]
  }

  /** The ring has five points, is closed, and visits the corners in the order TL, BL, BR, TR. */
  lemma RingShape(s: Scene)
    ensures var r := Ring(s);
      |r| == 5 && r[0] == r[4] == s.tl && r[1] == s.bl && r[2] == s.br && r[3] == s.tr
  {
  }

  /** A scene's bbox is spanned by its four corners, and used as a search box
      it selects the scene. */
  lemma SceneBbox(s: Scene)
    ensures var b := Bbox(Ring(s));
      && FilterBuilder.Inside(b[0], b[1], b[2], b[3], s.tl)
      && FilterBuilder.Inside(b[0], b[1], b[2], b[3], s.bl)
      && FilterBuilder.Inside(b[0], b[1], b[2], b[3], s.br)
      && FilterBuilder.Inside(b[0], b[1], b[2], b[3], s.tr)
      && b[0] in {s.tl.lon, s.bl.lon, s.br.lon, s.tr.lon}
      && b[1] in {s.tl.lat, s.bl.lat, s.br.lat, s.tr.lat}
      && b[2] in {s.tl.lon, s.bl.lon, s.br.lon, s.tr.lon}
      && b[3] in {s.tl.lat, s.bl.lat, s.br.lat, s.tr.lat}
      && FilterBuilder.BboxHits(b[0], b[1], b[2], b[3], s)
  {
    var r := Ring(s);
    var b := Bbox(r);
    BboxBounds(r);
    assert r[0] == s.tl && r[1] == s.bl && r[2] == s.br && r[3] == s.tr && r[4] == s.tl;
    FilterBuilder.SceneInsideBoxHits(b[0], b[1], b[2], b[3], s);
  }

  // ---- assets and bands ----

  const TIFF_TYPE := "image/tiff; application=geotiff"
  const XML_TYPE := "application/xml"
  const PNG_TYPE := "image/png"
  const THUMBNAIL := "thumbnail"

  /** One entry of a feature's `assets` dict; only band images carry `eo:bands`. */
  datatype AssetEntry = AssetEntry(href: string, mediaType: string, eoBands: Option<seq<nat>>)

  /** An element of `eo:bands`. */
  datatype EoBand = EoBand(name: string, commonName: string)

  type AssetMap = seq<(string, AssetEntry)>

  /** `eo:bands`: one element per asset, in order, naming its band. */
  function EoBandsOf(assets: seq<AssetRef>): (bands: seq<EoBand>)
    ensures |bands| == |assets|
    ensures forall i :: 0 <= i < |assets| ==> bands[i] == EoBand(assets[i].band, assets[i].band)
  {
    if |assets| == 0 then []
    else EoBandsOf(assets[..|assets| - 1]) + [EoBand(assets[|assets| - 1].band, assets[|assets| - 1].band)]
  }

  /** The band image entry of the i-th asset. */
  function BandEntry(cfg: Config, a: AssetRef, i: nat): (r: AssetEntry)
  {
    AssetEntry(cfg.tifRoot + a.href, TIFF_TYPE, Some([i]))
  }

  /** The metadata sidecar of an asset: the same path with every ".tif" turned into ".xml". */
  function SidecarEntry(cfg: Config, a: AssetRef): (r: AssetEntry)
  {
    AssetEntry(cfg.tifRoot + ReplaceAll(a.href, ".tif", ".xml"), XML_TYPE, None)
  }

  function SidecarKey(band: string): (r: string)
  {
    band + "_xml"
  }

  lemma SidecarKeyInjective(a: string, b: string)
    ensures SidecarKey(a) == SidecarKey(b) ==> a == b
  {
    assert SidecarKey(a)[..|a|] == a;
    assert SidecarKey(b)[..|b|] == b;
  }

  /** The asset dict after the band loop: per asset, the band entry and then its sidecar. */
  function BandAssets(cfg: Config, assets: seq<AssetRef>): (r: AssetMap)
  {
    if |assets| == 0 then []
    else
      var i := |assets| - 1;
      var a := assets[i];
      Put(Put(BandAssets(cfg, assets[..i]), a.band, BandEntry(cfg, a, i)), SidecarKey(a.band), SidecarEntry(cfg, a))
  }

  function ThumbnailEntry(cfg: Config, s: Scene): (r: AssetEntry)
  {
    AssetEntry(cfg.pngRoot + s.thumbnail, PNG_TYPE, None)
  }

  /** A feature's `assets`: the band loop, then the thumbnail. */
  function AssetsOf(cfg: Config, s: Scene): (r: AssetMap)
  {
    Put(BandAssets(cfg, s.assets), THUMBNAIL, ThumbnailEntry(cfg, s))
  }

  function BandKeys(assets: seq<AssetRef>): (r: set<string>)
  {
    (set a | a in assets :: a.band) + (set a | a in assets :: SidecarKey(a.band))
  }

  lemma BandKeysSnoc(front: seq<AssetRef>, a: AssetRef)
    ensures BandKeys(front + [a]) == BandKeys(front) + {a.band, SidecarKey(a.band)}
  {
    var s := front + [a];
    assert forall x :: x in s <==> x in front || x == a;
    assert (set x | x in s :: x.band) == (set x | x in front :: x.band) + {a.band};
    assert (set x | x in s :: SidecarKey(x.band)) == (set x | x in front :: SidecarKey(x.band)) + {SidecarKey(a.band)};
  }

  /** The dict holds just the bands and their sidecars, each key once. */
  lemma {:induction false} BandAssetsKeys(cfg: Config, assets: seq<AssetRef>)
    ensures Keys(BandAssets(cfg, assets)) == BandKeys(assets)
    ensures UniqueKeys(BandAssets(cfg, assets))
    decreases |assets|
  {
    if |assets| > 0 {
      var i := |assets| - 1;
      BandAssetsKeys(cfg, assets[..i]);
      assert assets == assets[..i] + [assets[i]];
      BandKeysSnoc(assets[..i], assets[i]);
    }
  }

  lemma AssetsKeys(cfg: Config, s: Scene)
    ensures Keys(AssetsOf(cfg, s)) == BandKeys(s.assets) + {THUMBNAIL}
    ensures UniqueKeys(AssetsOf(cfg, s))
  {
    BandAssetsKeys(cfg, s.assets);
  }

  /** The thumbnail entry is always present and points below the PNG root. */
  lemma ThumbnailPresent(cfg: Config, s: Scene)
    ensures Get(AssetsOf(cfg, s), THUMBNAIL) == Some(ThumbnailEntry(cfg, s))
  {
  }

  /** No band name is repeated, none is another band's sidecar key, and none is taken by the thumbnail. */
  predicate CollisionFree(assets: seq<AssetRef>)
  {
    && (forall i, j :: 0 <= i < j < |assets| ==> assets[i].band != assets[j].band)
    && (forall i, j :: 0 <= i < |assets| && 0 <= j < |assets| ==> assets[i].band != SidecarKey(assets[j].band))
    && (forall i :: 0 <= i < |assets| ==> assets[i].band != THUMBNAIL && SidecarKey(assets[i].band) != THUMBNAIL)
  }

  lemma {:induction false} BandAssetsEntries(cfg: Config, assets: seq<AssetRef>, i: nat)
    requires i < |assets| && CollisionFree(assets)
    ensures Get(BandAssets(cfg, assets), assets[i].band) == Some(BandEntry(cfg, assets[i], i))
    ensures Get(BandAssets(cfg, assets), SidecarKey(assets[i].band)) == Some(SidecarEntry(cfg, assets[i]))
    decreases |assets|
  {
    var n := |assets| - 1;
    var last := assets[n];
    if i < n {
      var front := assets[..n];
      assert CollisionFree(front) by {
        assert forall k :: 0 <= k < n ==> front[k] == assets[k];
      }
      assert front[i] == assets[i];
      BandAssetsEntries(cfg, front, i);
      assert assets[i].band != last.band;
      assert assets[i].band != SidecarKey(last.band);
      assert SidecarKey(assets[i].band) != last.band;
      SidecarKeyInjective(assets[i].band, last.band);
    } else {
      assert SidecarKey(last.band) != last.band by {
        assert |SidecarKey(last.band)| == |last.band| + 4;
      }
    }
  }

  /** Without name collisions, the i-th asset's band entry is below the TIFF
      root with `eo:bands == [i]`, the i-th element of `eo:bands` names it,
      and its sidecar is below the same root with ".tif" turned into ".xml". */
  lemma AssetEntries(cfg: Config, s: Scene, i: nat)
    requires i < |s.assets| && CollisionFree(s.assets)
    ensures var d := AssetsOf(cfg, s);
      && Get(d, s.assets[i].band) == Some(AssetEntry(cfg.tifRoot + s.assets[i].href, TIFF_TYPE, Some([i])))
      && EoBandsOf(s.assets)[i].name == s.assets[i].band
      && Get(d, SidecarKey(s.assets[i].band))
         == Some(AssetEntry(cfg.tifRoot + ReplaceAll(s.assets[i].href, ".tif", ".xml"), XML_TYPE, None))
  {
    BandAssetsEntries(cfg, s.assets, i);
  }

  /** A path ending in ".tif" with no other ".tif" in it gets the sidecar path
      with that ending turned into ".xml". */
  lemma SidecarOfTif(cfg: Config, band: string, stem: string)
    requires !Occurs(stem, ".tif")
    ensures SidecarEntry(cfg, AssetRef(band, stem + ".tif")).href == cfg.tifRoot + stem + ".xml"
  {
    ReplaceTifSuffix(stem);
    ReplaceAbsent(stem, ".tif", ".xml");
  }

  // ---- features ----

  datatype Link = Link(href: string, rel: string)

  /** `properties` of a feature; `eo:gsd` is always -1. */
  datatype Properties = Properties(
    datetime: string,
    path: int,
    row: int,
    satellite: string,
    sensor: string,
    cloudCover: real,
    syncLoss: real,
    gsd: int,
    eoBands: seq<EoBand>)

  /** A GeoJSON `Feature` whose geometry is the polygon `ring`. */
  datatype Feature = Feature(
    stacVersion: string,
    stacExtensions: Option<seq<string>>,
    id: string,
    collection: string,
    ring: seq<Point>,
    bbox: seq<real>,
    properties: Properties,
    assets: AssetMap,
    links: seq<Link>)

  /** The caller's links with the item's path appended to the first three hrefs. */
  function FeatureLinks(links: seq<Link>, s: Scene): (r: seq<Link>)
    requires |links| >= 3
    ensures |r| == |links|
    ensures r[0].href == links[0].href + s.collection + "/items/" + s.id
    ensures r[1].href == links[1].href + s.collection && r[2].href == links[2].href + s.collection
    ensures forall k :: 0 <= k < |links| ==> r[k].rel == links[k].rel
    ensures r[3..] == links[3..]
  {
    links[0 := Link(links[0].href + s.collection + "/items/" + s.id, links[0].rel)]
         [1 := Link(links[1].href + s.collection, links[1].rel)]
         [2 := Link(links[2].href + s.collection, links[2].rel)]
  }

  function PropertiesOf(s: Scene): (r: Properties)
  {
    Properties(s.datetime, s.path, s.row, s.satellite, s.sensor, s.cloudCover, s.syncLoss, -1, EoBandsOf(s.assets))
  }

  /** The feature `make_json_items` builds for one scene row. */
  function FeatureOf(cfg: Config, s: Scene, links: seq<Link>, exts: Option<seq<string>>): (r: Feature)
    requires |links| >= 3
  {
    Feature(cfg.apiVersion, exts, s.id, s.collection, Ring(s), Bbox(Ring(s)), PropertiesOf(s),
            AssetsOf(cfg, s), FeatureLinks(links, s))
  }

  /** The body of the loop of `make_json_items` for one row: the band loop
      fills `assets` and `eo:bands` together, then the thumbnail and the links are added. */
  method MakeFeature(cfg: Config, s: Scene, links: seq<Link>, exts: Option<seq<string>>) returns (feature: Feature)
    requires |links| >= 3
    ensures feature == FeatureOf(cfg, s, links, exts)
  {
    var ring := [s.tl, s.bl, s.br, s.tr, s.tl];
    var assets: AssetMap := [];
    var eoBands: seq<EoBand> := [];
    var i := 0;
    while i < |s.assets|
      invariant 0 <= i <= |s.assets|
      invariant assets == BandAssets(cfg, s.assets[..i])
      invariant eoBands == EoBandsOf(s.assets[..i])
    {
      var a := s.assets[i];
      assert s.assets[..i + 1][..i] == s.assets[..i];
      eoBands := eoBands + [EoBand(a.band, a.band)];
      assets := Put(assets, a.band, AssetEntry(cfg.tifRoot + a.href, TIFF_TYPE, Some([|eoBands| - 1])));
      assets := Put(assets, a.band + "_xml", AssetEntry(cfg.tifRoot + ReplaceAll(a.href, ".tif", ".xml"), XML_TYPE, None));
      i := i + 1;
    }
    assert s.assets[..|s.assets|] == s.assets;
    assets := Put(assets, THUMBNAIL, AssetEntry(cfg.pngRoot + s.thumbnail, PNG_TYPE, None));
    var properties := Properties(s.datetime, s.path, s.row, s.satellite, s.sensor, s.cloudCover, s.syncLoss, -1, eoBands);
    var itemLinks := links;
    itemLinks := itemLinks[0 := Link(itemLinks[0].href + s.collection + "/items/" + s.id, itemLinks[0].rel)];
    itemLinks := itemLinks[1 := Link(itemLinks[1].href + s.collection, itemLinks[1].rel)];
    itemLinks := itemLinks[2 := Link(itemLinks[2].href + s.collection, itemLinks[2].rel)];
    feature := Feature(cfg.apiVersion, exts, s.id, s.collection, ring, Bbox(ring), properties, assets, itemLinks);
  }

  /** `[f(x) for x in s]`. */
  function Each<A, B>(f: A --> B, s: seq<A>): (r: seq<B>)
    requires forall k :: 0 <= k < |s| ==> f.requires(s[k])
    ensures |r| == |s|
  {
    if |s| == 0 then [] else Each(f, s[..|s| - 1]) + [f(s[|s| - 1])]
  }

  lemma {:induction false} EachAt<A, B>(f: A --> B, s: seq<A>)
    requires forall k :: 0 <= k < |s| ==> f.requires(s[k])
    ensures forall k :: 0 <= k < |s| ==> Each(f, s)[k] == f(s[k])
    decreases |s|
  {
    if |s| > 0 {
      var n := |s| - 1;
      EachAt(f, s[..n]);
      assert forall k :: 0 <= k < n ==> s[..n][k] == s[k];
    }
  }

  lemma EachSnoc<A, B>(f: A --> B, s: seq<A>, x: A)
    requires forall k :: 0 <= k < |s| ==> f.requires(s[k])
    requires f.requires(x)
    ensures Each(f, s + [x]) == Each(f, s) + [f(x)]
  {
    assert (s + [x])[..|s|] == s;
  }

  /** The features of all rows, in order: the i-th is built from the i-th row. */
  function FeaturesOf(cfg: Config, items: seq<Scene>, links: seq<Link>, exts: Option<seq<string>>): (r: seq<Feature>)
    requires |links| >= 3
  {
    Each((s: Scene) requires |links| >= 3 => FeatureOf(cfg, s, links, exts), items)
  }

  lemma FeaturesSnoc(cfg: Config, items: seq<Scene>, i: nat, links: seq<Link>, exts: Option<seq<string>>)
    requires |links| >= 3 && i < |items|
    ensures FeaturesOf(cfg, items[..i + 1], links, exts) == FeaturesOf(cfg, items[..i], links, exts) + [FeatureOf(cfg, items[i], links, exts)]
  {
    assert items[..i + 1] == items[..i] + [items[i]];
    EachSnoc((s: Scene) requires |links| >= 3 => FeatureOf(cfg, s, links, exts), items[..i], items[i]);
  }

  /** The loop of `make_json_items` over the rows. */
  method MakeFeatures(cfg: Config, rows: seq<Scene>, links: seq<Link>, exts: Option<seq<string>>)
    returns (features: seq<Feature>)
    requires |links| >= 3
    ensures features == FeaturesOf(cfg, rows, links, exts)
  {
    features := [];
    var i := 0;
    while i < |rows|
      invariant 0 <= i <= |rows|
      invariant features == FeaturesOf(cfg, rows[..i], links, exts)
    {
      var feature := MakeFeature(cfg, rows[i], links, exts);
      FeaturesSnoc(cfg, rows, i, links, exts);
      features := features + [feature];
      i := i + 1;
    }
    assert rows[..|rows|] == rows;
  }

  /** One feature per row, the i-th built from the i-th row. */
  lemma FeaturesPerItem(cfg: Config, items: seq<Scene>, links: seq<Link>, exts: Option<seq<string>>)
    requires |links| >= 3
    ensures |FeaturesOf(cfg, items, links, exts)| == |items|
    ensures forall i :: 0 <= i < |items| ==>
      FeaturesOf(cfg, items, links, exts)[i] == FeatureOf(cfg, items[i], links, exts)
  {
    EachAt((s: Scene) requires |links| >= 3 => FeatureOf(cfg, s, links, exts), items);
  }

  /** Each feature carries its row's identity, footprint, bands and links. */
  lemma FeatureContents(cfg: Config, s: Scene, links: seq<Link>, exts: Option<seq<string>>)
    requires |links| >= 3
    ensures var f := FeatureOf(cfg, s, links, exts);
      && f.id == s.id && f.collection == s.collection && f.stacVersion == cfg.apiVersion
      && f.ring == Ring(s) && f.bbox == Bbox(Ring(s))
      && |f.properties.eoBands| == |s.assets|
      && Get(f.assets, THUMBNAIL).Some?
      && f.links[0].href == links[0].href + s.collection + "/items/" + s.id
  {
    ThumbnailPresent(cfg, s);
  }

  // ---- the item collection ----

  /** The `context` extension object. */
  datatype Context = Context(page: int, limit: int, matched: nat, returned: nat, meta: Option<seq<Search.CollectionMeta>>)

  /** The item collection document `make_json_items` returns, which
      `make_json_item_collection` then completes in place. Keys the document
      lacks are None. */
  class ItemCollection {
    var stacVersion: Option<string>
    var stacExtensions: Option<seq<string>>
    var features: seq<Feature>
    var context: Option<Context>

    constructor (stacVersion: Option<string>, stacExtensions: Option<seq<string>>, features: seq<Feature>)
      ensures this.stacVersion == stacVersion && this.stacExtensions == stacExtensions
      ensures this.features == features && this.context.None?
    {
      this.stacVersion := stacVersion;
      this.stacExtensions := stacExtensions;
      this.features := features;
      this.context := None;
    }

    /** `make_json_item_collection`: appends "context" to `stac_extensions`
        and sets the context object, whose `returned` is the number of
        features and whose `meta` is None when there is none. A document
        without `stac_extensions` (the one for a None result) raises a KeyError
        and is left as it was. */
    method AddContext(page: int, limit: int, matched: nat, meta: seq<Search.CollectionMeta>) returns (ok: bool)
      modifies this
      ensures ok <==> old(stacExtensions).Some?
      ensures ok ==> stacExtensions == Some(old(stacExtensions).value + ["context"])
      ensures ok ==> context == Some(Context(page, limit, matched, |features|, if |meta| == 0 then None else Some(meta)))
      ensures !ok ==> stacExtensions == old(stacExtensions) && context == old(context)
      ensures features == old(features) && stacVersion == old(stacVersion)
    {
      if stacExtensions.None? {
        return false;
      }
      stacExtensions := Some(stacExtensions.value + ["context"]);
      context := Some(Context(page, limit, matched, |features|, if |meta| == 0 then None else Some(meta)));
      ok := true;
    }
  }

  /** `make_json_items`: a None result gives a bare collection with no
      features; an empty one a STAC collection with no features; otherwise one
      feature per row, in order. The links are only read when there are rows. */
  method MakeJsonItems(cfg: Config, items: Option<seq<Scene>>, links: seq<Link>, exts: Option<seq<string>>)
    returns (doc: ItemCollection)
    requires items.Some? && |items.value| > 0 ==> |links| >= 3
    ensures fresh(doc) && doc.context.None?
    ensures items.None? ==> doc.stacVersion.None? && doc.stacExtensions.None? && doc.features == []
    ensures items.Some? ==> doc.stacVersion == Some(cfg.apiVersion) && doc.stacExtensions == Some([])
    ensures items.Some? && |items.value| == 0 ==> doc.features == []
    ensures items.Some? && |items.value| > 0 ==> doc.features == FeaturesOf(cfg, items.value, links, exts)
  {
    if items.None? {
      doc := new ItemCollection(None, None, []);
      return;
    }
    var rows := items.value;
    if |rows| == 0 {
      doc := new ItemCollection(Some(cfg.apiVersion), Some([]), []);
      return;
    }
    var features := MakeFeatures(cfg, rows, links, exts);
    doc := new ItemCollection(Some(cfg.apiVersion), Some([]), features);
  }
}
