/**
 * The description of one collection (one catalog feature type), as built by the
 * records service for the collections listing.
 */
module Collection {
  import opened Wrappers
  import opened Links

  /** A latitude/longitude bounding box; carried, never computed on. */
  datatype BoundingBox = BoundingBox(minX: real, minY: real, maxX: real, maxY: real)

  /** The extent a collection advertises, built from the feature type's lat/lon box (which may be absent). */
  datatype Extents = Extents(latLonBox: Option<BoundingBox>)

  /** The attribute schema of a feature type, kept abstract. */
  datatype FeatureSchema = FeatureSchema(attributes: seq<string>)

  /** What asking the store for a feature type's schema does: return it, raise an I/O error, or raise anything else. */
  datatype SchemaLookup = SchemaFound(schema: FeatureSchema) | SchemaIOError | SchemaFault(cause: string)

  /** The catalog's description of one published vector layer. */
  datatype FeatureType = FeatureType(
    prefixedName: string,
    title: Option<string>,
    abstractText: Option<string>,
    latLonBox: Option<BoundingBox>,
    schemaLookup: SchemaLookup)

  /** A service registered with the server; its id may be null. */
  datatype ServiceInfo = ServiceInfo(id: Option<string>)

  datatype CollectionDocument = CollectionDocument(
    id: string,
    title: Option<string>,
    description: Option<string>,
    extent: Extents,
    links: seq<Link>,
    mapPreviewUrl: Option<Href>,
    featureType: FeatureType)

  const WMS_ID := "WMS"
  const FEATURES_COLLECTIONS_PATH := "ogc/features/collections/"
  const ITEMS_CLASSIFIER := "items"
  const MAP_PREVIEW_PATH := "wms/reflect"
  const MAP_PREVIEW_FORMAT := "application/openlayers"
  const RECORD_ITEM_TYPE := "record"

  /**
   * The media types item links are generated for. The list the collection used
   * to ask the negotiation layer for is switched off, so it is empty.
   */
  const ITEM_FORMATS: seq<string> := []

  /** True iff some registered service has id "WMS". */
  function IsWmsAvailable(services: seq<ServiceInfo>): (r: bool)
    ensures r <==> exists i | 0 <= i < |services| :: services[i].id == Some("WMS")
  {
    if services == [] then false
    else services[0].id == Some(WMS_ID) || IsWmsAvailable(services[1..])
  }

  function ItemsPath(id: string): string {
    FEATURES_COLLECTIONS_PATH + id + "/items"
  }

  /** One `items` link per item format, in format order. */
  function ItemLinks(baseUrl: string, id: string, formats: seq<string>): seq<Link> {
    if formats == [] then []
    else
      [Link(BuiltUrl(baseUrl, ItemsPath(id), FormatParameter(formats[0])), REL_ITEMS, formats[0],
            id + " items as " + formats[0], Some(ITEMS_CLASSIFIER))]
      + ItemLinks(baseUrl, id, formats[1..])
  }

  /** `l` is the items link of collection `id` in media type `format`. */
  predicate IsItemsLinkFor(l: Link, baseUrl: string, id: string, format: string) {
    && l.rel == "items"
    && l.mediaType == format
    && l.title == id + " items as " + format
    && l.classifier == Some("items")
    && l.href == BuiltUrl(baseUrl, "ogc/features/collections/" + id + "/items", map["f" := format])
  }

  lemma {:induction false} ItemLinksShape(baseUrl: string, id: string, formats: seq<string>)
    ensures |ItemLinks(baseUrl, id, formats)| == |formats|
    ensures forall i | 0 <= i < |formats| :: IsItemsLinkFor(ItemLinks(baseUrl, id, formats)[i], baseUrl, id, formats[i])
  {
    if formats != [] {
      ItemLinksShape(baseUrl, id, formats[1..]);
      var r := ItemLinks(baseUrl, id, formats);
      forall i | 0 <= i < |formats| ensures IsItemsLinkFor(r[i], baseUrl, id, formats[i]) {
        if i > 0 {
          assert r[i] == ItemLinks(baseUrl, id, formats[1..])[i - 1];
          assert formats[i] == formats[1..][i - 1];
        }
      }
    }
  }

  /** The links of collection `id`: its items links, then the self/alternate links of its own path. */
  function CollectionLinks(info: RequestInfo, id: string, formats: seq<string>): seq<Link> {
    ItemLinks(info.baseUrl, id, formats) + SelfLinks(info, FEATURES_COLLECTIONS_PATH + id, info.producible(CollectionKind))
  }

  /** The map preview URL: the WMS reflector, asked for this layer as an OpenLayers page. */
  function MapPreviewUrl(baseUrl: string, ft: FeatureType): Href {
    BuiltUrl(baseUrl, MAP_PREVIEW_PATH, map["LAYERS" := ft.prefixedName, "FORMAT" := MAP_PREVIEW_FORMAT])
  }

  /**
   * Builds the description of feature type `ft`: identity and metadata copied
   * from it, item links per item format followed by the self/alternate links of
   * the collection's own path, and a map preview only when WMS is registered.
   */
  function NewCollectionDocument(info: RequestInfo, services: seq<ServiceInfo>, ft: FeatureType): (d: CollectionDocument)
    ensures d.id == ft.prefixedName
    ensures d.title == ft.title && d.description == ft.abstractText
    ensures d.extent.latLonBox == ft.latLonBox
    ensures d.featureType == ft
    ensures d.mapPreviewUrl.Some? <==> exists i | 0 <= i < |services| :: services[i].id == Some("WMS")
    ensures d.mapPreviewUrl.Some? ==>
      && d.mapPreviewUrl.value.base == info.baseUrl
      && d.mapPreviewUrl.value.path == "wms/reflect"
      && d.mapPreviewUrl.value.kvp.Keys == {"LAYERS", "FORMAT"}
      && d.mapPreviewUrl.value.kvp["LAYERS"] == ft.prefixedName
      && d.mapPreviewUrl.value.kvp["FORMAT"] == "application/openlayers"
    ensures |d.links| == |ITEM_FORMATS| + |info.producible(CollectionKind)|
    ensures d.links == CollectionLinks(info, ft.prefixedName, ITEM_FORMATS)
  {
    var id := ft.prefixedName;
    var links := CollectionLinks(info, id, ITEM_FORMATS);
    CollectionLinksLayout(info, id, ITEM_FORMATS);
    CollectionDocument(
      id, ft.title, ft.abstractText, Extents(ft.latLonBox), links,
      if IsWmsAvailable(services) then Some(MapPreviewUrl(info.baseUrl, ft)) else None,
      ft)
  }

  /**
   * The links of a collection, for any item format list: first exactly one
   * items link per format in format order, then the self/alternate links of the
   * path `ogc/features/collections/<id>`.
   */
  lemma CollectionLinksLayout(info: RequestInfo, id: string, formats: seq<string>)
    ensures var links := CollectionLinks(info, id, formats);
      && |links| == |formats| + |info.producible(CollectionKind)|
      && (forall i | 0 <= i < |formats| :: IsItemsLinkFor(links[i], info.baseUrl, id, formats[i]))
      && (forall i | |formats| <= i < |links| ::
            var t := info.producible(CollectionKind)[i - |formats|];
            if t == info.requestedType then IsSelfLinkFor(links[i], info, "ogc/features/collections/" + id)
            else IsAlternateLinkFor(links[i], info, "ogc/features/collections/" + id, t))
  {
    ItemLinksShape(info.baseUrl, id, formats);
    var path := "ogc/features/collections/" + id;
    SelfLinksShape(info, path, info.producible(CollectionKind));
    var links := ItemLinks(info.baseUrl, id, formats) + SelfLinks(info, path, info.producible(CollectionKind));
    forall i | |formats| <= i < |links|
      ensures var t := info.producible(CollectionKind)[i - |formats|];
        if t == info.requestedType then IsSelfLinkFor(links[i], info, path)
        else IsAlternateLinkFor(links[i], info, path, t)
    {
      assert links[i] == SelfLinks(info, path, info.producible(CollectionKind))[i - |formats|];
    }
  }

  /** With the current (empty) item format list a collection has no items link at all: its links are its self/alternate links. */
  lemma NoItemLinksForEmptyFormats(info: RequestInfo, services: seq<ServiceInfo>, ft: FeatureType)
    ensures var d := NewCollectionDocument(info, services, ft);
      && (forall l | l in d.links :: l.rel != "items")
      && d.links == SelfLinks(info, "ogc/features/collections/" + ft.prefixedName, info.producible(CollectionKind))
  {
    var d := NewCollectionDocument(info, services, ft);
    CollectionLinksLayout(info, ft.prefixedName, ITEM_FORMATS);
    assert d.links == SelfLinks(info, "ogc/features/collections/" + ft.prefixedName, info.producible(CollectionKind));
  }

  /** The collection's schema; an I/O failure of the lookup degrades to null, any other failure propagates. */
  function GetSchema(d: CollectionDocument): (r: Result<Option<FeatureSchema>, string>)
    ensures r.Success? && r.value.None? <==> d.featureType.schemaLookup.SchemaIOError?
    ensures r.Success? && r.value.Some? <==> d.featureType.schemaLookup.SchemaFound?
    ensures r.Success? && r.value.Some? ==> r.value.value == d.featureType.schemaLookup.schema
    ensures r.Failure? ==> d.featureType.schemaLookup == SchemaFault(r.error)
  {
    match d.featureType.schemaLookup
    case SchemaFound(s) => Success(Some(s))
    case SchemaIOError => Success(None)
    case SchemaFault(cause) => Failure(cause)
  }

  /** The item type every records collection declares, whatever the collection. */
  function ItemType(d: CollectionDocument): (t: string)
    ensures t == "record"
  {
    RECORD_ITEM_TYPE
  }
}
