# OGC API - Records response documents, modelled in Dafny

This project models the part of GeoServer's OGC API - Records module that builds response documents:

- the **collections listing** (`CollectionsDocument`). It has its own self/alternate links and a registry of collection decorators. Its lazy iterator pulls feature types from a catalog cursor with a one-element look-ahead buffer. It builds and decorates one collection document per entry. It closes the cursor on exhaustion and when an exception is raised while reading, building or decorating an entry, and, provided that close does not itself throw, wraps that exception into one service exception. An exception from the cursor's own `hasNext`, and an `Error` from reading, building or decorating, escape unwrapped and leave the cursor open;
- the **collection document** (`CollectionDocument`) built for one feature type: id, title, description, extent, items links, self/alternate links, the map preview URL, the schema accessor and the item type;
- the **landing page** (`RecordsLandingPage`) with its title and description defaults;
- the **service facade** (`RecordsService`): the conformance declaration and the landing page endpoint.

Everything is pure. Documents are immutable datatypes. The iterator is an explicit state record (cursor position, close counter, buffer), and `hasNext`/`next` are functions from one state to the next. The catalog cursor is a sequence of entries. An entry whose reading or building throws is a `Faulty` entry. A position where the cursor's own `hasNext` throws is a `CursorBroken` entry. A thrown value is either an exception or an error. A decorator is a total function that returns the changed document or a failure. URL building is the symbolic term `BuiltUrl(base, path, parameters)`. The request context is a parameter: base URL, negotiated media type, and the producible media types per document kind.

Files: `wrappers.dfy` (null and exceptions as `Option`/`Result`), `links.dfy` (links and the self/alternate link set), `collection.dfy`, `collections.dfy`, `landing_page.dfy`, `records_service.dfy`.

## Model

| member | source | states |
|---|---|---|
| Links.SelfLinksShape | src/community/ogcapi/ogcapi-records/src/test/java/org/geoserver/ogcapi/records/CollectionsTest.java:58-87 | one link per producible type, in order: the self link titled "This document" for the negotiated type, an alternate titled "This document as <type>" for every other one; each href is the resource path with the single parameter f=<type> |
| Links.ExactlyOneSelfLink | src/community/ogcapi/ogcapi-records/src/test/java/org/geoserver/ogcapi/records/CollectionsTest.java:60-73 | for distinct producible types containing the negotiated one, there is exactly one self link and one alternate per other type |
| Links.AlternateTypes | src/community/ogcapi/ogcapi-records/src/test/java/org/geoserver/ogcapi/records/CollectionsTest.java:72-87 | the alternate links' media types are exactly the producible types minus the negotiated one |
| Collection.IsWmsAvailable | src/community/ogcapi/ogcapi-records/src/main/java/org/geoserver/ogcapi/records/CollectionDocument.java:81-83 | true iff some registered service has id "WMS" (a null id never matches) |
| Collection.ItemLinksShape | src/community/ogcapi/ogcapi-records/src/main/java/org/geoserver/ogcapi/records/CollectionDocument.java:54-68 | one items link per format, in format order: rel items, type = format, title "<id> items as <format>", classifier items, href on ogc/features/collections/<id>/items with only f=<format> |
| Collection.NewCollectionDocument | src/community/ogcapi/ogcapi-records/src/main/java/org/geoserver/ogcapi/records/CollectionDocument.java:38-79 | id is the prefixed name; title and description are the feature type's title and abstract, null passing through; the extent carries the lat/lon box; the map preview exists iff WMS is registered and then targets wms/reflect with exactly LAYERS=<prefixed name> and FORMAT=application/openlayers; the links are the collection links for the configured item formats |
| Collection.CollectionLinksLayout | src/community/ogcapi/ogcapi-records/src/main/java/org/geoserver/ogcapi/records/CollectionDocument.java:50-69 | for any item format list, a collection's links are first one items link per format in format order, then, position by position, the self or alternate link of ogc/features/collections/<id> for each producible type |
| Collection.NoItemLinksForEmptyFormats | src/community/ogcapi/ogcapi-records/src/main/java/org/geoserver/ogcapi/records/CollectionDocument.java:50-69 | with the current empty format list a collection has no items link; its links are exactly the self/alternate links of ogc/features/collections/<id> |
| Collection.GetSchema | src/community/ogcapi/ogcapi-records/src/main/java/org/geoserver/ogcapi/records/CollectionDocument.java:86-93 | the schema when the lookup returns it; null when the lookup raises an I/O error; any other failure propagates |
| Collection.ItemType | src/community/ogcapi/ogcapi-records/src/main/java/org/geoserver/ogcapi/records/CollectionDocument.java:100-102 | the item type is "record" for every collection |
| Collections.NewCollectionsDocument | src/community/ogcapi/ogcapi-records/src/main/java/org/geoserver/ogcapi/records/CollectionsDocument.java:31-37 | the listing's links are the self/alternate links of ogc/records/collections/, one per producible type; no decorators are registered yet |
| Collections.ListingLinksForJson | src/community/ogcapi/ogcapi-records/src/test/java/org/geoserver/ogcapi/records/CollectionsTest.java:44-87 | for a JSON request with JSON, HTML and YAML producible: three links, one self and two alternates, each with the expected title, type and href |
| Collections.AddCollectionDecorator | src/community/ogcapi/ogcapi-records/src/main/java/org/geoserver/ogcapi/records/CollectionsDocument.java:92-94 | registration appends the decorator after all earlier ones and changes nothing else |
| Collections.ApplyDecoratorsAppend | src/community/ogcapi/ogcapi-records/src/main/java/org/geoserver/ogcapi/records/CollectionsDocument.java:68-71 | decorators run in registration order: a decorator registered last runs on the output of all earlier ones, and an earlier failure stops the run |
| Collections.GetCollections | src/community/ogcapi/ogcapi-records/src/main/java/org/geoserver/ogcapi/records/CollectionsDocument.java:46-48 | every call opens a fresh cursor at the first catalog entry, never closed, with nothing buffered |
| Collections.Pull | src/community/ogcapi/ogcapi-records/src/main/java/org/geoserver/ogcapi/records/CollectionsDocument.java:59-79 | pulling an entry gives its decorated document; a failing cursor throws unwrapped; an exception while reading, building or decorating becomes the service exception with the fixed message; an error escapes unwrapped |
| Collections.HasNext | src/community/ogcapi/ogcapi-records/src/main/java/org/geoserver/ogcapi/records/CollectionsDocument.java:54-81 | a buffered element gives true and touches nothing; when the cursor's own hasNext throws, that escapes unwrapped and nothing changes; an exhausted cursor is closed and false returned; otherwise exactly one entry is pulled and its decorated document buffered; an exception closes the cursor and is wrapped into one service exception; an error escapes unwrapped with the cursor open; nothing is buffered after a failure |
| Collections.Next | src/community/ogcapi/ogcapi-records/src/main/java/org/geoserver/ogcapi/records/CollectionsDocument.java:84-88 | returns the buffered document (null when none) and empties the buffer without touching the cursor |
| Collections.AbandonedIteratorStaysOpen | src/community/ogcapi/ogcapi-records/src/main/java/org/geoserver/ogcapi/records/CollectionsDocument.java:49-89 | the iterator has no close hook: after one successful hasNext and next on a catalog of two or more entries, the cursor is still open with entries unread |
| Collections.ExhaustedHasNextClosesEachTime | src/community/ogcapi/ogcapi-records/src/main/java/org/geoserver/ogcapi/records/CollectionsDocument.java:59-62 | asking an exhausted iterator twice answers false twice and closes the cursor twice |
| Collections.BuildAllOnePerEntry | src/community/ogcapi/ogcapi-records/src/test/java/org/geoserver/ogcapi/records/CollectionsTest.java:89-90 | a failure-free listing has exactly one document per catalog entry, each from the entry at the same position |
| Collections.BuildAllSucceedsIff | src/community/ogcapi/ogcapi-records/src/main/java/org/geoserver/ogcapi/records/CollectionsDocument.java:64-79 | the listing succeeds iff every entry reads, builds and decorates without failure |
| Collections.Drain | src/community/ogcapi/ogcapi-records/src/main/java/org/geoserver/ogcapi/records/CollectionsDocument.java:46-90 | pulling with hasNext/next until false or a throw closes the cursor exactly once, except when what is thrown escapes unwrapped, which leaves it never closed; without a throw the documents are the decorated documents of all entries in cursor order; with one, it is what the first failing entry throws |
| LandingPage.NewLandingPage | src/community/ogcapi/ogcapi-records/src/main/java/org/geoserver/ogcapi/records/RecordsLandingPage.java:16-20 | the title is the service title, or "Records 1.0 server" when null; the description is the service abstract, or "" when null; the base path is ogc/records |
| LandingPage.LandingPageIgnoresFeaturesBase | src/community/ogcapi/ogcapi-records/src/main/java/org/geoserver/ogcapi/records/RecordsLandingPage.java:16-20 | the featuresBase argument has no effect on the page |
| RecordsService.Conformance | src/community/ogcapi/ogcapi-records/src/main/java/org/geoserver/ogcapi/records/RecordsService.java:133-136 | exactly three distinct conformance classes, in order: Common core, Common collections, Records core (the CORE constant) |
| RecordsService.GetLandingPage | src/community/ogcapi/ogcapi-records/src/main/java/org/geoserver/ogcapi/records/RecordsService.java:62-64 | the landing page endpoint's page has base path ogc/records, the service title or "Records 1.0 server", and the service abstract or "" |

## Left out

- The API description endpoint (`RecordsService.api` and `RecordsAPIBuilder`): it wraps an OpenAPI builder and a YAML template that are not part of this model.
- Commented-out code in `RecordsService.java` and in `RecordsLandingPage.java` (collections links) is not live code. In `RecordsService.java` that covers the collections listing endpoint, single collection, queryables, items, and time and filter handling. The collections listing endpoint (RecordsService.java:81-86) is commented out, and it calls a two-argument constructor that `CollectionsDocument` does not have. So no live endpoint in this snapshot serves the `CollectionsDocument` modelled here. The class itself is live code, and the model follows it. The listing evidence cited from `CollectionsTest.java` comes from tests of that commented-out route.
- `WebUtils.java`: localization and template loading, which is UI plumbing.
- URL building (proxy base, URL mangling, percent-encoding): a URL is the symbolic term of base URL, path and parameters.
- Content negotiation and `addSelfLinks` live in base classes that are not part of this model. `Links.SelfLinks` is an assumption about that base class. The tests observe one link per producible type: self for the negotiated type, titled "This document", and alternate otherwise, titled "This document as <type>". Two further choices are assumed, not observed, since the tests pick links by relation and type only: the links follow the producible order (which `Links.SelfLinksShape` and the positions in `Collections.ListingLinksForJson` rely on), and self is chosen by string equality with the negotiated type.
- The landing page's own links, added by its base class, are not part of this model.
- Extent computation: the extent only carries the feature type's lat/lon box, with no CRS handling or geometry.
- Logging of the schema failure, Jackson/Spring annotations, HTTP dispatch, HTML templates and getters that only return a field.
- Collections.HasNext: the cursor's `close()` and the catalog's `list()` are modelled as never failing, and Collections.Drain and Collections.GetCollections rely on this too. In the source, a `close()` that throws on exhaustion (CollectionsDocument.java:61) makes hasNext throw that exception unwrapped instead of returning false. One that throws in the catch (CollectionsDocument.java:76) throws its own exception unwrapped in place of the service exception, and the original cause is lost. A `list()` that throws (CollectionsDocument.java:47-48) makes getCollections throw before any iterator exists.
- Collections.HasNext: when the read of an entry throws, the model counts that entry as pulled. The catalog cursor's own behaviour on a failing read is not part of this model.
- Collections.Drain: the "closed exactly once" promise holds for a consumer that stops at the first false or throw, and only when the throw is a wrapped service exception. The code closes the cursor again on every further hasNext after exhaustion (see Collections.ExhaustedHasNextClosesEachTime), so the model claims no more. A consumer that stops pulling before false or a throw never closes the cursor: the iterator has no close hook, so an abandoned iterator leaves its cursor open (see Collections.AbandonedIteratorStaysOpen).
- After a failure the code does not itself stop the iterator: a later hasNext would go on pulling from the closed cursor. So "no element after a terminal error" is not something this code guarantees; the model follows the code and leaves the cursor's behaviour after close unmodelled (hasNext on the cursor depends only on its position).
