/**
 * The collections listing: its own self/alternate links, the registry of
 * collection decorators, and the lazy iterator that turns the catalog's
 * feature type cursor into collection documents.
 */
module Collections {
  import opened Wrappers
  import opened Links
  import opened Collection

  /**
   * A throwable raised by the cursor, while building a document or by a
   * decorator: an exception, or an error (which `catch (Exception e)` does not
   * catch).
   */
  datatype Fault = Exception(message: string) | Error(message: string)

  /**
   * One position of the catalog cursor: a feature type whose document can be
   * built; an entry whose reading or building throws; or a position at which
   * the cursor's own `hasNext` throws.
   */
  datatype CatalogEntry = Readable(featureType: FeatureType) | Faulty(cause: Fault) | CursorBroken(cause: Fault)

  /**
   * A decorator receives a built collection document and hands back the
   * (possibly changed) document, or throws.
   */
  type Decorator = CollectionDocument -> Result<CollectionDocument, Fault>

  /**
   * What leaves `hasNext` when it throws: the service exception wrapping a
   * caught exception, or a throwable that escapes unwrapped.
   */
  datatype Thrown = ServiceException(message: string, cause: Fault) | Escaped(cause: Fault)

  const ITERATION_FAILURE := "Failed to iterate over the feature types in the catalog"
  const COLLECTIONS_PATH := "ogc/records/collections/"

  /** The parts of the server the listing consults: the registered services and the catalog's feature types, in catalog order. */
  datatype GeoServer = GeoServer(services: seq<ServiceInfo>, featureTypes: seq<CatalogEntry>)

  /** A cursor over the catalog: the entries, how many were pulled, and how many times `close` was called. */
  datatype Cursor = Cursor(entries: seq<CatalogEntry>, pos: nat, closeCount: nat)

  predicate HasMore(c: Cursor) {
    c.pos < |c.entries|
  }

  function Close(c: Cursor): Cursor {
    c.(closeCount := c.closeCount + 1)
  }

  datatype CollectionsDocument = CollectionsDocument(geoServer: GeoServer, links: seq<Link>, decorators: seq<Decorator>)

  /** The state of one iterator returned by `getCollections`: its cursor and the one-element look-ahead buffer. */
  datatype CollectionsIterator = CollectionsIterator(cursor: Cursor, buffered: Option<CollectionDocument>)

  /** What `hasNext` returns (or throws), together with the iterator state it leaves behind. */
  datatype HasNextStep = HasNextStep(outcome: Result<bool, Thrown>, iter: CollectionsIterator)

  /** What `next` returns (null as `None`), together with the iterator state it leaves behind. */
  datatype NextStep = NextStep(element: Option<CollectionDocument>, iter: CollectionsIterator)

  /** A new listing: self/alternate links for `ogc/records/collections/`, no decorators yet. */
  function NewCollectionsDocument(geoServer: GeoServer, info: RequestInfo): (d: CollectionsDocument)
    ensures d.geoServer == geoServer
    ensures d.decorators == []
    ensures |d.links| == |info.producible(CollectionsKind)|
    ensures forall i | 0 <= i < |d.links| ::
      if info.producible(CollectionsKind)[i] == info.requestedType
      then IsSelfLinkFor(d.links[i], info, "ogc/records/collections/")
      else IsAlternateLinkFor(d.links[i], info, "ogc/records/collections/", info.producible(CollectionsKind)[i])
  {
    SelfLinksShape(info, COLLECTIONS_PATH, info.producible(CollectionsKind));
    CollectionsDocument(geoServer, SelfLinks(info, COLLECTIONS_PATH, info.producible(CollectionsKind)), [])
  }

  /** Registers a decorator after those already registered; nothing else changes. */
  function AddCollectionDecorator(d: CollectionsDocument, decorator: Decorator): (r: CollectionsDocument)
    ensures r.geoServer == d.geoServer && r.links == d.links
    ensures |r.decorators| == |d.decorators| + 1
    ensures r.decorators[..|d.decorators|] == d.decorators
    ensures r.decorators[|d.decorators|] == decorator
  {
    d.(decorators := d.decorators + [decorator])
  }

  /** Runs the decorators in registration order, each on the previous one's output; the first that throws stops the run. */
  function ApplyDecorators(decorators: seq<Decorator>, doc: CollectionDocument): Result<CollectionDocument, Fault> {
    if decorators == [] then Success(doc)
    else
      match decorators[0](doc)
      case Failure(f) => Failure(f)
      case Success(doc') => ApplyDecorators(decorators[1..], doc')
  }

  /** Registering one more decorator runs it last, on what the earlier ones produced. */
  lemma {:induction false} ApplyDecoratorsAppend(decorators: seq<Decorator>, last: Decorator, doc: CollectionDocument)
    ensures ApplyDecorators(decorators + [last], doc) ==
      match ApplyDecorators(decorators, doc)
      case Failure(f) => Failure(f)
      case Success(d) => last(d)
  {
    if decorators == [] {
      assert [] + [last] == [last];
    } else {
      assert (decorators + [last])[1..] == decorators[1..] + [last];
      match decorators[0](doc)
      case Failure(f) =>
      case Success(d') => ApplyDecoratorsAppend(decorators[1..], last, d');
    }
  }

  /** The document one catalog entry turns into: built from the feature type, then decorated. */
  function BuildAndDecorate(info: RequestInfo, gs: GeoServer, decorators: seq<Decorator>, e: CatalogEntry): Result<CollectionDocument, Fault> {
    match e
    case Faulty(cause) => Failure(cause)
    case CursorBroken(cause) => Failure(cause)
    case Readable(ft) => ApplyDecorators(decorators, NewCollectionDocument(info, gs.services, ft))
  }

  /**
   * What pulling entry `e` gives `hasNext`: the decorated document, or what it
   * throws. A failing cursor throws outside the `try`; an exception inside it
   * is wrapped into the service exception; an error escapes the `catch`.
   */
  function Pull(info: RequestInfo, gs: GeoServer, decorators: seq<Decorator>, e: CatalogEntry): (r: Result<CollectionDocument, Thrown>)
    ensures r.Success? <==> !e.CursorBroken? && BuildAndDecorate(info, gs, decorators, e).Success?
    ensures r.Success? ==> BuildAndDecorate(info, gs, decorators, e) == Success(r.value)
    ensures r.Failure? && r.error.ServiceException? <==>
      !e.CursorBroken? && BuildAndDecorate(info, gs, decorators, e).Failure?
      && BuildAndDecorate(info, gs, decorators, e).error.Exception?
    ensures r.Failure? && r.error.ServiceException? ==>
      r.error == ServiceException("Failed to iterate over the feature types in the catalog", BuildAndDecorate(info, gs, decorators, e).error)
    ensures r.Failure? && r.error.Escaped? ==> r.error.cause == (if e.CursorBroken? then e.cause else BuildAndDecorate(info, gs, decorators, e).error)
  {
    if e.CursorBroken? then Failure(Escaped(e.cause))
    else
      match BuildAndDecorate(info, gs, decorators, e)
      case Success(doc) => Success(doc)
      case Failure(f) => Failure(if f.Exception? then ServiceException(ITERATION_FAILURE, f) else Escaped(f))
  }

  /** `getCollections`: a fresh iterator over a freshly opened cursor on all feature types of the catalog. */
  function GetCollections(d: CollectionsDocument): (it: CollectionsIterator)
    ensures it.cursor.entries == d.geoServer.featureTypes
    ensures it.cursor.pos == 0 && it.cursor.closeCount == 0
    ensures it.buffered == None
  {
    CollectionsIterator(Cursor(d.geoServer.featureTypes, 0, 0), None)
  }

  /**
   * `hasNext`. With an element buffered it answers true and leaves everything
   * alone. Otherwise it asks the cursor: when that throws, the throwable leaves
   * unwrapped and the cursor stays open; on an exhausted cursor it closes the
   * cursor and answers false; else it pulls one entry, builds and decorates its
   * document with the decorators registered at this moment, and buffers it. An
   * exception while reading, building or decorating closes the cursor and is
   * wrapped into one service exception; an error leaves the cursor open and
   * escapes unwrapped. Nothing is buffered after a failure. `d` must be the
   * document `GetCollections` was called on to obtain `it`; it is passed again
   * so that the decorators registered at the time of the call are read.
   */
  function HasNext(d: CollectionsDocument, info: RequestInfo, it: CollectionsIterator): (r: HasNextStep)
    ensures it.buffered.Some? ==> r.outcome == Success(true) && r.iter == it
    ensures it.buffered.None? && !HasMore(it.cursor) ==>
      && r.outcome == Success(false)
      && r.iter.buffered == None
      && r.iter.cursor == it.cursor.(closeCount := it.cursor.closeCount + 1)
    ensures it.buffered.None? && HasMore(it.cursor) && it.cursor.entries[it.cursor.pos].CursorBroken? ==>
      && r.outcome == Failure(Escaped(it.cursor.entries[it.cursor.pos].cause))
      && r.iter == it
    ensures it.buffered.None? && HasMore(it.cursor) && !it.cursor.entries[it.cursor.pos].CursorBroken? ==>
      && r.iter.cursor.entries == it.cursor.entries
      && r.iter.cursor.pos == it.cursor.pos + 1
      && match BuildAndDecorate(info, d.geoServer, d.decorators, it.cursor.entries[it.cursor.pos])
         case Success(doc) =>
           r.outcome == Success(true) && r.iter.buffered == Some(doc)
           && r.iter.cursor.closeCount == it.cursor.closeCount
         case Failure(Exception(m)) =>
           r.outcome == Failure(ServiceException(ITERATION_FAILURE, Exception(m))) && r.iter.buffered == None
           && r.iter.cursor.closeCount == it.cursor.closeCount + 1
         case Failure(Error(m)) =>
           r.outcome == Failure(Escaped(Error(m))) && r.iter.buffered == None
           && r.iter.cursor.closeCount == it.cursor.closeCount
  {
    if it.buffered.Some? then
      HasNextStep(Success(true), it)
    else if !HasMore(it.cursor) then
      HasNextStep(Success(false), it.(cursor := Close(it.cursor)))
    else if it.cursor.entries[it.cursor.pos].CursorBroken? then
      HasNextStep(Failure(Escaped(it.cursor.entries[it.cursor.pos].cause)), it)
    else
      var pulled := it.cursor.(pos := it.cursor.pos + 1);
      match BuildAndDecorate(info, d.geoServer, d.decorators, it.cursor.entries[it.cursor.pos])
      case Success(doc) => HasNextStep(Success(true), CollectionsIterator(pulled, Some(doc)))
      case Failure(Exception(m)) =>
        HasNextStep(Failure(ServiceException(ITERATION_FAILURE, Exception(m))), CollectionsIterator(Close(pulled), None))
      case Failure(Error(m)) => HasNextStep(Failure(Escaped(Error(m))), CollectionsIterator(pulled, None))
  }

  /** `next`: hands out the buffered document (null when nothing is buffered) and empties the buffer. */
  function Next(it: CollectionsIterator): (r: NextStep)
    ensures r.element == it.buffered
    ensures r.iter.buffered == None
    ensures r.iter.cursor == it.cursor
  {
    NextStep(it.buffered, it.(buffered := None))
  }

  /**
   * Reference meaning of a full listing: one document per catalog entry in
   * cursor order, or what the first failing entry throws.
   */
  function BuildAll(info: RequestInfo, gs: GeoServer, decorators: seq<Decorator>, entries: seq<CatalogEntry>): Result<seq<CollectionDocument>, Thrown> {
    if entries == [] then Success([])
    else
      match Pull(info, gs, decorators, entries[0])
      case Failure(f) => Failure(f)
      case Success(doc) =>
        match BuildAll(info, gs, decorators, entries[1..])
        case Failure(f) => Failure(f)
        case Success(rest) => Success([doc] + rest)
  }

  /** A successful listing has exactly one document per entry, each the decorated document of the entry at the same position. */
  lemma {:induction false} BuildAllOnePerEntry(info: RequestInfo, gs: GeoServer, decorators: seq<Decorator>, entries: seq<CatalogEntry>)
    requires BuildAll(info, gs, decorators, entries).Success?
    ensures var docs := BuildAll(info, gs, decorators, entries).value;
      && |docs| == |entries|
      && forall i | 0 <= i < |entries| :: Pull(info, gs, decorators, entries[i]) == Success(docs[i])
  {
    if entries != [] {
      BuildAllOnePerEntry(info, gs, decorators, entries[1..]);
      var docs := BuildAll(info, gs, decorators, entries).value;
      forall i | 0 <= i < |entries| ensures Pull(info, gs, decorators, entries[i]) == Success(docs[i]) {
        if i > 0 {
          assert entries[i] == entries[1..][i - 1];
        }
      }
    }
  }

  /** The listing succeeds iff every entry builds and decorates without failure. */
  lemma {:induction false} BuildAllSucceedsIff(info: RequestInfo, gs: GeoServer, decorators: seq<Decorator>, entries: seq<CatalogEntry>)
    ensures BuildAll(info, gs, decorators, entries).Success? <==>
      forall i | 0 <= i < |entries| :: Pull(info, gs, decorators, entries[i]).Success?
  {
    if entries != [] {
      BuildAllSucceedsIff(info, gs, decorators, entries[1..]);
      assert forall i | 0 < i < |entries| :: entries[i] == entries[1..][i - 1];
      if Pull(info, gs, decorators, entries[0]).Success? {
        assert (forall i | 0 <= i < |entries| :: Pull(info, gs, decorators, entries[i]).Success?)
          <==> (forall i | 0 <= i < |entries[1..]| :: Pull(info, gs, decorators, entries[1..][i]).Success?);
      }
    }
  }

  /**
   * What a serializer does with the iterator: call `hasNext`, then `next`, until
   * `hasNext` answers false or throws. It collects the documents handed out,
   * the exception if one was thrown, and how many times the cursor was closed.
   */
  method Drain(d: CollectionsDocument, info: RequestInfo) returns (docs: seq<CollectionDocument>, error: Option<Thrown>, closes: nat)
    ensures closes == if error.Some? && error.value.Escaped? then 0 else 1
    ensures error.None? ==> BuildAll(info, d.geoServer, d.decorators, d.geoServer.featureTypes) == Success(docs)
    ensures error.None? <==> forall i | 0 <= i < |d.geoServer.featureTypes| ::
      Pull(info, d.geoServer, d.decorators, d.geoServer.featureTypes[i]).Success?
    ensures error.None? ==> |docs| == |d.geoServer.featureTypes|
    ensures error.None? ==> forall i | 0 <= i < |docs| ::
      Pull(info, d.geoServer, d.decorators, d.geoServer.featureTypes[i]) == Success(docs[i])
    ensures error.Some? ==> BuildAll(info, d.geoServer, d.decorators, d.geoServer.featureTypes) == Failure(error.value)
    ensures error.Some? && error.value.ServiceException? ==> error.value.message == ITERATION_FAILURE
  {
    var it := GetCollections(d);
    var entries := d.geoServer.featureTypes;
    docs := [];
    while true
      invariant it.cursor.entries == entries
      invariant it.cursor.pos <= |entries|
      invariant it.cursor.closeCount == 0
      invariant it.buffered == None
      invariant BuildAll(info, d.geoServer, d.decorators, entries[..it.cursor.pos]) == Success(docs)
      decreases |entries| - it.cursor.pos
    {
      var step := HasNext(d, info, it);
      if step.outcome.Failure? {
        assert Pull(info, d.geoServer, d.decorators, entries[it.cursor.pos]) == Failure(step.outcome.error);
        BuildAllFailsAt(info, d.geoServer, d.decorators, entries, it.cursor.pos);
        BuildAllSucceedsIff(info, d.geoServer, d.decorators, entries);
        return docs, Some(step.outcome.error), step.iter.cursor.closeCount;
      }
      if !step.outcome.value {
        assert entries[..it.cursor.pos] == entries;
        BuildAllSucceedsIff(info, d.geoServer, d.decorators, entries);
        BuildAllOnePerEntry(info, d.geoServer, d.decorators, entries);
        return docs, None, step.iter.cursor.closeCount;
      }
      var n := Next(step.iter);
      BuildAllExtends(info, d.geoServer, d.decorators, entries, it.cursor.pos, docs, n.element.value);
      docs := docs + [n.element.value];
      it := n.iter;
    }
  }

  lemma {:induction false} BuildAllPrefixStep(info: RequestInfo, gs: GeoServer, decorators: seq<Decorator>, prefix: seq<CatalogEntry>, e: CatalogEntry)
    ensures BuildAll(info, gs, decorators, prefix + [e]) ==
      match BuildAll(info, gs, decorators, prefix)
      case Failure(f) => Failure(f)
      case Success(docs) =>
        match Pull(info, gs, decorators, e)
        case Failure(f) => Failure(f)
        case Success(doc) => Success(docs + [doc])
  {
    if prefix == [] {
      assert [] + [e] == [e];
      assert [e][1..] == [];
      match Pull(info, gs, decorators, e)
      case Failure(f) =>
      case Success(doc) => assert [doc] + [] == [] + [doc];
    } else {
      assert (prefix + [e])[1..] == prefix[1..] + [e];
      assert (prefix + [e])[0] == prefix[0];
      BuildAllPrefixStep(info, gs, decorators, prefix[1..], e);
      match Pull(info, gs, decorators, prefix[0])
      case Failure(f) =>
      case Success(doc) =>
        match BuildAll(info, gs, decorators, prefix[1..])
        case Failure(f) =>
        case Success(rest) =>
          match Pull(info, gs, decorators, e)
          case Failure(f) =>
          case Success(doc') =>
            assert [doc] + (rest + [doc']) == ([doc] + rest) + [doc'];
    }
  }

  lemma BuildAllExtends(info: RequestInfo, gs: GeoServer, decorators: seq<Decorator>, entries: seq<CatalogEntry>, k: nat, docs: seq<CollectionDocument>, doc: CollectionDocument)
    requires k < |entries|
    requires BuildAll(info, gs, decorators, entries[..k]) == Success(docs)
    requires Pull(info, gs, decorators, entries[k]) == Success(doc)
    ensures BuildAll(info, gs, decorators, entries[..k + 1]) == Success(docs + [doc])
  {
    assert entries[..k + 1] == entries[..k] + [entries[k]];
    BuildAllPrefixStep(info, gs, decorators, entries[..k], entries[k]);
  }

  /** Once a prefix builds, a failure at the next entry is the failure of the whole listing. */
  lemma {:induction false} BuildAllFailsAt(info: RequestInfo, gs: GeoServer, decorators: seq<Decorator>, entries: seq<CatalogEntry>, k: nat)
    requires k < |entries|
    requires BuildAll(info, gs, decorators, entries[..k]).Success?
    requires Pull(info, gs, decorators, entries[k]).Failure?
    ensures BuildAll(info, gs, decorators, entries) == Failure(Pull(info, gs, decorators, entries[k]).error)
  {
    if k > 0 {
      assert entries[..k][0] == entries[0];
      assert entries[..k][1..] == entries[1..][..k - 1];
      BuildAllFailsAt(info, gs, decorators, entries[1..], k - 1);
    }
  }

  /**
   * The iterator has no close hook of its own: a consumer that takes the first
   * document and stops leaves the cursor open with entries still unread.
   */
  lemma AbandonedIteratorStaysOpen(d: CollectionsDocument, info: RequestInfo)
    requires |d.geoServer.featureTypes| >= 2
    requires Pull(info, d.geoServer, d.decorators, d.geoServer.featureTypes[0]).Success?
    ensures var first := HasNext(d, info, GetCollections(d));
            var taken := Next(first.iter);
      && first.outcome == Success(true)
      && taken.element.Some?
      && taken.iter.cursor.closeCount == 0
      && HasMore(taken.iter.cursor)
  {
  }

  /** `hasNext` on an exhausted cursor closes it on every call: two calls close it twice. */
  lemma ExhaustedHasNextClosesEachTime(d: CollectionsDocument, info: RequestInfo, it: CollectionsIterator)
    requires it.buffered.None? && !HasMore(it.cursor)
    ensures var first := HasNext(d, info, it);
            var second := HasNext(d, info, first.iter);
      && first.outcome == Success(false) && second.outcome == Success(false)
      && second.iter.cursor.closeCount == it.cursor.closeCount + 2
  {
  }

  /**
   * The listing's own links for a request negotiated as JSON, when the listing
   * can be produced as JSON, HTML and YAML: three links, one self link in JSON
   * titled "This document" first, then the two alternates.
   */
  lemma ListingLinksForJson(gs: GeoServer, info: RequestInfo)
    requires info.requestedType == "application/json"
    requires info.producible(CollectionsKind) == ["application/json", "text/html", "application/x-yaml"]
    ensures var links := NewCollectionsDocument(gs, info).links;
      && |links| == 3
      && CountRel(links, "self") == 1
      && CountRel(links, "alternate") == 2
      && IsSelfLinkFor(links[0], info, "ogc/records/collections/")
      && IsAlternateLinkFor(links[1], info, "ogc/records/collections/", "text/html")
      && IsAlternateLinkFor(links[2], info, "ogc/records/collections/", "application/x-yaml")
  {
    var types := info.producible(CollectionsKind);
    ExactlyOneSelfLink(info, COLLECTIONS_PATH, types);
    SelfLinksShape(info, COLLECTIONS_PATH, types);
  }
}
