/**
 * Hypermedia links attached to every OGC API document, and the self/alternate
 * link set that the document base class builds for one resource path.
 */
module Links {
  import opened Wrappers

  /**
   * A URL built by the service's URL builder from a base URL, a resource path
   * and a map of query parameters. The builder itself (proxy base, mangling,
   * percent-encoding) is not modelled: a built URL is the symbolic term of its
   * three arguments.
   */
  datatype Href = BuiltUrl(base: string, path: string, kvp: map<string, string>)

  /** A link: target, relation, media type, title and an optional classifier. */
  datatype Link = Link(href: Href, rel: string, mediaType: string, title: string, classifier: Option<string>)

  const REL_SELF := "self"
  const REL_ALTERNATE := "alternate"
  const REL_ITEMS := "items"

  const SELF_TITLE := "This document"
  const ALTERNATE_TITLE_PREFIX := "This document as "

  /** The format selector parameter every self/alternate link carries. */
  function FormatParameter(mediaType: string): map<string, string> {
    map["f" := mediaType]
  }

  /**
   * What the request-scoped context tells a document while it is built: the
   * base URL of the request, the media type negotiated for the response, and
   * the ordered media types the content negotiation layer can produce for a
   * given kind of document.
   */
  datatype DocumentKind = CollectionsKind | CollectionKind
  datatype RequestInfo = RequestInfo(baseUrl: string, requestedType: string, producible: DocumentKind -> seq<string>)

  /** The link for one producible media type of the resource at `path`. */
  function SelfLink(info: RequestInfo, path: string, mediaType: string): Link {
    if mediaType == info.requestedType then
      Link(BuiltUrl(info.baseUrl, path, FormatParameter(mediaType)), REL_SELF, mediaType, SELF_TITLE, None)
    else
      Link(BuiltUrl(info.baseUrl, path, FormatParameter(mediaType)), REL_ALTERNATE, mediaType,
           ALTERNATE_TITLE_PREFIX + mediaType, None)
  }

  /** One link per producible media type, in the negotiation layer's order. */
  function SelfLinks(info: RequestInfo, path: string, types: seq<string>): seq<Link> {
    if types == [] then [] else [SelfLink(info, path, types[0])] + SelfLinks(info, path, types[1..])
  }

  /** Number of links with relation `rel`. */
  function CountRel(links: seq<Link>, rel: string): nat {
    if links == [] then 0
    else (if links[0].rel == rel then 1 else 0) + CountRel(links[1..], rel)
  }

  /** No media type occurs twice. */
  predicate Distinct(types: seq<string>) {
    forall i, j | 0 <= i < j < |types| :: types[i] != types[j]
  }

  /** `l` is the self link of the resource at `path`. */
  predicate IsSelfLinkFor(l: Link, info: RequestInfo, path: string) {
    && l.rel == REL_SELF
    && l.mediaType == info.requestedType
    && l.title == SELF_TITLE
    && l.href == BuiltUrl(info.baseUrl, path, map["f" := info.requestedType])
    && l.classifier == None
  }

  /** `l` is the alternate link of the resource at `path` in media type `t`. */
  predicate IsAlternateLinkFor(l: Link, info: RequestInfo, path: string, t: string) {
    && t != info.requestedType
    && l.rel == REL_ALTERNATE
    && l.mediaType == t
    && l.title == "This document as " + t
    && l.href == BuiltUrl(info.baseUrl, path, map["f" := t])
    && l.classifier == None
  }

  /**
   * Each link of the set is, position by position, the self link when its media
   * type is the negotiated one and the alternate link in that type otherwise.
   */
  lemma {:induction false} SelfLinksShape(info: RequestInfo, path: string, types: seq<string>)
    ensures |SelfLinks(info, path, types)| == |types|
    ensures forall i | 0 <= i < |types| ::
      var l := SelfLinks(info, path, types)[i];
      if types[i] == info.requestedType then IsSelfLinkFor(l, info, path)
      else IsAlternateLinkFor(l, info, path, types[i])
  {
    if types != [] {
      SelfLinksShape(info, path, types[1..]);
      var r := SelfLinks(info, path, types);
      forall i | 0 <= i < |types|
        ensures if types[i] == info.requestedType then IsSelfLinkFor(r[i], info, path)
                else IsAlternateLinkFor(r[i], info, path, types[i])
      {
        if i > 0 {
          assert r[i] == SelfLinks(info, path, types[1..])[i - 1];
          assert types[i] == types[1..][i - 1];
        }
      }
    }
  }

  /** Number of positions holding media type `t`. */
  function Occurrences(types: seq<string>, t: string): nat {
    if types == [] then 0
    else (if types[0] == t then 1 else 0) + Occurrences(types[1..], t)
  }

  lemma {:induction false} DistinctOccurrences(types: seq<string>, t: string)
    requires Distinct(types)
    ensures Occurrences(types, t) == if t in types then 1 else 0
  {
    if types != [] {
      assert Distinct(types[1..]) by {
        forall i, j | 0 <= i < j < |types[1..]| ensures types[1..][i] != types[1..][j] {
          assert types[1..][i] == types[i + 1] && types[1..][j] == types[j + 1];
        }
      }
      DistinctOccurrences(types[1..], t);
      if types[0] == t {
        assert t !in types[1..] by {
          forall k | 0 <= k < |types[1..]| ensures types[1..][k] != t {
            assert types[1..][k] == types[k + 1];
          }
        }
      } else {
        assert t in types <==> t in types[1..] by {
          assert types == [types[0]] + types[1..];
        }
      }
    }
  }

  lemma {:induction false} SelfCountIsOccurrences(info: RequestInfo, path: string, types: seq<string>)
    ensures CountRel(SelfLinks(info, path, types), REL_SELF) == Occurrences(types, info.requestedType)
    ensures CountRel(SelfLinks(info, path, types), REL_ALTERNATE) == |types| - Occurrences(types, info.requestedType)
  {
    if types != [] {
      SelfCountIsOccurrences(info, path, types[1..]);
      var r := SelfLinks(info, path, types);
      assert r[1..] == SelfLinks(info, path, types[1..]);
    }
  }

  /**
   * When the producible media types are distinct and include the negotiated
   * one, the set holds exactly one self link and one alternate link per other
   * producible type.
   */
  lemma ExactlyOneSelfLink(info: RequestInfo, path: string, types: seq<string>)
    requires Distinct(types)
    requires info.requestedType in types
    ensures CountRel(SelfLinks(info, path, types), REL_SELF) == 1
    ensures CountRel(SelfLinks(info, path, types), REL_ALTERNATE) == |types| - 1
    ensures |SelfLinks(info, path, types)| == |types|
  {
    SelfCountIsOccurrences(info, path, types);
    DistinctOccurrences(types, info.requestedType);
    SelfLinksShape(info, path, types);
  }

  /** The alternate links' media types are exactly the producible types other than the negotiated one. */
  lemma AlternateTypes(info: RequestInfo, path: string, types: seq<string>)
    ensures (set l | l in SelfLinks(info, path, types) && l.rel == REL_ALTERNATE :: l.mediaType)
         == (set t | t in types) - {info.requestedType}
  {
    SelfLinksShape(info, path, types);
    var r := SelfLinks(info, path, types);
    var lhs := set l | l in r && l.rel == REL_ALTERNATE :: l.mediaType;
    forall t | t in lhs ensures t in types && t != info.requestedType {
      var l :| l in r && l.rel == REL_ALTERNATE && l.mediaType == t;
      var i :| 0 <= i < |r| && r[i] == l;
    }
    forall t | t in types && t != info.requestedType ensures t in lhs {
      var i :| 0 <= i < |types| && types[i] == t;
      assert r[i] in r;
    }
  }
}
