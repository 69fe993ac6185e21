/** The records service facade: the conformance declaration and the landing page endpoint. */
module RecordsService {
  import opened LandingPage

  const COMMON_CORE := "http://www.opengis.net/spec/ogcapi-common-1/1.0/conf/core"
  const COMMON_COLLECTIONS := "http://www.opengis.net/spec/ogcapi-common-2/1.0/conf/collections"
  /** The records core conformance class this service declares. */
  const CORE := "http://www.opengis.net/spec/ogcapi-records-1/1.0/conf/core"

  /** The conformance classes the service declares, in declaration order; there is nothing it depends on. */
  function Conformance(): (classes: seq<string>)
    ensures |classes| == 3
    ensures classes[0] == "http://www.opengis.net/spec/ogcapi-common-1/1.0/conf/core"
    ensures classes[1] == "http://www.opengis.net/spec/ogcapi-common-2/1.0/conf/collections"
    ensures classes[2] == "http://www.opengis.net/spec/ogcapi-records-1/1.0/conf/core"
    ensures classes[2] == CORE
    ensures forall i, j | 0 <= i < j < |classes| :: classes[i] != classes[j]
  {
    [COMMON_CORE, COMMON_COLLECTIONS, CORE]
  }

  /** The landing page endpoint: always built for base path `ogc/records`, from the service configuration. */
  function GetLandingPage(service: CswInfo): (p: RecordsLandingPage)
    ensures p.basePath == "ogc/records"
    ensures service.title.Some? ==> p.title == service.title.value
    ensures service.title.None? ==> p.title == "Records 1.0 server"
    ensures service.abstractText.Some? ==> p.description == service.abstractText.value
    ensures service.abstractText.None? ==> p.description == ""
  {
    NewLandingPage(service, RECORDS_BASE_PATH)
  }
}
