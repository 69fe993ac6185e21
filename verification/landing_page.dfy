/** The records landing page: title, description and base path, defaulted from the catalog service configuration. */
module LandingPage {
  import opened Wrappers

  /** The catalog service configuration; title and abstract may be null. */
  datatype CswInfo = CswInfo(title: Option<string>, abstractText: Option<string>)

  datatype RecordsLandingPage = RecordsLandingPage(title: string, description: string, basePath: string)

  const DEFAULT_TITLE := "Records 1.0 server"
  const DEFAULT_DESCRIPTION := ""
  const RECORDS_BASE_PATH := "ogc/records"

  function OrElse(v: Option<string>, default: string): string {
    match v
    case Some(s) => s
    case None => default
  }

  /**
   * The landing page for service `service`. The `featuresBase` argument only
   * fed link building that is switched off, so it plays no part.
   */
  function NewLandingPage(service: CswInfo, featuresBase: string): (p: RecordsLandingPage)
    ensures service.title.Some? ==> p.title == service.title.value
    ensures service.title.None? ==> p.title == "Records 1.0 server"
    ensures service.abstractText.Some? ==> p.description == service.abstractText.value
    ensures service.abstractText.None? ==> p.description == ""
    ensures p.basePath == "ogc/records"
  {
    RecordsLandingPage(OrElse(service.title, DEFAULT_TITLE), OrElse(service.abstractText, DEFAULT_DESCRIPTION), RECORDS_BASE_PATH)
  }

  /** The page does not depend on `featuresBase`. */
  lemma LandingPageIgnoresFeaturesBase(service: CswInfo, base1: string, base2: string)
    ensures NewLandingPage(service, base1) == NewLandingPage(service, base2)
  {
  }
}
