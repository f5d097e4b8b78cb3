/** The exception classes the scraper raises and inspects (core/exceptions.py),
    as one value type: the class and the message text str() returns. */
module Errors {

  datatype ErrorKind =
    | NetworkError
    | TimeoutError
    | BlockedError
    | ParseError
    | PriceValidationError
    | StructureChangeError
    | NotFoundError
    | RobotsBlockedError
    | ScraperError          // a plain ScraperError
    | OtherError            // any exception outside the ScraperError family

  datatype Error = Error(kind: ErrorKind, message: string)

  /** isinstance(e, ScraperError). */
  predicate IsScraperError(e: Error)
  {
    e.kind != OtherError
  }
}
