/** The domain errors the backend raises, and the texts they carry.
    The error constants module of the repository is not part of this model,
    so the texts are a parameter: every statement below holds for every
    choice of texts unless it says which shape of text it assumes. */
module Errors {
  import opened Common

  datatype DomainError =
    | Unauthorized
    | RateLimit
    | FeedNotFound(subject: string)
    | AdafruitIoError(detail: string)
    | FeedAlreadyExists(key: string)
    | FeedCreationFailed(key: string)
    | DataCreationFailed(key: string)
    | NoDataAvailable(key: string)

  /** The texts of ADAFRUIT_IO_UNAUTHORIZED, ADAFRUIT_IO_RATE_LIMIT and the
      message builders FEED_NOT_FOUND(..), ADAFRUIT_IO_ERROR(..), ... */
  datatype ErrorTexts = ErrorTexts(
    unauthorized: string,
    rateLimit: string,
    feedNotFound: string -> string,
    adafruitIoError: string -> string,
    feedAlreadyExists: string -> string,
    feedCreationFailed: string -> string,
    dataCreationFailed: string -> string,
    noDataAvailable: string -> string)

  /** `new Error(<constant>).message` for each domain error. */
  function Message(t: ErrorTexts, e: DomainError): string
  {
    match e
    case Unauthorized => t.unauthorized
    case RateLimit => t.rateLimit
    case FeedNotFound(s) => t.feedNotFound(s)
    case AdafruitIoError(d) => t.adafruitIoError(d)
    case FeedAlreadyExists(k) => t.feedAlreadyExists(k)
    case FeedCreationFailed(k) => t.feedCreationFailed(k)
    case DataCreationFailed(k) => t.dataCreationFailed(k)
    case NoDataAvailable(k) => t.noDataAvailable(k)
  }

  /** What an operation throws: a freshly raised domain error, or an error
      it caught and re-throws unchanged (only its message is known). */
  datatype Thrown = Raised(error: DomainError) | Rethrown(message: string)

  function ThrownMessage(t: ErrorTexts, e: Thrown): string
  {
    match e
    case Raised(d) => Message(t, d)
    case Rethrown(m) => m
  }

  /** The three status codes the controllers look for in upstream messages. */
  predicate MentionsNotFound(msg: string) { Contains(msg, "404") }
  predicate MentionsUnauthorized(msg: string) { Contains(msg, "401") || Contains(msg, "403") }
  predicate MentionsRateLimit(msg: string) { Contains(msg, "429") }
}
