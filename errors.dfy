/** The failures the scraper raises.  Every variant except `ValueError` and `Uncaught` is
    one of the exception classes deriving from the site-error base class, so a caller can
    catch them all at once; `ValueError` is Python's built-in one, raised by
    `Model.from_id` and `Model.from_url`, which escapes unconverted from the listing parser;
    `Uncaught` stands for any other exception the request lets through unconverted (a total
    timeout, a body that does not decode), described by its message. */
module Errors {

  datatype Error =
    | InvalidURL(msg: string)
    | InvalidModelID(msg: string)
    | ModelNotFound(msg: string)
    | NetworkError(msg: string)
    | ParseError(msg: string)
    | RateLimitError(msg: string)
    | AuthorNotFound(msg: string)
    | SearchError(msg: string)
    | ValueError(msg: string)
    | Uncaught(msg: string)
  {
    /** True for the subclasses of the site-error base class. */
    predicate IsSiteError() {
      !ValueError? && !Uncaught?
    }
  }
}
