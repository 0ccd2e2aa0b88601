/**
 * What the detail pages do with a failed request once it has settled: the
 * error message they store, and which of their three screens they show.
 */
module Loading {
  import opened Js

  /**
   * A rejected request as the pages see it: the HTTP status of the response,
   * if there was one (`err.response?.status`), and `err.message`.
   */
  datatype FetchError = FetchError(status: Option<int>, message: Option<string>)

  /**
   * The stored error text: `notFound` for a 404, else the error's own
   * message, else `fallback`. With non-empty texts to fall back on it is
   * never empty.
   */
  function ErrorMessage(err: FetchError, notFound: string, fallback: string): (m: string)
    ensures err.status == Some(404) ==> m == notFound
    ensures err.status != Some(404) && Present(err.message) ==> m == err.message.value
    ensures err.status != Some(404) && !Present(err.message) ==> m == fallback
    ensures notFound != "" && fallback != "" ==> m != ""
  {
    if err.status == Some(404) then notFound else OrElse(err.message, fallback)
  }

  /** The screens of a page that loads one item by its slug. */
  datatype Screen = Skeleton | Failure(message: string) | Ready
}
