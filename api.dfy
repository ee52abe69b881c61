/** Shapes of the Wikipedia API responses that the components read.
    Only the fields the components use are kept. A network request is not
    modelled: its outcome is handed to the handler as a `Fetch` value. */
module Api {

  datatype Option<+T> = None | Some(value: T)

  /** An entry of the random-page list or of the related-pages list:
      the components only read its `title` (a page identifier, which may
      contain underscores). */
  datatype Page = Page(title: string)

  /** A page summary (`/page/summary/{title}` or `/page/random/summary`);
      `thumbnail` is the optional `thumbnail.source` URL. */
  datatype Summary = Summary(title: string, extract: string, thumbnail: Option<string>)

  /** Outcome of one awaited request: the parsed payload, or a failure
      (network error or missing field), which the handlers catch and log. */
  datatype Fetch<+T> = Received(value: T) | Failed
}
