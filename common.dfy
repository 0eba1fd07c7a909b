/** Types shared by the three page controllers: the day selector, the
    server's pagination metadata and the outcome of an HTTP GET. */
module Common {

  datatype Option<+T> = None | Some(value: T)

  /** The day toggle holds 1 or 2 (`useState<1 | 2>`). */
  type Day = d: int | d == 1 || d == 2 witness 1

  /** Pagination metadata the server sends beside a page of entries. */
  datatype PaginationMeta = PaginationMeta(total: int, currentPage: int, pageSize: int, totalPages: int)

  /** The response body every endpoint wraps its payload in. `meta` is absent
      for the lobbies endpoint and may be absent from any body. */
  datatype Envelope<+T> = Envelope(success: bool, data: T, meta: Option<PaginationMeta>)

  /** What an awaited GET yields: a transport error (the `catch` branch) or a
      parsed body. The HTTP call itself is not modelled; its result is an input. */
  datatype Response<+T> = TransportError | Received(body: Envelope<T>)

  /** The pages apply a response only when a body arrived and its `success` flag is set. */
  predicate Succeeded<T>(r: Response<T>)
  {
    r.Received? && r.body.success
  }
}
