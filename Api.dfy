/**
  * What the stores receive from the HTTP client. The client itself is not modelled:
  * each awaited call is a parameter holding the outcome the server produced.
  */
module Api {
  import opened Wrappers

  /** One awaited API call: the value the promise resolved with, or a rejection
    * carrying the server's `response.data.message`, if it sent one. */
  datatype Call<T> = Returned(value: T) | Threw(message: Option<string>)

  /** Every API resource is identified by its string `id`; `fields` holds the
    * rest of the record as far as the client logic reads it. */
  datatype Resource<F> = Resource(id: string, fields: F)

  /** A page of a paginated index: `data` and `meta.last_page`, each possibly absent. */
  datatype Page<T> = Page(data: Option<seq<T>>, lastPage: Option<int>)

  /** `response.data.data || []` */
  function DataOrEmpty<T>(data: Option<seq<T>>): seq<T>
  {
    if data.Some? then data.value else []
  }

  /** `xs` in front of what later requests collected; nothing when one of them failed. */
  function Prepend<T>(xs: seq<T>, rest: Option<seq<T>>): Option<seq<T>>
  {
    if rest.None? then None else Some(xs + rest.value)
  }
}
