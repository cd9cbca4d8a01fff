/** Shared vocabulary of the provider adapters: optional values, results,
    the providers themselves and the errors a `run` can return. */
module Types {

  /** Rust's `Option<T>`. */
  datatype Option<+T> = None | Some(value: T)

  /** Rust's `Result<T, E>`: every adapter's `run` returns
      `Result<HashSet<String>, Box<dyn Error>>`. */
  datatype Result<+T, +E> = Ok(value: T) | Err(error: E)

  /** The three upstream services: the Wayback Machine, AnubisDB and the
      crt.sh certificate-transparency log search. */
  datatype Provider = WaybackMachine | AnubisDB | CrtShLog

  /** What `surf::get(uri).recv_json().await` can fail with: the request
      itself, or turning the body into the expected Rust type. */
  datatype FetchError = Transport(detail: string) | Decode(detail: string)

  /** The outcome of the network call, taken as an input of the model:
      either an error that `?` propagates, or the decoded body, where a JSON
      `null` decodes to `None`. */
  datatype Fetch<+P> = Failed(cause: FetchError) | Decoded(body: Option<P>)

  /** The boxed error a `run` returns: either the propagated fetch error,
      or the provider's own "couldn't find any results" error for a host. */
  datatype Error = Fetched(cause: FetchError) | NotFound(source: Provider, host: string)
}
