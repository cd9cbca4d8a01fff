# Provider adapters of vita, modelled in Dafny

vita enumerates the subdomains of a host by asking public data sources.
This project models three of its provider adapters: the Wayback Machine
(`src/sources/wayback.rs`), AnubisDB (`src/sources/anubisdb.rs`) and crt.sh
(`src/sources/crtsh.rs`). Each adapter does four deterministic things, and
each is modelled as a pure function:

1. `build_url`: the query URL, a fixed prefix, the host and a fixed suffix.
2. `subdomains`: turns the decoded JSON answer into a set of host names.
3. the match at the end of `run`: turns the outcome of the HTTP call into
   `Ok(set)` or an error.
4. `Display` of the adapter's error: a fixed sentence followed by the host.

The HTTP call is not modelled. Its outcome is an input of type
`Types.Fetch<P>`. It is either `Failed(cause)`, which `?` propagates
unchanged, or `Decoded(body)`, where a JSON `null` decodes to `None`.

Files and modules:

- `types.dfy` (`Types`): `Option`, `Result`, the `Provider`s, the fetch
  outcome and the error a `run` returns.
- `format.dfy` (`Format`): a `format!` string with one hole (`Fill`) and its
  inverse (`Unfill`). Every `build_url` and every error message has this shape.
- `collect.dfy` (`Collect`): `iter().filter_map(f).collect::<HashSet<_>>()`
  as `FilterMapSet`, with the lemmas about it.
- `json.dfy` (`Json`): the part of `serde_json::Value` the adapters read:
  `as_array`, `as_str`, and `v[i]`, which gives `Null` out of range.
- `wayback.dfy`, `anubisdb.dfy`, `crtsh.dfy`: one module per adapter.
- `sources.dfy` (`Sources`): statements that compare the three adapters.

The `url` crate's `Url::parse(a).ok()` followed by `host_str()` is not
modelled. It is the parameter `parse: Wayback.UrlParser`, a function from a
string to an optional `ParsedUrl` that carries `host_str()`. Every statement
about the Wayback Machine adapter holds for every such parser.

Every `unwrap` that can panic is a precondition. These are the
`Extractable` predicates:

- AnubisDB needs the answer to be an array of strings.
- The Wayback Machine needs the answer to be an array. Every row's element
  0 must be a string. Every URL that parses must have a host.

A decoded answer that is empty behaves differently across adapters:

- crt.sh returns `Ok` of the empty set.
- The other two adapters return their "couldn't find any results" error.

Unlike the other two adapters, crt.sh has no emptiness check
(`Sources.EmptyAnswer`).

## Model

| member | source | states |
|---|---|---|
| Wayback.BuildUrl | src/sources/wayback.rs:55-61 | The host can be read back from the URL: the URL is the fixed CDX prefix `...?url=*.`, then the host, then `/*&output=json&fl=original&collapse=urlkey&limit=100000`. The line continuation leaves no space before `&fl` |
| Wayback.UrlBuilderExample | src/sources/wayback.rs:87-93 | For `hackerone.com` the URL is exactly the string the unit test expects |
| Wayback.ErrorMessage | src/sources/wayback.rs:45-52 | The error text is `WaybackMachine couldn't find any results for: ` followed by the host, and the host can be read back from it |
| Wayback.ErrorMessageExample | src/sources/wayback.rs:105-115 | For `anVubmxpa2VzdGVh.com` the error text is exactly the one the test expects |
| Wayback.Subdomains | src/sources/wayback.rs:21-29 | Every row whose URL parses contributes its host. Every member is the host of some such row. The set has at most as many members as there are rows |
| Wayback.DropsUnparsable | src/sources/wayback.rs:26 | Removing a row whose URL fails to parse leaves the set unchanged, so such rows are dropped silently |
| Wayback.DuplicatesCollapse | src/sources/wayback.rs:24-28 | Two rows with the same host make the set strictly smaller than the number of rows |
| Wayback.Run | src/sources/wayback.rs:63-80 | A fetch error propagates unchanged. Otherwise the result is `Ok` exactly when the answer is present and some row's URL parses. An `Ok` set is non-empty and equals `subdomains`. Every other case is `NotFound(WaybackMachine, host)` |
| Anubis.BuildUrl | src/sources/anubisdb.rs:48-50 | The URL is `https://jldc.me/anubis/subdomains/` followed by the host, and the host can be read back from it |
| Anubis.UrlBuilderExample | src/sources/anubisdb.rs:76-80 | For `hackerone.com` the URL is exactly the string the unit test expects |
| Anubis.ErrorMessage | src/sources/anubisdb.rs:42-46 | The error text is `AnubisDB couldn't find any results for: ` followed by the host, and the host can be read back from it |
| Anubis.ErrorMessageExample | src/sources/anubisdb.rs:90-99 | For `anVubmxpa2VzdGVh.com` the error text is exactly the one the test expects |
| Anubis.Subdomains | src/sources/anubisdb.rs:18-27 | The set holds exactly the strings of the answer array. It is empty only for an empty array. It has at most as many members as the array has elements |
| Anubis.DuplicatesCollapse | src/sources/anubisdb.rs:19-26 | A name listed twice makes the set strictly smaller than the array |
| Anubis.Run | src/sources/anubisdb.rs:52-69 | A fetch error propagates unchanged. Otherwise the result is `Ok` exactly when the answer is a non-empty array. An `Ok` set is non-empty and holds exactly the array's strings. Every other case is `NotFound(AnubisDB, host)` |
| CrtSh.BuildUrl | src/sources/crtsh.rs:38-40 | The URL is `https://crt.sh/?q=%.`, then the host, then `&output=json`, and the host can be read back from it |
| CrtSh.UrlBuilderExample | src/sources/crtsh.rs:57-61 | For `hackerone.com` the URL is exactly the string the unit test expects |
| CrtSh.ErrorMessage | src/sources/crtsh.rs:32-36 | The error text is `Crtsh couldn't find any results for: ` followed by the host, and the host can be read back from it |
| CrtSh.ErrorMessageExample | src/sources/crtsh.rs:71-81 | For `anVubmxpa2VzdGVh.com` the error text is exactly the one the test expects |
| CrtSh.Subdomains | src/sources/crtsh.rs:13-17 | Every record's `name_value` is a member, and every member is some record's `name_value`. The set has at most as many members as there are records |
| CrtSh.DuplicatesCollapse | src/sources/crtsh.rs:13-16 | Two records with the same `name_value` make the set strictly smaller than the record list |
| CrtSh.Run | src/sources/crtsh.rs:42-50 | A fetch error propagates unchanged. A decoded `None` is `NotFound(CrtShLog, host)`. Any decoded list is `Ok`, with exactly the records' `name_value`s |
| Sources.EmptyAnswer | src/sources/crtsh.rs:46-49 | An empty decoded answer gives `Ok` of the empty set from crt.sh. The same answer gives the "not found" error from the Wayback Machine and from AnubisDB |
| Sources.NotFoundMessageIdentifies | src/sources/wayback.rs:45-52 | Two "not found" messages are equal only for the same provider and the same host. This covers all three `Display` impls: this one, src/sources/anubisdb.rs:42-46 and src/sources/crtsh.rs:32-36 |
| Collect.FilterMapSet | src/sources/wayback.rs:25-28 | `filter_map` then `collect` into a `HashSet`. Every accepted element contributes its value, and every member comes from an accepted element. The set is empty exactly when no element is accepted. It has at most as many members as the input |

## Left out

- The HTTP request (`surf::get(...).recv_json().await`), async execution and the `Arc` around the host are not modelled. The fetch outcome is an input, and the host is a plain string.
- The details of how serde turns the body into a value are not modelled. The body is already a `Json.Value`, or a list of `CrtSh.Record` for crt.sh.
- Transport and decode errors are kept as opaque texts in `Types.FetchError`. Their `Display` belongs to surf and is not modelled.
- `Url::parse` and `host_str` come from the `url` crate. They are the parameter `Wayback.UrlParser`, not a URL grammar.
- A panic from an `unwrap` is not modelled as behaviour. The `Extractable` preconditions exclude the inputs that would panic.
- The network-dependent tests (`returns_results`, `handle_no_results`) are not modelled. Their fixed error texts are the `ErrorMessageExample` lemmas.
- The CLI, the concurrent fan-out over all sources, the merging of their results and the hostname filter are not modelled. None of that code is among the modelled files.
