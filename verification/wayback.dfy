/** The Wayback Machine adapter. The CDX API answers with rows of archived
    URLs; the adapter keeps the host of every URL that parses, and reports
    "no results" when no host is left. */
module Wayback {
  import opened Types
  import Format
  import Collect
  import opened Json

  const UrlPrefix := "https://web.archive.org/cdx/search/cdx?url=*."
  /** Written in two pieces, where the format string is broken by a line
      continuation; the continuation drops the indentation, so nothing
      separates the pieces. */
  const UrlSuffix := "/*&output=json" + "&fl=original&collapse=urlkey&limit=100000"
  const NotFoundSentence := "WaybackMachine couldn't find any results for: "

  /** What the adapter reads of a parsed `url::Url`: `host_str()`. */
  datatype ParsedUrl = ParsedUrl(hostStr: Option<string>)

  /** `Url::parse(a).ok()`, which belongs to the `url` crate and is taken
      as a parameter of the model. */
  type UrlParser = string -> Option<ParsedUrl>

  /** The query URL for a host: the host is exactly what sits between the
      fixed prefix and suffix. */
  function BuildUrl(host: string): (url: string)
    ensures Format.Unfill(UrlPrefix, UrlSuffix, url) == Some(host)
    ensures |url| == |UrlPrefix| + |host| + |UrlSuffix|
  {
    Format.UnfillFill(UrlPrefix, host, UrlSuffix);
    Format.Fill(UrlPrefix, host, UrlSuffix)
  }

  /** The expected URL is written, as in the source, as two pieces joined
      by a line continuation. */
  lemma UrlBuilderExample()
    ensures BuildUrl("hackerone.com")
         == "https://web.archive.org/cdx/search/cdx?url=*.hackerone.com/*&output=json"
          + "&fl=original&collapse=urlkey&limit=100000"
  {
    var tail := "&fl=original&collapse=urlkey&limit=100000";
    calc {
      BuildUrl("hackerone.com");
      UrlPrefix + "hackerone.com" + ("/*&output=json" + tail);
      (UrlPrefix + "hackerone.com" + "/*&output=json") + tail;
      { FirstLine(); }
      "https://web.archive.org/cdx/search/cdx?url=*.hackerone.com/*&output=json" + tail;
    }
  }

  lemma FirstLine()
    ensures UrlPrefix + "hackerone.com" + "/*&output=json"
         == "https://web.archive.org/cdx/search/cdx?url=*.hackerone.com/*&output=json"
  {
  }

  /** The text `WaybackError` displays: the fixed sentence, then the host. */
  function ErrorMessage(host: string): (msg: string)
    ensures Format.Unfill(NotFoundSentence, "", msg) == Some(host)
  {
    Format.UnfillFill(NotFoundSentence, host, "");
    Format.Fill(NotFoundSentence, host, "")
  }

  lemma ErrorMessageExample()
    ensures ErrorMessage("anVubmxpa2VzdGVh.com") == "WaybackMachine couldn't find any results for: anVubmxpa2VzdGVh.com"
  {
    assert ErrorMessage("anVubmxpa2VzdGVh.com") == NotFoundSentence + "anVubmxpa2VzdGVh.com";
    ExpectedMessage();
  }

  lemma ExpectedMessage()
    ensures NotFoundSentence + "anVubmxpa2VzdGVh.com" == "WaybackMachine couldn't find any results for: anVubmxpa2VzdGVh.com"
  {
  }

  /** `row[0].as_str()`: the archived URL of one CDX row. */
  function FirstField(row: Value): Option<string>
  {
    AsStr(At(row, 0))
  }

  /** The host one row contributes: none when its URL does not parse. */
  function RowHost(parse: UrlParser, row: Value): Option<string>
  {
    match FirstField(row)
    case None => None
    case Some(a) =>
      match parse(a)
      case None => None
      case Some(u) => u.hostStr
  }

  /** The shape the `unwrap`s in `subdomains` need: an array whose every row
      starts with a string, and every URL that parses has a host. */
  predicate Extractable(data: Value, parse: UrlParser)
  {
    && AsArray(data).Some?
    && forall i :: 0 <= i < |data.items| ==>
         && FirstField(data.items[i]).Some?
         && (parse(FirstField(data.items[i]).value).Some? ==>
               parse(FirstField(data.items[i]).value).value.hostStr.Some?)
  }

  /** `WaybackResult::subdomains`: the hosts of all rows whose URL parses. */
  function Subdomains(data: Value, parse: UrlParser): (hosts: set<string>)
    requires Extractable(data, parse)
    ensures forall i :: 0 <= i < |data.items| && RowHost(parse, data.items[i]).Some? ==>
              RowHost(parse, data.items[i]).value in hosts
    ensures forall h :: h in hosts ==>
              exists i :: 0 <= i < |data.items| && RowHost(parse, data.items[i]) == Some(h)
    ensures hosts == {} <==> forall i :: 0 <= i < |data.items| ==> RowHost(parse, data.items[i]).None?
    ensures |hosts| <= |data.items|
  {
    Collect.FilterMapSet(data.items, (row: Value) => RowHost(parse, row))
  }

  /** A row whose URL does not parse contributes nothing. */
  lemma DropsUnparsable(data: Value, parse: UrlParser, k: nat)
    requires Extractable(data, parse)
    requires k < |data.items| && parse(FirstField(data.items[k]).value).None?
    ensures Extractable(Array(data.items[..k] + data.items[k + 1..]), parse)
    ensures Subdomains(Array(data.items[..k] + data.items[k + 1..]), parse) == Subdomains(data, parse)
  {
    var rest := data.items[..k] + data.items[k + 1..];
    forall i | 0 <= i < |rest|
      ensures FirstField(rest[i]).Some?
      ensures parse(FirstField(rest[i]).value).Some? ==> parse(FirstField(rest[i]).value).value.hostStr.Some?
    {
      if i < k {
        assert rest[i] == data.items[i];
      } else {
        assert rest[i] == data.items[i + 1];
      }
    }
    Collect.DropRejected(data.items, k, (row: Value) => RowHost(parse, row));
  }

  /** Two rows whose URLs share a host give one member. */
  lemma DuplicatesCollapse(data: Value, parse: UrlParser, i: nat, j: nat, host: string)
    requires Extractable(data, parse)
    requires i < |data.items| && j < |data.items| && i != j
    requires parse(FirstField(data.items[i]).value) == Some(ParsedUrl(Some(host)))
    requires parse(FirstField(data.items[j]).value) == Some(ParsedUrl(Some(host)))
    ensures |Subdomains(data, parse)| < |data.items|
  {
    var f := (row: Value) => RowHost(parse, row);
    assert f(data.items[i]) == Some(host) == f(data.items[j]);
    Collect.DuplicatesCollapse(data.items, i, j, f);
  }

  /** What `run` does once the fetch has completed. */
  function Run(host: string, fetch: Fetch<Value>, parse: UrlParser): (r: Result<set<string>, Error>)
    requires fetch.Decoded? && fetch.body.Some? ==> Extractable(fetch.body.value, parse)
    ensures fetch.Failed? ==> r == Err(Fetched(fetch.cause))
    ensures r.Ok? <==> (fetch.Decoded? && fetch.body.Some? &&
              exists i :: 0 <= i < |fetch.body.value.items| &&
                parse(FirstField(fetch.body.value.items[i]).value).Some?)
    ensures r.Ok? ==> r.value != {} && r.value == Subdomains(fetch.body.value, parse)
    ensures r.Err? && fetch.Decoded? ==> r.error == NotFound(WaybackMachine, host)
  {
    match fetch
    case Failed(cause) => Err(Fetched(cause))
    case Decoded(None) => Err(NotFound(WaybackMachine, host))
    case Decoded(Some(data)) =>
      var subdomains := Subdomains(data, parse);
      if |subdomains| != 0 then
        Ok(subdomains)
      else
        Err(NotFound(WaybackMachine, host))
  }
}
