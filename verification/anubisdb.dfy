/** The AnubisDB adapter. Its response is a JSON array of host names; an
    empty array is reported as "no results". */
module Anubis {
  import opened Types
  import Format
  import Collect
  import opened Json

  const UrlPrefix := "https://jldc.me/anubis/subdomains/"
  const NotFoundSentence := "AnubisDB couldn't find any results for: "

  /** The query URL for a host: the host is everything after the fixed prefix. */
  function BuildUrl(host: string): (url: string)
    ensures Format.Unfill(UrlPrefix, "", url) == Some(host)
    ensures |url| == |UrlPrefix| + |host|
  {
    Format.UnfillFill(UrlPrefix, host, "");
    Format.Fill(UrlPrefix, host, "")
  }

  lemma UrlBuilderExample()
    ensures BuildUrl("hackerone.com") == "https://jldc.me/anubis/subdomains/hackerone.com"
  {
    assert BuildUrl("hackerone.com") == UrlPrefix + "hackerone.com";
    ExpectedUrl();
  }

  lemma ExpectedUrl()
    ensures UrlPrefix + "hackerone.com" == "https://jldc.me/anubis/subdomains/hackerone.com"
  {
  }

  /** The text `AnubisError` displays: the fixed sentence, then the host. */
  function ErrorMessage(host: string): (msg: string)
    ensures Format.Unfill(NotFoundSentence, "", msg) == Some(host)
  {
    Format.UnfillFill(NotFoundSentence, host, "");
    Format.Fill(NotFoundSentence, host, "")
  }

  lemma ErrorMessageExample()
    ensures ErrorMessage("anVubmxpa2VzdGVh.com") == "AnubisDB couldn't find any results for: anVubmxpa2VzdGVh.com"
  {
    assert ErrorMessage("anVubmxpa2VzdGVh.com") == NotFoundSentence + "anVubmxpa2VzdGVh.com";
    ExpectedMessage();
  }

  lemma ExpectedMessage()
    ensures NotFoundSentence + "anVubmxpa2VzdGVh.com" == "AnubisDB couldn't find any results for: anVubmxpa2VzdGVh.com"
  {
  }

  /** The shape the `unwrap`s in `subdomains` need: an array whose every
      element is a string. Anything else panics. */
  predicate Extractable(data: Value)
  {
    AsArray(data).Some? && forall i :: 0 <= i < |data.items| ==> data.items[i].Str?
  }

  /** `AnubisResult::subdomains`: exactly the strings of the array. */
  function Subdomains(data: Value): (names: set<string>)
    requires Extractable(data)
    ensures forall i :: 0 <= i < |data.items| ==> data.items[i].str in names
    ensures forall n :: n in names ==> Str(n) in data.items
    ensures names == {} <==> |data.items| == 0
    ensures |names| <= |data.items|
  {
    var names := Collect.FilterMapSet(data.items, AsStr);
    assert forall n :: n in names ==> Str(n) in data.items by {
      forall n | n in names ensures Str(n) in data.items {
        var i :| 0 <= i < |data.items| && AsStr(data.items[i]) == Some(n);
        assert data.items[i] == Str(n);
      }
    }
    names
  }

  /** A name listed twice is one member. */
  lemma DuplicatesCollapse(data: Value, i: nat, j: nat)
    requires Extractable(data)
    requires i < |data.items| && j < |data.items| && i != j
    requires data.items[i] == data.items[j]
    ensures |Subdomains(data)| < |data.items|
  {
    Collect.DuplicatesCollapse(data.items, i, j, AsStr);
  }

  /** What `run` does once the fetch has completed. */
  function Run(host: string, fetch: Fetch<Value>): (r: Result<set<string>, Error>)
    requires fetch.Decoded? && fetch.body.Some? ==> Extractable(fetch.body.value)
    ensures fetch.Failed? ==> r == Err(Fetched(fetch.cause))
    ensures r.Ok? <==> fetch.Decoded? && fetch.body.Some? && |fetch.body.value.items| > 0
    ensures r.Ok? ==> r.value != {} && forall n :: n in r.value <==> Str(n) in fetch.body.value.items
    ensures r.Err? && fetch.Decoded? ==> r.error == NotFound(AnubisDB, host)
  {
    match fetch
    case Failed(cause) => Err(Fetched(cause))
    case Decoded(None) => Err(NotFound(AnubisDB, host))
    case Decoded(Some(d)) =>
      var subdomains := Subdomains(d);
      if |subdomains| != 0 then
        Ok(subdomains)
      else
        Err(NotFound(AnubisDB, host))
  }
}
