/** The certificate-transparency adapter (crt.sh). Its response decodes
    straight into a list of records, and any decoded list is a success,
    even an empty one. */
module CrtSh {
  import opened Types
  import Format
  import Collect

  const UrlPrefix := "https://crt.sh/?q=%."
  const UrlSuffix := "&output=json"
  const NotFoundSentence := "Crtsh couldn't find any results for: "

  /** One element of the JSON array crt.sh returns; only `name_value` is read. */
  datatype Record = Record(nameValue: string)

  /** The query URL for a host: the host is exactly what sits between the
      fixed prefix and suffix. */
  function BuildUrl(host: string): (url: string)
    ensures Format.Unfill(UrlPrefix, UrlSuffix, url) == Some(host)
    ensures |url| == |UrlPrefix| + |host| + |UrlSuffix|
  {
    Format.UnfillFill(UrlPrefix, host, UrlSuffix);
    Format.Fill(UrlPrefix, host, UrlSuffix)
  }

  lemma UrlBuilderExample()
    ensures BuildUrl("hackerone.com") == "https://crt.sh/?q=%.hackerone.com&output=json"
  {
    assert BuildUrl("hackerone.com") == UrlPrefix + "hackerone.com" + UrlSuffix;
    ExpectedUrl();
  }

  lemma ExpectedUrl()
    ensures UrlPrefix + "hackerone.com" + UrlSuffix == "https://crt.sh/?q=%.hackerone.com&output=json"
  {
  }

  /** The text `CrtshError` displays: the fixed sentence, then the host. */
  function ErrorMessage(host: string): (msg: string)
    ensures Format.Unfill(NotFoundSentence, "", msg) == Some(host)
  {
    Format.UnfillFill(NotFoundSentence, host, "");
    Format.Fill(NotFoundSentence, host, "")
  }

  lemma ErrorMessageExample()
    ensures ErrorMessage("anVubmxpa2VzdGVh.com") == "Crtsh couldn't find any results for: anVubmxpa2VzdGVh.com"
  {
    assert ErrorMessage("anVubmxpa2VzdGVh.com") == NotFoundSentence + "anVubmxpa2VzdGVh.com";
    ExpectedMessage();
  }

  lemma ExpectedMessage()
    ensures NotFoundSentence + "anVubmxpa2VzdGVh.com" == "Crtsh couldn't find any results for: anVubmxpa2VzdGVh.com"
  {
  }

  function NameValue(r: Record): Option<string>
  {
    Some(r.nameValue)
  }

  /** `IntoSubdomain for Vec<CrtshResult>`: the set of all `name_value`s. */
  function Subdomains(records: seq<Record>): (names: set<string>)
    ensures forall i :: 0 <= i < |records| ==> records[i].nameValue in names
    ensures forall n :: n in names ==> Record(n) in records
    ensures |names| <= |records|
  {
    var names := Collect.FilterMapSet(records, NameValue);
    assert forall n :: n in names ==> Record(n) in records by {
      forall n | n in names ensures Record(n) in records {
        var i :| 0 <= i < |records| && NameValue(records[i]) == Some(n);
        assert records[i] == Record(n);
      }
    }
    names
  }

  /** Two records with the same `name_value` give one member. */
  lemma DuplicatesCollapse(records: seq<Record>, i: nat, j: nat)
    requires i < |records| && j < |records| && i != j
    requires records[i].nameValue == records[j].nameValue
    ensures |Subdomains(records)| < |records|
  {
    Collect.DuplicatesCollapse(records, i, j, NameValue);
  }

  /** What `run` does once the fetch has completed. */
  function Run(host: string, fetch: Fetch<seq<Record>>): (r: Result<set<string>, Error>)
    ensures fetch.Failed? ==> r == Err(Fetched(fetch.cause))
    ensures r.Ok? <==> fetch.Decoded? && fetch.body.Some?
    ensures r.Ok? ==> forall n :: n in r.value <==> Record(n) in fetch.body.value
    ensures r.Err? && fetch.Decoded? ==> r.error == NotFound(CrtShLog, host)
  {
    match fetch
    case Failed(cause) => Err(Fetched(cause))
    case Decoded(None) => Err(NotFound(CrtShLog, host))
    case Decoded(Some(data)) => Ok(Subdomains(data))
  }
}
