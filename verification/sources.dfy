/** Statements that relate the three adapters to each other. */
module Sources {
  import opened Types
  import Json
  import Format
  import Wayback
  import Anubis
  import CrtSh

  /** The text each provider's "couldn't find any results" error displays. */
  function NotFoundMessage(source: Provider, host: string): string
  {
    match source
    case WaybackMachine => Wayback.ErrorMessage(host)
    case AnubisDB => Anubis.ErrorMessage(host)
    case CrtShLog => CrtSh.ErrorMessage(host)
  }

  /** An error message names its provider and host unambiguously: two
      "not found" errors display the same text only if they are the same. */
  lemma NotFoundMessageIdentifies(s1: Provider, h1: string, s2: Provider, h2: string)
    requires NotFoundMessage(s1, h1) == NotFoundMessage(s2, h2)
    ensures s1 == s2 && h1 == h2
  {
    DistinguishingChar(s1, h1);
    DistinguishingChar(s2, h2);
  }

  /** Character 36 of a message already tells the providers apart: the
      three sentences differ there and are all longer than that. */
  lemma DistinguishingChar(source: Provider, host: string)
    ensures |NotFoundMessage(source, host)| > 36
    ensures NotFoundMessage(source, host)[36] == match source
                                                 case WaybackMachine => 'u'
                                                 case AnubisDB => 'o'
                                                 case CrtShLog => ' '
  {
    var m := NotFoundMessage(source, host);
    var sentence := match source
                    case WaybackMachine => Wayback.NotFoundSentence
                    case AnubisDB => Anubis.NotFoundSentence
                    case CrtShLog => CrtSh.NotFoundSentence;
    assert Format.Unfill(sentence, "", m) == Some(host);
    assert Format.Fill(sentence, host, "") == m;
    assert m[..|sentence|] == sentence;
    assert Wayback.NotFoundSentence[36] == 'u';
    assert Anubis.NotFoundSentence[36] == 'o';
    assert CrtSh.NotFoundSentence[36] == ' ';
  }

  /** A decoded but empty answer: crt.sh reports an empty success, while the
      Wayback Machine and AnubisDB adapters report "not found". */
  lemma EmptyAnswer(host: string, parse: Wayback.UrlParser)
    ensures CrtSh.Run(host, Decoded(Some([]))) == Ok({})
    ensures Wayback.Run(host, Decoded(Some(Json.Array([]))), parse) == Err(NotFound(WaybackMachine, host))
    ensures Anubis.Run(host, Decoded(Some(Json.Array([])))) == Err(NotFound(AnubisDB, host))
  {
  }
}
