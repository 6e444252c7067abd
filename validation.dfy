/** The URL check of the handler. URL parsing itself is an abstract parser. */
module Validation {
  import opened Types

  /** The parts of a parsed URL that the check looks at. */
  datatype UrlParts = UrlParts(scheme: string, host: string)

  /** A URL parser: the parts of the text, or None when it does not parse. */
  type Parser = string -> Option<UrlParts>

  /** validateURL: a URL is accepted when it parses with a non-empty scheme and a non-empty host. */
  predicate ValidUrl(raw: string, parse: Parser)
  {
    match parse(raw)
    case None => false
    case Some(parts) => parts.scheme != "" && parts.host != ""
  }

  /** All URLs of a batch are accepted. */
  ghost predicate AllValid(urls: seq<string>, parse: Parser)
  {
    forall i :: 0 <= i < |urls| ==> ValidUrl(urls[i], parse)
  }

  /** Scans the batch in order and stops at the first URL that is not accepted. */
  method FirstInvalid(urls: seq<string>, parse: Parser) returns (bad: Option<nat>)
    ensures bad.None? <==> AllValid(urls, parse)
    ensures bad.Some? ==> bad.value < |urls| && !ValidUrl(urls[bad.value], parse)
    ensures bad.Some? ==> forall j :: 0 <= j < bad.value ==> ValidUrl(urls[j], parse)
  {
    for i := 0 to |urls|
      invariant forall j :: 0 <= j < i ==> ValidUrl(urls[j], parse)
    {
      if !ValidUrl(urls[i], parse) {
        return Some(i);
      }
    }
    return None;
  }
}
