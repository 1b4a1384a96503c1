/**
 * The diagnostic line logged for an outgoing text: the text rendered as a
 * request if it decodes as one, else as a response if it decodes as one,
 * else the raw text, always behind the same prefix.
 */
module OutgoingLog {
  import opened Wrappers
  import opened Socket

  const Prefix: string := "WC: ==> "

  /** The line the ping timer logs on every firing. */
  const PingLine: string := "WC: ==> ping"

  /**
   * A serializer's decode of a text for the given session URL followed by
   * rendering it back as a JSON string; `None` when either step throws.
   */
  type Decoder = (string, WCURL) -> Option<string>

  /** The value of the first attempt that succeeded, or `fallback` when none did. */
  function FirstSome<T>(attempts: seq<Option<T>>, fallback: T): (r: T)
    ensures (forall i | 0 <= i < |attempts| :: attempts[i].None?) ==> r == fallback
    ensures forall i | 0 <= i < |attempts| && attempts[i].Some? ::
              (forall j | 0 <= j < i :: attempts[j].None?) ==> r == attempts[i].value
  {
    if attempts == [] then fallback
    else match attempts[0]
      case Some(v) => v
      case None =>
        var rest := attempts[1..];
        assert forall i | 1 <= i < |attempts| :: attempts[i] == rest[i - 1];
        FirstSome(rest, fallback)
  }

  function OutgoingLine(text: string, url: WCURL, decodeRequest: Decoder, decodeResponse: Decoder): (line: string)
    ensures Prefix <= line
    ensures decodeRequest(text, url).Some? ==> line == Prefix + decodeRequest(text, url).value
    ensures decodeRequest(text, url).None? && decodeResponse(text, url).Some? ==>
              line == Prefix + decodeResponse(text, url).value
    ensures decodeRequest(text, url).None? && decodeResponse(text, url).None? ==> line == Prefix + text
  {
    var attempts := [decodeRequest(text, url), decodeResponse(text, url)];
    assert attempts[1] == decodeResponse(text, url);
    Prefix + FirstSome(attempts, text)
  }
}
