/**
 * The errors the client raises and the classification of a resource reply by
 * `_raise_for` (client.py:7-20).
 */
module Responses {
  import opened Wrappers
  import opened Strings

  /** The parts of an HTTP reply the client reads: status, Content-Type header (if sent) and body text. */
  datatype Reply = Reply(status: int, contentType: Option<string>, text: string)

  /** The exceptions client.py raises, by what they carry. */
  datatype Error =
    | RequestFailed(verb: string, path: string, body: string)  // a resource call did not return 200
    | NoContentType                                            // `r.headers['Content-Type']` raises KeyError
    | LoginRejected(body: string)                              // the login call did not return 200
    | NoSessionCookie(body: string)                            // the login reply lacks the session cookie

  /** What `_raise_for` gives back: it raises, or returns parsed JSON, or returns the raw text. */
  datatype Outcome = Raised(error: Error) | Json(document: string) | Text(body: string)

  /** A Content-Type that `_raise_for` treats as JSON: "json" occurs in it, but not at its start. */
  predicate DeclaresJson(contentType: string) {
    Contains(contentType, "json") && !OccursAt(contentType, "json", 0)
  }

  /** `_raise_for(r, type, path)`; the JSON document is kept as the body text it is parsed from. */
  function RaiseFor(reply: Reply, verb: string, path: string): (r: Outcome)
    ensures r.Raised? && r.error.RequestFailed? <==> reply.status != 200
    ensures reply.status != 200 ==> r.error == RequestFailed(verb, path, reply.text)
    ensures r == Raised(NoContentType) <==> reply.status == 200 && reply.contentType.None?
    ensures r.Json? <==> reply.status == 200 && reply.contentType.Some? && DeclaresJson(reply.contentType.value)
    ensures r.Text? <==> reply.status == 200 && reply.contentType.Some? && !DeclaresJson(reply.contentType.value)
    ensures r.Json? ==> r.document == reply.text
    ensures r.Text? ==> r.body == reply.text
  {
    if reply.status != 200 then Raised(RequestFailed(verb, path, reply.text))
    else if reply.contentType.None? then Raised(NoContentType)
    else if Find(reply.contentType.value, "json") > 0 then Json(reply.text)
    else Text(reply.text)
  }

  /**
   * The usual Content-Types: "application/json" is parsed, while a bare "json"
   * (found at index 0) and "text/plain" come back as text.
   */
  lemma ContentTypeExamples(text: string)
    ensures RaiseFor(Reply(200, Some("application/json"), text), "GET", "/p") == Json(text)
    ensures RaiseFor(Reply(200, Some("application/json; charset=utf-8"), text), "GET", "/p") == Json(text)
    ensures RaiseFor(Reply(200, Some("json"), text), "GET", "/p") == Text(text)
    ensures RaiseFor(Reply(200, Some("text/plain"), text), "GET", "/p") == Text(text)
  {
    assert OccursAt("application/json", "json", 12);
    assert "application/json"[0] != 'j';
    assert "application/json; charset=utf-8"[0] != 'j';
    assert OccursAt("application/json; charset=utf-8", "json", 12);
    assert OccursAt("json", "json", 0);
    assert !Contains("text/plain", "json") by {
      forall i | 0 <= i <= |"text/plain"| ensures !OccursAt("text/plain", "json", i) {
        if i + 4 <= 10 {
          assert "text/plain"[i] != 'j';
        }
      }
    }
  }

  /** A failed resource call reports the verb label and the relative path, never data. */
  lemma NonOkReplyIsRequestError(reply: Reply, verb: string, path: string)
    requires reply.status != 200
    ensures RaiseFor(reply, verb, path) == Raised(RequestFailed(verb, path, reply.text))
    ensures !RaiseFor(reply, verb, path).Json? && !RaiseFor(reply, verb, path).Text?
  {
  }
}
