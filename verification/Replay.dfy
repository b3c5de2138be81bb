/** How a stored response is turned back into a response, and when the client sees the same thing. */
module Replay {
  import opened Options
  import opened KeyRow

  const JSON := "application/json"

  /** "application/json" in content_type. */
  predicate IsJson(contentType: string) {
    JSON <= contentType || (contentType != "" && IsJson(contentType[1..]))
  }

  lemma {:induction false} IsJsonIff(contentType: string)
    ensures IsJson(contentType) <==> exists i :: 0 <= i <= |contentType| && JSON <= contentType[i..]
  {
    if JSON <= contentType {
      assert JSON <= contentType[0..];
    } else if contentType != "" {
      IsJsonIff(contentType[1..]);
      forall i | 0 < i <= |contentType| ensures contentType[i..] == contentType[1..][i - 1..] {
      }
      if IsJson(contentType[1..]) {
        var i :| 0 <= i <= |contentType[1..]| && JSON <= contentType[1..][i..];
        assert JSON <= contentType[i + 1..];
      }
    }
  }

  /** json.loads and the serialiser of JSONResponse: loads inverts dumps and rejects "". */
  ghost predicate IsCodec<V(!new)>(loads: string -> Option<V>, dumps: V -> string) {
    && loads("") == None
    && forall v :: loads(dumps(v)) == Some(v)
  }

  /** The replayed response, or None where json.loads raises (and the middleware answers 503). */
  function StoredResponse<V>(loads: string -> Option<V>, dumps: V -> string, stored: Response): Option<Response> {
    var contentType := if stored.contentType.GetOr("") == "" then JSON else stored.contentType.value;
    if stored.status == 204 || stored.body == "" then Some(Response(stored.status, "", None))
    else if IsJson(contentType) then
      match loads(stored.body)
      case None => None
      case Some(v) => Some(Response(stored.status, dumps(v), Some(JSON)))
    else Some(Response(stored.status, stored.body, Some(contentType)))
  }

  /** What a client makes of a response. */
  datatype View<V> = NoBody | Json(value: V) | Malformed | Raw(text: string)

  function Seen<V>(loads: string -> Option<V>, r: Response): View<V> {
    if r.status == 204 || r.body == "" then NoBody
    else if r.contentType.Some? && IsJson(r.contentType.value) then
      match loads(r.body)
      case None => Malformed
      case Some(v) => Json(v)
    else Raw(r.body)
  }

  /** A replay shows the client the status and body of the original if and only if there is no body
      to show, or the original carried a content type, under which a JSON body parses. */
  lemma ReplayShowsOriginalIff<V(!new)>(loads: string -> Option<V>, dumps: V -> string, original: Response)
    requires IsCodec(loads, dumps)
    ensures var replayed := StoredResponse(loads, dumps, original);
            (replayed.Some? && replayed.value.status == original.status &&
             Seen(loads, replayed.value) == Seen(loads, original))
            <==>
            (original.status == 204 || original.body == "" ||
             (original.contentType.GetOr("") != "" &&
              (IsJson(original.contentType.value) ==> loads(original.body).Some?)))
  {
    assert IsJson(JSON);
    assert !IsJson("");
  }

  /** What a replay is, to the byte where it is no JSON: nothing under 204 or for an empty body, the stored text
      under its own content type if that names another format, and otherwise the value reserialised as JSON, if
      the text parses. */
  lemma ReplayIs<V(!new)>(loads: string -> Option<V>, dumps: V -> string, stored: Response)
    ensures var json := stored.contentType.GetOr("") == "" || IsJson(stored.contentType.value);
            StoredResponse(loads, dumps, stored) ==
            if stored.status == 204 || stored.body == "" then Some(Response(stored.status, "", None))
            else if !json then Some(stored)
            else if loads(stored.body).None? then None
            else Some(Response(stored.status, dumps(loads(stored.body).value), Some("application/json")))
  {
    assert IsJson(JSON);
  }

  /** A text stored without a content type never comes back as the text the client first saw. */
  lemma UntypedTextIsNotReplayed<V(!new)>(loads: string -> Option<V>, dumps: V -> string)
    requires IsCodec(loads, dumps)
    ensures var original := Response(200, "hello", None);
            var replayed := StoredResponse(loads, dumps, original);
            && Seen(loads, original) == Raw("hello")
            && (replayed.Some? ==> Seen(loads, replayed.value) != Seen(loads, original))
  {
    assert IsJson(JSON);
  }

  /** A malformed JSON body, with a codec of one bracket for an example, is not replayed at all. */
  lemma MalformedJsonIsNotReplayed()
    ensures var loads := (s: string) => if s != "" && s[0] == '[' then Some(s[1..]) else None;
            var dumps := (v: string) => "[" + v;
            && IsCodec(loads, dumps)
            && StoredResponse(loads, dumps, Response(200, "hello", Some(JSON))) == None
  {
    assert IsJson(JSON);
    assert forall v: string :: ("[" + v)[1..] == v;
  }
}
