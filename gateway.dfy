/** The serverless generation gateway: one request from the browser, at most
    one call to the image model, one response back. The network call itself
    is not modelled; its outcome is an input, and the call the gateway would
    make is part of the result, so that what is sent and what is answered can
    both be stated. */
module Gateway {
  import opened JsValues

  const Endpoint := "https://generativelanguage.googleapis.com/v1beta/models/gemini-2.5-flash-image:generateImage"
  const JpegType := "image/jpeg"
  const EmptyUpstreamHint :=
    "Upstream OK tetapi kosong. Pastikan project & API key kamu punya akses model gemini-2.5-flash-image."

  /** The fields the handler reads from the JSON request body; `None` is a
      field the body does not have. `count` is the value of `Number(count)`,
      with `None` for NaN; `references` is `None` unless the field is an
      array. */
  datatype Fields = Fields(apiKey: Option<string>, prompt: Option<string>, count: Option<int>,
                           ratio: Option<string>, references: Option<seq<string>>)

  datatype Request = Request(verb: string, body: Option<Fields>)

  datatype InlineImage = InlineImage(mimeType: string, data: string)

  /** The JSON document sent to the image model. */
  datatype Payload = Payload(promptText: string, imageCount: int, aspectRatio: string,
                             references: Option<seq<InlineImage>>)

  /** The one outbound POST: where it goes, its headers and its body. */
  datatype UpstreamCall = UpstreamCall(endpoint: string, headers: seq<(string, string)>, payload: Payload)

  /** One element of the upstream `images` array, with the two places its
      data may sit. */
  datatype InlineData = InlineData(data: Option<string>)
  datatype ImageEntry = ImageEntry(base64Data: Option<string>, inlineData: Option<InlineData>)

  /** What `JSON.parse` of the upstream text yielded, as far as the handler
      looks at it: `error.message` and `images`. */
  datatype UpstreamData = UpstreamData(errorMessage: Option<string>, images: Option<seq<ImageEntry>>)

  /** How the upstream call ended: a reply with its status, raw text and
      parsed body (`None` when the text is not JSON), or an exception with
      its message. */
  datatype Outcome =
    | Replied(status: nat, text: string, data: Option<UpstreamData>)
    | Threw(message: Option<string>)

  datatype Body = NoBody | Message(text: string) | Images(list: seq<string>)

  datatype Response = Response(status: int, headers: seq<(string, string)>, body: Body)

  /** The call made upstream, if any, and the response sent back. */
  datatype Exchange = Exchange(call: Option<UpstreamCall>, response: Response)

  const PreflightHeaders := [
    ("Access-Control-Allow-Origin", "*"),
    ("Access-Control-Allow-Methods", "POST, OPTIONS"),
    ("Access-Control-Allow-Headers", "Content-Type")
  ]

  const SuccessHeaders := [("Access-Control-Allow-Origin", "*"), ("Content-Type", "application/json")]

  /** `req.body || {}`: a request without a body has none of the fields. */
  function FieldsOf(req: Request): Fields {
    match req.body
    case Some(f) => f
    case None => Fields(None, None, None, None, None)
  }

  /** `2xx` statuses are `upstream.ok`. */
  predicate IsOk(status: int) {
    200 <= status <= 299
  }

  /** The payload: the prompt, `Number(count) || 1` images, `ratio || "1:1"`,
      and the references wrapped as inline JPEG data only when there is at
      least one. The credential is not a parameter, so it cannot reach the
      payload. */
  function BuildPayload(prompt: string, count: Option<int>, ratio: Option<string>,
                        references: Option<seq<string>>): Payload
  {
    var refs :=
      if references.Some? && |references.value| > 0 then
        var rs := references.value;
        Some(seq(|rs|, i requires 0 <= i < |rs| => InlineImage(JpegType, rs[i])))
      else None;
    Payload(prompt, NumberOrOne(count), ValueOr(ratio, "1:1"), refs)
  }

  /** The outbound call: the credential travels in the `x-goog-api-key`
      header and nowhere else. */
  function BuildCall(apiKey: string, payload: Payload): UpstreamCall {
    UpstreamCall(Endpoint, [("Content-Type", "application/json"), ("x-goog-api-key", apiKey)], payload)
  }

  /** The data of one image entry: `base64Data` when it is non-empty,
      otherwise `inlineData.data`, which may itself be absent or empty. */
  function Pick(it: ImageEntry): Option<string> {
    if Truthy(it.base64Data) then it.base64Data
    else match it.inlineData
      case Some(d) => d.data
      case None => None
  }

  /** Map every entry to its data and keep the non-empty ones, in order. */
  function Extract(entries: seq<ImageEntry>): (r: seq<string>)
    ensures |r| <= |entries|
    ensures forall i :: 0 <= i < |r| ==> r[i] != ""
  {
    if entries == [] then []
    else
      var v := Pick(entries[0]);
      if Truthy(v) then [v.value] + Extract(entries[1..]) else Extract(entries[1..])
  }

  /** `data?.images || []`. */
  function ImagesOf(data: Option<UpstreamData>): seq<ImageEntry> {
    if data.Some? && data.value.images.Some? then data.value.images.value else []
  }

  /** `data?.error?.message || text || "Upstream HTTP <status>"`. */
  function UpstreamErrorMessage(status: nat, text: string, data: Option<UpstreamData>): (m: string)
    ensures m != ""
  {
    var parsed := if data.Some? then data.value.errorMessage else None;
    ValueOr(parsed, OrElse(text, "Upstream HTTP " + DecimalString(status)))
  }

  /** The response once the upstream call has been made. */
  function Respond(outcome: Outcome): Response {
    match outcome
    case Threw(message) => Response(500, [], Message(ValueOr(message, "Internal error")))
    case Replied(status, text, data) =>
      if !IsOk(status) then Response(status, [], Message(UpstreamErrorMessage(status, text, data)))
      else
        var images := Extract(ImagesOf(data));
        if images == [] then Response(502, [], Message(EmptyUpstreamHint))
        else Response(200, SuccessHeaders, Images(images))
  }

  /** The handler: preflight, method check, the two required fields in
      order, then the one upstream call and its translation. An upstream
      call is made exactly for a POST that carries both a key and a
      prompt. */
  function Handle(req: Request, outcome: Outcome): (ex: Exchange)
    ensures ex.call.Some? <==>
              req.verb == "POST" && Truthy(FieldsOf(req).apiKey) && Truthy(FieldsOf(req).prompt)
    ensures ex.call.None? ==> ex.response.status == 200 || ex.response.status == 400 || ex.response.status == 405
  {
    if req.verb == "OPTIONS" then Exchange(None, Response(200, PreflightHeaders, NoBody))
    else if req.verb != "POST" then Exchange(None, Response(405, [], Message("Method Not Allowed")))
    else
      var f := FieldsOf(req);
      if !Truthy(f.apiKey) then Exchange(None, Response(400, [], Message("Missing apiKey")))
      else if !Truthy(f.prompt) then Exchange(None, Response(400, [], Message("Missing prompt")))
      else
        var payload := BuildPayload(f.prompt.value, f.count, f.ratio, f.references);
        Exchange(Some(BuildCall(f.apiKey.value, payload)), Respond(outcome))
  }

  // ---------------------------------------------------------------------
  // Image extraction

  /** Extraction distributes over concatenation: entries are handled one by
      one and their results keep the entries' order. */
  lemma {:induction false} ExtractAppend(a: seq<ImageEntry>, b: seq<ImageEntry>)
    ensures Extract(a + b) == Extract(a) + Extract(b)
  {
    if a != [] {
      assert (a + b)[0] == a[0];
      assert (a + b)[1..] == a[1..] + b;
      ExtractAppend(a[1..], b);
      var v := Pick(a[0]);
      if Truthy(v) {
        assert [v.value] + (Extract(a[1..]) + Extract(b)) == [v.value] + Extract(a[1..]) + Extract(b);
      }
    } else {
      assert a + b == b;
    }
  }

  /** Nothing is extracted exactly when no entry has usable data. */
  lemma {:induction false} ExtractEmptyIff(entries: seq<ImageEntry>)
    ensures Extract(entries) == [] <==> forall i :: 0 <= i < |entries| ==> !Truthy(Pick(entries[i]))
  {
    if entries != [] {
      ExtractEmptyIff(entries[1..]);
      assert forall i :: 1 <= i < |entries| ==> entries[i] == entries[1..][i - 1];
    }
  }

  /** When every entry has usable data, every entry contributes exactly its
      own data, in place. */
  lemma {:induction false} ExtractAllUsable(entries: seq<ImageEntry>)
    requires forall i :: 0 <= i < |entries| ==> Truthy(Pick(entries[i]))
    ensures |Extract(entries)| == |entries|
    ensures forall i :: 0 <= i < |entries| ==> Pick(entries[i]) == Some(Extract(entries)[i])
  {
    if entries != [] {
      assert forall i :: 1 <= i < |entries| ==> entries[i] == entries[1..][i - 1];
      ExtractAllUsable(entries[1..]);
    }
  }

  /** Every extracted string is the data of some entry: nothing is made up. */
  lemma {:induction false} ExtractFromEntries(entries: seq<ImageEntry>)
    ensures forall x :: x in Extract(entries) ==> exists i :: 0 <= i < |entries| && Pick(entries[i]) == Some(x)
  {
    if entries != [] {
      ExtractFromEntries(entries[1..]);
      forall x | x in Extract(entries)
        ensures exists i :: 0 <= i < |entries| && Pick(entries[i]) == Some(x)
      {
        if x in Extract(entries[1..]) {
          var i :| 0 <= i < |entries[1..]| && Pick(entries[1..][i]) == Some(x);
          assert Pick(entries[i + 1]) == Some(x);
        } else {
          assert Pick(entries[0]) == Some(x);
        }
      }
    }
  }

  /** The entry's direct field wins when non-empty; otherwise the nested
      field is used, and an entry with neither contributes nothing. */
  lemma PickPrecedence(it: ImageEntry)
    ensures Truthy(it.base64Data) ==> Extract([it]) == [it.base64Data.value]
    ensures !Truthy(it.base64Data) && it.inlineData.Some? && Truthy(it.inlineData.value.data) ==>
              Extract([it]) == [it.inlineData.value.data.value]
    ensures !Truthy(it.base64Data) && (it.inlineData.None? || !Truthy(it.inlineData.value.data)) ==>
              Extract([it]) == []
  {
    assert [it][1..] == [];
  }

  /** Both entry shapes carrying "abc" normalise to the same list. */
  lemma BothShapesNormalise()
    ensures Extract([ImageEntry(Some("abc"), None)]) == ["abc"]
    ensures Extract([ImageEntry(None, Some(InlineData(Some("abc"))))]) == ["abc"]
  {
    PickPrecedence(ImageEntry(Some("abc"), None));
    PickPrecedence(ImageEntry(None, Some(InlineData(Some("abc")))));
  }

  // ---------------------------------------------------------------------
  // Dispatch and validation

  /** A preflight request is answered 200 with the three CORS headers and no
      body, whatever the body and the upstream outcome. */
  lemma PreflightAnswered(req: Request, outcome: Outcome)
    requires req.verb == "OPTIONS"
    ensures Handle(req, outcome) == Exchange(None, Response(200, PreflightHeaders, NoBody))
    ensures |PreflightHeaders| == 3
  {
  }

  /** Any method other than OPTIONS and POST is refused with 405. */
  lemma OtherMethodsRefused(req: Request, outcome: Outcome)
    requires req.verb != "OPTIONS" && req.verb != "POST"
    ensures Handle(req, outcome) == Exchange(None, Response(405, [], Message("Method Not Allowed")))
  {
  }

  /** The key is checked before the prompt: a POST without a key gets
      "Missing apiKey" whether or not it has a prompt, and only a POST with
      a key but without a prompt gets "Missing prompt". */
  lemma ValidationOrder(req: Request, outcome: Outcome)
    requires req.verb == "POST"
    ensures !Truthy(FieldsOf(req).apiKey) ==>
              Handle(req, outcome) == Exchange(None, Response(400, [], Message("Missing apiKey")))
    ensures Truthy(FieldsOf(req).apiKey) && !Truthy(FieldsOf(req).prompt) ==>
              Handle(req, outcome) == Exchange(None, Response(400, [], Message("Missing prompt")))
  {
  }

  /** A POST without a body lacks the key. */
  lemma MissingBodyLacksKey(outcome: Outcome)
    ensures Handle(Request("POST", None), outcome).response == Response(400, [], Message("Missing apiKey"))
  {
  }

  // ---------------------------------------------------------------------
  // The outbound call

  /** What is sent upstream: the fixed endpoint, the key in its header only,
      the prompt, `Number(count) || 1` images (never zero) and the ratio or
      "1:1". */
  lemma CallContents(req: Request, outcome: Outcome)
    requires Handle(req, outcome).call.Some?
    ensures var c := Handle(req, outcome).call.value;
      var f := FieldsOf(req);
      && c.endpoint == Endpoint
      && c.headers == [("Content-Type", "application/json"), ("x-goog-api-key", f.apiKey.value)]
      && c.payload.promptText == f.prompt.value
      && c.payload.imageCount == NumberOrOne(f.count)
      && c.payload.imageCount != 0
      && (Truthy(f.ratio) ==> c.payload.aspectRatio == f.ratio.value)
      && (!Truthy(f.ratio) ==> c.payload.aspectRatio == "1:1")
  {
  }

  /** References are forwarded exactly when a non-empty list is given; then
      one inline JPEG per reference, same number, same order. */
  lemma ReferencesForwarded(req: Request, outcome: Outcome)
    requires Handle(req, outcome).call.Some?
    ensures var refs := Handle(req, outcome).call.value.payload.references;
      var given := FieldsOf(req).references;
      && (refs.Some? <==> given.Some? && |given.value| > 0)
      && (refs.Some? ==>
            (&& |refs.value| == |given.value|
             && forall i :: 0 <= i < |refs.value| ==> refs.value[i] == InlineImage(JpegType, given.value[i])))
  {
  }

  /** The credential decides nothing but the header: two requests that
      differ only in their (present) key send the same payload to the same
      endpoint and get the same response, so the key is never echoed. */
  lemma KeyOnlyInHeader(verb: string, f: Fields, otherKey: string, outcome: Outcome)
    requires Truthy(f.apiKey) && otherKey != ""
    ensures var a := Handle(Request(verb, Some(f)), outcome);
      var b := Handle(Request(verb, Some(f.(apiKey := Some(otherKey)))), outcome);
      && a.response == b.response
      && a.call.Some? == b.call.Some?
      && (a.call.Some? ==> a.call.value.payload == b.call.value.payload && a.call.value.endpoint == b.call.value.endpoint)
  {
  }

  // ---------------------------------------------------------------------
  // The response

  /** A failed upstream status is passed through unchanged, with the first
      non-empty of the parsed error message, the raw text and
      "Upstream HTTP <status>". */
  lemma UpstreamErrorPassedThrough(req: Request, status: nat, text: string, data: Option<UpstreamData>)
    requires Handle(req, Replied(status, text, data)).call.Some? && !IsOk(status)
    ensures var r := Handle(req, Replied(status, text, data)).response;
      var parsed := if data.Some? then data.value.errorMessage else None;
      && r.status == status
      && r.body.Message?
      && (Truthy(parsed) ==> r.body.text == parsed.value)
      && (!Truthy(parsed) && text != "" ==> r.body.text == text)
      && (!Truthy(parsed) && text == "" ==> r.body.text == "Upstream HTTP " + DecimalString(status))
  {
  }

  /** The fallback message names the status: distinct statuses give
      distinct messages. */
  lemma StatusMessageNamesStatus(s1: nat, s2: nat)
    requires "Upstream HTTP " + DecimalString(s1) == "Upstream HTTP " + DecimalString(s2)
    ensures s1 == s2
  {
    var p := "Upstream HTTP ";
    assert DecimalString(s1) == ("Upstream HTTP " + DecimalString(s1))[|p|..];
    assert DecimalString(s2) == ("Upstream HTTP " + DecimalString(s2))[|p|..];
    DecimalRoundTrip(s1);
    DecimalRoundTrip(s2);
  }

  /** An upstream success answers 200 with the CORS header and the
      extracted, non-empty list exactly when some entry has usable data, and
      502 with the access hint otherwise. */
  lemma SuccessOrEmpty(req: Request, status: nat, text: string, data: Option<UpstreamData>)
    requires Handle(req, Replied(status, text, data)).call.Some? && IsOk(status)
    ensures var r := Handle(req, Replied(status, text, data)).response;
      var entries := ImagesOf(data);
      && (r.status == 200 <==> exists i :: 0 <= i < |entries| && Truthy(Pick(entries[i])))
      && (r.status == 200 ==>
            (&& r.headers == SuccessHeaders
             && r.body == Images(Extract(entries))
             && |r.body.list| > 0
             && ("Access-Control-Allow-Origin", "*") in r.headers))
      && (r.status != 200 ==> r == Response(502, [], Message(EmptyUpstreamHint)))
  {
    ExtractEmptyIff(ImagesOf(data));
  }

  /** An exception during the call answers 500 with its message, or
      "Internal error" when it has none. */
  lemma FailureIsInternalError(req: Request, message: Option<string>)
    requires Handle(req, Threw(message)).call.Some?
    ensures var r := Handle(req, Threw(message)).response;
      && r.status == 500
      && (Truthy(message) ==> r.body == Message(message.value))
      && (!Truthy(message) ==> r.body == Message("Internal error"))
  {
  }

  /** Every response is 200, 400, 405, 500, 502 or a failed upstream status
      passed through, and only a 200 carries images. */
  lemma ResponseStatuses(req: Request, outcome: Outcome)
    ensures var r := Handle(req, outcome).response;
      && (|| r.status in {200, 400, 405, 500, 502}
          || (outcome.Replied? && r.status == outcome.status && !IsOk(outcome.status)))
      && (r.body.Images? ==> r.status == 200 && |r.body.list| > 0)
  {
  }

  /** An upstream 403 with a parsed error message is answered 403 with that
      message. */
  lemma ForbiddenExample(req: Request)
    requires req.verb == "POST" && Truthy(FieldsOf(req).apiKey) && Truthy(FieldsOf(req).prompt)
    ensures Handle(req, Replied(403, "{\"error\":{\"message\":\"forbidden\"}}",
                                Some(UpstreamData(Some("forbidden"), None)))).response
            == Response(403, [], Message("forbidden"))
  {
  }

  /** An upstream 200 with an empty image list is answered 502. */
  lemma EmptyListExample(req: Request)
    requires req.verb == "POST" && Truthy(FieldsOf(req).apiKey) && Truthy(FieldsOf(req).prompt)
    ensures Handle(req, Replied(200, "{\"images\":[]}", Some(UpstreamData(None, Some([]))))).response
            == Response(502, [], Message(EmptyUpstreamHint))
  {
  }
}
