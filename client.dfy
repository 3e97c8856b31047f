/** The browser side of a generation: the click handler's checks before
    anything is sent, the body posted to the gateway, the check on what comes
    back, and the copy of each decoded image into a byte array. Form fields,
    file reading and base64 decoding are inputs here. */
module Client {
  import opened JsValues
  import opened PromptComposer
  import opened Gateway

  datatype Result<T> = Ok(value: T) | Failure(message: string)

  // ---------------------------------------------------------------------
  // The request body

  /** The JSON body posted to the gateway: `Number(count) || 1`,
      `ratio || "1:1"` and `refImages || []`. */
  function RequestBody(apiKey: string, prompt: string, count: Option<int>, ratio: string,
                       refImages: Option<seq<string>>): Fields
  {
    var refs := match refImages
      case Some(rs) => rs
      case None => [];
    Fields(Some(apiKey), Some(prompt), Some(NumberOrOne(count)), Some(OrElse(ratio, "1:1")), Some(refs))
  }

  /** Every body carries a non-zero count (1 for zero or NaN), a non-empty
      ratio ("1:1" for an empty one) and a list of references, whatever the
      caller passed. */
  lemma RequestBodyDefaults(apiKey: string, prompt: string, count: Option<int>, ratio: string,
                            refImages: Option<seq<string>>)
    ensures var f := RequestBody(apiKey, prompt, count, ratio, refImages);
      && f.count.Some? && f.count.value != 0
      && (count.Some? && count.value != 0 ==> f.count == count)
      && ((count.None? || count == Some(0)) ==> f.count == Some(1))
      && Truthy(f.ratio)
      && (ratio != "" ==> f.ratio == Some(ratio))
      && (ratio == "" ==> f.ratio == Some("1:1"))
      && f.references.Some?
      && (refImages.Some? ==> f.references == refImages)
      && (refImages.None? ==> f.references == Some([]))
  {
  }

  /** A body with a key and a prompt passes the gateway's checks, and the
      gateway forwards the same count, ratio and references it was given:
      its own coercions change nothing the client already coerced. */
  lemma ClientBodyForwarded(apiKey: string, prompt: string, count: Option<int>, ratio: string,
                            refImages: Option<seq<string>>, outcome: Outcome)
    requires apiKey != "" && prompt != ""
    ensures var ex := Handle(Request("POST", Some(RequestBody(apiKey, prompt, count, ratio, refImages))), outcome);
      && ex.call.Some?
      && ex.call.value.payload.promptText == prompt
      && ex.call.value.payload.imageCount == NumberOrOne(count)
      && ex.call.value.payload.aspectRatio == OrElse(ratio, "1:1")
      && (ex.call.value.payload.references.Some? <==> refImages.Some? && |refImages.value| > 0)
      && (ex.call.value.payload.references.Some? ==> |ex.call.value.payload.references.value| == |refImages.value|)
  {
    var f := RequestBody(apiKey, prompt, count, ratio, refImages);
    var req := Request("POST", Some(f));
    NumberOrOneIdempotent(count);
    OrElseIdempotent(ratio, "1:1");
    CallContents(req, outcome);
    ReferencesForwarded(req, outcome);
  }

  // ---------------------------------------------------------------------
  // The reply

  /** What the client reads from the gateway's reply: its status, its raw
      text (read only on failure, `""` when reading fails), and from the
      JSON body its `images` (when an array) and `message`. */
  datatype Reply = Reply(status: nat, text: string, images: Option<seq<string>>, message: Option<string>)

  /** A reply is accepted exactly when it is `ok` and carries a non-empty
      image array; otherwise the error names the failure. */
  function ReceiveImages(reply: Reply): (r: Result<seq<string>>)
    ensures r.Ok? <==> IsOk(reply.status) && reply.images.Some? && |reply.images.value| > 0
    ensures r.Ok? ==> r.value == reply.images.value
    ensures r.Failure? ==> r.message != ""
  {
    if !IsOk(reply.status) then Failure(OrElse(reply.text, "HTTP " + DecimalString(reply.status)))
    else if reply.images.None? || |reply.images.value| == 0 then
      Failure(ValueOr(reply.message, "Response tidak berisi gambar."))
    else Ok(reply.images.value)
  }

  /** The failure messages, in order of precedence: the raw text of a
      failed reply or its status, and the reply's own message or the
      no-images notice. */
  lemma ReceiveFailureMessages(reply: Reply)
    ensures !IsOk(reply.status) && reply.text != "" ==> ReceiveImages(reply) == Failure(reply.text)
    ensures !IsOk(reply.status) && reply.text == "" ==>
              ReceiveImages(reply) == Failure("HTTP " + DecimalString(reply.status))
    ensures IsOk(reply.status) && (reply.images.None? || reply.images.value == []) ==>
              ReceiveImages(reply) == Failure(ValueOr(reply.message, "Response tidak berisi gambar."))
  {
  }

  /** How the client sees a gateway response: its image list or message
      from the JSON body, and the text it would read on failure. */
  function ReplyOf(r: Response, text: string): Reply
    requires r.status >= 0
  {
    Reply(r.status, text,
          if r.body.Images? then Some(r.body.list) else None,
          if r.body.Message? then Some(r.body.text) else None)
  }

  /** The client accepts a gateway response exactly when it is the 200 with
      images, and then it receives exactly that list. */
  lemma GatewayReplyAccepted(req: Request, outcome: Outcome, text: string)
    ensures var r := Handle(req, outcome).response;
      && r.status >= 0
      && (ReceiveImages(ReplyOf(r, text)).Ok? <==> r.status == 200 && r.body.Images?)
      && (r.body.Images? ==> ReceiveImages(ReplyOf(r, text)) == Ok(r.body.list))
  {
    ResponseStatuses(req, outcome);
  }

  // ---------------------------------------------------------------------
  // Copying a decoded image into bytes

  newtype byte = x: int | 0 <= x < 256

  /** Storing a character code into a `Uint8Array` keeps it modulo 256. */
  function Uint8Of(c: char): byte {
    ((c as int) % 256) as byte
  }

  /** The bytes of a binary string, one per character. */
  function Bytes(s: string): (bs: seq<byte>)
    ensures |bs| == |s|
  {
    seq(|s|, i requires 0 <= i < |s| => Uint8Of(s[i]))
  }

  /** The string of a byte sequence, one character per byte. */
  function Chars(bs: seq<byte>): (s: string)
    ensures |s| == |bs|
  {
    seq(|bs|, i requires 0 <= i < |bs| => (bs[i] as int) as char)
  }

  /** A binary string, every character of which is below 256 as the output
      of base64 decoding is, is recovered from its bytes: the copy loses
      nothing. */
  lemma BytesRoundTrip(s: string)
    requires forall i :: 0 <= i < |s| ==> (s[i] as int) < 256
    ensures Chars(Bytes(s)) == s
  {
    forall i | 0 <= i < |s|
      ensures Chars(Bytes(s))[i] == s[i]
    {
      assert Bytes(s)[i] as int == s[i] as int;
    }
  }

  /** The decode loop: an array as long as the decoded string, holding at
      each index the code of the character there. */
  method CopyBytes(decoded: string) returns (arr: array<byte>)
    ensures fresh(arr)
    ensures arr.Length == |decoded|
    ensures arr[..] == Bytes(decoded)
  {
    arr := new byte[|decoded|];
    var i := 0;
    while i < |decoded|
      invariant 0 <= i <= |decoded|
      invariant forall j :: 0 <= j < i ==> arr[j] == Uint8Of(decoded[j])
    {
      arr[i] := Uint8Of(decoded[i]);
      i := i + 1;
    }
  }

  // ---------------------------------------------------------------------
  // The click handler's checks

  const MaxRefBytes := 8 * 1024 * 1024
  const MissingKeyMessage := "Masukkan API key terlebih dahulu."

  function TooLargeMessage(name: string): string {
    "File " + name + " > 8MB. Kecilkan dulu."
  }

  /** A chosen reference file: its name, its size in bytes and its content
      as base64 (what reading it yields). */
  datatype RefFile = RefFile(name: string, size: nat, base64: string)

  /** The image-count field: left empty, or `Number` of what was typed
      (`None` for NaN). */
  datatype CountField = Blank | Entered(number: Option<int>)

  /** The form as the click handler reads it. */
  datatype Form = Form(apiKey: string, count: CountField, ratio: string, brief: string, angle: string,
                       bgMode: string, bgCustom: string, fontStyle: string,
                       refProduct: Option<RefFile>, refModel: Option<RefFile>)

  datatype Click = Stop(message: string) | Send(body: Fields)

  /** `$("count").value || "5"`, as a number. */
  function CountOf(c: CountField): Option<int>
  {
    match c
    case Blank => Some(5)
    case Entered(v) => v
  }

  /** The chosen files, product first then model, skipping an empty slot. */
  function PresentFiles(product: Option<RefFile>, model: Option<RefFile>): (fs: seq<RefFile>)
    ensures |fs| <= 2
    ensures |fs| == (if product.Some? then 1 else 0) + (if model.Some? then 1 else 0)
    ensures product.Some? ==> fs[0] == product.value
    ensures model.Some? ==> fs[|fs| - 1] == model.value
  {
    (if product.Some? then [product.value] else []) + (if model.Some? then [model.value] else [])
  }

  function Contents(files: seq<RefFile>): (rs: seq<string>)
    ensures |rs| == |files|
  {
    seq(|files|, i requires 0 <= i < |files| => files[i].base64)
  }

  lemma ContentsStep(files: seq<RefFile>, i: nat)
    requires i < |files|
    ensures Contents(files[..i + 1]) == Contents(files[..i]) + [files[i].base64]
  {
  }

  /** The loop over the chosen files, in order: each must be at most 8 MiB,
      and the first that is larger ends the loop and is named; otherwise the
      contents of all of them, in order. */
  method CheckFiles(files: seq<RefFile>) returns (r: Result<seq<string>>)
    ensures r.Ok? <==> forall k :: 0 <= k < |files| ==> files[k].size <= MaxRefBytes
    ensures r.Ok? ==> r.value == Contents(files)
    ensures forall k :: 0 <= k < |files| && files[k].size > MaxRefBytes
                        && (forall j :: 0 <= j < k ==> files[j].size <= MaxRefBytes) ==>
              r == Failure(TooLargeMessage(files[k].name))
  {
    var refs: seq<string> := [];
    var i := 0;
    while i < |files|
      invariant 0 <= i <= |files|
      invariant refs == Contents(files[..i])
      invariant forall j :: 0 <= j < i ==> files[j].size <= MaxRefBytes
    {
      if files[i].size > MaxRefBytes {
        return Failure(TooLargeMessage(files[i].name));
      }
      ContentsStep(files, i);
      refs := refs + [files[i].base64];
      i := i + 1;
    }
    assert files[..i] == files;
    return Ok(refs);
  }

  /** The checks before a generation request: a blank key (after trimming)
      stops the handler; otherwise each chosen file, product first, must be
      at most 8 MiB, and the first that is larger stops the handler and is
      named. When nothing stops it, the body carries the trimmed key, the
      composed prompt (built from the raw ratio field), the count (5 when
      blank), the ratio or "1:1", and the files' contents in order. */
  method Prepare(form: Form) returns (click: Click)
    ensures Trim(form.apiKey) == "" ==> click == Stop(MissingKeyMessage)
    ensures var files := PresentFiles(form.refProduct, form.refModel);
      Trim(form.apiKey) != "" && (forall k :: 0 <= k < |files| ==> files[k].size <= MaxRefBytes) ==>
        click == Send(RequestBody(Trim(form.apiKey),
                                  BuildPrompt(form.brief, form.angle, form.ratio,
                                              form.bgMode, form.bgCustom, form.fontStyle),
                                  CountOf(form.count), OrElse(form.ratio, "1:1"),
                                  Some(Contents(files))))
    ensures var files := PresentFiles(form.refProduct, form.refModel);
      forall k :: 0 <= k < |files| && Trim(form.apiKey) != "" && files[k].size > MaxRefBytes
                  && (forall j :: 0 <= j < k ==> files[j].size <= MaxRefBytes) ==>
        click == Stop(TooLargeMessage(files[k].name))
  {
    if Trim(form.apiKey) == "" {
      return Stop(MissingKeyMessage);
    }
    var checked := CheckFiles(PresentFiles(form.refProduct, form.refModel));
    match checked
    case Failure(message) =>
      return Stop(message);
    case Ok(refs) =>
      return Send(RequestBody(Trim(form.apiKey),
                              BuildPrompt(form.brief, form.angle, form.ratio,
                                          form.bgMode, form.bgCustom, form.fontStyle),
                              CountOf(form.count), OrElse(form.ratio, "1:1"), Some(refs)));
  }

  /** What the checks let through reaches the image model: the key is
      non-empty after trimming and the prompt starts with the template's
      header, so the gateway makes its call, with at most two references. */
  lemma FormReachesUpstream(form: Form, outcome: Outcome)
    requires Trim(form.apiKey) != ""
    ensures var files := PresentFiles(form.refProduct, form.refModel);
      var body := RequestBody(Trim(form.apiKey),
                              BuildPrompt(form.brief, form.angle, form.ratio,
                                          form.bgMode, form.bgCustom, form.fontStyle),
                              CountOf(form.count), OrElse(form.ratio, "1:1"), Some(Contents(files)));
      var ex := Handle(Request("POST", Some(body)), outcome);
      && ex.call.Some?
      && ex.call.value.payload.imageCount == NumberOrOne(CountOf(form.count))
      && (form.count.Blank? ==> ex.call.value.payload.imageCount == 5)
      && (ex.call.value.payload.references.Some? ==> |ex.call.value.payload.references.value| <= 2)
  {
    var files := PresentFiles(form.refProduct, form.refModel);
    PromptNotEmpty(form.brief, form.angle, form.ratio, form.bgMode, form.bgCustom, form.fontStyle);
    ClientBodyForwarded(Trim(form.apiKey),
                        BuildPrompt(form.brief, form.angle, form.ratio, form.bgMode, form.bgCustom, form.fontStyle),
                        CountOf(form.count), OrElse(form.ratio, "1:1"), Some(Contents(files)), outcome);
  }
}
