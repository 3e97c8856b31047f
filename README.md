# Generator-Foto, modelled in Dafny

Generator-Foto is a small web app that turns a product brief into
photorealistic product images. The browser page composes a text prompt from
the form: a brief, a camera angle chosen from 20, an aspect ratio, a
background, and an overlay font. It then posts the prompt with the user's own
API key to a serverless gateway. The gateway checks the request, forwards it
to Google's image model, and returns the images as base64 strings.

This project models the deterministic core of both sides:

- `js_values.dfy` (module `JsValues`) holds the JavaScript value semantics
  the code relies on:
  - `String.prototype.trim`, with the ECMAScript whitespace set;
  - the `||` fallback on strings, on optional fields and on `Number(x) || 1`;
  - decimal rendering of a status code in a template literal;
  - template literals as the concatenation of their segments.
- `prompt_composer.dfy` (module `PromptComposer`) holds the two hint tables
  and `buildPrompt`, as a pure function of the form's six descriptive fields.
  - A table is the object literal's entries in source order. `Lookup` is
    property access on it: the value of the first entry with the key, or
    `None` (`undefined`) when there is none. For a repeated key JavaScript
    would keep the last value instead. The two readings agree here because
    both tables' keys are distinct, as `AngleTablesAgree` and
    `RatioHintsNameTheirRatio` prove.
- `gateway.dfy` (module `Gateway`) holds the serverless `handler`, as a pure
  function of a request and an upstream outcome.
  - It returns the call it would make upstream, if any, and the response it
    sends.
  - The outcome is either a reply (status, raw text, parsed body or none) or
    an exception.
- `client.dfy` (module `Client`) holds the rest of the browser side:
  - the request body and the check on the gateway's reply, both pure;
  - the loop that copies a decoded image into a byte array, a method over
    an `array`;
  - the click handler's checks before sending, a method with the loop over
    the chosen files.

Three behaviours of the code worth knowing:

- An angle name missing from the hint table is not rejected. It produces
  the text `undefined` in the prompt.
- A negative image count is passed upstream unchanged. Only zero and NaN
  become 1.
- The fallback brief already ends in a full stop. The template adds another,
  so the subject line then ends in `..`.

## Model

| member | source | states |
|---|---|---|
| JsValues.Trim | main.js:78 | the result is empty exactly for a blank input; it neither starts nor ends with whitespace; it occurs in the input with only whitespace around it |
| JsValues.TrimIdempotent | main.js:180 | trimming a trimmed value changes nothing |
| JsValues.OrElse | main.js:86 | `s \|\| fallback` on strings is `s` or the fallback, and never empty when the fallback is not |
| JsValues.OrElseIdempotent | main.js:119 | a value already defaulted with a fallback is unchanged by the same fallback again, so the client's `ratio \|\| "1:1"` and the gateway's agree |
| JsValues.Truthy | apigenerate.js:24-25 | no contract of its own; stated by `Gateway.Handle`, `Gateway.ValidationOrder` and `Gateway.ExtractEmptyIff` |
| JsValues.ValueOr | apigenerate.js:56 | `v \|\| fallback` on an optional string is the value or the fallback, and never empty when the fallback is not |
| JsValues.ValueOrAsOrElse | apigenerate.js:56 | an absent optional string falls back exactly as the empty string does |
| JsValues.NumberOrOne | apigenerate.js:30 | `Number(count) \|\| 1` is never 0; zero and NaN give 1, and any other number, negative ones included, passes through |
| JsValues.NumberOrOneIdempotent | main.js:118 | applying the coercion to an already coerced count changes nothing |
| JsValues.DecimalString | apigenerate.js:56 | the status rendered in a template literal is a non-empty string of digits, with no leading zero |
| JsValues.DecimalRoundTrip | apigenerate.js:56 | reading the rendered digits back gives the status |
| PromptComposer.Lookup | main.js:85-86 | no contract of its own; stated by `LookupDefined`, `LookupSound` and `LookupEntry` |
| PromptComposer.LookupDefined | main.js:85 | a property read on a table finds a value exactly for the keys the literal lists |
| PromptComposer.LookupSound | main.js:86 | a value found for a key is the one the literal pairs with that key |
| PromptComposer.LookupEntry | main.js:11-32 | when a table's keys are distinct, each entry is found by its own key |
| PromptComposer.AngleNamesInOrder | main.js:3-32 | there are 20 angles, and the hint table's keys are exactly the menu names, in menu order |
| PromptComposer.AnglesDistinct | main.js:3-9 | no angle is listed twice |
| PromptComposer.AngleTablesAgree | main.js:3-32 | the hint table has 20 distinct keys, and a name has a hint exactly when it is a menu angle |
| PromptComposer.AngleNamesUseTypographicApostrophe | main.js:6-7 | the bird's-eye and worm's-eye names are spelled with U+2019 |
| PromptComposer.AsciiApostropheIsNoAngle | main.js:3-9 | the same names with an ASCII apostrophe are not menu angles |
| PromptComposer.MenuAngleFound | main.js:11-32 | every menu angle is non-empty, and its lookup yields the hint written beside it |
| PromptComposer.RatioHintsNameTheirRatio | main.js:34-40 | the five ratio codes, distinct and in order, each with a non-empty hint that ends in the code |
| PromptComposer.RatioHintEndsWithCode | main.js:34-40 | a hint found for any ratio code is non-empty and ends in that code |
| PromptComposer.Subject | main.js:78 | the subject is never empty: the fallback sentence for a blank brief, otherwise the trimmed brief |
| PromptComposer.Compose | main.js:96-105 | no contract of its own; stated by `ComposeLayout` and `ComposeOrder` |
| PromptComposer.ComposeLayout | main.js:96-105 | the template opens with the header and subject, puts the angle, ratio and background clauses on lines of their own, and ends with the constraint line and the overlay clause |
| PromptComposer.BuildPrompt | main.js:77-108 | the prompt starts with "Product/UGC Image.\nSubject: " and ends with the constraint line followed by the overlay clause |
| PromptComposer.ComposeOrder | main.js:96-101 | the template starts with the header, the subject line, and the angle, ratio and background lines, in that order |
| PromptComposer.PromptLayout | main.js:96-105 | the prompt starts with the header, the subject line, and the angle, ratio and background lines, in that order; each of those clauses is on a line of its own, and the overlay clause ends the prompt |
| PromptComposer.PromptNotEmpty | main.js:96-105 | the prompt is never empty |
| PromptComposer.SubjectLine | main.js:78 | a blank brief gives "Subject: A product photo for e-commerce marketing.."; otherwise the trimmed brief follows "Subject: " |
| PromptComposer.AngleText | main.js:85 | no contract of its own; stated by `AngleClause`, `AngleHintCases` and `AngleLine` |
| PromptComposer.AngleHintText | main.js:85 | no contract of its own; stated by `AngleHintCases` |
| PromptComposer.AngleClause | main.js:85 | the angle line is the best-natural clause for no angle, otherwise the name, an em dash and the hint text |
| PromptComposer.AngleHintCases | main.js:85 | the hint text is the table's value, or `undefined` for a name the table lacks |
| PromptComposer.AngleLine | main.js:85 | the prompt holds the best-natural line for an empty angle, the name with its hint for a known angle, and the name with `undefined` for any other |
| PromptComposer.KnownAngleLine | main.js:85 | an angle the table knows puts its hint into the prompt |
| PromptComposer.MenuAngleHinted | main.js:85 | every one of the 20 menu angles puts its own hint into the prompt |
| PromptComposer.RatioDescription | main.js:86 | no contract of its own; stated by `RatioDescriptionEndsWithCode` |
| PromptComposer.RatioDescriptionEndsWithCode | main.js:86 | the ratio description is the table's hint, or the code itself for an unknown code; either way it ends in the code |
| PromptComposer.RatioText | main.js:86 | no contract of its own; stated by `RatioClause` and `RatioLine` |
| PromptComposer.RatioClause | main.js:86 | the ratio line is "Aspect ratio: " with the description, and it contains the code |
| PromptComposer.RatioLine | main.js:86 | the prompt holds the hint line for a known ratio, the verbatim code line for an unknown one, and the code in every case |
| PromptComposer.BackgroundText | main.js:87-89 | no contract of its own; stated by `BackgroundClause` and `BackgroundLine` |
| PromptComposer.BackgroundClause | main.js:87-89 | the background line, for each case: the generic phrase, the trimmed custom text, or the mode itself |
| PromptComposer.BackgroundLine | main.js:87-89 | a custom background puts the trimmed text, or "custom aesthetic" when it is blank, into the prompt; any other mode is named verbatim |
| PromptComposer.OverlayText | main.js:90-92 | no contract of its own; stated by `OverlayClause` and `OverlayLine` |
| PromptComposer.OverlayClause | main.js:90-92 | the overlay clause ends in "No text overlay." exactly when the font is "None" |
| PromptComposer.OverlayLine | main.js:90-92 | the prompt ends in "No text overlay." exactly when the font is "None"; otherwise it ends with the clause naming the font |
| Gateway.FieldsOf | apigenerate.js:23 | no contract of its own; stated by `MissingBodyLacksKey` and `ValidationOrder` |
| Gateway.IsOk | apigenerate.js:54 | no contract of its own; stated by `UpstreamErrorPassedThrough` and `SuccessOrEmpty`, and on the client side (main.js:124) by `Client.ReceiveImages` |
| Gateway.ImagesOf | apigenerate.js:61 | no contract of its own; stated by `SuccessOrEmpty` |
| Gateway.Extract | apigenerate.js:61-63 | extraction yields at most one string per upstream entry, and none of them is empty |
| Gateway.UpstreamErrorMessage | apigenerate.js:56 | the message for a failed upstream status is never empty |
| Gateway.Handle | apigenerate.js:9-79 | an upstream call is made exactly for a POST with a non-empty key and prompt; otherwise the status is 200, 400 or 405 |
| Gateway.ExtractAppend | apigenerate.js:61-63 | extraction handles entries one by one and keeps their order: it distributes over concatenation |
| Gateway.ExtractEmptyIff | apigenerate.js:61-63 | nothing is extracted exactly when no entry has non-empty data |
| Gateway.ExtractAllUsable | apigenerate.js:61-63 | when every entry has data, each contributes exactly its own data, at its own position |
| Gateway.ExtractFromEntries | apigenerate.js:61-63 | every extracted string is the data of some entry |
| Gateway.Pick | apigenerate.js:62 | no contract of its own; stated by `PickPrecedence` |
| Gateway.PickPrecedence | apigenerate.js:62 | a non-empty `base64Data` wins, otherwise `inlineData.data` is used, and an entry with neither is dropped |
| Gateway.BothShapesNormalise | apigenerate.js:61-63 | an entry with `base64Data: "abc"` and one with `inlineData.data: "abc"` both give `["abc"]` |
| Gateway.PreflightAnswered | apigenerate.js:11-16 | OPTIONS gets 200 with the three CORS headers and no body, whatever the body, and nothing is sent upstream |
| Gateway.OtherMethodsRefused | apigenerate.js:18-20 | any method other than OPTIONS and POST gets 405 "Method Not Allowed" |
| Gateway.ValidationOrder | apigenerate.js:23-25 | a missing or empty key gets 400 "Missing apiKey", checked before the prompt; then a missing or empty prompt gets 400 "Missing prompt" |
| Gateway.MissingBodyLacksKey | apigenerate.js:23-24 | a POST without a body is answered "Missing apiKey" |
| Gateway.BuildPayload | apigenerate.js:28-39 | no contract of its own; stated by `CallContents` and `ReferencesForwarded` |
| Gateway.BuildCall | apigenerate.js:41-48 | no contract of its own; stated by `CallContents` and `KeyOnlyInHeader` |
| Gateway.CallContents | apigenerate.js:28-48 | the call goes to the fixed endpoint with the key in `x-goog-api-key`; the payload has the prompt, `Number(count) \|\| 1` images (never 0) and the ratio or "1:1" |
| Gateway.ReferencesForwarded | apigenerate.js:35-39 | references are sent exactly when a non-empty list is given, one inline JPEG per reference, in the same order |
| Gateway.KeyOnlyInHeader | apigenerate.js:41-47 | requests that differ only in their key send the same payload to the same endpoint and get the same response |
| Gateway.Respond | apigenerate.js:50-78 | no contract of its own; stated by `UpstreamErrorPassedThrough`, `SuccessOrEmpty`, `FailureIsInternalError` and `ResponseStatuses` |
| Gateway.UpstreamErrorPassedThrough | apigenerate.js:54-58 | a failed upstream status is returned unchanged, with the parsed error message, else the raw text, else "Upstream HTTP <status>" |
| Gateway.StatusMessageNamesStatus | apigenerate.js:56 | distinct statuses give distinct fallback messages |
| Gateway.SuccessOrEmpty | apigenerate.js:60-74 | an upstream success gives 200 with the CORS header and the non-empty extracted list exactly when some entry has data, and 502 with the access hint otherwise |
| Gateway.FailureIsInternalError | apigenerate.js:75-78 | an exception during the call gives 500 with its message, or "Internal error" |
| Gateway.ResponseStatuses | apigenerate.js:9-79 | every status is 200, 400, 405, 500, 502 or the failed upstream status; only a 200 carries images, and never an empty list |
| Gateway.ForbiddenExample | apigenerate.js:54-58 | an upstream 403 with error message "forbidden" is answered 403 "forbidden" |
| Gateway.EmptyListExample | apigenerate.js:65-70 | an upstream 200 with an empty image list is answered 502 with the access hint |
| Client.RequestBody | main.js:115-121 | no contract of its own; stated by `RequestBodyDefaults` and `ClientBodyForwarded` |
| Client.RequestBodyDefaults | main.js:115-121 | the body always has a non-zero count (the given one, or 1 for zero or NaN), a non-empty ratio (the given one, or "1:1" for an empty one) and a reference list (the given one or `[]`) |
| Client.ClientBodyForwarded | main.js:118-120 | a body with a key and a prompt passes the gateway, which forwards the same prompt, count, ratio and number of references |
| Client.ReceiveImages | main.js:124-132 | a reply is accepted exactly when it is ok and has a non-empty image array, and then that array is returned; every failure has a non-empty message |
| Client.ReceiveFailureMessages | main.js:124-132 | a failed reply reports its text, else "HTTP <status>"; an ok reply without images reports its message, else the no-images notice |
| Client.GatewayReplyAccepted | main.js:129-132 | the client accepts a gateway response exactly when it is the 200 with images, and then receives that list |
| Client.Uint8Of | main.js:137 | no contract of its own; stated by `CopyBytes` and `BytesRoundTrip` |
| Client.BytesRoundTrip | main.js:134-137 | a decoded binary string is recovered exactly from its bytes |
| Client.CopyBytes | main.js:134-137 | the array is new, has the decoded string's length, and each element is its character's code modulo 256 |
| Client.CountOf | main.js:183 | no contract of its own; `FormReachesUpstream` states that an empty count field sends 5 images |
| Client.TooLargeMessage | main.js:192 | no contract of its own; stated by `CheckFiles` and `Prepare`, which name the first oversized file in it |
| Client.PresentFiles | main.js:189-191 | the chosen files, at most two, product first and model last |
| Client.CheckFiles | main.js:188-194 | the loop succeeds exactly when no file exceeds 8 MiB, with the contents in order; otherwise it stops at the first oversized file and names it |
| Client.Prepare | main.js:180-194 | a blank trimmed key stops the handler; otherwise the first file over 8 MiB stops it and is named; otherwise the body has the trimmed key, the composed prompt, the count, the ratio or "1:1", and the files' contents in order |
| Client.FormReachesUpstream | main.js:180-199 | what the checks let through reaches the image model, with the form's count (5 when blank) and at most two references |

## Left out

- The DOM and UI wiring: element reads, the status line, `#promptOut`, rendering and downloads, and `disabled` toggling. The form is a parameter.
- `FileReader`, `atob` and `Blob`. A file's base64 content and a decoded image string are inputs. The map over all returned images is not modelled; `CopyBytes` is the loop for one image.
- `fetch`, `upstream.text()` and `res.json()`. The upstream outcome and the client's reply are inputs, and a thrown exception is the `Threw` outcome.
- `JSON.parse` and `JSON.stringify`. The parsed body is an optional record of the fields the code reads.
- `Number()` applied to arbitrary strings, including fractions and Infinity. The count is an optional integer, with `None` for NaN.
- Request fields that are not strings (a numeric key, a non-string reference) and `String()` conversion of them. Fields are optional strings.
- Table keys inherited from `Object.prototype`, such as `constructor`. Such a key is treated as absent.
- An upstream `images` value that is truthy but not an array, or an entry that is `null`. Either makes the handler throw and answer 500.
- The `Content-Type` header that `res.json()` adds by itself. Response headers are only those the handler sets.
- `console.error` logging, and the click handler's catch block, which only sets the status text.
- Client.CopyBytes: `charCodeAt` returns UTF-16 code units, while a Dafny `char` is a Unicode scalar value. The two agree on the output of `atob`, which is below 256.
- Client.Prepare: the source builds the prompt and shows it before the file checks. Building it is pure and showing it is UI, so the model composes the prompt only in the body it sends.
