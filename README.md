# QR code generator: the component's logic in Dafny

The web page turns a link into a QR code image. It has one React component, `App` in
`src/App.tsx`. That component owns all the logic there is:

- it normalises what the user typed into an absolute URL candidate (trim, then add
  `https://` unless an `http://` or `https://` scheme is already there in any letter case);
- it asks the browser's URL parser whether that candidate parses;
- it keeps five pieces of state: `url`, `qrCodeDataUrl`, `isGenerating`, `error` and
  `isValidUrl`. Typing, the generate button, the Enter key, the download button and the
  start-over button change that state;
- it hands the normalised URL to an external QR encoder and waits for the result.

The model has three modules:

- `JsText` (`jstext.dfy`) holds the JavaScript string behaviour the component relies on:
  `String.prototype.trim` with ECMAScript's whitespace set, the ASCII case folding that
  the regular expression `/^https?:\/\//i` performs, and the decimal text of the
  timestamp in the download file name.
- `Url` (`url.dfy`) holds `normalizeUrl` and `validateUrl` as pure functions. The
  browser's URL parser is a parameter `parses: string -> bool` that says whether
  `new URL(text)` returns instead of throwing.
- `QrApp` (`app.dfy`) holds the component as a class `App` with the five state fields.
  Each handler is a method with `modifies this`. `generateQRCode` awaits the encoder,
  and other events can arrive while it waits. So it is split in two:
  - `BeginGenerate` is everything before the `await`. It returns the encoder request, if
    one was made.
  - `FinishGenerate(outcome)` is the promise settling with `Ok(payload)` or `Fail`.
  - `GenerateQRCode` runs both back to back, for the case where nothing else happens in
    between.

  A ghost field `inFlight` counts encoder calls that were started and have not settled.
  `Valid()` is the invariant every handler keeps: the validity flag matches the current
  text, and the spinner shows only while a call is outstanding. `SingleFlight()` is the
  one-call-at-a-time discipline that the disabled button is meant to enforce.

## Model

| member | source | states |
|---|---|---|
| `JsText.SkipForward` | src/App.tsx:14 | The leading-whitespace scan of `trim()` stops at the first non-whitespace position, or at the end. |
| `JsText.SkipBackward` | src/App.tsx:14 | The trailing-whitespace scan of `trim()` stops just after the last non-whitespace position. |
| `JsText.SkipForwardPassesWhitespace` | src/App.tsx:14 | Every character the leading scan passes over is whitespace. |
| `JsText.SkipBackwardPassesWhitespace` | src/App.tsx:14 | Every character the trailing scan passes over is whitespace. |
| `JsText.SkipForwardStopsAt` | src/App.tsx:14 | The leading scan stops exactly at the first non-whitespace position. |
| `JsText.SkipBackwardStopsAt` | src/App.tsx:14 | The trailing scan stops exactly after the last non-whitespace position. |
| `JsText.Trim` | src/App.tsx:14 | `trim()` returns text with no whitespace at either end, and it is no longer than the input. |
| `JsText.TrimIsMiddle` | src/App.tsx:14 | The trimmed text is a contiguous piece of the input, and only whitespace lies on either side of it. |
| `JsText.TrimSplit` | src/App.tsx:14 | Trimming whitespace + `m` + whitespace gives exactly `m` whenever `m` has no surrounding whitespace. Together with TrimIsMiddle this pins `trim()` down completely. |
| `JsText.TrimOfTrimmed` | src/App.tsx:14 | Text without surrounding whitespace is a fixed point of `trim()`. |
| `JsText.TrimIdempotent` | src/App.tsx:38-44 | Trimming twice is trimming once, so `generateQRCode` can validate `trimmedUrl` in place of `url`. |
| `JsText.TrimEmptyIff` | src/App.tsx:39 | The trimmed text is empty (the `!trimmedUrl` guard) exactly when the input is all whitespace. |
| `JsText.AsciiLower` | src/App.tsx:15 | The case folding of the `i` flag: every ASCII upper-case letter becomes its lower-case form (code plus 32), a lower-case result comes from itself or its upper-case form, and every other character is left alone. |
| `JsText.DigitChar` | src/App.tsx:71 | A digit value becomes the character whose code is `'0'` plus that value. |
| `JsText.NatToDecimal` | src/App.tsx:71 | The timestamp's decimal text is non-empty, all digits, and starts with `0` only for zero. |
| `JsText.DecimalRoundTrip` | src/App.tsx:71 | Reading the decimal text back gives the number. |
| `JsText.DecimalInjective` | src/App.tsx:71 | Distinct timestamps give distinct decimal texts. |
| `Url.HasScheme` | src/App.tsx:15 | The test `/^https?:\/\//i` holds exactly when the text starts, ignoring ASCII case, with `http` followed by `://` or by `s://`, as the pattern reads. |
| `Url.NormalizeUrl` | src/App.tsx:13-19 | The result always starts with `http://` or `https://` in any case, has no surrounding whitespace, and is the trimmed input with at most `https://` in front. |
| `Url.NormalizeKeepsSchemeIff` | src/App.tsx:14-18 | The result is the trimmed input exactly when that already matches `^https?://` (case-insensitive). Otherwise it is `"https://"` followed by the trimmed input. |
| `Url.NormalizeIdempotent` | src/App.tsx:13-19 | `normalizeUrl(normalizeUrl(s)) == normalizeUrl(s)`. |
| `Url.NormalizeOfTrim` | src/App.tsx:43 | Normalising the trimmed text equals normalising the raw text. |
| `Url.ValidateUrl` | src/App.tsx:21-28 | `validateUrl` returns a boolean for every input (the `catch` turns a throw into `false`). It is the parser's verdict on the trimmed input when that has a scheme, and on `https://` + trimmed input otherwise. |
| `Url.ValidateUrlOfTrim` | src/App.tsx:21-28 | Surrounding whitespace makes no difference to `validateUrl`: the verdict on the trimmed text is the verdict on the raw text. |
| `QrApp.InputAccepted` | src/App.tsx:34 | The check-mark flag computed on each keystroke holds exactly when the text is not all whitespace and `validateUrl` accepts it. |
| `QrApp.GenerateDisabled` | src/App.tsx:139 | The generate button is enabled exactly when no generation is in flight and the text is not all whitespace. Validity plays no part, so a text that does not validate can still be submitted. |
| `QrApp.DownloadName` | src/App.tsx:71 | The file name is `qrcode-` + decimal digits + `.png`, and those digits read back as the `Date.now()` value. |
| `QrApp.DownloadNamesDistinct` | src/App.tsx:71 | Downloads at different instants get different file names. |
| `QrApp.App.CodeShown` | src/App.tsx:157 | Definition of the display condition: the result panel renders exactly when `qrCodeDataUrl` is truthy, and a JavaScript string is truthy exactly when it is non-empty. `DownloadQRCode` saves something exactly when it holds, and `ErrorBesideStaleCode` uses it as `shown`. |
| `QrApp.App.constructor` | src/App.tsx:6-10 | Initial state: empty text, no code, no spinner, no error, not valid, nothing in flight. Both invariants hold. |
| `QrApp.App.HandleUrlChange` | src/App.tsx:30-35 | Sets `url := v` and `error := ""`. Sets `isValidUrl` to "trimmed `v` is non-empty and validates". The code on display, the spinner and the in-flight count are unchanged. |
| `QrApp.App.BeginGenerate` | src/App.tsx:37-50 | Empty trimmed text: only the "Please enter a URL" message is set. Text that does not validate: only the "Please enter a valid URL …" message is set. Otherwise the encoder gets the normalised text with the fixed options (300, 2, `#1f2937`, `#ffffff`), the error is cleared and the spinner goes on. The encoder is called exactly when `isValidUrl` held. Text, flag and code are never changed. |
| `QrApp.App.FinishGenerate` | src/App.tsx:50-65 | Success shows the payload and leaves the error alone. Failure sets the generic message and keeps the previous code. Either way the spinner goes off. |
| `QrApp.App.GenerateQRCode` | src/App.tsx:37-66 | Without interleaving, the guard paths are as in BeginGenerate. If the encoder is reached and succeeds with `P`: `qrCodeDataUrl == P`, `error == ""`, spinner off. If it fails: the generic message, the previous code kept, spinner off. |
| `QrApp.App.ClickGenerate` | src/App.tsx:137-139 | A disabled button changes nothing. An enabled one starts `generateQRCode`. One call at a time is preserved. |
| `QrApp.App.HandleKeyPress` | src/App.tsx:78-82 | Enter starts `generateQRCode` whatever the spinner shows. Other keys change nothing. |
| `QrApp.App.HandleKeyPressGuarded` | src/App.tsx:78-82 | The corrected key handler ignores Enter while generating. It preserves one call at a time. |
| `QrApp.App.DownloadQRCode` | src/App.tsx:68-75 | Something is saved exactly when the result panel is shown (`CodeShown`), so an empty payload gives no download. What is saved is the held payload under `DownloadName(now)`. |
| `QrApp.App.Reset` | src/App.tsx:179-184 | Clears the code, the text and the error, and sets the validity flag to false. The spinner and the in-flight count are unchanged. |
| `QrApp.EnterTwiceOverlaps` | src/App.tsx:78-82 | Two Enter presses on an accepted text start two encoder calls, both for the normalised text with the fixed options. After the first settles, the button is enabled while the second is pending, and the second then replaces the code on display. |
| `QrApp.GuardedEnterTwice` | src/App.tsx:78-82 | With the corrected handler, the second Enter starts nothing. |
| `QrApp.ErrorBesideStaleCode` | src/App.tsx:40-46 | After a successful generation, a text that does not validate gets the invalid-URL message when submitted. The old code stays on display next to that message. |

## Findings

| source | as written | input that shows it | evidently intended | confidence | as-written member | corrected member |
|---|---|---|---|---|---|---|
| src/App.tsx:78-82 | Enter calls `generateQRCode` without looking at `isGenerating`. Only the button at line 139 is disabled while a code is being generated. | An accepted text, with Enter pressed twice before the encoder settles. Two encoder calls are then outstanding, the first to settle turns the spinner off and re-enables the button, and the second later overwrites the code. | No second generation while one is in flight. The button is disabled for that reason, and the spinner is meant to cover the whole wait. | medium; not executed | `QrApp.EnterTwiceOverlaps` | `QrApp.App.HandleKeyPressGuarded` |

## Where the code differs from an idealised state machine

The component is easy to picture as a tagged state: idle, generating, ready with a
payload, or failed with a message. The code does not work that way, and the model follows
the code:

- The guard failures (lines 40 and 45) and the encoder failure (line 61) never clear
  `qrCodeDataUrl`. Neither does `handleUrlChange`. An error message and an earlier code
  can therefore be shown together (`ErrorBesideStaleCode`).
- A successful generation does not clear `error` itself. The error is cleared when
  generation starts (line 49). An Enter press on empty text while the encoder is running
  sets an error that survives the success (`FinishGenerate`).
- "Empty input is never valid" comes from the explicit length test at line 34 and the
  guard at line 39, not from `validateUrl`. On empty text, `validateUrl` asks the parser
  about `https://`.
- Reset (lines 179-184) leaves `isGenerating` alone.

## Left out

- QR symbol encoding: `QRCode.toDataURL` (lines 51-58) is a foreign library that
  implements ISO/IEC 18004. It appears only as an `EncodeRequest` (text plus the fixed
  options) and an `Ok(payload)` / `Fail` outcome.
- URL parsing: `new URL(...)` (line 23) is the browser's WHATWG URL Standard parser. It
  is the parameter `parses`, which has no further properties.
- DOM effects of the download: creating the anchor, appending, clicking and removing it
  (lines 70-75). `DownloadQRCode` returns the file name and link target it would hand over.
- `Date.now()` is a `nat` parameter. Clock readings before 1970 and numbers of 10^21 or
  more (which JavaScript prints in exponent form) are not modelled.
- `console.error` (line 62).
- React specifics: batching of state updates, re-render timing, and handlers reading the
  state of the last render (stale closures). Beyond the Begin/Finish split, `async`
  scheduling is not modelled, and FinishGenerate does not say which outstanding call is
  settling.
- Markup and styling (lines 84-235), except the disabled predicate at line 139
  (`GenerateDisabled`) and the display condition at line 157 (`App.CodeShown`). The
  download and start-over buttons exist only while `CodeShown()` holds. Their methods
  model the handlers themselves and do not require it.
- vite.config.ts is build configuration and has no behaviour.
- Strings are sequences of Unicode scalar values. Lone UTF-16 surrogates are not
  modelled, and no character the component inspects is outside the Basic Multilingual
  Plane.
