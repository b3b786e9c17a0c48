/**
 * The `App` component of src/App.tsx: five pieces of state and the event
 * handlers that change them.
 *
 * Each handler is a method on the class `App`. `generateQRCode` awaits the
 * encoder, so other events can arrive while it is suspended; it is modelled
 * as `BeginGenerate` (everything up to the await, returning the request
 * handed to the encoder, if any) and `FinishGenerate` (the promise settling),
 * with `GenerateQRCode` as the two run back to back. The ghost field
 * `inFlight` counts encoder calls that were started and have not settled.
 */
module QrApp {
  import opened JsText
  import opened Url

  datatype Option<T> = None | Some(value: T)

  /** The fixed rendering options passed on every encoder call. */
  datatype RenderOptions = RenderOptions(width: nat, margin: nat, dark: string, light: string)

  const QrOptions: RenderOptions := RenderOptions(300, 2, "#1f2937", "#ffffff")

  /** One call of the external QR encoder: the text and the options. */
  datatype EncodeRequest = EncodeRequest(text: string, options: RenderOptions)

  /** How the encoder's promise settles: an image payload (a data URL) or a
      rejection. */
  datatype EncodeOutcome = Ok(payload: string) | Fail

  /** The encoder as seen by a caller that awaits it without interruption. */
  type Encoder = EncodeRequest -> EncodeOutcome

  const EmptyUrlMessage: string := "Please enter a URL"
  const InvalidUrlMessage: string := "Please enter a valid URL (e.g., example.com or https://example.com)"
  const FailureMessage: string := "Failed to generate QR code. Please try again."

  /** The check-mark condition computed on every keystroke: the trimmed text
      is non-empty and validates. */
  predicate InputAccepted(parses: UrlParser, text: string): (r: bool)
    ensures r <==> !AllWhitespace(text) && ValidateUrl(parses, text)
  {
    TrimEmptyIff(text);
    |Trim(text)| > 0 && ValidateUrl(parses, text)
  }

  /** The generate button's `disabled` attribute. It is enabled exactly when
      no generation is in flight and the text is not all whitespace; the
      validity flag plays no part, so a text that does not validate can
      still be submitted. */
  predicate GenerateDisabled(url: string, isGenerating: bool): (d: bool)
    ensures !d <==> !isGenerating && !AllWhitespace(url)
  {
    TrimEmptyIff(url);
    Trim(url) == [] || isGenerating
  }

  /** What the download hands to the browser's save mechanism. */
  datatype SaveFile = SaveFile(filename: string, href: string)

  /** The download file name for a given `Date.now()` reading. */
  function DownloadName(now: nat): (name: string)
    ensures |name| > |"qrcode-"| + |".png"|
    ensures name[..7] == "qrcode-" && name[|name| - 4..] == ".png"
    ensures IsDigits(name[7..|name| - 4])
    ensures DecimalValue(name[7..|name| - 4]) == now
  {
    DecimalRoundTrip(now);
    var name := "qrcode-" + NatToDecimal(now) + ".png";
    assert name[7..|name| - 4] == NatToDecimal(now);
    name
  }

  /** Downloads at different instants never share a file name. */
  lemma DownloadNamesDistinct(a: nat, b: nat)
    requires a != b
    ensures DownloadName(a) != DownloadName(b)
  {
  }

  class App {
    /** The browser's URL parser, fixed for the page's lifetime. */
    const parses: UrlParser
    var url: string
    var qrCodeDataUrl: string
    var isGenerating: bool
    var error: string
    var isValidUrl: bool
    /** Encoder calls started and not yet settled. */
    ghost var inFlight: nat

    /** The validity flag always agrees with the current text, and the
        spinner is shown only while some encoder call is outstanding. */
    ghost predicate Valid()
      reads this
    {
      && (isValidUrl <==> InputAccepted(parses, url))
      && (isGenerating ==> inFlight > 0)
    }

    /** The one-call-at-a-time discipline the disabled button is meant to
        enforce: at most one encoder call outstanding, and the spinner shown
        exactly while it is. */
    ghost predicate SingleFlight()
      reads this
    {
      inFlight <= 1 && (isGenerating <==> inFlight == 1)
    }

    /** The result panel (image, download and start-over buttons) is shown:
        `qrCodeDataUrl && ...` renders exactly when the string is truthy, and
        a JavaScript string is truthy exactly when it is non-empty. */
    predicate CodeShown()
      reads this
    {
      qrCodeDataUrl != ""
    }

    /** The initial state of the five `useState` hooks. */
    constructor (parses: UrlParser)
      ensures this.parses == parses
      ensures url == "" && qrCodeDataUrl == "" && !isGenerating && error == "" && !isValidUrl
      ensures inFlight == 0
      ensures Valid() && SingleFlight()
    {
      this.parses := parses;
      url, qrCodeDataUrl, isGenerating, error, isValidUrl := "", "", false, "", false;
      inFlight := 0;
    }

    /** `handleUrlChange`: store the text, clear the error, recompute the
        validity flag; the code on display and the spinner stay as they are. */
    method HandleUrlChange(newUrl: string)
      requires Valid()
      modifies this
      ensures Valid()
      ensures url == newUrl && error == ""
      ensures isValidUrl == InputAccepted(parses, newUrl)
      ensures qrCodeDataUrl == old(qrCodeDataUrl) && isGenerating == old(isGenerating)
      ensures inFlight == old(inFlight)
    {
      url := newUrl;
      error := "";
      isValidUrl := InputAccepted(parses, newUrl);
    }

    /** The effect of the synchronous part of `generateQRCode`, from the
        state before it (`old`) to the state after it. The text, the validity
        flag and the code on display never change. Empty text: the "enter a
        URL" message and nothing else. Text that does not validate: the
        "valid URL" message and nothing else. Otherwise the encoder is called
        with the normalised text, the error is cleared and the spinner is on.
        The encoder is called exactly when the check mark was showing. */
    twostate predicate BeganGeneration(new request: Option<EncodeRequest>)
      reads this
    {
      && url == old(url) && isValidUrl == old(isValidUrl)
      && qrCodeDataUrl == old(qrCodeDataUrl)
      && (request.Some? <==> old(InputAccepted(parses, url)))
      && (Trim(old(url)) == [] ==>
            && request == None && error == EmptyUrlMessage
            && isGenerating == old(isGenerating) && inFlight == old(inFlight))
      && (Trim(old(url)) != [] && !ValidateUrl(parses, old(url)) ==>
            && request == None && error == InvalidUrlMessage
            && isGenerating == old(isGenerating) && inFlight == old(inFlight))
      && (old(InputAccepted(parses, url)) ==>
            && request == Some(EncodeRequest(NormalizeUrl(old(url)), QrOptions))
            && error == "" && isGenerating && inFlight == old(inFlight) + 1)
    }

    /** `generateQRCode` up to the awaited encoder call. */
    method BeginGenerate() returns (request: Option<EncodeRequest>)
      requires Valid()
      modifies this
      ensures Valid()
      ensures BeganGeneration(request)
      ensures request.Some? <==> old(isValidUrl)
    {
      var trimmedUrl := Trim(url);
      if trimmedUrl == [] {
        error := EmptyUrlMessage;
        return None;
      }
      var normalized := NormalizeUrl(trimmedUrl);
      ValidateUrlOfTrim(parses, url);
      NormalizeOfTrim(url);
      if !ValidateUrl(parses, trimmedUrl) {
        error := InvalidUrlMessage;
        return None;
      }
      isGenerating := true;
      error := "";
      inFlight := inFlight + 1;
      request := Some(EncodeRequest(normalized, QrOptions));
    }

    /** The rest of `generateQRCode`: the encoder's promise settles. Success
        shows the payload and leaves the error as it is; failure sets the
        generic message and keeps whatever code was shown before; either way
        the spinner goes off. */
    method FinishGenerate(outcome: EncodeOutcome)
      requires Valid() && inFlight > 0
      modifies this
      ensures Valid()
      ensures !isGenerating && inFlight == old(inFlight) - 1
      ensures url == old(url) && isValidUrl == old(isValidUrl)
      ensures outcome.Ok? ==> qrCodeDataUrl == outcome.payload && error == old(error)
      ensures outcome.Fail? ==> qrCodeDataUrl == old(qrCodeDataUrl) && error == FailureMessage
      ensures old(SingleFlight()) ==> SingleFlight()
    {
      match outcome {
        case Ok(payload) =>
          qrCodeDataUrl := payload;
        case Fail =>
          error := FailureMessage;
      }
      isGenerating := false;
      inFlight := inFlight - 1;
    }

    /** `generateQRCode` when no other event arrives while the encoder runs.
        On the guard paths it is BeginGenerate. Otherwise the encoder sees the
        normalised text; on success the payload is shown and the error is
        empty, on failure the generic message is set and the previous code
        stays; the spinner ends off. */
    method GenerateQRCode(encode: Encoder) returns (request: Option<EncodeRequest>)
      requires Valid()
      modifies this
      ensures Valid()
      ensures url == old(url) && isValidUrl == old(isValidUrl) && inFlight == old(inFlight)
      ensures request.Some? <==> old(isValidUrl)
      ensures Trim(old(url)) == [] ==>
        error == EmptyUrlMessage && qrCodeDataUrl == old(qrCodeDataUrl) && isGenerating == old(isGenerating)
      ensures Trim(old(url)) != [] && !ValidateUrl(parses, old(url)) ==>
        error == InvalidUrlMessage && qrCodeDataUrl == old(qrCodeDataUrl) && isGenerating == old(isGenerating)
      ensures old(isValidUrl) ==>
        && request == Some(EncodeRequest(NormalizeUrl(old(url)), QrOptions))
        && !isGenerating
        && match encode(request.value)
           case Ok(p) => qrCodeDataUrl == p && error == ""
           case Fail => qrCodeDataUrl == old(qrCodeDataUrl) && error == FailureMessage
      ensures old(SingleFlight()) && !old(isGenerating) ==> SingleFlight()
    {
      request := BeginGenerate();
      if request.Some? {
        FinishGenerate(encode(request.value));
      }
    }

    /** A click on the generate button: nothing happens while it is
        disabled, otherwise `generateQRCode` starts. It keeps the
        one-call-at-a-time discipline. */
    method ClickGenerate() returns (request: Option<EncodeRequest>)
      requires Valid()
      modifies this
      ensures Valid()
      ensures GenerateDisabled(old(url), old(isGenerating)) ==> request == None && unchanged(this)
      ensures !GenerateDisabled(old(url), old(isGenerating)) ==> BeganGeneration(request)
      ensures old(SingleFlight()) ==> SingleFlight()
    {
      if GenerateDisabled(url, isGenerating) {
        return None;
      }
      request := BeginGenerate();
    }

    /** `handleKeyPress`: Enter starts `generateQRCode` whatever the state of
        the button; every other key does nothing. */
    method HandleKeyPress(key: string) returns (request: Option<EncodeRequest>)
      requires Valid()
      modifies this
      ensures Valid()
      ensures key != "Enter" ==> request == None && unchanged(this)
      ensures key == "Enter" ==> BeganGeneration(request)
    {
      if key != "Enter" {
        return None;
      }
      request := BeginGenerate();
    }

    /** The key handler as the button's guard suggests it was meant to be:
        Enter is ignored while a generation is in flight, and otherwise
        behaves as in HandleKeyPress (Enter on empty text still reports the
        missing URL). Unlike HandleKeyPress it keeps the one-call-at-a-time
        discipline. */
    method HandleKeyPressGuarded(key: string) returns (request: Option<EncodeRequest>)
      requires Valid()
      modifies this
      ensures Valid()
      ensures key != "Enter" || old(isGenerating) ==> request == None && unchanged(this)
      ensures key == "Enter" && !old(isGenerating) ==> BeganGeneration(request)
      ensures old(SingleFlight()) ==> SingleFlight()
    {
      if key != "Enter" || isGenerating {
        return None;
      }
      request := BeginGenerate();
    }

    /** `downloadQRCode`: nothing to save while no code is held; otherwise
        the held payload under a time-stamped name. */
    method DownloadQRCode(now: nat) returns (saved: Option<SaveFile>)
      ensures saved.Some? <==> CodeShown()
      ensures saved.Some? ==> saved.value.href == qrCodeDataUrl && saved.value.filename == DownloadName(now)
    {
      if qrCodeDataUrl == "" {
        return None;
      }
      saved := Some(SaveFile(DownloadName(now), qrCodeDataUrl));
    }

    /** The "Generate New QR Code" button: clear the code, the text, the
        validity flag and the error; the spinner is left alone. */
    method Reset()
      requires Valid()
      modifies this
      ensures Valid()
      ensures qrCodeDataUrl == "" && url == "" && !isValidUrl && error == ""
      ensures isGenerating == old(isGenerating) && inFlight == old(inFlight)
    {
      qrCodeDataUrl := "";
      url := "";
      isValidUrl := false;
      error := "";
    }
  }

  /** Pressing Enter twice on an accepted text starts two encoder calls;
      when the first settles the spinner goes off and the button is enabled
      although the second is still outstanding, and that second call later
      replaces the code on display. */
  method EnterTwiceOverlaps(parses: UrlParser, text: string, first: string, second: string)
    returns (r1: Option<EncodeRequest>, r2: Option<EncodeRequest>, enabledWhilePending: bool, shown: string)
    requires InputAccepted(parses, text)
    ensures r1 == r2 == Some(EncodeRequest(NormalizeUrl(text), QrOptions))
    ensures enabledWhilePending && shown == second
  {
    var app := new App(parses);
    app.HandleUrlChange(text);
    r1 := app.HandleKeyPress("Enter");
    r2 := app.HandleKeyPress("Enter");
    assert app.inFlight == 2 && !app.SingleFlight();
    app.FinishGenerate(Ok(first));
    enabledWhilePending := !GenerateDisabled(app.url, app.isGenerating);
    assert app.inFlight == 1;
    app.FinishGenerate(Ok(second));
    shown := app.qrCodeDataUrl;
  }

  /** With the guarded key handler the second Enter does nothing. */
  method GuardedEnterTwice(parses: UrlParser, text: string)
    returns (firstStarted: bool, secondStarted: bool)
    requires InputAccepted(parses, text)
    ensures firstStarted && !secondStarted
  {
    var app := new App(parses);
    app.HandleUrlChange(text);
    var r1 := app.HandleKeyPressGuarded("Enter");
    var r2 := app.HandleKeyPressGuarded("Enter");
    firstStarted, secondStarted := r1.Some?, r2.Some?;
  }

  /** After a code has been generated, editing the text into something that
      does not validate and pressing generate shows the invalid-URL message
      while the old code stays on display. */
  method ErrorBesideStaleCode(parses: UrlParser, good: string, bad: string, payload: string)
    returns (shown: bool, message: string)
    requires InputAccepted(parses, good)
    requires Trim(bad) != [] && !ValidateUrl(parses, bad)
    requires payload != ""
    ensures shown && message == InvalidUrlMessage
  {
    var app := new App(parses);
    app.HandleUrlChange(good);
    var r1 := app.GenerateQRCode(_ => Ok(payload));
    app.HandleUrlChange(bad);
    var r2 := app.ClickGenerate();
    shown, message := app.CodeShown(), app.error;
  }
}
