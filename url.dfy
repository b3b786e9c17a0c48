/**
 * Turning what the user typed into the text handed to the QR encoder:
 * `normalizeUrl` and `validateUrl` of src/App.tsx.
 *
 * Parsing itself belongs to the browser (the WHATWG URL parser behind
 * `new URL(...)`); the model receives it as a predicate on strings, true
 * when the constructor returns and false when it throws.
 */
module Url {
  import opened JsText

  /** The platform URL parser's verdict: does `new URL(text)` succeed? */
  type UrlParser = string -> bool

  const HttpsPrefix: string := "https://"

  /** The test `/^https?:\/\//i`: the text starts with `http://` or
      `https://` in any mix of letter case. Read the way the pattern is
      written: `http`, then an optional `s`, then `://`. */
  predicate HasScheme(s: string): (b: bool)
    ensures b <==> StartsWithIgnoringCase(s, "http")
                   && (StartsWithIgnoringCase(s[4..], "://") || StartsWithIgnoringCase(s[4..], "s://"))
  {
    StartsWithIgnoringCase(s, "http://") || StartsWithIgnoringCase(s, "https://")
  }

  /** `normalizeUrl`: trim, then prefix `https://` unless a scheme is already
      there. The result always carries a scheme, has no surrounding
      whitespace, and is the trimmed input with at most `https://` put in
      front of it. */
  function NormalizeUrl(input: string): (r: string)
    ensures HasScheme(r)
    ensures IsTrimmed(r)
    ensures r == Trim(input) || r == HttpsPrefix + Trim(input)
  {
    var trimmed := Trim(input);
    if !HasScheme(trimmed) then
      var r := HttpsPrefix + trimmed;
      assert r[..|HttpsPrefix|] == HttpsPrefix;
      assert !IsWhitespace(r[0]);
      assert !IsWhitespace(r[|r| - 1]) by {
        if trimmed != [] { assert r[|r| - 1] == trimmed[|trimmed| - 1]; }
      }
      r
    else
      trimmed
  }

  /** The input is left as trimmed exactly when it already carries a scheme;
      otherwise `https://` is put in front of it. */
  lemma NormalizeKeepsSchemeIff(input: string)
    ensures NormalizeUrl(input) == Trim(input) <==> HasScheme(Trim(input))
    ensures !HasScheme(Trim(input)) ==> NormalizeUrl(input) == HttpsPrefix + Trim(input)
  {
    if !HasScheme(Trim(input)) {
      assert |HttpsPrefix + Trim(input)| != |Trim(input)|;
    }
  }

  /** Normalising twice is normalising once. */
  lemma NormalizeIdempotent(input: string)
    ensures NormalizeUrl(NormalizeUrl(input)) == NormalizeUrl(input)
  {
    TrimOfTrimmed(NormalizeUrl(input));
  }

  /** Surrounding whitespace makes no difference to normalisation. */
  lemma NormalizeOfTrim(input: string)
    ensures NormalizeUrl(Trim(input)) == NormalizeUrl(input)
  {
    TrimIdempotent(input);
  }

  /** `validateUrl`: never throws; true exactly when the parser accepts the
      normalised text, that is the trimmed input itself when it carries a
      scheme and the trimmed input behind `https://` otherwise. */
  function ValidateUrl(parses: UrlParser, input: string): (r: bool)
    ensures HasScheme(Trim(input)) ==> r == parses(Trim(input))
    ensures !HasScheme(Trim(input)) ==> r == parses(HttpsPrefix + Trim(input))
  {
    NormalizeKeepsSchemeIff(input);
    parses(NormalizeUrl(input))
  }

  /** Surrounding whitespace makes no difference to `validateUrl`. */
  lemma ValidateUrlOfTrim(parses: UrlParser, input: string)
    ensures ValidateUrl(parses, Trim(input)) == ValidateUrl(parses, input)
  {
    NormalizeOfTrim(input);
  }
}
