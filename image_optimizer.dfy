/**
 * utils/imageOptimizer.ts: `getOptimizedImageUrl` routes remote images
 * through the wsrv.nl resizing proxy. `encodeURIComponent` is a parameter
 * (`encode`), and the width, a JavaScript number, is an integer here.
 */
module ImageOptimizer {

  const IMAGE_PROXY_URL: string := "https://wsrv.nl/?url="
  /** The fixed query parameters that close every proxied URL. */
  const FIXED_PARAMS: string := "&output=webp&q=100&default=1"

  predicate StartsWith(s: string, prefix: string) {
    |prefix| <= |s| && s[..|prefix|] == prefix
  }

  predicate EndsWith(s: string, suffix: string) {
    |suffix| <= |s| && s[|s| - |suffix|..] == suffix
  }

  predicate IsDigit(c: char) {
    '0' <= c <= '9'
  }

  predicate AllDigits(s: string) {
    forall i :: 0 <= i < |s| ==> IsDigit(s[i])
  }

  /** The decimal digits of `n`, most significant first, without leading zeros. */
  function NatToDecimal(n: nat): string
    decreases n
  {
    if n < 10 then ["0123456789"[n]]
    else NatToDecimal(n / 10) + ["0123456789"[n % 10]]
  }

  /** How JavaScript renders an integral number of magnitude below 10^21 inside a template string. */
  function NumberToString(w: int): string {
    if w < 0 then "-" + NatToDecimal(-w) else NatToDecimal(w)
  }

  /** The value of a string of decimal digits: an independent reading of `NatToDecimal`. */
  function DecimalValue(s: string): nat
    requires AllDigits(s)
  {
    if s == [] then 0
    else 10 * DecimalValue(s[..|s| - 1]) + ((s[|s| - 1] as int) - ('0' as int))
  }

  /** `getOptimizedImageUrl(originalUrl, { width })`. */
  function GetOptimizedImageUrl(originalUrl: string, width: int, encode: string -> string): string {
    if originalUrl == [] || !StartsWith(originalUrl, "http") then originalUrl
    else IMAGE_PROXY_URL + encode(originalUrl) + "&w=" + NumberToString(width) + FIXED_PARAMS
  }

  /** The digits of `n` are digits, start with a non-zero digit unless `n` is 0, and read back as `n`. */
  lemma {:induction false} DecimalRoundTrip(n: nat)
    ensures 1 <= |NatToDecimal(n)| && AllDigits(NatToDecimal(n))
    ensures DecimalValue(NatToDecimal(n)) == n
    ensures NatToDecimal(n)[0] == '0' ==> n == 0
    decreases n
  {
    var d := NatToDecimal(n);
    if n >= 10 {
      DecimalRoundTrip(n / 10);
      var p := NatToDecimal(n / 10);
      assert d[..|d| - 1] == p;
      assert d[0] == p[0];
    }
  }

  /** The width text is made of digits, with a leading '-' only for a negative width: no '&' can occur in it. */
  lemma WidthTextHasNoAmpersand(w: int)
    ensures forall i :: 0 <= i < |NumberToString(w)| ==> NumberToString(w)[i] != '&'
  {
    DecimalRoundTrip(if w < 0 then -w else w);
  }

  /** The empty string and every URL that does not start with "http" (ftp:, data:, relative paths) come back unchanged. */
  lemma NonHttpUnchanged(originalUrl: string, width: int, encode: string -> string)
    requires originalUrl == [] || !StartsWith(originalUrl, "http")
    ensures GetOptimizedImageUrl(originalUrl, width, encode) == originalUrl
  {
  }

  /**
   * An "http" URL (http: or https:) becomes the proxy URL: the proxy prefix,
   * the encoded original, "&w=", the width in decimal, then the fixed
   * parameters; the width text is delimited by "&w=" and "&".
   */
  lemma HttpRewritten(originalUrl: string, width: int, encode: string -> string)
    requires StartsWith(originalUrl, "http")
    ensures var r := GetOptimizedImageUrl(originalUrl, width, encode);
      var k := |IMAGE_PROXY_URL| + |encode(originalUrl)|;
      var w := NumberToString(width);
      && StartsWith(r, IMAGE_PROXY_URL)
      && EndsWith(r, FIXED_PARAMS)
      && r[|IMAGE_PROXY_URL|..k] == encode(originalUrl)
      && r[k..k + 3] == "&w="
      && r[k + 3..k + 3 + |w|] == w
      && r[k + 3 + |w|] == '&'
      && (width >= 0 ==> AllDigits(w) && DecimalValue(w) == width)
  {
    var r := GetOptimizedImageUrl(originalUrl, width, encode);
    var w := NumberToString(width);
    var k := |IMAGE_PROXY_URL| + |encode(originalUrl)|;
    assert r == IMAGE_PROXY_URL + encode(originalUrl) + "&w=" + w + FIXED_PARAMS;
    assert r[k + 3 + |w|] == FIXED_PARAMS[0];
    if width >= 0 {
      DecimalRoundTrip(width);
    }
  }

  /** A result carries the proxy prefix exactly when the input started with "http". */
  lemma ProxiedIffHttp(originalUrl: string, width: int, encode: string -> string)
    ensures StartsWith(GetOptimizedImageUrl(originalUrl, width, encode), IMAGE_PROXY_URL)
        <==> StartsWith(originalUrl, "http")
  {
    if StartsWith(originalUrl, "http") {
      HttpRewritten(originalUrl, width, encode);
    }
  }
}
