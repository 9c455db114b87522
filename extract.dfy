/**
 * Extraction of stock and price from a fetched page (`extract_data`). The
 * regular-expression engine and Python's `int`/`float` conversions are
 * oracles supplied by the caller.
 */
module Extract {
  import opened Wrappers

  /** What `re.search(pattern, html, re.IGNORECASE).group(1)` yields: no
      match, the text of the first capture group, or an exception (an invalid
      pattern, or a pattern without a first group). */
  datatype Capture = NoMatch | Captured(text: string) | Raises

  /** The library behaviour the extraction depends on. `toInt` and `toFloat`
      return `None` where Python's `int`/`float` raise `ValueError`. */
  datatype Matcher = Matcher(
    search: (string, string) -> Capture,
    toInt: string -> Option<int>,
    toFloat: string -> Option<real>)

  /** The exception that escapes `extract_data`. */
  datatype ExtractError = BadPattern(pattern: string) | NotANumber(text: string)

  /** The pair `(stock, price)` read from one page. */
  datatype Observation = Observation(stock: Option<int>, price: Option<real>)

  /** A pattern is used only when it is truthy: neither `None` nor empty. */
  predicate Usable(pattern: Option<string>)
  {
    pattern.Some? && pattern.value != ""
  }

  /** The capture a usable pattern yields on `html`; `NoMatch` for an
      unusable one, whose search is never run. */
  function CaptureOf(m: Matcher, html: string, pattern: Option<string>): Capture
  {
    if Usable(pattern) then m.search(pattern.value, html) else NoMatch
  }

  /** One field of `extract_data`: absent unless the pattern is usable and
      matches, otherwise the converted first capture group. */
  function ExtractField<T>(html: string, pattern: Option<string>,
                           search: (string, string) -> Capture,
                           convert: string -> Option<T>): (r: Result<Option<T>, ExtractError>)
    ensures r == Ok(None) <==>
      !Usable(pattern) || search(pattern.value, html) == NoMatch
    ensures r.Ok? && r.value.Some? <==>
      Usable(pattern) && search(pattern.value, html).Captured? &&
      convert(search(pattern.value, html).text).Some?
    ensures r.Ok? && r.value.Some? ==> r.value == convert(search(pattern.value, html).text)
    ensures r.Err? <==>
      Usable(pattern) &&
      (search(pattern.value, html).Raises? ||
       (search(pattern.value, html).Captured? && convert(search(pattern.value, html).text).None?))
  {
    if !Usable(pattern) then Ok(None)
    else match search(pattern.value, html)
      case NoMatch => Ok(None)
      case Raises => Err(BadPattern(pattern.value))
      case Captured(text) =>
        match convert(text)
        case None => Err(NotANumber(text))
        case Some(v) => Ok(Some(v))
  }

  /** `extract_data(html, stock_pattern, price_pattern)`: the stock field is
      evaluated first, so its exception pre-empts the price field's. */
  function ExtractData(html: string, stockPattern: Option<string>, pricePattern: Option<string>,
                       m: Matcher): (r: Result<Observation, ExtractError>)
    ensures !Usable(stockPattern) && !Usable(pricePattern) ==> r == Ok(Observation(None, None))
    ensures r.Ok? <==>
      ExtractField(html, stockPattern, m.search, m.toInt).Ok? &&
      ExtractField(html, pricePattern, m.search, m.toFloat).Ok?
    ensures r.Ok? ==>
      r.value.stock == ExtractField(html, stockPattern, m.search, m.toInt).value &&
      r.value.price == ExtractField(html, pricePattern, m.search, m.toFloat).value
    ensures ExtractField(html, stockPattern, m.search, m.toInt).Err? ==>
      r == Err(ExtractField(html, stockPattern, m.search, m.toInt).error)
  {
    match ExtractField(html, stockPattern, m.search, m.toInt)
    case Err(e) => Err(e)
    case Ok(stock) =>
      match ExtractField(html, pricePattern, m.search, m.toFloat)
      case Err(e) => Err(e)
      case Ok(price) => Ok(Observation(stock, price))
  }

  /** The extraction reads the page only through the two searches: pages on
      which both usable patterns capture alike extract alike. */
  lemma ExtractDependsOnlyOnCaptures(m: Matcher, html1: string, html2: string,
                                     stockPattern: Option<string>, pricePattern: Option<string>)
    requires CaptureOf(m, html1, stockPattern) == CaptureOf(m, html2, stockPattern)
    requires CaptureOf(m, html1, pricePattern) == CaptureOf(m, html2, pricePattern)
    ensures ExtractData(html1, stockPattern, pricePattern, m) ==
            ExtractData(html2, stockPattern, pricePattern, m)
  {
    FieldDependsOnlyOnCapture(m.search, m.toInt, html1, html2, stockPattern);
    FieldDependsOnlyOnCapture(m.search, m.toFloat, html1, html2, pricePattern);
  }

  lemma FieldDependsOnlyOnCapture<T>(search: (string, string) -> Capture, convert: string -> Option<T>,
                                     html1: string, html2: string, pattern: Option<string>)
    requires Usable(pattern) ==> search(pattern.value, html1) == search(pattern.value, html2)
    ensures ExtractField(html1, pattern, search, convert) == ExtractField(html2, pattern, search, convert)
  {
  }
}
