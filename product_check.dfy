/**
 * The check of one product (`monitor_product`) as a function of the history
 * before it: the notify decision, the message it sends and the history entry
 * it writes.
 */
module ProductCheck {
  import opened Wrappers
  import opened History
  import opened Extract
  import opened Notification

  /** One configured product. */
  datatype Product = Product(name: string, url: string, stockPattern: Option<string>, pricePattern: Option<string>)

  /** How the check of one product ended: the page had no content, the
      extraction raised (the pass loop catches and logs it), or the values
      were compared and a notification was or was not sent. */
  datatype Outcome = NoContent | Failed(error: ExtractError) | Checked(notified: bool)

  datatype StepResult = StepResult(history: History, message: Option<Message>, outcome: Outcome)

  /** `if not html_content: return` stops on `None` and on the empty page. */
  predicate HasContent(page: Option<string>)
  {
    page.Some? && page.value != ""
  }

  /** The notify condition: the stored entry is empty (or missing, which
      reads as empty), or either value differs, exactly and with `None`
      unequal to every present value. */
  predicate Differs(stored: Entry, obs: Observation)
  {
    IsEmpty(stored) || Get(stored.stock) != obs.stock || Get(stored.price) != obs.price
  }

  /** `monitor_product(product, history)` given the fetched page. */
  function Step(h: History, p: Product, page: Option<string>, m: Matcher): (r: StepResult)
    ensures h.Keys <= r.history.Keys <= h.Keys + {p.name}
    ensures forall k :: k in h && k != p.name ==> r.history[k] == h[k]
    ensures HasContent(page) && ExtractData(page.value, p.stockPattern, p.pricePattern, m).Ok? ==>
      r.outcome == Checked(r.message.Some?)
    ensures r.outcome.Checked? ==> (r.outcome.notified <==> r.message.Some?)
    ensures !r.outcome.Checked? ==> r.message.None? && r.history == h
  {
    if !HasContent(page) then StepResult(h, None, NoContent)
    else match ExtractData(page.value, p.stockPattern, p.pricePattern, m)
      case Err(e) => StepResult(h, None, Failed(e))
      case Ok(obs) =>
        var stored := Lookup(h, p.name);
        var message :=
          if Differs(stored, obs)
          then Some(FormatChangeMessage(p.name, Get(stored.stock), obs.stock, Get(stored.price), obs.price, p.url))
          else None;
        var h' := if obs.stock.Some? || obs.price.Some? then h[p.name := Record(obs.stock, obs.price)] else h;
        StepResult(h', message, Checked(message.Some?))
  }

  /** A notification is sent exactly when the page has content, extraction
      succeeds, and the stored entry is missing or empty or either stored
      value differs from the extracted one; the message compares the stored
      values with the extracted ones. */
  lemma NotifiesIff(h: History, p: Product, page: Option<string>, m: Matcher)
    ensures var r := Step(h, p, page, m);
      r.message.Some? <==>
        HasContent(page) && ExtractData(page.value, p.stockPattern, p.pricePattern, m).Ok? &&
        var obs := ExtractData(page.value, p.stockPattern, p.pricePattern, m).value;
        (p.name !in h || IsEmpty(h[p.name]) ||
         Get(h[p.name].stock) != obs.stock || Get(h[p.name].price) != obs.price)
    ensures var r := Step(h, p, page, m);
      r.message.Some? && p.name in h ==>
        var obs := ExtractData(page.value, p.stockPattern, p.pricePattern, m).value;
        r.message.value == FormatChangeMessage(p.name, Get(h[p.name].stock), obs.stock,
                                               Get(h[p.name].price), obs.price, p.url)
    ensures var r := Step(h, p, page, m);
      r.message.Some? && p.name !in h ==>
        var obs := ExtractData(page.value, p.stockPattern, p.pricePattern, m).value;
        r.message.value == FormatChangeMessage(p.name, None, obs.stock, None, obs.price, p.url)
  {
  }

  /** With no stored entry the product is reported even when nothing was
      extracted, yet no entry is created, so the next check of the same page
      sends the same report again. */
  lemma {:induction false} NoHistoryReportsEveryTime(h: History, p: Product, page: Option<string>, m: Matcher)
    requires p.name !in h && HasContent(page)
    requires ExtractData(page.value, p.stockPattern, p.pricePattern, m) == Ok(Observation(None, None))
    ensures var r := Step(h, p, page, m);
      r.message == Some(Message(p.name, None, None, p.url)) && r.history == h && p.name !in r.history
    ensures Step(Step(h, p, page, m).history, p, page, m) == Step(h, p, page, m)
  {
    var r := Step(h, p, page, m);
    assert r.history == h;
  }

  /** When at least one value was extracted the whole entry is replaced by
      the new pair; no other product's entry changes. */
  lemma WritesWholeEntry(h: History, p: Product, page: Option<string>, m: Matcher, obs: Observation)
    requires HasContent(page)
    requires ExtractData(page.value, p.stockPattern, p.pricePattern, m) == Ok(obs)
    requires obs.stock.Some? || obs.price.Some?
    ensures Step(h, p, page, m).history == h[p.name := Entry(Put(obs.stock), Put(obs.price))]
  {
  }

  /** Whole-entry replacement forgets a known price: when the price pattern
      stops matching but the stock still reads, the stored price becomes
      `null`. */
  lemma ReplacementDropsKnownPrice(h: History, p: Product, page: Option<string>, m: Matcher, stock: int)
    requires p.name in h && h[p.name].price.Value?
    requires HasContent(page)
    requires ExtractData(page.value, p.stockPattern, p.pricePattern, m) == Ok(Observation(Some(stock), None))
    ensures Step(h, p, page, m).history[p.name].price == Null
    ensures Get(Step(h, p, page, m).history[p.name].price) != Get(h[p.name].price)
  {
  }

  /** A page without content, an extraction that raises, and an extraction
      that finds neither value all leave the history as it was; the first two
      also send nothing. */
  lemma HistoryKeptWithoutValues(h: History, p: Product, page: Option<string>, m: Matcher)
    ensures !HasContent(page) ==> Step(h, p, page, m) == StepResult(h, None, NoContent)
    ensures HasContent(page) && ExtractData(page.value, p.stockPattern, p.pricePattern, m).Err? ==>
      Step(h, p, page, m) ==
        StepResult(h, None, Failed(ExtractData(page.value, p.stockPattern, p.pricePattern, m).error))
    ensures HasContent(page) && ExtractData(page.value, p.stockPattern, p.pricePattern, m) == Ok(Observation(None, None)) ==>
      Step(h, p, page, m).history == h
  {
  }

  /** An unchanged product is silent: with a non-empty stored entry whose
      values equal the extracted ones nothing is sent, and the entry keeps
      its values; it stays identical unless it lacked one of the keys, which
      the rewrite adds as `null`. */
  lemma UnchangedIsSilent(h: History, p: Product, page: Option<string>, m: Matcher, obs: Observation)
    requires HasContent(page)
    requires ExtractData(page.value, p.stockPattern, p.pricePattern, m) == Ok(obs)
    requires p.name in h && !IsEmpty(h[p.name])
    requires Get(h[p.name].stock) == obs.stock && Get(h[p.name].price) == obs.price
    ensures var r := Step(h, p, page, m);
      r.message.None? && r.outcome == Checked(false) &&
      (p.name in r.history ==> Get(r.history[p.name].stock) == Get(h[p.name].stock) &&
                               Get(r.history[p.name].price) == Get(h[p.name].price))
    ensures !h[p.name].stock.Missing? && !h[p.name].price.Missing? ==> Step(h, p, page, m).history == h
  {
    var e := h[p.name];
    if !e.stock.Missing? && !e.price.Missing? && (obs.stock.Some? || obs.price.Some?) {
      assert Record(obs.stock, obs.price) == e;
    }
  }

  /** A first successful read with empty history reports both current
      values and creates the entry. */
  lemma FirstReadReportsCurrentValues(p: Product, page: Option<string>, m: Matcher)
    requires HasContent(page)
    requires ExtractData(page.value, p.stockPattern, p.pricePattern, m) == Ok(Observation(Some(5), Some(19.99)))
    ensures var r := Step(map[], p, page, m);
      r.message == Some(Message(p.name, Some(StockCurrent(5)), Some(PriceCurrent(19.99)), p.url)) &&
      r.history == map[p.name := Entry(Value(5), Value(19.99))]
  {
  }

  /** A stock drop from 5 to 3 at an unchanged price is reported with the
      down arrow and the current price. */
  lemma StockDropReported(p: Product, page: Option<string>, m: Matcher)
    requires HasContent(page)
    requires ExtractData(page.value, p.stockPattern, p.pricePattern, m) == Ok(Observation(Some(3), Some(19.99)))
    ensures var h := map[p.name := Entry(Value(5), Value(19.99))];
            var r := Step(h, p, page, m);
      r.message == Some(Message(p.name, Some(StockChanged(false, 5, 3)), Some(PriceCurrent(19.99)), p.url)) &&
      r.history == map[p.name := Entry(Value(3), Value(19.99))]
  {
  }
}
