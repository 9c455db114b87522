/**
 * One pass of the main loop: every configured product is checked in list
 * order against the shared history, an exception in one product is caught
 * and the next product is still checked, and the history is saved once at
 * the end of the pass.
 */
module Pass {
  import opened Wrappers
  import opened History
  import opened Extract
  import opened Notification
  import opened ProductCheck

  datatype PassResult = PassResult(history: History, sent: seq<Message>, outcomes: seq<Outcome>)

  /** The messages one check sends. */
  function Sent(message: Option<Message>): (s: seq<Message>)
    ensures |s| <= 1
    ensures s == [] <==> message.None?
  {
    match message
    case Some(msg) => [msg]
    case None => []
  }

  /** The names a list of products writes to. */
  function Names(products: seq<Product>): (names: set<string>)
    ensures forall i :: 0 <= i < |products| ==> products[i].name in names
    ensures forall k :: k in names ==> exists i :: 0 <= i < |products| && products[i].name == k
  {
    set i | 0 <= i < |products| :: products[i].name
  }

  /** The check a pass applies to each product, given the history so far
      and the page fetched for it. */
  type Checker = (History, Product, Option<string>) -> StepResult

  /** The pass loop as a left fold of `check` over the products, page `i`
      being what the fetch of product `i` returned. Every product yields one
      outcome and at most one message. */
  function Fold(h: History, products: seq<Product>, pages: seq<Option<string>>, check: Checker): (r: PassResult)
    requires |pages| == |products|
    ensures |r.outcomes| == |products|
    ensures |r.sent| <= |products|
    decreases |products|
  {
    if products == [] then PassResult(h, [], [])
    else
      var n := |products| - 1;
      var before := Fold(h, products[..n], pages[..n], check);
      var s := check(before.history, products[n], pages[n]);
      PassResult(s.history, before.sent + Sent(s.message), before.outcomes + [s.outcome])
  }

  /** Passes compose: checking `a` and then `b` is checking `a + b`. */
  lemma {:induction false} FoldConcat(h: History, a: seq<Product>, pa: seq<Option<string>>,
                                      b: seq<Product>, pb: seq<Option<string>>, check: Checker)
    requires |pa| == |a| && |pb| == |b|
    ensures var ra := Fold(h, a, pa, check);
            var rb := Fold(ra.history, b, pb, check);
      Fold(h, a + b, pa + pb, check) == PassResult(rb.history, ra.sent + rb.sent, ra.outcomes + rb.outcomes)
    decreases |b|
  {
    var ra := Fold(h, a, pa, check);
    if b == [] {
      assert a + b == a && pa + pb == pa;
    } else {
      var n := |b| - 1;
      FoldConcat(h, a, pa, b[..n], pb[..n], check);
      assert (a + b)[..|a + b| - 1] == a + b[..n];
      assert (pa + pb)[..|pa + pb| - 1] == pa + pb[..n];
      var rb' := Fold(ra.history, b[..n], pb[..n], check);
      var s := check(rb'.history, b[n], pb[n]);
      assert ra.sent + rb'.sent + Sent(s.message) == ra.sent + (rb'.sent + Sent(s.message));
      assert ra.outcomes + rb'.outcomes + [s.outcome] == ra.outcomes + (rb'.outcomes + [s.outcome]);
    }
  }

  /** Product `i` is checked, whatever happened to the products before it,
      against the history the first `i` products left; its outcome is
      recorded at position `i`. */
  lemma {:induction false} EveryProductChecked(h: History, products: seq<Product>, pages: seq<Option<string>>,
                                               check: Checker, i: nat)
    requires |pages| == |products| && i < |products|
    ensures var before := Fold(h, products[..i], pages[..i], check);
      Fold(h, products, pages, check).outcomes[i] == check(before.history, products[i], pages[i]).outcome &&
      Fold(h, products[..i + 1], pages[..i + 1], check).history == check(before.history, products[i], pages[i]).history
    decreases |products|
  {
    var n := |products| - 1;
    assert products[..i + 1][..i] == products[..i] && pages[..i + 1][..i] == pages[..i];
    if i < n {
      EveryProductChecked(h, products[..n], pages[..n], check, i);
      assert products[..n][..i] == products[..i] && pages[..n][..i] == pages[..i];
      assert products[..n][..i + 1] == products[..i + 1] && pages[..n][..i + 1] == pages[..i + 1];
    } else {
      assert products[..i + 1] == products && pages[..i + 1] == pages;
    }
  }

  /** The per-product check of `monitor_product`. */
  function CheckWith(m: Matcher): Checker
  {
    (h: History, p: Product, page: Option<string>) => Step(h, p, page, m)
  }

  /** One pass with the real check: no stored entry is ever removed. */
  function RunPass(h: History, products: seq<Product>, pages: seq<Option<string>>, m: Matcher): (r: PassResult)
    requires |pages| == |products|
    ensures h.Keys <= r.history.Keys
  {
    KeysKept(h, products, pages, m);
    Fold(h, products, pages, CheckWith(m))
  }

  lemma {:induction false} KeysKept(h: History, products: seq<Product>, pages: seq<Option<string>>, m: Matcher)
    requires |pages| == |products|
    ensures h.Keys <= Fold(h, products, pages, CheckWith(m)).history.Keys
    decreases |products|
  {
    if products != [] {
      var n := |products| - 1;
      KeysKept(h, products[..n], pages[..n], m);
    }
  }

  /** Entries of names no product carries are left exactly as loaded. */
  lemma {:induction false} OtherEntriesUntouched(h: History, products: seq<Product>, pages: seq<Option<string>>,
                                                 m: Matcher, k: string)
    requires |pages| == |products| && k !in Names(products)
    ensures var r := RunPass(h, products, pages, m);
      (k in r.history <==> k in h) && (k in h ==> r.history[k] == h[k])
    decreases |products|
  {
    if products != [] {
      var n := |products| - 1;
      assert forall j :: 0 <= j < n ==> products[..n][j].name == products[j].name != k;
      OtherEntriesUntouched(h, products[..n], pages[..n], m, k);
      assert products[n].name != k;
    }
  }

  /**
   * The monitor's state across passes: the history dictionary that
   * `monitor_product` updates in place, the messages handed to the
   * messaging endpoint, and the snapshots written to the data file.
   */
  class Monitor {
    var history: History
    ghost var outbox: seq<Message>
    ghost var saves: seq<History>

    /** Start from the history `load_history` returned. */
    constructor (loaded: History)
      ensures history == loaded && outbox == [] && saves == []
    {
      history := loaded;
      outbox := [];
      saves := [];
    }

    /** `send_telegram_message`: delivery failures are swallowed, so the
        message counts as emitted either way. */
    method Send(msg: Message)
      modifies this`outbox
      ensures outbox == old(outbox) + [msg]
    {
      outbox := outbox + [msg];
    }

    /** `save_history`: the whole dictionary is written. */
    method Save()
      modifies this`saves
      ensures saves == old(saves) + [history]
    {
      saves := saves + [history];
    }

    /** `monitor_product(product, history)`, `page` being what the fetch of
        `product.url` returned. */
    method MonitorProduct(product: Product, page: Option<string>, m: Matcher) returns (outcome: Outcome)
      modifies this
      ensures var s := Step(old(history), product, page, m);
        history == s.history && outbox == old(outbox) + Sent(s.message) && outcome == s.outcome
      ensures saves == old(saves)
    {
      if page.None? || page.value == "" {
        return NoContent;
      }
      var extracted := ExtractData(page.value, product.stockPattern, product.pricePattern, m);
      if extracted.Err? {
        return Failed(extracted.error);
      }
      var current := extracted.value;
      var stored := Lookup(history, product.name);
      var oldStock, oldPrice := Get(stored.stock), Get(stored.price);
      var notify := IsEmpty(stored) || oldStock != current.stock || oldPrice != current.price;
      if notify {
        var msg := FormatChangeMessage(product.name, oldStock, current.stock, oldPrice, current.price, product.url);
        Send(msg);
      }
      if current.stock.Some? || current.price.Some? {
        history := history[product.name := Record(current.stock, current.price)];
      }
      outcome := Checked(notify);
    }

    /** One pass of the main loop over `products`, then one save. */
    method CheckAll(products: seq<Product>, pages: seq<Option<string>>, m: Matcher) returns (outcomes: seq<Outcome>)
      requires |pages| == |products|
      modifies this
      ensures var r := RunPass(old(history), products, pages, m);
        history == r.history && outbox == old(outbox) + r.sent && outcomes == r.outcomes
      ensures saves == old(saves) + [history]
    {
      outcomes := [];
      var i := 0;
      while i < |products|
        invariant 0 <= i <= |products|
        invariant var r := RunPass(old(history), products[..i], pages[..i], m);
          history == r.history && outbox == old(outbox) + r.sent && outcomes == r.outcomes
        invariant saves == old(saves)
      {
        assert products[..i + 1][..i] == products[..i] && pages[..i + 1][..i] == pages[..i];
        var outcome := MonitorProduct(products[i], pages[i], m);
        outcomes := outcomes + [outcome];
        i := i + 1;
      }
      assert products[..i] == products && pages[..i] == pages;
      Save();
    }
  }
}
