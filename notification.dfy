/**
 * The notification text built by `format_change_message`. A message is kept
 * as its structure: the product header, an optional stock line, an optional
 * price line and the link. The check time is not part of the structure;
 * `Render` takes it, and the printing of numbers, as parameters.
 */
module Notification {
  import opened Wrappers

  /** The stock line: a change with an up (📈) or down (📉) arrow, or the
      current count (📦). */
  datatype StockLine = StockChanged(up: bool, from: int, to: int) | StockCurrent(count: int)

  /** The price line: a change marked cheaper (💰) or dearer (💸), or the
      current price (💰). */
  datatype PriceLine = PriceChanged(cheaper: bool, from: real, to: real) | PriceCurrent(amount: real)

  datatype Message = Message(product: string, stock: Option<StockLine>, price: Option<PriceLine>, url: string)

  /** `format_change_message(name, old_stock, new_stock, old_price, new_price, url)`. */
  function FormatChangeMessage(name: string, oldStock: Option<int>, newStock: Option<int>,
                               oldPrice: Option<real>, newPrice: Option<real>, url: string): (msg: Message)
    ensures msg.product == name && msg.url == url
    // stock line
    ensures msg.stock.None? <==> newStock.None?
    ensures msg.stock.Some? && msg.stock.value.StockChanged? <==>
      newStock.Some? && oldStock.Some? && oldStock.value != newStock.value
    ensures msg.stock.Some? && msg.stock.value.StockChanged? ==>
      msg.stock.value.from == oldStock.value && msg.stock.value.to == newStock.value &&
      (msg.stock.value.up <==> newStock.value > oldStock.value) &&
      (!msg.stock.value.up <==> newStock.value < oldStock.value)
    ensures msg.stock.Some? && msg.stock.value.StockCurrent? ==>
      msg.stock.value.count == newStock.value
    // price line
    ensures msg.price.None? <==> newPrice.None?
    ensures msg.price.Some? && msg.price.value.PriceChanged? <==>
      newPrice.Some? && oldPrice.Some? && oldPrice.value != newPrice.value
    ensures msg.price.Some? && msg.price.value.PriceChanged? ==>
      msg.price.value.from == oldPrice.value && msg.price.value.to == newPrice.value &&
      (msg.price.value.cheaper <==> newPrice.value < oldPrice.value) &&
      (!msg.price.value.cheaper <==> newPrice.value > oldPrice.value)
    ensures msg.price.Some? && msg.price.value.PriceCurrent? ==>
      msg.price.value.amount == newPrice.value
  {
    var stock :=
      if newStock.None? then None
      else if oldStock.Some? && oldStock.value != newStock.value
      then Some(StockChanged(newStock.value > oldStock.value, oldStock.value, newStock.value))
      else Some(StockCurrent(newStock.value));
    var price :=
      if newPrice.None? then None
      else if oldPrice.Some? && oldPrice.value != newPrice.value
      then Some(PriceChanged(newPrice.value < oldPrice.value, oldPrice.value, newPrice.value))
      else Some(PriceCurrent(newPrice.value));
    Message(name, stock, price, url)
  }

  /** The first line of every message, naming the product in bold. */
  function Header(name: string): string
  {
    "📦 *" + name + "* 监控提醒\n\n"
  }

  /** The last lines of every message: the check time and the product link. */
  function Footer(timestamp: string, url: string): string
  {
    "\n🕐 检查时间: " + timestamp + "\n🔗 [点击查看商品](" + url + ")"
  }

  function StockText(line: StockLine, showStock: int -> string): string
  {
    match line
    case StockChanged(up, from, to) =>
      (if up then "📈" else "📉") + " 库存变化: " + showStock(from) + " → *" + showStock(to) + "*\n"
    case StockCurrent(count) => "📦 当前库存: *" + showStock(count) + "*\n"
  }

  function PriceText(line: PriceLine, showPrice: real -> string): string
  {
    match line
    case PriceChanged(cheaper, from, to) =>
      (if cheaper then "💰" else "💸") + " 价格变化: ¥" + showPrice(from) + " → *¥" + showPrice(to) + "*\n"
    case PriceCurrent(amount) => "💰 当前价格: *¥" + showPrice(amount) + "*\n"
  }

  function LineText<L>(line: Option<L>, show: L -> string): string
  {
    match line
    case Some(l) => show(l)
    case None => ""
  }

  /** The text handed to the messaging endpoint. */
  function Render(msg: Message, timestamp: string, showStock: int -> string, showPrice: real -> string): (text: string)
    ensures Header(msg.product) <= text
    ensures |Header(msg.product)| + |Footer(timestamp, msg.url)| <= |text|
    ensures text[|text| - |Footer(timestamp, msg.url)|..] == Footer(timestamp, msg.url)
    ensures text[|Header(msg.product)|..|text| - |Footer(timestamp, msg.url)|] ==
      LineText(msg.stock, l => StockText(l, showStock)) + LineText(msg.price, l => PriceText(l, showPrice))
  {
    var head := Header(msg.product);
    var lines := LineText(msg.stock, l => StockText(l, showStock)) + LineText(msg.price, l => PriceText(l, showPrice));
    var foot := Footer(timestamp, msg.url);
    assert (head + lines + foot)[..|head|] == head;
    assert (head + lines + foot)[|head + lines|..] == foot;
    assert (head + lines + foot)[|head|..|head + lines|] == lines;
    head + lines + foot
  }
}
