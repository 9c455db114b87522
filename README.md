# Stock monitor: change detection and history update

This project models the decision core of `stock_monitor.py`, a script that
polls product pages and sends a Telegram notification when stock or price
changes. For each configured product the script fetches the page and
extracts an optional stock count and an optional price with two regular
expressions. It compares them with the entry stored under the product's name
in a history dictionary. It notifies when no entry is stored or either value
differs, and then, if at least one value was read, replaces that entry with
the new pair. A pass folds this check over the product list in order. An
exception in one product is caught and the next product is still checked.
The history is saved once at the end of the pass.

Modules, one per component of the script:

- `Wrappers` (`wrappers.dfy`): `Option` (Python's `None`) and `Result` (a
  value or a raised exception).
- `History` (`history.dfy`): the history dictionary. A stored entry is a JSON
  object whose `stock` and `price` keys may each be missing, `null` or a
  value. `Lookup` is `history.get(name, {})`, `Get` is `entry.get(key)`,
  `IsEmpty` is the falsiness of a dictionary, and `Record` is the entry the
  script writes.
- `Extract` (`extract.dfy`): `extract_data`. The regular-expression search
  and Python's `int`/`float` conversions are oracles in a `Matcher` value.
  A search yields no match, the first capture group, or an exception.
- `Notification` (`notification.dfy`): `format_change_message`. A message is
  kept as its structure: header, optional stock line, optional price line,
  link. `Render` produces the text. It takes the check time and the printing
  of numbers as parameters.
- `ProductCheck` (`product_check.dfy`): `monitor_product` as the function
  `Step`, from the history before the check and the fetched page to the new
  history, the message sent (if any) and the outcome. Its lemmas state the
  notify rule and the history-update rule.
- `Pass` (`pass.dfy`): the body of the main loop. `Fold` is a left fold of a
  per-product check over the products. `RunPass` applies the fold to
  `Step`. The class `Monitor` holds the history dictionary that the
  methods update in place. It also holds the ghost list of messages handed to
  the endpoint and the ghost list of snapshots saved to the data file.
  `MonitorProduct` and `CheckAll` are proved against `Step` and `RunPass`.

Two consequences of the code are easy to miss. With no stored entry the
script notifies even when neither value was read, and it never records an
entry, so the same report repeats every pass (`NoHistoryReportsEveryTime`).
When one pattern fails to match, the whole entry is replaced and a known
value becomes `null` (`ReplacementDropsKnownPrice`).

## Model

| member | source | states |
|---|---|---|
| `Extract.ExtractField` | stock_monitor.py:100-104 | a field is absent iff its pattern is `None`/empty or does not match; it is the converted first capture group iff the pattern is usable, matches and converts; the call raises iff the search raises or the capture does not convert |
| `Extract.ExtractData` | stock_monitor.py:98-105 | with no usable pattern the result is `(None, None)`; the extraction succeeds iff both fields do, and then carries both fields' values; an exception in the stock field is the one raised, before the price field is evaluated |
| `Extract.ExtractDependsOnlyOnCaptures` | stock_monitor.py:98-105 | the result depends on the page only through the searches of the usable patterns: pages with equal captures extract equally |
| `Notification.FormatChangeMessage` | stock_monitor.py:120-140 | no stock line iff the new stock is absent; a change line iff the old stock is present and differs, with the up arrow iff the new stock is greater and the down arrow iff it is smaller, carrying old and new values; otherwise the current-stock line. The same holds for price, with the cheaper marker iff the new price is lower. The message names the product and the URL |
| `Notification.Render` | stock_monitor.py:123-139 | every rendered message starts with the product-name header, ends with the check-time and link footer, and holds exactly the stock line and then the price line between them |
| `History.Lookup` | stock_monitor.py:152-153 | a missing product reads as the empty entry; a stored one reads as itself |
| `History.Record` | stock_monitor.py:164 | the written entry is never empty and reads back exactly the current stock and price, `None` included |
| `ProductCheck.Step` | stock_monitor.py:142-164 | the check never removes an entry, writes no key other than the product's name, and leaves other entries unchanged; an outcome other than "checked" sends nothing and leaves the history unchanged; a page with content whose extraction succeeds is always "checked", recording whether a message was sent |
| `ProductCheck.NotifiesIff` | stock_monitor.py:147-161 | a message is sent iff the page has content, extraction succeeds, and the stored entry is missing or empty or either stored value differs from the extracted one; the message compares the stored values (`None` when there is no entry) with the extracted ones |
| `ProductCheck.NoHistoryReportsEveryTime` | stock_monitor.py:152-164 | with no stored entry and nothing extracted, a message with neither line is sent, no entry is created, and checking the same page again does exactly the same |
| `ProductCheck.WritesWholeEntry` | stock_monitor.py:163-164 | when at least one value was extracted, the history becomes the old one with the product's entry replaced by exactly the new `{stock, price}` pair |
| `ProductCheck.ReplacementDropsKnownPrice` | stock_monitor.py:163-164 | when the stock reads but the price does not, a previously stored price is overwritten with `null` |
| `ProductCheck.HistoryKeptWithoutValues` | stock_monitor.py:147-151 | a page that is `None` or empty returns before extraction, with nothing sent and the history unchanged; an extraction that raises sends nothing and changes nothing; extracting neither value leaves the history unchanged |
| `ProductCheck.UnchangedIsSilent` | stock_monitor.py:158-164 | with a non-empty stored entry equal to the extracted values nothing is sent and the stored values are kept; the entry is identical after the check when it had both keys |
| `ProductCheck.FirstReadReportsCurrentValues` | stock_monitor.py:125-164 | a first read of stock 5 and price 19.99 with empty history reports both as current values and records them |
| `ProductCheck.StockDropReported` | stock_monitor.py:125-164 | a stock drop from 5 to 3 at price 19.99 is reported with the down arrow and the current-price line, and the new entry is recorded |
| `Pass.Fold` | stock_monitor.py:181-185 | a pass yields exactly one outcome per product and at most one message per product |
| `Pass.FoldConcat` | stock_monitor.py:181-185 | products are processed in list order: the pass over `a + b` is the pass over `a` followed by the pass over `b` from the history `a` left, with messages and outcomes concatenated |
| `Pass.EveryProductChecked` | stock_monitor.py:181-185 | product `i` is checked against the history left by the first `i` products, whatever their outcomes (a failed product does not stop the pass), and its outcome is recorded at position `i` |
| `Pass.RunPass` | stock_monitor.py:181-185 | a pass never removes a stored entry |
| `Pass.OtherEntriesUntouched` | stock_monitor.py:181-185 | entries of names that no configured product carries leave a pass exactly as they entered it |
| `Pass.Monitor.constructor` | stock_monitor.py:177 | the monitor starts from the loaded history, with nothing sent and nothing saved |
| `Pass.Monitor.Send` | stock_monitor.py:107-118 | a send appends the message to the outbox, whether or not delivery succeeds |
| `Pass.Monitor.Save` | stock_monitor.py:66-69 | a save records the whole current history |
| `Pass.Monitor.MonitorProduct` | stock_monitor.py:142-164 | the in-place check updates the history dictionary to `Step`'s new history, appends `Step`'s message (if any) to the outbox, returns `Step`'s outcome, and saves nothing |
| `Pass.Monitor.CheckAll` | stock_monitor.py:181-186 | the loop leaves the history, outbox and outcomes as `RunPass` over the products, then saves the final history exactly once |

## Left out

- Page fetching (`get_page_content`: headless Chrome and an 8-second wait) is a parameter. Each product's page is the `Option<string>` the fetch returned, given in product order, because two products may share a URL and still see different pages.
- Delivery to Telegram (`send_telegram_message`) is only the ghost outbox. The HTTP call and its logged failures are I/O, and every failure is swallowed.
- `load_history` and `save_history` are file I/O and JSON serialisation. The loaded map is the constructor's argument, and a save is a ghost snapshot. The unguarded exception a failed save would raise is not modelled.
- History entries are assumed to have the shape the script writes: a JSON object whose `stock` is an integer and whose `price` is a number. Entries of another JSON type, or with keys other than `stock` and `price`, are not modelled.
- The regular-expression engine and `int`/`float` parsing are oracles (`Matcher`). Price is an exact `real`, so float rounding, NaN (which never equals itself) and infinities are not modelled.
- `Notification.Render`: the check time from `datetime.now()` and the printing of numbers (`str` of an int or float) are parameters, because the clock is not deterministic and float printing is library behaviour.
- The infinite `while True` loop, `time.sleep(CHECK_INTERVAL)`, the credential check at startup, the interrupt handling and the print lines are process lifecycle and logging. The configuration constants are the `products` argument.
