/**
 * The persisted history: a dictionary from product name to the last recorded
 * `{stock, price}` entry, as loaded from and saved to the JSON data file.
 */
module History {
  import opened Wrappers

  /** One key of a stored JSON entry: not there at all, `null`, or a value. */
  datatype Field<T> = Missing | Null | Value(v: T)

  /** A stored entry. Entries written by the monitor always carry both keys;
      entries loaded from a hand-edited file may lack either. */
  datatype Entry = Entry(stock: Field<int>, price: Field<real>)

  type History = map<string, Entry>

  /** `entry.get(key)`: `None` when the key is missing or holds `null`. */
  function Get<T>(f: Field<T>): (r: Option<T>)
    ensures r.Some? <==> f.Value?
    ensures r.Some? ==> r.value == f.v
  {
    match f
    case Value(v) => Some(v)
    case _ => None
  }

  /** The JSON value written for an optional Python value. */
  function Put<T>(o: Option<T>): (f: Field<T>)
    ensures f != Missing
    ensures Get(f) == o
  {
    match o
    case Some(v) => Value(v)
    case None => Null
  }

  /** An entry is falsy in Python exactly when it is the empty dictionary. */
  predicate IsEmpty(e: Entry)
  {
    e.stock.Missing? && e.price.Missing?
  }

  /** `history.get(name, {})`. */
  function Lookup(h: History, name: string): (e: Entry)
    ensures name in h ==> e == h[name]
    ensures name !in h ==> IsEmpty(e)
  {
    if name in h then h[name] else Entry(Missing, Missing)
  }

  /** The entry `{'stock': stock, 'price': price}` the monitor writes. */
  function Record(stock: Option<int>, price: Option<real>): (e: Entry)
    ensures !IsEmpty(e)
    ensures Get(e.stock) == stock && Get(e.price) == price
  {
    Entry(Put(stock), Put(price))
  }
}
