/** Absence as a value: what BeautifulSoup's `select_one` and the crawler's fields use `None` for. */
module Wrappers {
  datatype Option<+T> = None | Some(value: T)
}
