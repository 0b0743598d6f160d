/** Optional values: an absent form field, a cell that did not parse as a date,
    a spreadsheet that could not be read. */
module Wrappers {

  datatype Option<+T> = None | Some(value: T)
}
