/** Optional values: `None` stands for a ratio the dashboard cannot compute (NaN in its table). */
module Wrappers {
  datatype Option<+T> = None | Some(value: T)
}
