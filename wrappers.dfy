/** The optional-value type used for field kinds that get no Elasticsearch mapping. */
module Wrappers {

  datatype Option<+T> = None | Some(value: T)
}
