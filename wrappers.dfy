/** Option and Result, shared by the model. */
module Wrappers {

  /** A value that may be absent: an unset attribute, a field the XML lookup did not find. */
  datatype Option<+T> = None | Some(value: T)

  /** What a client call does: it returns a value, or it raises. The clients raise many
      kinds of Python exception (the undefined `ValueException` turns every intended error
      into a `NameError`; unset attributes, `None` joined into a URL, a missing XML element
      and a failed transport raise others); callers cannot tell them apart usefully, so all
      of them are the one outcome `Raised`. */
  datatype Result<+T> = Ok(value: T) | Raised
}
