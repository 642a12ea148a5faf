/**
 * The text-to-value conversions the extractors call: `float`, `int`,
 * `datetime.fromisoformat` and `pandas.to_datetime`. Their parsing rules are
 * not modelled: each is a partial function supplied by the caller, `None`
 * meaning the text is rejected (Python raises ValueError).
 */
module Conversions {
  import opened Wrappers
  import opened XmlTree

  /** A Python float; its arithmetic is not modelled. */
  type Float(==)

  /** A date, datetime or pandas Timestamp. */
  type Date(==)

  datatype Conv = Conv(
    float: string -> Option<Float>,
    integer: string -> Option<int>,
    isoDate: string -> Option<Date>,   // datetime.fromisoformat
    timestamp: string -> Option<Date>) // pandas.to_datetime

  /** `float(text)`: TypeError for a missing text, ValueError for text `float` rejects. */
  function ToFloat(conv: Conv, text: Option<string>): Result<Float> {
    if text.None? then Err(TypeError("float() argument must be a string or a number, not 'NoneType'"))
    else if conv.float(text.value).None? then Err(ValueError("could not convert string to float"))
    else Ok(conv.float(text.value).value)
  }

  /** `int(text)`. */
  function ToInt(conv: Conv, text: Option<string>): Result<int> {
    if text.None? then Err(TypeError("int() argument must be a string or a number, not 'NoneType'"))
    else if conv.integer(text.value).None? then Err(ValueError("invalid literal for int()"))
    else Ok(conv.integer(text.value).value)
  }

  /** `datetime.fromisoformat(text)`. */
  function ToIsoDate(conv: Conv, text: Option<string>): Result<Date> {
    if text.None? then Err(TypeError("fromisoformat: argument must be str"))
    else if conv.isoDate(text.value).None? then Err(ValueError("Invalid isoformat string"))
    else Ok(conv.isoDate(text.value).value)
  }

  /** `pandas.to_datetime(text)` of an attribute value (always a string). */
  function ToTimestamp(conv: Conv, text: string): Result<Date> {
    if conv.timestamp(text).None? then Err(ValueError("Unknown datetime string format"))
    else Ok(conv.timestamp(text).value)
  }

  /** `fromisoformat(n.attrib[key])`: KeyError first, then the parse. */
  function IsoAttr(conv: Conv, n: Node, key: string): Result<Date> {
    var s :- Attr(n, key);
    ToIsoDate(conv, Some(s))
  }

  /** `int(n.attrib[key])`. */
  function IntAttr(conv: Conv, n: Node, key: string): Result<int> {
    var s :- Attr(n, key);
    ToInt(conv, Some(s))
  }
}
