/** Values shared by every part of the model: optional values, how a Java call
    ends, the service layer's Result, time units, Hutool's blank test and the
    JSON codec, which the model keeps abstract. */
module Common {

  datatype Option<T> = None | Some(value: T)

  /** The exceptions the modelled code can raise. */
  datatype Fault =
    | MalformedJson   // JSONUtil.toBean on a string that is not JSON of the expected shape
    | NullPointer     // dereferencing a row the database does not have
    | InvalidExpire   // Redis rejecting a TTL that is not positive, which Spring rethrows

  /** How a Java call ends: it returns a value, or it throws. */
  datatype Outcome<T> = Returns(value: T) | Throws(fault: Fault)

  /** com.hmdp.dto.Result: `Result.ok(data)` or `Result.fail(message)`. */
  datatype Result<T, E> = Ok(data: T) | Fail(error: E)

  /** The java.util.concurrent.TimeUnit constants the core uses. */
  datatype TimeUnit = Seconds | Minutes

  /** `unit.toSeconds(time)`. */
  function ToSeconds(time: int, unit: TimeUnit): int
  {
    match unit
    case Seconds => time
    case Minutes => 60 * time
  }

  /** A duration in milliseconds, the resolution of the model's clock. */
  function ToMillis(time: int, unit: TimeUnit): int
  {
    1000 * ToSeconds(time, unit)
  }

  /** The characters Hutool's `CharUtil.isBlankChar` treats as blank that the
      model knows about: the Java whitespace controls, the space, U+00A0 (the
      no-break space), U+3000 (the ideographic space), U+202A, U+FEFF (the
      byte-order mark) and NUL. */
  predicate IsBlankChar(c: char)
  {
    c == ' ' || ('\t' <= c <= '\r') || ('\U{1C}' <= c <= '\U{1F}')
    || c == '\U{A0}' || c == '\U{3000}' || c == '\U{FEFF}' || c == '\U{202A}' || c == '\0'
  }

  /** `StrUtil.isBlank` on a non-null string: empty or blank characters only. */
  predicate IsBlankString(s: string)
  {
    forall i :: 0 <= i < |s| ==> IsBlankChar(s[i])
  }

  /** `StrUtil.isBlank` on a possibly null string (None is Java's null). */
  predicate IsBlank(s: Option<string>)
  {
    s.None? || IsBlankString(s.value)
  }

  /** Hutool JSON for one Java type: `JSONUtil.toJsonStr` and `JSONUtil.toBean`.
      `decode` is None where `toBean` throws. */
  datatype Codec<!T> = Codec(encode: T -> string, decode: string -> Option<T>)

  /** What the model assumes of Hutool JSON: decoding an encoding gives the value
      back, and an encoding is never blank (JSON of an object starts with '{'). */
  ghost predicate Faithful<T(!new)>(c: Codec<T>)
  {
    forall x :: c.decode(c.encode(x)) == Some(x) && !IsBlankString(c.encode(x))
  }
}
