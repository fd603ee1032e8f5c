/** Values as the plugin's PHP code sees them: a possibly-null string, a result that is
    either a value or an exception message, and PHP's `empty()` test. */
module Php {

  datatype Option<+T> = None | Some(value: T)

  /** A value, or the message of the exception raised instead of returning it. */
  datatype Result<+T> = Ok(value: T) | Err(message: string)

  /** PHP's `empty()` on a value that is either null or a string: true for null,
      for the empty string and for the string "0". */
  predicate Empty(v: Option<string>): (e: bool)
    ensures e ==> v.None? || |v.value| <= 1
    ensures v.Some? && v.value != "0" && |v.value| >= 1 ==> !e
  {
    v == None || v == Some("") || v == Some("0")
  }
}
