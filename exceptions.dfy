/**
  UnknownParameterValueException: the error raised when a request parameter has a value the
  service does not know. It is a StatusCodeException, which carries an HTTP status code, a
  service-specific error code and a message.
*/
module Exceptions {
  import opened Wrappers
  import opened JavaLang

  /** StatusCode.BAD_REQUEST (StatusCode is not part of this model; it is HTTP 400). */
  const BAD_REQUEST: int := 400

  /** The error code the two-argument constructor supplies. */
  const NO_ERROR_CODE: Int32 := -1

  /** The three values a StatusCodeException is built from. */
  datatype StatusCodeException = StatusCodeException(statusCode: int, internalCode: Int32, message: string)

  const MESSAGE_PREFIX: string := "Unknown parameter value '"
  const MESSAGE_MIDDLE: string := "' for '"
  const MESSAGE_SUFFIX: string := "'."

  /** new UnknownParameterValueException(errorCode, paramName, paramValue). */
  function UnknownParameterValueWithCode(errorCode: Int32, paramName: JString, paramValue: JString): (e: StatusCodeException)
    ensures e.statusCode == BAD_REQUEST
    ensures e.internalCode == errorCode
    ensures |e.message| == 34 + |StringValueOf(paramName)| + |StringValueOf(paramValue)|
    ensures e.message[..25] == "Unknown parameter value '"
    ensures e.message[|e.message| - 2..] == "'."
  {
    StatusCodeException(BAD_REQUEST, errorCode, MESSAGE_PREFIX + StringValueOf(paramValue) + MESSAGE_MIDDLE + StringValueOf(paramName) + MESSAGE_SUFFIX)
  }

  /** new UnknownParameterValueException(paramName, paramValue). */
  function UnknownParameterValue(paramName: JString, paramValue: JString): StatusCodeException {
    UnknownParameterValueWithCode(NO_ERROR_CODE, paramName, paramValue)
  }

  /** What string concatenation makes of a String reference: its text, or "null". */
  function StringValueOf(s: JString): string {
    if s.Some? then s.value else "null"
  }

  /**
    Reads the parameter name and value back out of an exception message: the value runs up
    to the first quote after the fixed prefix, the name from the fixed middle part to the
    closing quote and full stop.
  */
  function ParseUnknownParameterMessage(message: string): Option<(string, string)> {
    if |message| < |MESSAGE_PREFIX| || message[..|MESSAGE_PREFIX|] != MESSAGE_PREFIX then None
    else
      var rest := message[|MESSAGE_PREFIX|..];
      var k := IndexOf(rest, '\'');
      if k < 0 then None
      else
        var tail := rest[k..];
        if |tail| < |MESSAGE_MIDDLE| + |MESSAGE_SUFFIX| || tail[..|MESSAGE_MIDDLE|] != MESSAGE_MIDDLE
           || tail[|tail| - |MESSAGE_SUFFIX|..] != MESSAGE_SUFFIX
        then None
        else Some((tail[|MESSAGE_MIDDLE|..|tail| - |MESSAGE_SUFFIX|], rest[..k]))
  }

  /**
    The message names the parameter and its value: for a value without a single quote both
    are recovered from the message text alone.
  */
  lemma MessageNamesParameterAndValue(errorCode: Int32, paramName: string, paramValue: string)
    requires '\'' !in paramValue
    ensures ParseUnknownParameterMessage(UnknownParameterValueWithCode(errorCode, Some(paramName), Some(paramValue)).message)
            == Some((paramName, paramValue))
  {
    var message := UnknownParameterValueWithCode(errorCode, Some(paramName), Some(paramValue)).message;
    var tail := MESSAGE_MIDDLE + paramName + MESSAGE_SUFFIX;
    assert message == MESSAGE_PREFIX + (paramValue + tail);
    PrefixedParts(MESSAGE_PREFIX, paramValue + tail);
    IndexOfAfterPrefix(paramValue, tail, '\'');
    MiddleParts(MESSAGE_MIDDLE, paramName, MESSAGE_SUFFIX);
  }

  lemma PrefixedParts(prefix: string, rest: string)
    ensures (prefix + rest)[..|prefix|] == prefix && (prefix + rest)[|prefix|..] == rest
  {
  }

  /** The first occurrence of c is just after a prefix that does not contain it. */
  lemma IndexOfAfterPrefix(v: string, tail: string, c: char)
    requires c !in v && |tail| > 0 && tail[0] == c
    ensures IndexOf(v + tail, c) == |v|
    ensures (v + tail)[..|v|] == v && (v + tail)[|v|..] == tail
  {
    assert (v + tail)[|v|] == c;
    assert (v + tail)[..|v|] == v;
  }

  lemma MiddleParts(middle: string, name: string, suffix: string)
    ensures var t := middle + name + suffix;
            && t[..|middle|] == middle && t[|t| - |suffix|..] == suffix
            && t[|middle|..|t| - |suffix|] == name
  {
    var t := middle + name + suffix;
    assert t[..|middle|] == middle;
    assert t[|t| - |suffix|..] == suffix;
    assert t[|middle|..|t| - |suffix|] == name;
  }

  /** Two exceptions with equal messages concern the same parameter and value (values without quotes). */
  lemma MessageDeterminesParameter(c1: Int32, n1: string, v1: string, c2: Int32, n2: string, v2: string)
    requires '\'' !in v1 && '\'' !in v2
    requires UnknownParameterValueWithCode(c1, Some(n1), Some(v1)).message == UnknownParameterValueWithCode(c2, Some(n2), Some(v2)).message
    ensures n1 == n2 && v1 == v2
  {
    MessageNamesParameterAndValue(c1, n1, v1);
    MessageNamesParameterAndValue(c2, n2, v2);
  }

  /**
    Whichever constructor is used the status is BAD_REQUEST; the two-argument one is the
    three-argument one with error code -1, and the given error code is kept unchanged.
  */
  lemma ConstructorsAgree(errorCode: Int32, paramName: JString, paramValue: JString)
    ensures UnknownParameterValue(paramName, paramValue) == UnknownParameterValueWithCode(-1, paramName, paramValue)
    ensures UnknownParameterValue(paramName, paramValue).statusCode == BAD_REQUEST
    ensures UnknownParameterValueWithCode(errorCode, paramName, paramValue).internalCode == errorCode
    ensures UnknownParameterValue(paramName, paramValue).message == UnknownParameterValueWithCode(errorCode, paramName, paramValue).message
  {
  }
}
