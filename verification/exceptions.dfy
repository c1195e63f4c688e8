/** The tool's five exception classes, the plain `Exception(message)` it raises while
    validating and fetching tokens, and the built-in faults that can escape its code. */
module Exceptions {
  import opened Wrappers
  import opened Text
  import opened Json

  /** An exception with the attributes its constructor stores; parameters with a default
      in Python have the same default here. */
  datatype Error =
    | InvalidFieldValue(fileName: Option<string>, fieldName: string, fieldValue: Json, detail: string := "")
    | UnrecognizedField(fieldName: string, detail: string := "Unrecognized field")
    | InvalidConfiguration(configFile: string, detail: string := "")
    | CFSServer(detail: string, payload: Json, result: Option<string> := None)
    | CFSInvalidInput(detail: string, payload: Json, result: Option<string> := None)
    | Raised(detail: string)
    | Builtin(fault: Fault)

  /** `str(result)` for the optional server body: `None` when absent. */
  function ResultText(result: Option<string>): string {
    if result.Some? then result.value else "None"
  }

  function FaultMessage(f: Fault): string {
    match f
    case KeyMissing(key) => "'" + key + "'"
    case NotSubscriptable => "object is not subscriptable"
    case NotIterable => "object is not iterable"
    case NotComparable => "'>' not supported between these operands"
    case BadIntLiteral(text) => "invalid literal for int() with base 10: '" + text + "'"
    case BadIntArgument => "int() argument must be a string, a bytes-like object or a real number"
    case IndexOutOfRange => "list index out of range"
    case NotJson => "Expecting value"
    case NoItems => "object has no attribute 'items'"
    case NegativeSleep => "sleep length must be non-negative"
    case NoSectionFound(section) => "No section: '" + section + "'"
  }

  /** The message layout of the two publish exceptions, which differ only in `indent`. */
  function PublishText(detail: string, payload: string, indent: string, result: string): string {
    detail + "\n  payload=" + payload + indent + "result=" + result
  }

  /** The message each constructor builds, which is also `str(e)`. */
  function Message(e: Error): (m: string)
    ensures e.UnrecognizedField? || e.CFSServer? || e.CFSInvalidInput? || e.Raised? ==> StartsWith(m, e.detail)
  {
    match e
    case InvalidFieldValue(fileName, fieldName, fieldValue, detail) =>
      if fileName.Some? then
        "Invalid field \"" + fieldName + "\", value=" + Str(fieldValue) + ", fileName=" + fileName.value + ", " + detail
      else
        "Invalid field \"" + fieldName + "\", value=" + Str(fieldValue) + ", " + detail
    case UnrecognizedField(fieldName, detail) =>
      detail + " \"" + fieldName + "\""
    case InvalidConfiguration(fileName, detail) =>
      "Invalid configuration on \"" + fileName + "\", " + detail
    case CFSServer(detail, payload, result) =>
      PublishText(detail, Str(payload), "\n ", ResultText(result))
    case CFSInvalidInput(detail, payload, result) =>
      PublishText(detail, Str(payload), "\n  ", ResultText(result))
    case Raised(detail) =>
      detail
    case Builtin(fault) =>
      FaultMessage(fault)
  }

  /** The file name appears in an invalid-field message only when one is given: the message
      with a file name is the one without it, with `fileName=<name>, ` put before the detail. */
  lemma {:induction false} FileNameOnlyWhenGiven(fileName: string, fieldName: string, fieldValue: Json, detail: string)
    ensures var without := Message(InvalidFieldValue(None, fieldName, fieldValue, detail));
            var with := Message(InvalidFieldValue(Some(fileName), fieldName, fieldValue, detail));
            |detail| <= |without| && without[|without| - |detail|..] == detail &&
            with == without[..|without| - |detail|] + "fileName=" + fileName + ", " + detail
  {
  }

  /** The default message of an unrecognized-field error. */
  lemma UnrecognizedFieldDefault(fieldName: string)
    ensures Message(UnrecognizedField(fieldName)) == "Unrecognized field \"" + fieldName + "\""
  {
  }

  /** A text `detail + sep1 + p + sep2 + r` starts with the detail and contains `p` and `r`. */
  lemma {:induction false} ShowsParts(text: string, detail: string, sep1: string, p: string, sep2: string, r: string)
    requires text == detail + sep1 + p + sep2 + r
    ensures StartsWith(text, detail) && Contains(text, p) && Contains(text, r)
  {
    assert text[..|detail|] == detail;
    ContainsInfix(detail + sep1, p, sep2 + r);
    assert text == (detail + sep1) + p + (sep2 + r);
    ContainsInfix(detail + sep1 + p + sep2, r, "");
    assert text == (detail + sep1 + p + sep2) + r + "";
  }

  /** A publish message starts with its detail and shows the payload and the result. */
  lemma PublishTextShowsParts(detail: string, payload: string, indent: string, result: string)
    ensures var text := PublishText(detail, payload, indent, result);
            StartsWith(text, detail) && Contains(text, "payload=" + payload) && Contains(text, "result=" + result)
  {
    var text := PublishText(detail, payload, indent, result);
    assert text == detail + "\n  " + ("payload=" + payload) + indent + ("result=" + result);
    ShowsParts(text, detail, "\n  ", "payload=" + payload, indent, "result=" + result);
  }

  /** Both publish exceptions carry their detail, payload and server body in their text. */
  lemma PublishMessagesShowPayloadAndResult(detail: string, payload: Json, result: Option<string>)
    ensures var server := Message(CFSServer(detail, payload, result));
            StartsWith(server, detail) &&
            Contains(server, "payload=" + Str(payload)) && Contains(server, "result=" + ResultText(result))
    ensures var invalid := Message(CFSInvalidInput(detail, payload, result));
            StartsWith(invalid, detail) &&
            Contains(invalid, "payload=" + Str(payload)) && Contains(invalid, "result=" + ResultText(result))
  {
    PublishTextShowsParts(detail, Str(payload), "\n ", ResultText(result));
    PublishTextShowsParts(detail, Str(payload), "\n  ", ResultText(result));
  }

  /** The two publish messages differ only in the extra space of indent before `result=`. */
  lemma PublishMessagesDifferByIndent(detail: string, payload: Json, result: Option<string>)
    ensures var server := Message(CFSServer(detail, payload, result));
            var invalid := Message(CFSInvalidInput(detail, payload, result));
            var k := |server| - |"result=" + ResultText(result)|;
            0 <= k && server[k..] == "result=" + ResultText(result) &&
            invalid == server[..k] + " " + server[k..]
  {
    var r := "result=" + ResultText(result);
    var head := detail + "\n  payload=" + Str(payload) + "\n ";
    assert PublishText(detail, Str(payload), "\n ", ResultText(result)) == head + r;
    assert PublishText(detail, Str(payload), "\n  ", ResultText(result)) == head + " " + r;
  }
}
