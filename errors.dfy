/** The `ArgumentError`s `pb` raises, and the messages it reports them with. */
module Errors {

  /** Each error carries the option text or path exactly as the user gave it. */
  datatype ArgError =
    | BufferSizeTooLarge(text: string)
    | UnrecognizedBufferSize(text: string)
    | UnrecognizedTotal(text: string)
    | NotAFile(path: string)

  /** What the user gave: the option text, or the path. */
  function Subject(e: ArgError): string
  {
    match e
    case NotAFile(p) => p
    case _ => e.text
  }

  /** The error's message: a fixed prefix per kind, then the subject unchanged. */
  function Message(e: ArgError): (m: string)
    ensures |m| > |Subject(e)| && m[|m| - |Subject(e)|..] == Subject(e)
  {
    match e
    case BufferSizeTooLarge(t) => "Buffer size too large: " + t
    case UnrecognizedBufferSize(t) => "Unrecognized buffer size: " + t
    case UnrecognizedTotal(t) => "Unrecognized total: " + t
    case NotAFile(p) => "Not a file: " + p
  }

  /** The kind of error can be read off the message: its first letter, and
      for the two "Unrecognized" kinds its fourteenth. */
  lemma MessageKind(e: ArgError)
    ensures var m := Message(e);
      && |m| >= 12
      && (m[0] == 'U' ==> |m| > 13)
      && (m[0] == 'B' <==> e.BufferSizeTooLarge?)
      && (m[0] == 'N' <==> e.NotAFile?)
      && (m[0] == 'U' && m[13] == 'b' <==> e.UnrecognizedBufferSize?)
      && (m[0] == 'U' && m[13] == 't' <==> e.UnrecognizedTotal?)
  {
  }

  /** Distinct errors are reported with distinct messages: the message names
      both the kind of error and the text that caused it. */
  lemma MessageInjective(e: ArgError, e': ArgError)
    requires Message(e) == Message(e')
    ensures e == e'
  {
    MessageKind(e);
    MessageKind(e');
    var m := Message(e);
    assert Subject(e) == m[|m| - |Subject(e)|..];
    assert Subject(e') == m[|m| - |Subject(e')|..];
    assert |Subject(e)| == |Subject(e')|;
  }
}
