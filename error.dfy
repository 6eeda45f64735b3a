/** error.go: the one error type the client returns, which carries a message and
    an optional parent cause. */
module Errors {
  import opened GoBase
  import opened Format

  /** A Go `error` value. `Opaque` stands for errors produced by `net/http` and
      `encoding/json`, represented by the text their `Error` method returns;
      `ClientError` is the client's own error, with `None` for a nil parent. */
  datatype GoError =
    | Opaque(text: string)
    | ClientError(msg: string, parent: Option<GoError>)

  const Prefix: string := "steam client error: "

  /** The text `Error()` returns; the parent is rendered by `%v`, which is the
      parent's own `Error()` text. */
  function Error(e: GoError): (s: string)
    ensures e.ClientError? ==> Prefix <= s && Prefix + e.msg <= s
    ensures e.ClientError? && e.parent.None? ==> |s| == |Prefix| + |e.msg|
    ensures e.ClientError? && e.parent.Some? ==> |s| >= |Prefix| + |e.msg| + 2
  {
    match e
    case Opaque(text) => text
    case ClientError(msg, None) => Prefix + msg
    case ClientError(msg, Some(p)) => Prefix + msg + ": " + Error(p)
  }

  /** `errorf(parent, msg, args...)`: the parent is kept as given and the
      message is the formatted text. */
  function Errorf(parent: Option<GoError>, format: string, args: seq<int>): (e: GoError)
    requires IntVerbsOnly(format)
    ensures e.ClientError? && e.parent == parent && e.msg == Sprintf(format, args)
  {
    ClientError(Sprintf(format, args), parent)
  }

  /** With the same message, the text for a nil parent is a prefix of the text
      for any parent, which adds `": "` and the parent's text. */
  lemma NilParentIsPrefix(msg: string, p: GoError)
    ensures Error(ClientError(msg, Some(p))) == Error(ClientError(msg, None)) + ": " + Error(p)
    ensures Error(ClientError(msg, None)) <= Error(ClientError(msg, Some(p)))
  {
  }

  /** The message of a nil-parent error is read back exactly from its text. */
  lemma NilParentMessage(msg: string)
    ensures Error(ClientError(msg, None))[|Prefix|..] == msg
  {
  }

  /** `errorf(parent, msg)` with a message holding no verb and no arguments:
      the message is stored exactly as written, next to the parent it was
      given. */
  function ErrorfVerbatim(parent: Option<GoError>, msg: string): (e: GoError)
    requires '%' !in msg
    ensures e == ClientError(msg, parent)
  {
    SprintfPlain(msg);
    Errorf(parent, msg, [])
  }
}
