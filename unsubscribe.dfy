/** The unsubscribe page: the link's `email` and `token` parameters, one request, one banner. */
module Unsubscribe {
  import opened Common

  const InvalidLink := "Invalid unsubscribe link"
  const UnsubscribeFailed := "Failed to unsubscribe"
  const SuccessHeading := "Unsubscribed Successfully"
  const FailureHeading := "Unsubscribe Failed"

  /** The banner heading depends on the message type alone. */
  function Heading(kind: MessageKind): (h: string)
    ensures h == SuccessHeading <==> kind == Success
    ensures h == FailureHeading <==> kind == Error
  {
    // The headings first differ at index 11 ('d' against a space), so they are distinct.
    assert SuccessHeading[11] != FailureHeading[11];
    match kind
    case Success => SuccessHeading
    case Error => FailureHeading
  }

  class UnsubscribePage {
    var message: Option<Message>
    var isLoading: bool

    /** The page renders with a spinner and no message until the effect runs. */
    constructor ()
      ensures message == None && isLoading
    {
      message := None;
      isLoading := true;
    }

    /** The `unsubscribe` effect: a link missing either parameter is refused without a
        request; otherwise the server's answer decides the banner. Loading ends on every path. */
    method Unsubscribe(email: Option<string>, token: Option<string>, reply: Response<string>)
      returns (requested: bool)
      modifies this
      ensures requested <==> Truthy(email) && Truthy(token)
      ensures !isLoading && message.Some?
      ensures !requested ==> message == Some(Message(InvalidLink, Error))
      ensures requested ==> (message.value.kind == Success <==> reply.Ok?)
      ensures requested && reply.Ok? ==> message.value.text == reply.data
      ensures requested && reply.Err? ==> message.value.text == OrElse(reply.error, UnsubscribeFailed)
    {
      if !(email.Some? && email.value != "") || !(token.Some? && token.value != "") {
        message := Some(Message(InvalidLink, Error));
        isLoading := false;
        return false;
      }
      requested := true;
      if reply.Ok? {
        message := Some(Message(reply.data, Success));
      } else {
        message := Some(Message(OrElse(reply.error, UnsubscribeFailed), Error));
      }
      isLoading := false;
    }
  }
}
