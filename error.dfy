/** The client's error value and the two constructors that build the
    message of a failed handshake. */
module Errors {

  datatype Error = Error(message: string)

  /** The words every handshake failure message starts with. */
  const HandshakeFailed: string := "Handshake failed"

  /** A handshake failure carrying the inner reason after a fixed prefix of
      24 characters. */
  function HandshakeError(inner: string): (e: Error)
    ensures |e.message| == 24 + |inner|
    ensures e.message[..24] == "Handshake failed, inner "
    ensures e.message[24..] == inner
  {
    Error(HandshakeFailed + ", inner " + inner)
  }

  /** A handshake failure with no further reason. */
  function HandshakeErrorSimple(): (e: Error)
    ensures e.message == "Handshake failed"
  {
    Error(HandshakeFailed)
  }

  /** Both constructors produce messages that start with "Handshake failed". */
  lemma BothStartWithHandshakeFailed(inner: string)
    ensures "Handshake failed" <= HandshakeError(inner).message
    ensures "Handshake failed" <= HandshakeErrorSimple().message
  {
    assert HandshakeError(inner).message[..16] == "Handshake failed";
  }

  /** Different inner reasons give different messages. */
  lemma HandshakeErrorInjective(a: string, b: string)
    ensures HandshakeError(a) == HandshakeError(b) <==> a == b
  {
    if HandshakeError(a) == HandshakeError(b) {
      assert a == HandshakeError(a).message[24..];
    }
  }

  /** A failure with a reason never reads like the bare failure. */
  lemma HandshakeErrorsDiffer(inner: string)
    ensures HandshakeError(inner) != HandshakeErrorSimple()
  {
    assert |HandshakeError(inner).message| >= 24;
  }
}
