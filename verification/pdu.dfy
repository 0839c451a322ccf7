/**
 * The protocol data unit exchanged on every stream: a type code, a 32-bit
 * length field and a payload.  The byte codec (encoding to and decoding from
 * a buffer) is not part of this model; a PDU is an abstract record and a
 * read from a stream yields either a decoded PDU or one of two failures.
 */
module Pdu {

  /** The recognised type codes.  DATA and ACK are bit flags in the wire
      format; DataAck stands for their composition, which the server uses
      to answer a successful CONNECT.  Any other code is Other. */
  datatype MsgType =
    | ClientConnect
    | Data
    | Ack
    | DataAck
    | List
    | PeerList
    | Dm
    | Ping
    | Other(code: nat)

  /** The length field is 32 bits wide. */
  const LenModulus: nat := 0x1_0000_0000

  /** Payloads are byte strings; each `char` stands for one byte. */
  datatype Pdu = Pdu(mtype: MsgType, len: nat, data: string)

  /** The length field holds the payload's byte count cast to 32 bits. */
  predicate Consistent(p: Pdu)
  {
    p.len == |p.data| % LenModulus
  }

  /** A PDU as the handlers build it: the given type and payload, and the
      payload's length converted to 32 bits. */
  function Make(t: MsgType, data: string): (p: Pdu)
    ensures p.mtype == t && p.data == data && Consistent(p)
    ensures |data| < LenModulus ==> p.len == |data|
  {
    Pdu(t, |data| % LenModulus, data)
  }

  /** What one read from a stream delivers: a decoded PDU, a transport
      failure, or bytes that do not decode. */
  datatype Incoming =
    | Received(pdu: Pdu)
    | ReadFailed
    | DecodeFailed
}
