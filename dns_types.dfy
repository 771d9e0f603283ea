/**
  * The DNS values the core passes around without looking inside them, and the external
  * message library (dnsjava) reduced to the four operations the core calls.
  */
module DnsTypes {
  import opened Common

  /** Size of the fixed message header (section 4.1.1 of RFC 1035). */
  const HEADER_LENGTH := 12

  /** Opcode.QUERY (section 4.1.1 of RFC 1035). */
  const OPCODE_QUERY := 0

  /** Type.AXFR, the zone-transfer question type (section 3.2.3 of RFC 1035). */
  const TYPE_AXFR := 252

  /** An EDNS option carried in the OPT record; its content is opaque here. */
  type EdnsOption = Bytes

  /** The OPT pseudo-record built from OPTRecord(payloadSize, xrcode, version, flags, options). */
  datatype OptRecord = OptRecord(payloadSize: int, extendedRcode: int, version: int, flags: int,
                                 options: seq<EdnsOption>)

  /** A TSIG key: its name and shared secret. */
  datatype TsigKey = TsigKey(name: string, secret: Bytes)

  /**
    * A message as the core sees it: the header id and opcode, the type of its question
    * (`getQuestion()` may be null), the OPT record of its additional section
    * (`getOPT()` may be null), and every other section as opaque content.
    */
  datatype Message = Message(id: int, opcode: int, question: Option<int>, opt: Option<OptRecord>,
                             records: Bytes)

  /**
    * The external message library. `parse` is `new Message(byte[])` (None when it throws
    * an IOException), `numBytes` is `Message.numBytes()`, `toWire` is
    * `Message.toWire(Message.MAXLENGTH)` and `sign` is `TSIG.apply(query, null)`.
    */
  datatype Codec = Codec(parse: Bytes -> Option<Message>,
                         numBytes: Message -> int,
                         toWire: Message -> Bytes,
                         sign: (Message, TsigKey) -> Message)

  /** A parsed message always occupies at least one byte of the buffer it came from. */
  ghost predicate WellFormed(c: Codec) {
    forall b :: c.parse(b).Some? ==> c.numBytes(c.parse(b).value) > 0
  }

  /**
    * TSIG.apply only appends a TSIG record to the additional section: the id, opcode,
    * question and OPT record of the message stay as they were.
    */
  ghost predicate SignKeepsHeader(c: Codec) {
    forall m, k :: c.sign(m, k).(records := m.records) == m
  }

  /** The length `new Message(bytes).numBytes()` reports, or None on a parse error. */
  function MessageLength(c: Codec, bytes: Bytes): (n: Option<int>)
    requires WellFormed(c)
    ensures n.Some? <==> c.parse(bytes).Some?
    ensures n.Some? ==> n.value > 0
  {
    match c.parse(bytes)
    case None => None
    case Some(m) => Some(c.numBytes(m))
  }

  /** The kind of exception a failed query carries. */
  datatype ErrorKind =
    | SocketTimeout     // java.net.SocketTimeoutException, an IOException
    | WireParse         // org.xbill.DNS.WireParseException, an IOException
    | OtherIO           // any other IOException
    | NotIO             // anything that is not an IOException

  predicate IsIOException(k: ErrorKind) {
    k != NotIO
  }

  datatype Failure = Failure(kind: ErrorKind, text: string)

  /**
    * What a transaction delivers: the caller's correlation id with either the reply
    * message or the exception that ended the query.
    */
  datatype Response =
    | Answer(id: int, message: Message)
    | Error(id: int, failure: Failure)
}
