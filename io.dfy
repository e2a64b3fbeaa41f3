/** The outcomes the server's code receives from the world around it: I/O errors,
    optional values, results, and protobuf serialisation seen as an abstract
    encode/parse pair. */
module Io {
  import opened Bytes

  /** The `std::io::ErrorKind`s the core inspects or creates; every other kind is `OtherKind`. */
  datatype ErrorKind = InvalidData | Interrupted | Other | OtherKind(name: string)

  datatype IoError = IoError(kind: ErrorKind, message: string)

  datatype Option<T> = None | Some(value: T)

  /** `io::Result<T>`. */
  datatype Result<T> = Ok(value: T) | Err(error: IoError)

  /** `io::Result<()>`. */
  datatype Status = Done | Failed(error: IoError)

  /** What `protobuf::parse_from_bytes` returns: a message or the parser's complaint. */
  datatype Parsed<T> = Parsed(message: T) | Malformed(reason: string)

  /** Protobuf serialisation (`write_to_bytes`) and parsing (`parse_from_bytes`) of one message type. */
  datatype Codec<!T> = Codec(encode: T -> seq<Byte>, parse: seq<Byte> -> Parsed<T>)

  /** Parsing what was serialised gives the message back. */
  ghost predicate Lawful<T(!new)>(c: Codec<T>)
  {
    forall x: T :: c.parse(c.encode(x)) == Parsed(x)
  }
}
