/** The plain `Post` of src/post.rs (a login and a text), its conversions to and from
    the generated protobuf record, and its byte form: an 8-byte little-endian length
    followed by the serialised record. The generated `proto_post::Post` is not part of
    this model; it is taken to hold two optional strings whose `take_*` accessors
    return "" when the field is unset, like those of src/post/message.rs. */
module ChatPost {
  import opened Bytes
  import opened Io

  datatype Post = Post(login: string, text: string)

  /** `proto_post::Post`: two singular string fields. */
  datatype ProtoPost = ProtoPost(login: Option<string>, text: Option<string>)

  /** `Into<ProtoPost>`: both fields set, copied unchanged. */
  function IntoProto(p: Post): (r: ProtoPost)
    ensures r.login == Some(p.login) && r.text == Some(p.text)
  {
    ProtoPost(Some(p.login), Some(p.text))
  }

  /** `From<ProtoPost>`: both fields moved out; an unset field becomes "". */
  function FromProto(pp: ProtoPost): (r: Post)
    ensures pp.login.Some? ==> r.login == pp.login.value
    ensures pp.text.Some? ==> r.text == pp.text.value
    ensures pp.login.None? ==> r.login == ""
    ensures pp.text.None? ==> r.text == ""
  {
    Post(if pp.login.Some? then pp.login.value else "",
         if pp.text.Some? then pp.text.value else "")
  }

  /** Converting to the record and back loses nothing. */
  lemma FromIntoProto(p: Post)
    ensures FromProto(IntoProto(p)) == p
  {
  }

  /** `into_bytes`: the record serialised, behind its length as a `u64`. */
  function IntoBytes(p: Post, codec: Codec<ProtoPost>): (r: seq<Byte>)
    ensures |r| == 8 + |codec.encode(IntoProto(p))|
    ensures r[8..] == codec.encode(IntoProto(p))
    ensures FromLE(r[..8]) == |codec.encode(IntoProto(p))| % U64_LIMIT
  {
    var proto := codec.encode(IntoProto(p));
    var header := LE(|proto| % U64_LIMIT, 8);
    Pow256Values();
    FromLEOfLE(|proto| % U64_LIMIT, 8);
    assert (header + proto)[..8] == header;
    header + proto
  }

  /** `from_bytes`: a post, or an `InvalidData` error and never a post when parsing fails. */
  function FromBytes(bytes: seq<Byte>, codec: Codec<ProtoPost>): (r: Result<Post>)
    ensures r.Ok? <==> codec.parse(bytes).Parsed?
    ensures r.Ok? ==> r.value == FromProto(codec.parse(bytes).message)
    ensures r.Err? ==> r.error == IoError(InvalidData, codec.parse(bytes).reason)
  {
    match codec.parse(bytes)
    case Parsed(pp) => Ok(FromProto(pp))
    case Malformed(reason) => Err(IoError(InvalidData, reason))
  }

  /** Round trip: with a lawful serialiser, dropping the 8-byte prefix of `into_bytes`
      and parsing the rest gives the post back. */
  lemma IntoBytesRoundTrip(p: Post, codec: Codec<ProtoPost>)
    requires Lawful(codec)
    ensures FromBytes(IntoBytes(p, codec)[8..], codec) == Ok(p)
  {
    assert codec.parse(codec.encode(IntoProto(p))) == Parsed(IntoProto(p));
  }

  /** The prefix announces the exact payload length whenever that length fits in 64 bits. */
  lemma IntoBytesPrefixIsLength(p: Post, codec: Codec<ProtoPost>)
    requires |codec.encode(IntoProto(p))| < U64_LIMIT
    ensures FromLE(IntoBytes(p, codec)[..8]) == |IntoBytes(p, codec)| - 8
  {
  }
}
