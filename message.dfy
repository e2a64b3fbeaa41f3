/** The generated protobuf record of src/post/message.rs: a required string `author`
    (field 1), a repeated string `text` (field 2), the unknown fields met while parsing,
    and a size cache. The accessors update the fields in place; `merge_from` reads
    tagged fields off the wire and dispatches on the field number. */
module ProtoMessage {
  import opened Bytes
  import opened Io

  /** A value of a field the schema does not know, kept as the wire carried it. */
  datatype UnknownValue = Fixed32(bits: nat) | Fixed64(bits: nat) | Varint(v: nat) | LengthDelimited(bytes: seq<Byte>)

  /** `UnknownValues`: the values seen for one unknown field number, one vector per wire
      type, each in arrival order; the order across wire types is not kept. */
  datatype UnknownValues = UnknownValues(
    fixed32: seq<nat>,
    fixed64: seq<nat>,
    varint: seq<nat>,
    lengthDelimited: seq<seq<Byte>>)

  /** `UnknownFields`: the values seen for each unknown field number. */
  type UnknownFields = map<nat, UnknownValues>

  /** `UnknownValues::default()`. */
  function NoValues(): UnknownValues
  {
    UnknownValues([], [], [], [])
  }

  /** `UnknownValues::add_value`: the value joins the vector of its own wire type. */
  function Push(vs: UnknownValues, v: UnknownValue): (r: UnknownValues)
    ensures |r.fixed32| + |r.fixed64| + |r.varint| + |r.lengthDelimited|
            == |vs.fixed32| + |vs.fixed64| + |vs.varint| + |vs.lengthDelimited| + 1
  {
    match v
    case Fixed32(b) => vs.(fixed32 := vs.fixed32 + [b])
    case Fixed64(b) => vs.(fixed64 := vs.fixed64 + [b])
    case Varint(n) => vs.(varint := vs.varint + [n])
    case LengthDelimited(bs) => vs.(lengthDelimited := vs.lengthDelimited + [bs])
  }

  /** The record's fields; `author: None` is an unset `SingularField`. */
  datatype MessageValue = MessageValue(
    author: Option<string>,
    text: seq<string>,
    unknownFields: UnknownFields,
    cachedSize: nat)

  /** `Message::new()` / `Default::default()`. */
  function Default(): (m: MessageValue)
    ensures m.author == None && m.text == [] && m.unknownFields == map[] && m.cachedSize == 0
  {
    MessageValue(None, [], map[], 0)
  }

  predicate HasAuthor(m: MessageValue)
  {
    m.author.Some?
  }

  /** `get_author`: the stored author, or the empty string when unset. */
  function GetAuthor(m: MessageValue): (s: string)
    ensures HasAuthor(m) ==> Some(s) == m.author
    ensures !HasAuthor(m) ==> s == ""
  {
    match m.author
    case Some(v) => v
    case None => ""
  }

  /** `is_initialized`: false exactly when the required field is missing. */
  predicate IsInitialized(m: MessageValue)
  {
    m.author.Some?
  }

  lemma IsInitializedIffHasAuthor(m: MessageValue)
    ensures IsInitialized(m) <==> HasAuthor(m)
  {
  }

  /** `eq`: author, text and unknown fields; the size cache plays no part. */
  predicate Eq(a: MessageValue, b: MessageValue)
  {
    a.author == b.author && a.text == b.text && a.unknownFields == b.unknownFields
  }

  /** Two records are equal exactly when they agree once the size cache is ignored. */
  lemma EqIgnoresCachedSize(a: MessageValue, b: MessageValue)
    ensures Eq(a, b) <==> a.(cachedSize := 0) == b.(cachedSize := 0)
  {
  }

  /** What protobuf serialisation promises for this record: a record with its required
      author set (`write_to_bytes` refuses any other) parses back to one equal to it
      under `eq`, whatever its size cache held. */
  ghost predicate RoundTrips(c: Codec<MessageValue>)
  {
    forall x | IsInitialized(x) :: c.parse(c.encode(x)).Parsed? && Eq(c.parse(c.encode(x)).message, x)
  }

  /** `UnknownFields::add_value`: the value is pushed under its number (created empty
      when first seen), onto the vector of its wire type. */
  function AddUnknown(u: UnknownFields, number: nat, v: UnknownValue): (r: UnknownFields)
    ensures r.Keys == u.Keys + {number}
    ensures var before := if number in u then u[number] else NoValues();
            && (v.Fixed32? ==> r[number] == before.(fixed32 := before.fixed32 + [v.bits]))
            && (v.Fixed64? ==> r[number] == before.(fixed64 := before.fixed64 + [v.bits]))
            && (v.Varint? ==> r[number] == before.(varint := before.varint + [v.v]))
            && (v.LengthDelimited? ==> r[number] == before.(lengthDelimited := before.lengthDelimited + [v.bytes]))
    ensures forall n | n in u && n != number :: r[n] == u[n]
  {
    u[number := Push(if number in u then u[number] else NoValues(), v)]
  }

  /** Values of different wire types under one number may arrive in either order: the
      fields, and so `eq`, cannot tell. */
  lemma AddUnknownForgetsCrossTypeOrder(u: UnknownFields, number: nat, a: UnknownValue, b: UnknownValue)
    requires a.Varint? && b.LengthDelimited?
    ensures AddUnknown(AddUnknown(u, number, a), number, b) == AddUnknown(AddUnknown(u, number, b), number, a)
  {
  }

  // ---------------------------------------------------------------------------
  // merge_from

  /** What the wire gives for one tag. */
  datatype WireValue =
    | WireVarint(v: nat)
    | WireFixed64(bits: nat)
    | WireFixed32(bits: nat)
    | WireBytes(bytes: seq<Byte>)
    | WireGroup

  /** One step of the input stream: a field read off the wire; a tag read whose value
      could not be read (cut short), with whether the tag said length-delimited; or a
      tag that could not be read. */
  datatype Entry =
    | Field(number: nat, value: WireValue)
    | Truncated(number: nat, lengthDelimited: bool, reason: string)
    | Unreadable(reason: string)

  /** The entry carries field `n`, whole or cut short. */
  predicate Names(e: Entry, n: nat)
  {
    (e.Field? || e.Truncated?) && e.number == n
  }

  /** `ProtobufResult<()>`. */
  datatype ProtoStatus = ProtoOk | ProtoErr(reason: string)

  datatype Merge = Merge(message: MessageValue, status: ProtoStatus)

  const UNEXPECTED_WIRE_TYPE := "unexpected wire type"

  /** One iteration of the `while` loop in `merge_from`. Field 1 must be length-delimited
      and is reset to "" before its bytes are decoded; field 2 must be length-delimited
      and gets a new "" before its bytes are decoded; any other number is kept as an
      unknown field. A value cut short is an error, but for fields 1 and 2 only after the
      reset or the new "". `utf8` is UTF-8 decoding, an input here. */
  function MergeEntry(m: MessageValue, e: Entry, utf8: seq<Byte> -> Option<string>): (r: Merge)
    ensures r.message.cachedSize == m.cachedSize
    ensures !Names(e, 1) ==> r.message.author == m.author
    ensures !Names(e, 2) ==> r.message.text == m.text
    ensures r.status.ProtoOk? <==> e.Field? && !(e.number in {1, 2} && !e.value.WireBytes?)
                                   && !(e.number !in {1, 2} && e.value.WireGroup?)
                                   && !(e.number in {1, 2} && utf8(e.value.bytes).None?)
    ensures r.status.ProtoOk? && e.number == 1 ==> r.message.author == utf8(e.value.bytes)
    ensures r.status.ProtoOk? && e.number == 2 ==> r.message.text == m.text + [utf8(e.value.bytes).value]
    // a value cut short after a length-delimited tag for field 1 or 2 leaves the default behind
    ensures e.Truncated? && e.lengthDelimited && e.number == 1 ==> r.message.author == Some("")
    ensures e.Truncated? && e.lengthDelimited && e.number == 2 ==> r.message.text == m.text + [""]
  {
    match e
    case Unreadable(reason) => Merge(m, ProtoErr(reason))
    case Truncated(number, lengthDelimited, reason) =>
      if number == 1 || number == 2 then
        if !lengthDelimited then Merge(m, ProtoErr(UNEXPECTED_WIRE_TYPE))
        else if number == 1 then Merge(m.(author := Some("")), ProtoErr(reason))
        else Merge(m.(text := m.text + [""]), ProtoErr(reason))
      else Merge(m, ProtoErr(reason))
    case Field(number, value) =>
      if number == 1 then
        if !value.WireBytes? then Merge(m, ProtoErr(UNEXPECTED_WIRE_TYPE))
        else match utf8(value.bytes)
          case Some(s) => Merge(m.(author := Some(s)), ProtoOk)
          case None => Merge(m.(author := Some("")), ProtoErr("invalid UTF-8"))
      else if number == 2 then
        if !value.WireBytes? then Merge(m, ProtoErr(UNEXPECTED_WIRE_TYPE))
        else match utf8(value.bytes)
          case Some(s) => Merge(m.(text := m.text + [s]), ProtoOk)
          case None => Merge(m.(text := m.text + [""]), ProtoErr("invalid UTF-8"))
      else
        match value
        case WireVarint(v) => Merge(m.(unknownFields := AddUnknown(m.unknownFields, number, Varint(v))), ProtoOk)
        case WireFixed64(b) => Merge(m.(unknownFields := AddUnknown(m.unknownFields, number, Fixed64(b))), ProtoOk)
        case WireFixed32(b) => Merge(m.(unknownFields := AddUnknown(m.unknownFields, number, Fixed32(b))), ProtoOk)
        case WireBytes(bs) => Merge(m.(unknownFields := AddUnknown(m.unknownFields, number, LengthDelimited(bs))), ProtoOk)
        case WireGroup => Merge(m, ProtoErr(UNEXPECTED_WIRE_TYPE))
  }

  /** `merge_from`: the entries in order, stopping at the first error with the fields
      merged so far kept. */
  function MergeAll(m: MessageValue, es: seq<Entry>, utf8: seq<Byte> -> Option<string>): (r: Merge)
    ensures r.message.cachedSize == m.cachedSize
    decreases |es|
  {
    if es == [] then Merge(m, ProtoOk)
    else
      var first := MergeEntry(m, es[0], utf8);
      if first.status.ProtoErr? then first else MergeAll(first.message, es[1..], utf8)
  }

  /** The strings the well-formed field-2 entries of a stream carry, in order. */
  function TextsOf(es: seq<Entry>, utf8: seq<Byte> -> Option<string>): seq<string>
  {
    if es == [] then []
    else
      var more := TextsOf(es[1..], utf8);
      match es[0]
      case Field(2, WireBytes(bs)) => (if utf8(bs).Some? then [utf8(bs).value] else []) + more
      case _ => more
  }

  /** Merging a stream read in two pieces is merging the first, then (if it succeeded)
      the second into the result. */
  lemma {:induction false} MergeSplit(m: MessageValue, a: seq<Entry>, b: seq<Entry>, utf8: seq<Byte> -> Option<string>)
    ensures MergeAll(m, a + b, utf8)
         == (var f := MergeAll(m, a, utf8); if f.status.ProtoErr? then f else MergeAll(f.message, b, utf8))
    decreases |a|
  {
    if a == [] {
      assert a + b == b;
    } else {
      assert (a + b)[0] == a[0];
      assert (a + b)[1..] == a[1..] + b;
      var first := MergeEntry(m, a[0], utf8);
      if first.status.ProtoOk? {
        MergeSplit(first.message, a[1..], b, utf8);
      }
    }
  }

  /** A successful merge appends every text line of the stream, in order, to `text`. */
  lemma {:induction false} MergeAppendsText(m: MessageValue, es: seq<Entry>, utf8: seq<Byte> -> Option<string>)
    requires MergeAll(m, es, utf8).status.ProtoOk?
    ensures MergeAll(m, es, utf8).message.text == m.text + TextsOf(es, utf8)
    decreases |es|
  {
    if es != [] {
      var first := MergeEntry(m, es[0], utf8);
      MergeAppendsText(first.message, es[1..], utf8);
      match es[0]
      case Unreadable(_) =>
      case Truncated(_, _, _) =>
      case Field(n, v) =>
        if n == 2 {
          assert v.WireBytes? && utf8(v.bytes).Some?;
          assert first.message.text == m.text + [utf8(v.bytes).value];
        }
    }
  }

  /** A merge of a stream without field 1, whole or cut short, leaves the author as it
      was; the required author is set only by the stream or before it. */
  lemma {:induction false} MergeKeepsAuthor(m: MessageValue, es: seq<Entry>, utf8: seq<Byte> -> Option<string>)
    requires forall e | e in es :: !Names(e, 1)
    ensures MergeAll(m, es, utf8).message.author == m.author
    decreases |es|
  {
    if es != [] {
      assert es[0] in es;
      var first := MergeEntry(m, es[0], utf8);
      if first.status.ProtoOk? {
        assert forall e | e in es[1..] :: e in es;
        MergeKeepsAuthor(first.message, es[1..], utf8);
      }
    }
  }

  /** The generated `Message` struct. */
  class Message {
    var author: Option<string>
    var text: seq<string>
    var unknownFields: UnknownFields
    var cachedSize: nat

    function Value(): MessageValue
      reads this
    {
      MessageValue(author, text, unknownFields, cachedSize)
    }

    constructor ()
      ensures Value() == Default()
    {
      author := None;
      text := [];
      unknownFields := map[];
      cachedSize := 0;
    }

    method ClearAuthor()
      modifies this
      ensures Value() == old(Value()).(author := None)
      ensures !HasAuthor(Value())
    {
      author := None;
    }

    method SetAuthor(v: string)
      modifies this
      ensures Value() == old(Value()).(author := Some(v))
      ensures HasAuthor(Value()) && GetAuthor(Value()) == v
    {
      author := Some(v);
    }

    /** `mut_author`: an unset author is first set to "", so it reads as present afterwards. */
    method MutAuthor() returns (v: string)
      modifies this
      ensures v == GetAuthor(old(Value()))
      ensures Value() == old(Value()).(author := Some(v))
      ensures HasAuthor(Value())
    {
      if author.None? {
        author := Some("");
      }
      v := author.value;
    }

    /** `take_author`: the stored value, or "" if unset; the author is unset afterwards. */
    method TakeAuthor() returns (v: string)
      modifies this
      ensures v == GetAuthor(old(Value()))
      ensures Value() == old(Value()).(author := None)
    {
      v := if author.Some? then author.value else "";
      author := None;
    }

    method ClearText()
      modifies this
      ensures Value() == old(Value()).(text := [])
    {
      text := [];
    }

    method SetText(v: seq<string>)
      modifies this
      ensures Value() == old(Value()).(text := v)
    {
      text := v;
    }

    /** `take_text`: the current lines; `text` is empty afterwards. */
    method TakeText() returns (v: seq<string>)
      modifies this
      ensures v == old(text)
      ensures Value() == old(Value()).(text := [])
    {
      v := text;
      text := [];
    }

    /** `Clear::clear`: author unset, no text, no unknown fields; the size cache stays. */
    method Clear()
      modifies this
      ensures Value() == Default().(cachedSize := old(cachedSize))
      ensures !IsInitialized(Value())
    {
      author := None;
      text := [];
      unknownFields := map[];
    }

    /** `merge_from`: the field-number dispatch over the stream's entries. */
    method MergeFrom(es: seq<Entry>, utf8: seq<Byte> -> Option<string>) returns (status: ProtoStatus)
      modifies this
      ensures Merge(Value(), status) == MergeAll(old(Value()), es, utf8)
    {
      var i := 0;
      while i < |es|
        invariant 0 <= i <= |es|
        invariant MergeAll(old(Value()), es, utf8) == MergeAll(Value(), es[i..], utf8)
      {
        assert es[i..][0] == es[i] && es[i..][1..] == es[i + 1..];
        match es[i]
        case Unreadable(reason) =>
          return ProtoErr(reason);
        case Truncated(number, lengthDelimited, reason) =>
          if number == 1 || number == 2 {
            if !lengthDelimited {
              return ProtoErr(UNEXPECTED_WIRE_TYPE);
            }
            if number == 1 {
              author := Some("");
            } else {
              text := text + [""];
            }
          }
          return ProtoErr(reason);
        case Field(number, value) =>
          if number == 1 {
            if !value.WireBytes? {
              return ProtoErr(UNEXPECTED_WIRE_TYPE);
            }
            author := Some("");
            var decoded := utf8(value.bytes);
            if decoded.None? {
              return ProtoErr("invalid UTF-8");
            }
            author := decoded;
          } else if number == 2 {
            if !value.WireBytes? {
              return ProtoErr(UNEXPECTED_WIRE_TYPE);
            }
            var decoded := utf8(value.bytes);
            if decoded.None? {
              text := text + [""];
              return ProtoErr("invalid UTF-8");
            }
            text := text + [decoded.value];
          } else {
            var unknown: UnknownValue;
            match value {
              case WireGroup =>
                return ProtoErr(UNEXPECTED_WIRE_TYPE);
              case WireVarint(v) => unknown := Varint(v);
              case WireFixed64(b) => unknown := Fixed64(b);
              case WireFixed32(b) => unknown := Fixed32(b);
              case WireBytes(bs) => unknown := LengthDelimited(bs);
            }
            unknownFields := AddUnknown(unknownFields, number, unknown);
          }
        i := i + 1;
      }
      return ProtoOk;
    }
  }
}
