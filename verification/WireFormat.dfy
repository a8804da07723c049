/** The wire format of events, the registry client that reads and writes it, and the hex form
    in which a rejected message travels to the dead-letter queue. */
module WireFormat {
  import opened Prelude

  newtype byte = b: int | 0 <= b < 256

  const MAGIC: byte := 0
  const ID_LIMIT: int := 0x1_0000_0000

  /** An Avro codec: write fails on a record the schema does not fit, read on a body it cannot parse. */
  datatype Codec<!S(!new), !R(!new)> = Codec(write: (S, R) -> Option<seq<byte>>, read: (S, seq<byte>) -> Option<R>) {

    ghost predicate Inverts() {
      forall s, r :: write(s, r).Some? ==> read(s, write(s, r).value) == Some(r)
    }
  }

  datatype DecodeError = BadMagic | ShortHeader | UnknownSchema | BadBody
  datatype EncodeError = IdOutOfRange | BadRecord

  // ------------------------------------------------------------------ header

  /** struct.pack(">I", id) */
  function Header(id: int): (h: seq<byte>)
    requires 0 <= id < ID_LIMIT
    ensures |h| == 4
  {
    [(id / 0x100_0000) as byte, (id / 0x1_0000 % 256) as byte, (id / 256 % 256) as byte, (id % 256) as byte]
  }

  /** struct.unpack(">I", h) */
  function HeaderId(h: seq<byte>): (id: int)
    requires |h| == 4
    ensures 0 <= id < ID_LIMIT
  {
    h[0] as int * 0x100_0000 + h[1] as int * 0x1_0000 + h[2] as int * 256 + h[3] as int
  }

  lemma HeaderRoundTrip(id: int)
    requires 0 <= id < ID_LIMIT
    ensures HeaderId(Header(id)) == id
  {
    assert id == id / 256 * 256 + id % 256;
    assert id / 256 == id / 0x1_0000 * 256 + id / 256 % 256;
    assert id / 0x1_0000 == id / 0x100_0000 * 256 + id / 0x1_0000 % 256;
  }

  lemma HeaderReproduced(h: seq<byte>)
    requires |h| == 4
    ensures Header(HeaderId(h)) == h
  {
    var a, b, c, d := h[0] as int, h[1] as int, h[2] as int, h[3] as int;
    var id := HeaderId(h);
    assert id % 256 == d && id / 256 == a * 0x1_0000 + b * 256 + c;
    assert id / 256 % 256 == c && id / 0x1_0000 == a * 256 + b;
    assert id / 0x1_0000 % 256 == b && id / 0x100_0000 == a;
  }

  // ----------------------------------------------------------- encode, decode

  function Encode<S(!new), R(!new)>(codec: Codec<S, R>, id: int, record: R, schema: S): Result<seq<byte>, EncodeError> {
    if !(0 <= id < ID_LIMIT) then Err(IdOutOfRange) else
    match codec.write(schema, record)
    case None => Err(BadRecord)
    case Some(body) => Ok([MAGIC] + Header(id) + body)
  }

  /** Decoding against the schemas that can be looked up. */
  function Decode<S(!new), R(!new)>(codec: Codec<S, R>, schemas: map<int, S>, data: seq<byte>): Result<(int, R), DecodeError> {
    if |data| == 0 || data[0] != MAGIC then Err(BadMagic) else
    if |data| < 5 then Err(ShortHeader) else
    var id := HeaderId(data[1..5]);
    if id !in schemas then Err(UnknownSchema) else
    match codec.read(schemas[id], data[5..])
    case None => Err(BadBody)
    case Some(record) => Ok((id, record))
  }

  /** The bytes of a message: a zero, the id with its highest byte first, and the body. */
  lemma EncodedBytes<S(!new), R(!new)>(codec: Codec<S, R>, id: int, record: R, schema: S)
    requires Encode(codec, id, record, schema).Ok?
    ensures
      var data, body := Encode(codec, id, record, schema).value, codec.write(schema, record);
      && body.Some? && |data| == 5 + |body.value| && data[5..] == body.value
      && data[0] as int == 0
      && id == data[1] as int * 16_777_216 + data[2] as int * 65_536 + data[3] as int * 256 + data[4] as int
  {
    HeaderRoundTrip(id);
    assert Encode(codec, id, record, schema).value[1..5] == Header(id);
  }

  /** Why a message is refused: it does not begin with a zero, ends before its id does, names an unknown schema, or has
      a body its schema cannot read. */
  lemma RejectedExactly<S(!new), R(!new)>(codec: Codec<S, R>, schemas: map<int, S>, data: seq<byte>)
    ensures
      var r := Decode(codec, schemas, data);
      && (r == Err(BadMagic) <==> data == [] || data[0] as int != 0)
      && (r == Err(ShortHeader) <==> 1 <= |data| <= 4 && data[0] as int == 0)
      && (|data| >= 5 && data[0] as int == 0 ==>
            var id := data[1] as int * 16_777_216 + data[2] as int * 65_536 + data[3] as int * 256 + data[4] as int;
            && (r == Err(UnknownSchema) <==> id !in schemas)
            && (r == Err(BadBody) <==> id in schemas && codec.read(schemas[id], data[5..]) == None)
            && (r.Ok? ==> r.value.0 == id && codec.read(schemas[id], data[5..]) == Some(r.value.1)))
  {
  }

  /** What was encoded under a registered id is decoded to the same id and record. */
  lemma RoundTrip<S(!new), R(!new)>(codec: Codec<S, R>, schemas: map<int, S>, id: int, record: R)
    requires codec.Inverts() && id in schemas
    requires Encode(codec, id, record, schemas[id]).Ok?
    ensures Decode(codec, schemas, Encode(codec, id, record, schemas[id]).value) == Ok((id, record))
  {
    var body := codec.write(schemas[id], record).value;
    var data := [MAGIC] + Header(id) + body;
    HeaderRoundTrip(id);
    assert data[1..5] == Header(id) && data[5..] == body;
  }

  /** Encoding fails exactly on an id that does not fit four bytes or a record the schema refuses. */
  lemma EncodeFails<S(!new), R(!new)>(codec: Codec<S, R>, id: int, record: R, schema: S)
    ensures Encode(codec, id, record, schema).Ok? <==> 0 <= id < ID_LIMIT && codec.write(schema, record).Some?
  {
  }

  /** Only correctly framed messages of a known schema are accepted, and framing any record under the
      accepted id reproduces the five header bytes. */
  lemma AcceptedReframes<S(!new), R(!new)>(codec: Codec<S, R>, schemas: map<int, S>, data: seq<byte>, again: R, schema: S)
    requires Decode(codec, schemas, data).Ok?
    requires Encode(codec, Decode(codec, schemas, data).value.0, again, schema).Ok?
    ensures |data| >= 5 && Decode(codec, schemas, data).value.0 in schemas
    ensures Encode(codec, Decode(codec, schemas, data).value.0, again, schema).value[..5] == data[..5]
  {
    HeaderReproduced(data[1..5]);
    assert data[..5] == [MAGIC] + data[1..5];
  }

  /** A change to any of the five header bytes makes the message decode differently or be rejected. */
  lemma HeaderMatters<S(!new), R(!new)>(codec: Codec<S, R>, schemas: map<int, S>, data: seq<byte>, other: seq<byte>)
    requires Decode(codec, schemas, data).Ok? && |other| >= 5 && other[..5] != data[..5]
    ensures Decode(codec, schemas, other) != Decode(codec, schemas, data)
  {
    if Decode(codec, schemas, other).Ok? {
      HeaderReproduced(data[1..5]);
      HeaderReproduced(other[1..5]);
      assert data[..5] == [MAGIC] + data[1..5] && other[..5] == [MAGIC] + other[1..5];
    }
  }

  /** A decode that succeeds on fewer schemas gives the same result on more: a cached schema decides as the
      registry would. */
  lemma DecodeMonotone<S(!new), R(!new)>(codec: Codec<S, R>, few: map<int, S>, many: map<int, S>, data: seq<byte>)
    requires Within(few, many) && Decode(codec, few, data).Ok?
    ensures Decode(codec, many, data) == Decode(codec, few, data)
  {
  }

  ghost predicate Within<S>(few: map<int, S>, many: map<int, S>) {
    forall id :: id in few ==> id in many && many[id] == few[id]
  }

  // --------------------------------------------------------------- the client

  /** The registry as a call finds it: out of reach, or the schemas it holds. */
  datatype Server<S> = Down | Up(schemas: map<int, S>)

  class SchemaRegistryClient<S(!new), R(!new)> {
    var idToSchema: map<int, S>
    var subjectToId: map<string, int>
    const codec: Codec<S, R>

    constructor (codec: Codec<S, R>)
      ensures this.codec == codec && idToSchema == map[] && subjectToId == map[]
    {
      this.codec := codec;
      idToSchema := map[];
      subjectToId := map[];
    }

    /** Everything cached is what the registry holds. */
    ghost predicate Coherent(registry: map<int, S>)
      reads this
    {
      Within(idToSchema, registry)
    }

    /** The registry answers a registration with the id under which it now holds the schema. */
    method RegisterSchema(subject: string, schema: S, reply: Option<int>, ghost registry: map<int, S>) returns (id: Option<int>)
      requires Coherent(registry)
      requires reply.Some? ==> reply.value in registry && registry[reply.value] == schema
      modifies this
      ensures Coherent(registry) && id == reply
      ensures idToSchema == if reply.Some? then old(idToSchema)[reply.value := schema] else old(idToSchema)
      ensures subjectToId == if reply.Some? then old(subjectToId)[subject := reply.value] else old(subjectToId)
    {
      if reply.None? { return None; }
      subjectToId := subjectToId[subject := reply.value];
      idToSchema := idToSchema[reply.value := schema];
      id := reply;
    }

    method GetSchemaById(id: int, server: Server<S>, ghost registry: map<int, S>) returns (schema: Option<S>)
      requires Coherent(registry) && (server.Up? ==> server.schemas == registry)
      modifies this`idToSchema
      ensures Coherent(registry) && Within(old(idToSchema), idToSchema)
      ensures server.Up? ==> schema == if id in registry then Some(registry[id]) else None
      ensures server.Down? ==> schema == if id in old(idToSchema) then Some(registry[id]) else None
    {
      if id in idToSchema { return Some(idToSchema[id]); }
      if server.Down? || id !in server.schemas { return None; }
      idToSchema := idToSchema[id := server.schemas[id]];
      schema := Some(server.schemas[id]);
    }

    /** With the registry in reach the cache is invisible; out of reach, only cached schemas decode, and to what the
        registry's would have given. */
    method DecodeMessage(data: seq<byte>, server: Server<S>, ghost registry: map<int, S>) returns (r: Result<(int, R), DecodeError>)
      requires Coherent(registry) && (server.Up? ==> server.schemas == registry)
      modifies this`idToSchema
      ensures Coherent(registry) && Within(old(idToSchema), idToSchema)
      ensures server.Up? ==> r == Decode(codec, registry, data)
      ensures server.Down? ==> r == Decode(codec, old(idToSchema), data)
      ensures r.Ok? ==> r == Decode(codec, registry, data)
    {
      if Decode(codec, idToSchema, data).Ok? { DecodeMonotone(codec, idToSchema, registry, data); }
      if |data| == 0 || data[0] != MAGIC { return Err(BadMagic); }
      if |data| < 5 { return Err(ShortHeader); }
      var id := HeaderId(data[1..5]);
      var schema := GetSchemaById(id, server, registry);
      if schema.None? { return Err(UnknownSchema); }
      var record := codec.read(schema.value, data[5..]);
      if record.None? { return Err(BadBody); }
      r := Ok((id, record.value));
    }
  }

  // ---------------------------------------------------------------------- hex

  function HexDigit(n: int): (c: char)
    requires 0 <= n < 16
    ensures DigitValue(c) == Some(n)
  {
    if n < 10 then '0' + n as char else 'a' + (n - 10) as char
  }

  function DigitValue(c: char): Option<int> {
    if '0' <= c <= '9' then Some(c as int - '0' as int) else
    if 'a' <= c <= 'f' then Some(c as int - 'a' as int + 10) else None
  }

  /** bytes.hex() */
  function Hex(bs: seq<byte>): string {
    if bs == [] then "" else [HexDigit(bs[0] as int / 16), HexDigit(bs[0] as int % 16)] + Hex(bs[1..])
  }

  /** The reader's side: two lower-case digits a byte, anything else is refused. */
  function Unhex(s: string): Option<seq<byte>> {
    if s == "" then Some([]) else
    if |s| == 1 then None else
    match (DigitValue(s[0]), DigitValue(s[1]), Unhex(s[2..]))
    case (Some(hi), Some(lo), Some(rest)) => Some([(hi * 16 + lo) as byte] + rest)
    case _ => None
  }

  /** Two lower-case hexadecimal digits for each byte, the higher one first. */
  lemma {:induction false} HexAt(bs: seq<byte>, i: nat)
    requires i < |bs|
    ensures |Hex(bs)| == 2 * |bs|
    ensures Hex(bs)[2 * i] == "0123456789abcdef"[bs[i] as int / 16] && Hex(bs)[2 * i + 1] == "0123456789abcdef"[bs[i] as int % 16]
  {
    var h := Hex(bs);
    assert h == [HexDigit(bs[0] as int / 16), HexDigit(bs[0] as int % 16)] + Hex(bs[1..]);
    if i > 0 {
      HexAt(bs[1..], i - 1);
      assert h[2 * i] == Hex(bs[1..])[2 * (i - 1)] && h[2 * i + 1] == Hex(bs[1..])[2 * (i - 1) + 1];
    } else {
      if |bs| > 1 { HexAt(bs[1..], 0); }
      DigitAt(bs[0] as int / 16);
      DigitAt(bs[0] as int % 16);
    }
  }

  lemma DigitAt(n: int)
    requires 0 <= n < 16
    ensures HexDigit(n) == "0123456789abcdef"[n]
  {
  }

  /** The dead-letter payload recovers the original bytes. */
  lemma {:induction false} HexRoundTrip(bs: seq<byte>)
    ensures Unhex(Hex(bs)) == Some(bs)
  {
    if bs == [] {
    } else {
      HexRoundTrip(bs[1..]);
      var n, h := bs[0] as int, Hex(bs);
      assert h == [HexDigit(n / 16), HexDigit(n % 16)] + Hex(bs[1..]);
      assert h[2..] == Hex(bs[1..]);
      assert n == n / 16 * 16 + n % 16;
      assert bs == [bs[0]] + bs[1..];
    }
  }
}
