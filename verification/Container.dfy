/** The encrypted backup file: magic, header length, header, ciphertext (`backup/format.py`, `backup/crypto.py`). */
module Container {
  import opened Wrappers
  import Json

  const MAGIC: seq<byte> := [0x46, 0x56, 0x4c, 0x42, 0x4b, 0x50, 0x30, 0x31]
  const MAX_BACKUP_SIZE := 1048576
  const MAX_HEADER_SIZE := 8192
  const SALT_LENGTH := 32
  const NONCE_LENGTH := 12

  /** The keys of a header; `Unknown` is any other text. */
  datatype HeaderKey =
    | ContainerVersion | Kdf | KdfMemory | KdfTime | KdfLanes | Salt | Cipher | Nonce | PayloadVersion
    | Unknown(name: string)

  type Header = map<HeaderKey, Json.Value>

  /** What the JSON reader makes of the header bytes: an object, or something else. */
  datatype Parsed = HeaderObject(fields: Header) | OtherValue

  /** The JSON library: the sorted, compact writer and the reader. */
  datatype Library = Library(dumps: Header -> seq<byte>, loads: seq<byte> -> Option<Parsed>)

  datatype Error =
    | TooLarge | Truncated | NotABackup | BadHeader | BadContainerVersion | BadPayloadVersion
    | UnsupportedMethod | BadParameters | WrongPassword

  // ----- the length field -----

  /** Four bytes, most significant first. */
  function BigEndian(n: nat): (b: seq<byte>)
    requires n < 0x1_0000_0000
    ensures |b| == 4
  {
    [n / 0x100_0000, n / 0x1_0000 % 0x100, n / 0x100 % 0x100, n % 0x100]
  }

  function FromBigEndian(b: seq<byte>): nat
    requires |b| == 4
  {
    ((b[0] as int * 0x100 + b[1] as int) * 0x100 + b[2] as int) * 0x100 + b[3] as int
  }

  lemma LengthRoundTrip(n: nat)
    requires n < 0x1_0000_0000
    ensures FromBigEndian(BigEndian(n)) == n
  {
    assert n / 0x1_0000 == n / 0x100 / 0x100 && n / 0x100_0000 == n / 0x1_0000 / 0x100;
  }

  /** The most significant byte comes first. */
  lemma LengthDigits(n: nat)
    requires n < 0x1_0000_0000
    ensures var b := BigEndian(n); n == 16777216 * b[0] as int + 65536 * b[1] as int + 256 * b[2] as int + b[3] as int
  {
    LengthRoundTrip(n);
  }

  lemma LengthUnique(b: seq<byte>)
    requires |b| == 4
    ensures FromBigEndian(b) < 0x1_0000_0000 && BigEndian(FromBigEndian(b)) == b
  {
    var n := FromBigEndian(b);
    var high := (b[0] as int * 0x100 + b[1] as int) * 0x100 + b[2] as int;
    assert n == high * 0x100 + b[3] as int && n / 0x100 == high && n % 0x100 == b[3] as int;
    assert n / 0x1_0000 == high / 0x100 == b[0] as int * 0x100 + b[1] as int;
    assert n / 0x100_0000 == high / 0x1_0000 == b[0] as int;
  }

  // ----- the header -----

  predicate IsText(v: Json.Value) { v.Str? }

  predicate IsWhole(v: Json.Value) { v.Int? }

  predicate Complete(h: Header) {
    && h.Keys == {ContainerVersion, Kdf, KdfMemory, KdfTime, KdfLanes, Salt, Cipher, Nonce, PayloadVersion}
  }

  function DecodeHeader(raw: Parsed): Result<Header, Error> {
    if !raw.HeaderObject? || !Complete(raw.fields) then Err(BadHeader)
    else
      var h := raw.fields;
      if !Json.EqualsInt(h[ContainerVersion], 1) then Err(BadContainerVersion)
      else if !Json.EqualsInt(h[PayloadVersion], 1) then Err(BadPayloadVersion)
      else if !IsText(h[Kdf]) || !IsText(h[Cipher]) || !IsText(h[Salt]) || !IsText(h[Nonce]) then Err(BadHeader)
      else if !IsWhole(h[KdfMemory]) || !IsWhole(h[KdfTime]) || !IsWhole(h[KdfLanes]) then Err(BadHeader)
      else Ok(h)
  }

  /** What a backup authenticates besides its ciphertext. */
  function AssociatedData(lib: Library, h: Header): Result<seq<byte>, Error> {
    var header := lib.dumps(h);
    if |header| > MAX_HEADER_SIZE then Err(TooLarge) else Ok(MAGIC + BigEndian(|header|) + header)
  }

  function Pack(lib: Library, h: Header, ciphertext: seq<byte>): Result<seq<byte>, Error> {
    var aad :- AssociatedData(lib, h);
    Ok(aad + ciphertext)
  }

  datatype Unpacked = Unpacked(header: Header, ciphertext: seq<byte>)

  function Unpack(lib: Library, data: seq<byte>): Result<Unpacked, Error> {
    if |data| > MAX_BACKUP_SIZE then Err(TooLarge)
    else if |data| < |MAGIC| + 4 + 2 then Err(Truncated)
    else if data[..|MAGIC|] != MAGIC then Err(NotABackup)
    else
      var n := FromBigEndian(data[|MAGIC|..|MAGIC| + 4]);
      var start := |MAGIC| + 4;
      if n < 2 || n > MAX_HEADER_SIZE then Err(BadHeader)
      else if start + n > |data| || data[start + n..] == [] then Err(Truncated)
      else UnpackHeader(lib, data[start..start + n], data[start + n..])
  }

  /** The header must be the very bytes the writer would produce for it. */
  function UnpackHeader(lib: Library, header: seq<byte>, ciphertext: seq<byte>): Result<Unpacked, Error> {
    match lib.loads(header)
    case None => Err(BadHeader)
    case Some(raw) =>
      var h :- DecodeHeader(raw);
      if header != lib.dumps(h) then Err(BadHeader) else Ok(Unpacked(h, ciphertext))
  }

  // ----- the container is canonical -----

  /** The reader understands what the writer makes of this header. */
  ghost predicate Readable(lib: Library, h: Header) {
    lib.loads(lib.dumps(h)) == Some(HeaderObject(h))
  }

  /** Unpacking a packed container gives back the header and the ciphertext. */
  lemma UnpackOfPack(lib: Library, h: Header, ciphertext: seq<byte>)
    requires DecodeHeader(HeaderObject(h)).Ok? && Readable(lib, h)
    requires 2 <= |lib.dumps(h)| <= MAX_HEADER_SIZE && ciphertext != []
    requires |MAGIC| + 4 + |lib.dumps(h)| + |ciphertext| <= MAX_BACKUP_SIZE
    ensures Pack(lib, h, ciphertext).Ok?
    ensures Unpack(lib, Pack(lib, h, ciphertext).value) == Ok(Unpacked(h, ciphertext))
  {
    var header := lib.dumps(h);
    var n := BigEndian(|header|);
    var data := MAGIC + n + header + ciphertext;
    LengthRoundTrip(|header|);
    assert data[..|MAGIC|] == MAGIC;
    assert data[|MAGIC|..|MAGIC| + 4] == n;
    assert data[|MAGIC| + 4..|MAGIC| + 4 + |header|] == header;
    assert data[|MAGIC| + 4 + |header|..] == ciphertext;
  }

  /** Whatever is accepted is what packing its content gives; its prefix is the authenticated data. */
  lemma PackOfUnpack(lib: Library, data: seq<byte>)
    requires Unpack(lib, data).Ok?
    ensures var u := Unpack(lib, data).value;
            && Pack(lib, u.header, u.ciphertext) == Ok(data)
            && u.ciphertext != [] && |u.ciphertext| <= |data|
            && AssociatedData(lib, u.header) == Ok(data[..|data| - |u.ciphertext|])
            && DecodeHeader(HeaderObject(u.header)).Ok?
  {
    var u := Unpack(lib, data).value;
    var length := data[|MAGIC|..|MAGIC| + 4];
    var n := FromBigEndian(length);
    var start := |MAGIC| + 4;
    LengthUnique(length);
    var header := data[start..start + n];
    assert header == lib.dumps(u.header);
    assert data[..start + n] == MAGIC + length + header by {
      assert data[..start] == data[..|MAGIC|] + length;
      assert data[..start + n] == data[..start] + header;
    }
    assert data == data[..start + n] + data[start + n..];
  }

  /** Two accepted files that authenticate the same data and ciphertext are the same file. */
  lemma NothingUnauthenticated(lib: Library, d: seq<byte>, e: seq<byte>)
    requires Unpack(lib, d).Ok? && Unpack(lib, e).Ok?
    requires AssociatedData(lib, Unpack(lib, d).value.header) == AssociatedData(lib, Unpack(lib, e).value.header)
    requires Unpack(lib, d).value.ciphertext == Unpack(lib, e).value.ciphertext
    ensures d == e
  {
    PackOfUnpack(lib, d);
    PackOfUnpack(lib, e);
  }

  // ----- encryption -----

  /**
   The cryptographic library: key derivation (Argon2id over password, salt, memory, time and lanes),
   authenticated encryption (RFC 5116, section 2: key, nonce, text, associated data) and Base64.
   */
  datatype Crypto = Crypto(
    derive: (string, seq<byte>, int, int, int) -> Option<seq<byte>>,
    seal: (seq<byte>, seq<byte>, seq<byte>, seq<byte>) -> seq<byte>,
    open: (seq<byte>, seq<byte>, seq<byte>, seq<byte>) -> Option<seq<byte>>,
    base64: seq<byte> -> string,
    unbase64: string -> Option<seq<byte>>)

  /** What the library promises: opening what was sealed, and reading back what was encoded. */
  ghost predicate Works(c: Crypto) {
    && (forall key, nonce, text, aad :: c.open(key, nonce, c.seal(key, nonce, text, aad), aad) == Some(text))
    && (forall key, nonce, text, aad :: c.seal(key, nonce, text, aad) != [])
    && (forall b :: b != [] ==> c.base64(b) != "" && c.unbase64(c.base64(b)) == Some(b))
  }

  function ExactBytes(c: Crypto, text: string, n: nat): Result<seq<byte>, Error> {
    if text == "" then Err(BadHeader)
    else match c.unbase64(text)
      case None => Err(BadHeader)
      case Some(b) => if |b| != n then Err(BadHeader) else Ok(b)
  }

  predicate GoodParameters(memory: int, time: int, lanes: int) {
    8 <= memory <= 1048576 && 1 <= time <= 32 && 1 <= lanes <= 4
  }

  const KDF_NAME := Json.Str("argon2id")
  const CIPHER_NAME := Json.Str("aes-256-gcm")

  function NewHeader(c: Crypto, memory: int, time: int, lanes: int, salt: seq<byte>, nonce: seq<byte>): Result<Header, Error> {
    if |salt| != SALT_LENGTH || |nonce| != NONCE_LENGTH || !GoodParameters(memory, time, lanes) then Err(BadParameters)
    else
      Ok(map[ContainerVersion := Json.Int(1), Kdf := KDF_NAME, KdfMemory := Json.Int(memory), KdfTime := Json.Int(time),
             KdfLanes := Json.Int(lanes), Salt := Json.Str(c.base64(salt)), Cipher := CIPHER_NAME,
             Nonce := Json.Str(c.base64(nonce)), PayloadVersion := Json.Int(1)])
  }

  function DeriveKey(c: Crypto, password: string, h: Header): Result<seq<byte>, Error>
    requires DecodeHeader(HeaderObject(h)).Ok?
  {
    if password == "" then Err(WrongPassword)
    else if h[Kdf] != KDF_NAME || h[Cipher] != CIPHER_NAME then Err(UnsupportedMethod)
    else if !GoodParameters(h[KdfMemory].i, h[KdfTime].i, h[KdfLanes].i) then Err(BadParameters)
    else
      var salt :- ExactBytes(c, h[Salt].s, SALT_LENGTH);
      match c.derive(password, salt, h[KdfMemory].i, h[KdfTime].i, h[KdfLanes].i)
      case None => Err(BadParameters)
      case Some(key) => Ok(key)
  }

  /** Once the key is derived every failure reads as a wrong password. */
  function Decrypt(lib: Library, c: Crypto, h: Header, ciphertext: seq<byte>, password: string): Result<seq<byte>, Error>
    requires DecodeHeader(HeaderObject(h)).Ok?
  {
    if ciphertext == [] then Err(WrongPassword)
    else
      var key :- DeriveKey(c, password, h);
      var nonce, aad := ExactBytes(c, h[Nonce].s, NONCE_LENGTH), AssociatedData(lib, h);
      if nonce.Err? || aad.Err? then Err(WrongPassword)
      else match c.open(key, nonce.value, ciphertext, aad.value)
        case None => Err(WrongPassword)
        case Some(text) => Ok(text)
  }

  /** The bytes of a new backup file. */
  function EncryptFile(lib: Library, c: Crypto, text: seq<byte>, password: string, memory: int, time: int, lanes: int,
                       salt: seq<byte>, nonce: seq<byte>): Result<seq<byte>, Error>
  {
    var h :- NewHeader(c, memory, time, lanes, salt, nonce);
    var key :- DeriveKey(c, password, h);
    var usedNonce :- ExactBytes(c, h[Nonce].s, NONCE_LENGTH);
    var aad :- AssociatedData(lib, h);
    var file :- Pack(lib, h, c.seal(key, usedNonce, text, aad));
    if |file| > MAX_BACKUP_SIZE then Err(TooLarge) else Ok(file)
  }

  function DecryptFile(lib: Library, c: Crypto, data: seq<byte>, password: string): Result<seq<byte>, Error> {
    match Unpack(lib, data)
    case Err(e) => Err(e)
    case Ok(u) => PackOfUnpack(lib, data); Decrypt(lib, c, u.header, u.ciphertext, password)
  }

  /** A file written with a password opens with it and yields the text, whatever the parameters. */
  lemma DecryptOfEncrypt(lib: Library, c: Crypto, text: seq<byte>, password: string, memory: int, time: int, lanes: int,
                         salt: seq<byte>, nonce: seq<byte>)
    requires Works(c) && EncryptFile(lib, c, text, password, memory, time, lanes, salt, nonce).Ok?
    requires var h := NewHeader(c, memory, time, lanes, salt, nonce).value; Readable(lib, h) && |lib.dumps(h)| >= 2
    ensures var file := EncryptFile(lib, c, text, password, memory, time, lanes, salt, nonce).value;
            DecryptFile(lib, c, file, password) == Ok(text)
  {
    var h := NewHeader(c, memory, time, lanes, salt, nonce).value;
    var key := DeriveKey(c, password, h).value;
    var aad := AssociatedData(lib, h).value;
    var ciphertext := c.seal(key, nonce, text, aad);
    UnpackOfPack(lib, h, ciphertext);
  }

  /** Where the ciphertext begins. */
  function HeaderEnd(data: seq<byte>): nat
    requires |data| >= |MAGIC| + 4
  {
    |MAGIC| + 4 + FromBigEndian(data[|MAGIC|..|MAGIC| + 4])
  }

  /**
   A text comes out of a file exactly when its own header and the password give a key and a nonce that
   open the rest of the file with everything before it as associated data.
   */
  lemma DecryptAuthenticatesPrefix(lib: Library, c: Crypto, data: seq<byte>, password: string, text: seq<byte>)
    requires Unpack(lib, data).Ok?
    ensures var h, n := Unpack(lib, data).value.header, HeaderEnd(data);
            && DecodeHeader(HeaderObject(h)).Ok? && n < |data|
            && (DecryptFile(lib, c, data, password) == Ok(text) <==>
                  var key, nonce := DeriveKey(c, password, h), ExactBytes(c, h[Nonce].s, NONCE_LENGTH);
                  key.Ok? && nonce.Ok? && c.open(key.value, nonce.value, data[n..], data[..n]) == Some(text))
  {
    var u := Unpack(lib, data).value;
    PackOfUnpack(lib, data);
    assert u.ciphertext == data[HeaderEnd(data)..];
    assert |data| - |u.ciphertext| == HeaderEnd(data);
  }

  // ----- what is accepted and what is tried -----

  /** An accepted file has the magic, the two versions, texts and whole numbers in their places, and is within the limits. */
  lemma AcceptedFile(lib: Library, data: seq<byte>)
    requires Unpack(lib, data).Ok?
    ensures 14 <= |data| <= 1048576 && data[..8] == [0x46, 0x56, 0x4c, 0x42, 0x4b, 0x50, 0x30, 0x31]
    ensures 2 <= FromBigEndian(data[8..12]) <= 8192 && HeaderEnd(data) < |data|
    ensures var h := Unpack(lib, data).value.header;
            && Complete(h) && Json.EqualsInt(h[ContainerVersion], 1) && Json.EqualsInt(h[PayloadVersion], 1)
            && h[Kdf].Str? && h[Cipher].Str? && h[Salt].Str? && h[Nonce].Str? && h[KdfMemory].Int? && h[KdfTime].Int? && h[KdfLanes].Int?
            && lib.loads(data[12..HeaderEnd(data)]) == Some(HeaderObject(h)) && lib.dumps(h) == data[12..HeaderEnd(data)]
  {}

  /** A key is derived only by the one method, with parameters in their ranges, from a salt of 32 bytes and a password. */
  lemma KeyDerivedFrom(c: Crypto, password: string, h: Header)
    requires DecodeHeader(HeaderObject(h)).Ok? && DeriveKey(c, password, h).Ok?
    ensures password != "" && h[Kdf] == Json.Str("argon2id") && h[Cipher] == Json.Str("aes-256-gcm")
    ensures 8 <= h[KdfMemory].i <= 1048576 && 1 <= h[KdfTime].i <= 32 && 1 <= h[KdfLanes].i <= 4
    ensures c.unbase64(h[Salt].s).Some? && |c.unbase64(h[Salt].s).value| == 32
    ensures c.derive(password, c.unbase64(h[Salt].s).value, h[KdfMemory].i, h[KdfTime].i, h[KdfLanes].i)
            == Some(DeriveKey(c, password, h).value)
  {}
}
