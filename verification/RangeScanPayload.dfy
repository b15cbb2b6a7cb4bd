/** The payload of a range-scan response: keys, or whole documents, one after the other. */
module RangeScanPayload {
  import opened Bytes
  import opened Options

  /** Terminated stands for reading past the end of a span, which ends the program. */
  datatype Outcome = Success | ProtocolError | Terminated

  datatype Parsed<T> = Parsed(items: seq<T>, outcome: Outcome)

  /** An item at the front of the data, or what is wrong with it. */
  datatype Piece<T> = Piece(item: T, rest: seq<byte>) | Failed(outcome: Outcome)

  type Taker<!T> = seq<byte> -> Piece<T>

  /** Whether the request turns out to be cancelled when it is asked for the i-th time. */
  type Cancellation = nat -> bool

  // ---- one item after the other ----

  function Then<T>(items: seq<T>, p: Parsed<T>): Parsed<T> {
    Parsed(items + p.items, p.outcome)
  }

  lemma ThenThen<T>(a: seq<T>, b: seq<T>, p: Parsed<T>)
    ensures Then(a, Then(b, p)) == Then(a + b, p)
  {
    assert a + (b + p.items) == (a + b) + p.items;
  }

  /** Taking an item shortens the data. */
  ghost predicate Shortens<T(!new)>(take: Taker<T>) {
    forall d :: d != [] && take(d).Piece? ==> |take(d).rest| < |d|
  }

  ghost function ParseAll<T(!new)>(take: Taker<T>, data: seq<byte>, cancelled: Cancellation, i: nat): Parsed<T>
    requires Shortens(take)
    decreases |data|
  {
    if data == [] || cancelled(i) then Parsed([], Success)
    else
      match take(data)
      case Failed(outcome) => Parsed([], outcome)
      case Piece(item, rest) => Then([item], ParseAll(take, rest, cancelled, i + 1))
  }

  function Mapped<U, T>(show: U -> T, items: seq<U>): (shown: seq<T>)
    ensures |shown| == |items| && forall i :: 0 <= i < |items| ==> shown[i] == show(items[i])
  {
    seq(|items|, i requires 0 <= i < |items| => show(items[i]))
  }

  ghost function EncodeAll<T>(encode: T -> seq<byte>, items: seq<T>): seq<byte> {
    if items == [] then [] else encode(items[0]) + EncodeAll(encode, items[1..])
  }

  /** take finds an encoded item again, as it is to be shown, whatever follows it. */
  ghost predicate Undoes<U, T>(take: Taker<T>, encode: U -> seq<byte>, show: U -> T, item: U) {
    encode(item) != [] && forall rest :: take(encode(item) + rest) == Piece(show(item), rest)
  }

  ghost predicate UndoesAll<U, T>(take: Taker<T>, encode: U -> seq<byte>, show: U -> T, items: seq<U>) {
    forall x :: x in items ==> Undoes(take, encode, show, x)
  }

  lemma FirstItem<U, T(!new)>(take: Taker<T>, encode: U -> seq<byte>, show: U -> T, item: U, rest: seq<byte>,
                              cancelled: Cancellation, i: nat)
    requires Shortens(take) && Undoes(take, encode, show, item) && !cancelled(i)
    ensures ParseAll(take, encode(item) + rest, cancelled, i) ==
            Then([show(item)], ParseAll(take, rest, cancelled, i + 1))
  {
    assert take(encode(item) + rest) == Piece(show(item), rest);
  }

  lemma EncodeFirst<T>(encode: T -> seq<byte>, items: seq<T>, rest: seq<byte>)
    requires items != []
    ensures EncodeAll(encode, items) + rest == encode(items[0]) + (EncodeAll(encode, items[1..]) + rest)
  {
  }

  lemma MappedFirst<U, T>(show: U -> T, items: seq<U>)
    requires items != []
    ensures Mapped(show, items) == [show(items[0])] + Mapped(show, items[1..])
  {
  }

  /** Items at the front are delivered in order, and then the rest is parsed. */
  lemma {:induction false} FirstItems<U, T(!new)>(take: Taker<T>, encode: U -> seq<byte>, show: U -> T, items: seq<U>,
                                                  rest: seq<byte>, cancelled: Cancellation, i: nat)
    requires Shortens(take) && UndoesAll(take, encode, show, items)
    requires forall j: nat :: !cancelled(j)
    ensures ParseAll(take, EncodeAll(encode, items) + rest, cancelled, i) ==
            Then(Mapped(show, items), ParseAll(take, rest, cancelled, i + |items|))
    decreases |items|
  {
    var p := ParseAll(take, rest, cancelled, i + |items|);
    if items == [] {
      assert [] + rest == rest && [] + p.items == p.items;
    } else {
      EncodeFirst(encode, items, rest);
      FirstItem(take, encode, show, items[0], EncodeAll(encode, items[1..]) + rest, cancelled, i);
      FirstItems(take, encode, show, items[1..], rest, cancelled, i + 1);
      ThenThen([show(items[0])], Mapped(show, items[1..]), p);
      MappedFirst(show, items);
    }
  }

  lemma AllItems<U, T(!new)>(take: Taker<T>, encode: U -> seq<byte>, show: U -> T, items: seq<U>,
                             cancelled: Cancellation)
    requires Shortens(take) && UndoesAll(take, encode, show, items)
    requires forall j: nat :: !cancelled(j)
    ensures ParseAll(take, EncodeAll(encode, items), cancelled, 0) == Parsed(Mapped(show, items), Success)
  {
    FirstItems(take, encode, show, items, [], cancelled, 0);
    assert EncodeAll(encode, items) + [] == EncodeAll(encode, items);
  }

  /** Cancelling at the n-th question stops after n items, without an error. */
  lemma {:induction false} ItemsCancelled<U, T(!new)>(take: Taker<T>, encode: U -> seq<byte>, show: U -> T,
                                                      items: seq<U>, cancelled: Cancellation, i: nat, n: nat)
    requires Shortens(take) && UndoesAll(take, encode, show, items)
    requires n <= |items| && cancelled(i + n) && forall j: nat :: i <= j < i + n ==> !cancelled(j)
    ensures ParseAll(take, EncodeAll(encode, items), cancelled, i) == Parsed(Mapped(show, items)[..n], Success)
    decreases |items|
  {
    if n > 0 {
      assert Undoes(take, encode, show, items[0]);
      ItemsCancelled(take, encode, show, items[1..], cancelled, i + 1, n - 1);
      MappedFirst(show, items);
      assert Mapped(show, items)[..n] == [show(items[0])] + Mapped(show, items[1..])[..n - 1];
    }
  }

  // ---- a length and that many bytes ----

  /** A length as the decoder gives it, and what follows it. */
  function Length(data: seq<byte>): (r: (nat, seq<byte>))
    requires data != []
    ensures |r.1| < |data|
  {
    match ReadLeb128(data)
    case None => (0, [])
    case Some((v, n)) => (Truncated(v), data[n..])
  }

  /** Reading a length where nothing is left ends the program. */
  function TakeField(data: seq<byte>): (p: Piece<seq<byte>>)
    ensures p.Piece? ==> |p.rest| < |data|
  {
    if data == [] then Failed(Terminated)
    else
      var (length, remaining) := Length(data);
      if |remaining| < length then Failed(ProtocolError)
      else Piece(remaining[..length], remaining[length..])
  }

  method Take(data: seq<byte>) returns (p: Piece<seq<byte>>)
    ensures p == TakeField(data)
  {
    if data == [] {
      return Failed(Terminated);
    }
    var length, remaining := DecodeLeb128(data);
    if |remaining| < length {
      return Failed(ProtocolError);
    }
    p := Piece(remaining[..length], remaining[length..]);
  }

  function Field(s: seq<byte>): seq<byte> {
    Leb128(|s|) + s
  }

  lemma FieldTaken(s: seq<byte>, rest: seq<byte>)
    requires |s| < WORD
    ensures TakeField(Field(s) + rest) == Piece(s, rest)
  {
    assert Field(s) + rest == Leb128(|s|) + (s + rest);
    Leb128RoundTrip(|s|, s + rest);
    FitsWord(|s|);
    assert (s + rest)[..|s|] == s && (s + rest)[|s|..] == rest;
  }

  /** A field of which only the beginning is there. */
  lemma CutField(s: seq<byte>, cut: nat)
    requires |s| < WORD && cut < |Field(s)|
    ensures TakeField(Field(s)[..cut]) ==
            if cut == 0 then Failed(Terminated)
            else if cut < |Leb128(|s|)| then Piece([], [])
            else Failed(ProtocolError)
  {
    var length, rest := Leb128(|s|), Field(s)[..cut];
    if |length| <= cut {
      var part := s[..cut - |length|];
      assert rest == length + part;
      Leb128RoundTrip(|s|, part);
      FitsWord(|s|);
      assert rest[|length|..] == part;
    } else if cut > 0 {
      forall j | 0 <= j < |rest| ensures rest[j] >= 128 {
        Leb128Announces(|s|, j);
      }
      Leb128Truncated(rest);
    }
  }

  // ---- keys ----

  function KeyTaker(): Taker<seq<byte>> {
    data => TakeField(data)
  }

  function KeyEncoder(): seq<byte> -> seq<byte> {
    key => Field(key)
  }

  /** A key is delivered as it is. */
  function KeyShown(): seq<byte> -> seq<byte> {
    key => key
  }

  ghost predicate Fits(keys: seq<seq<byte>>) {
    forall k :: k in keys ==> |k| < WORD
  }

  lemma KeyUndone(key: seq<byte>)
    requires |key| < WORD
    ensures Undoes(KeyTaker(), KeyEncoder(), KeyShown(), key)
  {
    forall rest ensures KeyTaker()(KeyEncoder()(key) + rest) == Piece(key, rest) {
      FieldTaken(key, rest);
    }
  }

  lemma KeysUndone(keys: seq<seq<byte>>)
    requires Fits(keys)
    ensures Shortens(KeyTaker()) && UndoesAll(KeyTaker(), KeyEncoder(), KeyShown(), keys)
    ensures Mapped(KeyShown(), keys) == keys
  {
    forall k | k in keys ensures Undoes(KeyTaker(), KeyEncoder(), KeyShown(), k) {
      KeyUndone(k);
    }
  }

  /** Every iteration shortens what is left. */
  method ParseRangeScanKeys(payload: seq<byte>, cancelled: Cancellation)
    returns (items: seq<seq<byte>>, outcome: Outcome)
    ensures Shortens(KeyTaker())
    ensures Parsed(items, outcome) == ParseAll(KeyTaker(), payload, cancelled, 0)
  {
    ghost var take := KeyTaker();
    var data, i := payload, 0;
    items, outcome := [], Success;
    while data != []
      invariant ParseAll(take, payload, cancelled, 0) == Then(items, ParseAll(take, data, cancelled, i))
      decreases |data|
    {
      if cancelled(i) {
        return;
      }
      var key := Take(data);
      if key.Failed? {
        return items, key.outcome;
      }
      ThenThen(items, [key.item], ParseAll(take, key.rest, cancelled, i + 1));
      items := items + [key.item];
      data, i := key.rest, i + 1;
    }
  }

  /** Parsing the encoding of any keys delivers those keys. */
  lemma KeysRoundTrip(keys: seq<seq<byte>>, cancelled: Cancellation)
    requires Fits(keys) && forall j: nat :: !cancelled(j)
    ensures Shortens(KeyTaker())
    ensures ParseAll(KeyTaker(), EncodeAll(KeyEncoder(), keys), cancelled, 0) == Parsed(keys, Success)
  {
    KeysUndone(keys);
    AllItems(KeyTaker(), KeyEncoder(), KeyShown(), keys, cancelled);
  }

  /**
   A length whose last byte is missing is not noticed: the decoder answers zero, and an empty key is
   delivered with success.
   */
  lemma MissingLengthByte(keys: seq<seq<byte>>, rest: seq<byte>, cancelled: Cancellation)
    requires Fits(keys) && forall j: nat :: !cancelled(j)
    requires rest != [] && forall j :: 0 <= j < |rest| ==> rest[j] >= 128
    ensures Shortens(KeyTaker())
    ensures ParseAll(KeyTaker(), EncodeAll(KeyEncoder(), keys) + rest, cancelled, 0) == Parsed(keys + [[]], Success)
  {
    KeysUndone(keys);
    FirstItems(KeyTaker(), KeyEncoder(), KeyShown(), keys, rest, cancelled, 0);
    Leb128Truncated(rest);
    assert KeyTaker()(rest) == Piece([], []);
    assert ParseAll(KeyTaker(), [], cancelled, |keys| + 1) == Parsed([], Success);
  }

  /** A key that is cut short is an error, after the keys before it. */
  lemma MissingKeyByte(keys: seq<seq<byte>>, length: nat, part: seq<byte>, cancelled: Cancellation)
    requires Fits(keys) && |part| < length < WORD && forall j: nat :: !cancelled(j)
    ensures Shortens(KeyTaker())
    ensures ParseAll(KeyTaker(), EncodeAll(KeyEncoder(), keys) + (Leb128(length) + part), cancelled, 0) ==
            Parsed(keys, ProtocolError)
  {
    var rest := Leb128(length) + part;
    KeysUndone(keys);
    FirstItems(KeyTaker(), KeyEncoder(), KeyShown(), keys, rest, cancelled, 0);
    Leb128RoundTrip(length, part);
    FitsWord(length);
    assert rest[|Leb128(length)|..] == part;
    assert KeyTaker()(rest) == Failed(ProtocolError);
  }

  /**
   A payload that ends inside its last key field is rejected if and only if the length of that key is
   complete; otherwise an empty key is delivered in its place.
   */
  lemma CutPayload(keys: seq<seq<byte>>, key: seq<byte>, cut: nat, cancelled: Cancellation)
    requires Fits(keys) && |key| < WORD && forall j: nat :: !cancelled(j)
    requires 0 < cut < |Field(key)|
    ensures Shortens(KeyTaker())
    ensures ParseAll(KeyTaker(), EncodeAll(KeyEncoder(), keys) + Field(key)[..cut], cancelled, 0) ==
            if |Leb128(|key|)| <= cut then Parsed(keys, ProtocolError) else Parsed(keys + [[]], Success)
  {
    KeysUndone(keys);
    FirstItems(KeyTaker(), KeyEncoder(), KeyShown(), keys, Field(key)[..cut], cancelled, 0);
    CutField(key, cut);
    assert ParseAll(KeyTaker(), [], cancelled, |keys| + 1) == Parsed([], Success);
  }

  // ---- documents ----

  datatype Document =
    Document(key: seq<byte>, flags: nat, expiry: nat, seqno: nat, cas: nat, kind: byte, value: seq<byte>)

  const HEADER: nat := 25

  /** The bit that marks a compressed value. */
  predicate IsSnappy(kind: byte) {
    kind / 2 % 2 == 1
  }

  /** The compression library: none if it cannot expand its input. */
  type Expander = seq<byte> -> Option<seq<byte>>

  /** A value that the library can expand is expanded, and its mark is cleared; all else stays. */
  function Expanded(d: Document, expand: Expander): (e: Document)
    ensures e.(value := d.value, kind := d.kind) == d
    ensures d.kind / 2 % 2 == 1 && expand(d.value).Some? ==> Some(e.value) == expand(d.value) && e.kind / 2 % 2 == 0
    ensures e.kind % 2 == d.kind % 2 && e.kind / 4 == d.kind / 4
    ensures d.kind / 2 % 2 == 0 || expand(d.value).None? ==> e == d
  {
    if IsSnappy(d.kind) && expand(d.value).Some? then d.(value := expand(d.value).value, kind := d.kind - 2) else d
  }

  function MakeDocument(header: seq<byte>, key: seq<byte>, value: seq<byte>): Document
    requires |header| == HEADER
  {
    Document(key, ReadBigEndian(header[0..4]), ReadBigEndian(header[4..8]), ReadBigEndian(header[8..16]),
             ReadBigEndian(header[16..24]), header[24], value)
  }

  function TakeDocument(data: seq<byte>, expand: Expander): (p: Piece<Document>)
    ensures p.Piece? ==> |p.rest| < |data|
  {
    if |data| < HEADER then Failed(ProtocolError)
    else
      var key := TakeField(data[HEADER..]);
      if key.Failed? then Failed(key.outcome)
      else
        var value := TakeField(key.rest);
        if value.Failed? then Failed(value.outcome)
        else Piece(Expanded(MakeDocument(data[..HEADER], key.item, value.item), expand), value.rest)
  }

  function DocumentTaker(expand: Expander): Taker<Document> {
    data => TakeDocument(data, expand)
  }

  method ParseRangeScanDocuments(payload: seq<byte>, cancelled: Cancellation, expand: Expander)
    returns (items: seq<Document>, outcome: Outcome)
    ensures Shortens(DocumentTaker(expand))
    ensures Parsed(items, outcome) == ParseAll(DocumentTaker(expand), payload, cancelled, 0)
  {
    ghost var take := DocumentTaker(expand);
    var data, i := payload, 0;
    items, outcome := [], Success;
    while data != []
      invariant ParseAll(take, payload, cancelled, 0) == Then(items, ParseAll(take, data, cancelled, i))
      decreases |data|
    {
      if cancelled(i) {
        return;
      }
      if |data| < HEADER {
        return items, ProtocolError;
      }
      var key := Take(data[HEADER..]);
      if key.Failed? {
        return items, key.outcome;
      }
      var value := Take(key.rest);
      if value.Failed? {
        return items, value.outcome;
      }
      var d := Expanded(MakeDocument(data[..HEADER], key.item, value.item), expand);
      assert take(data) == Piece(d, value.rest);
      ThenThen(items, [d], ParseAll(take, value.rest, cancelled, i + 1));
      items := items + [d];
      data, i := value.rest, i + 1;
    }
  }

  function Header(d: Document): (h: seq<byte>)
    ensures |h| == HEADER
  {
    BigEndian(d.flags, 4) + BigEndian(d.expiry, 4) + BigEndian(d.seqno, 8) + BigEndian(d.cas, 8) + [d.kind]
  }

  function DocumentEncoder(): Document -> seq<byte> {
    (d: Document) => Header(d) + (Field(d.key) + Field(d.value))
  }

  /** The fields are as wide as the format allows. */
  ghost predicate Storable(d: Document) {
    && d.flags < Scale(4) && d.expiry < Scale(4) && d.seqno < Scale(8) && d.cas < Scale(8)
    && |d.key| < WORD && |d.value| < WORD
  }

  /** The header on the wire: flags, expiry, sequence number and CAS, the highest byte of each first, and the kind. */
  lemma HeaderBytes(d: Document, j: nat)
    requires j < HEADER
    ensures Header(d)[j] ==
            if j < 4 then d.flags / Scale(3 - j) % 256
            else if j < 8 then d.expiry / Scale(7 - j) % 256
            else if j < 16 then d.seqno / Scale(15 - j) % 256
            else if j < 24 then d.cas / Scale(23 - j) % 256
            else d.kind
  {
    if j < 4 {
      BigEndianAt(d.flags, 4, j);
    } else if j < 8 {
      BigEndianAt(d.expiry, 4, j - 4);
    } else if j < 16 {
      BigEndianAt(d.seqno, 8, j - 8);
    } else if j < 24 {
      BigEndianAt(d.cas, 8, j - 16);
    }
  }

  lemma FourParts(a: seq<byte>, b: seq<byte>, c: seq<byte>, d: seq<byte>, e: byte)
    requires |a| == 4 && |b| == 4 && |c| == 8 && |d| == 8
    ensures var h := a + b + c + d + [e];
            h[0..4] == a && h[4..8] == b && h[8..16] == c && h[16..24] == d && h[24] == e
  {
  }

  lemma HeaderRoundTrip(d: Document)
    requires Storable(d)
    ensures MakeDocument(Header(d), d.key, d.value) == d
  {
    FourParts(BigEndian(d.flags, 4), BigEndian(d.expiry, 4), BigEndian(d.seqno, 8), BigEndian(d.cas, 8), d.kind);
    BigEndianRoundTrip(d.flags, 4);
    BigEndianRoundTrip(d.expiry, 4);
    BigEndianRoundTrip(d.seqno, 8);
    BigEndianRoundTrip(d.cas, 8);
  }

  lemma DocumentTaken(h: seq<byte>, key: seq<byte>, value: seq<byte>, rest: seq<byte>, expand: Expander)
    requires |h| == HEADER && |key| < WORD && |value| < WORD
    ensures TakeDocument(h + (Field(key) + Field(value)) + rest, expand) ==
            Piece(Expanded(MakeDocument(h, key, value), expand), rest)
  {
    var data := h + (Field(key) + Field(value)) + rest;
    assert data[..HEADER] == h && data[HEADER..] == Field(key) + (Field(value) + rest);
    FieldTaken(key, Field(value) + rest);
    FieldTaken(value, rest);
  }

  function DocumentShown(expand: Expander): Document -> Document {
    (d: Document) => Expanded(d, expand)
  }

  lemma DocumentUndone(d: Document, expand: Expander)
    requires Storable(d)
    ensures Undoes(DocumentTaker(expand), DocumentEncoder(), DocumentShown(expand), d)
  {
    HeaderRoundTrip(d);
    forall rest ensures DocumentTaker(expand)(DocumentEncoder()(d) + rest) == Piece(Expanded(d, expand), rest) {
      DocumentTaken(Header(d), d.key, d.value, rest, expand);
    }
  }

  /** Parsing the encoding of any documents delivers those documents, expanded, field by field and in order. */
  lemma DocumentsRoundTrip(docs: seq<Document>, cancelled: Cancellation, expand: Expander)
    requires (forall d :: d in docs ==> Storable(d)) && forall j: nat :: !cancelled(j)
    ensures Shortens(DocumentTaker(expand))
    ensures ParseAll(DocumentTaker(expand), EncodeAll(DocumentEncoder(), docs), cancelled, 0) ==
            Parsed(Mapped(DocumentShown(expand), docs), Success)
  {
    forall d | d in docs ensures Undoes(DocumentTaker(expand), DocumentEncoder(), DocumentShown(expand), d) {
      DocumentUndone(d, expand);
    }
    AllItems(DocumentTaker(expand), DocumentEncoder(), DocumentShown(expand), docs, cancelled);
  }

  // ---- a document that is cut short ----

  /** Where the parts of an encoded document end. */
  function KeyLengthEnd(d: Document): nat {
    HEADER + |Leb128(|d.key|)|
  }

  function KeyEnd(d: Document): nat {
    KeyLengthEnd(d) + |d.key|
  }

  function ValueLengthEnd(d: Document): nat {
    KeyEnd(d) + |Leb128(|d.value|)|
  }

  /**
   What comes of the first bytes of a document: the program ends where a length is to be read and nothing
   is left, which it also is after a key length that lacks its last byte; a value length that lacks its
   last byte makes a document without a value; every other cut is an error.
   */
  function CutDocument(d: Document, cut: nat, expand: Expander): Parsed<Document> {
    if HEADER <= cut < KeyLengthEnd(d) || cut == KeyEnd(d) then Parsed([], Terminated)
    else if KeyEnd(d) < cut < ValueLengthEnd(d) then Parsed([Expanded(d.(value := []), expand)], Success)
    else Parsed([], ProtocolError)
  }

  /** What is left of three parts when the last is cut, or the second. */
  lemma CutThird(h: seq<byte>, k: seq<byte>, v: seq<byte>, cut: nat)
    requires |h| + |k| <= cut <= |h| + |k| + |v|
    ensures (h + (k + v))[..cut] == h + (k + v[..cut - |h| - |k|])
  {
  }

  lemma CutSecond(h: seq<byte>, k: seq<byte>, v: seq<byte>, cut: nat)
    requires |h| <= cut <= |h| + |k|
    ensures (h + (k + v))[..cut] == h + k[..cut - |h|]
  {
  }

  lemma CutInKey(h: seq<byte>, key: seq<byte>, cut: nat, expand: Expander)
    requires |h| == HEADER && |key| < WORD && cut < |Field(key)|
    ensures TakeDocument(h + Field(key)[..cut], expand) ==
            Failed(if cut < |Leb128(|key|)| then Terminated else ProtocolError)
  {
    var data := h + Field(key)[..cut];
    assert data[HEADER..] == Field(key)[..cut];
    CutField(key, cut);
  }

  lemma CutInValue(h: seq<byte>, key: seq<byte>, value: seq<byte>, cut: nat, expand: Expander)
    requires |h| == HEADER && |key| < WORD && |value| < WORD && cut < |Field(value)|
    ensures TakeDocument(h + (Field(key) + Field(value)[..cut]), expand) ==
            if cut == 0 then Failed(Terminated)
            else if cut < |Leb128(|value|)| then Piece(Expanded(MakeDocument(h, key, []), expand), [])
            else Failed(ProtocolError)
  {
    var data := h + (Field(key) + Field(value)[..cut]);
    assert data[..HEADER] == h && data[HEADER..] == Field(key) + Field(value)[..cut];
    FieldTaken(key, Field(value)[..cut]);
    CutField(value, cut);
  }

  lemma WithoutValue(d: Document)
    requires Storable(d)
    ensures MakeDocument(Header(d), d.key, []) == d.(value := [])
  {
    assert Header(d.(value := [])) == Header(d);
    HeaderRoundTrip(d.(value := []));
  }

  lemma CutBeforeKeyEnd(h: seq<byte>, key: seq<byte>, rest: seq<byte>, cut: nat, expand: Expander)
    requires |h| == HEADER && |key| < WORD && HEADER <= cut < HEADER + |Field(key)|
    ensures TakeDocument((h + (Field(key) + rest))[..cut], expand) ==
            Failed(if cut < HEADER + |Leb128(|key|)| then Terminated else ProtocolError)
  {
    var data := (h + (Field(key) + rest))[..cut];
    assert data == h + Field(key)[..cut - HEADER] by {
      CutSecond(h, Field(key), rest, cut);
    }
    CutInKey(h, key, cut - HEADER, expand);
  }

  lemma CutAfterKeyEnd(d: Document, cut: nat, expand: Expander)
    requires |d.key| < WORD && |d.value| < WORD && KeyEnd(d) <= cut < KeyEnd(d) + |Field(d.value)|
    ensures TakeDocument((Header(d) + (Field(d.key) + Field(d.value)))[..cut], expand) ==
            if cut == KeyEnd(d) then Failed(Terminated)
            else if cut < ValueLengthEnd(d) then Piece(Expanded(MakeDocument(Header(d), d.key, []), expand), [])
            else Failed(ProtocolError)
  {
    CutThird(Header(d), Field(d.key), Field(d.value), cut);
    CutInValue(Header(d), d.key, d.value, cut - KeyEnd(d), expand);
  }

  lemma CutTaken(d: Document, cut: nat, expand: Expander)
    requires Storable(d) && 0 < cut < |DocumentEncoder()(d)|
    ensures TakeDocument(DocumentEncoder()(d)[..cut], expand) ==
            var p := CutDocument(d, cut, expand);
            if p.items == [] then Failed(p.outcome) else Piece(Expanded(d.(value := []), expand), [])
  {
    if cut >= KeyEnd(d) {
      CutAfterKeyEnd(d, cut, expand);
      WithoutValue(d);
    } else if cut >= HEADER {
      CutBeforeKeyEnd(Header(d), d.key, Field(d.value), cut, expand);
    }
  }

  /** For any documents followed by one that is cut anywhere. */
  lemma CutDocuments(docs: seq<Document>, d: Document, cut: nat, cancelled: Cancellation, expand: Expander)
    requires (forall x :: x in docs ==> Storable(x)) && Storable(d) && forall j: nat :: !cancelled(j)
    requires 0 < cut < |DocumentEncoder()(d)|
    ensures Shortens(DocumentTaker(expand))
    ensures ParseAll(DocumentTaker(expand), EncodeAll(DocumentEncoder(), docs) + DocumentEncoder()(d)[..cut],
                     cancelled, 0) ==
            Then(Mapped(DocumentShown(expand), docs), CutDocument(d, cut, expand))
  {
    var take, rest := DocumentTaker(expand), DocumentEncoder()(d)[..cut];
    forall x | x in docs ensures Undoes(take, DocumentEncoder(), DocumentShown(expand), x) {
      DocumentUndone(x, expand);
    }
    FirstItems(take, DocumentEncoder(), DocumentShown(expand), docs, rest, cancelled, 0);
    CutTaken(d, cut, expand);
    assert ParseAll(take, [], cancelled, |docs| + 1) == Parsed([], Success);
    assert ParseAll(take, rest, cancelled, |docs|) == CutDocument(d, cut, expand);
  }
}
