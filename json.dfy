/**
 * JSON at the value level, and the building blocks serde's derived code uses to
 * map Rust values onto it: strings, optional strings, vectors, and object fields
 * that are emitted, skipped, defaulted or required.
 */
module Json {
  import opened Wrappers

  /**
   * A JSON value. Objects are maps: key order and the text form belong to the
   * JSON printer and parser, not to the schema. Numbers are abstracted to their
   * integer value; no field of the schema holds one.
   */
  datatype Json =
    | Null
    | Bool(b: bool)
    | Num(n: int)
    | Str(s: string)
    | Arr(items: seq<Json>)
    | Obj(fields: map<string, Json>)

  /** One step of the path to the value a decode error is about. */
  datatype PathSeg = Key(name: string) | Index(i: nat)

  /** What the decoder expected where it found something else. */
  datatype Shape = AString | ASequence | AStruct(name: string)

  datatype Reason = InvalidType(expected: Shape) | MissingField(field: string)

  datatype DecodeError = DecodeError(path: seq<PathSeg>, reason: Reason)

  type Decoded<T> = Result<T, DecodeError>

  function Mismatch<T>(expected: Shape): Decoded<T> {
    Err(DecodeError([], InvalidType(expected)))
  }

  /** Prefixes the path of a failed decode with `seg`. */
  function Within<T>(seg: PathSeg, r: Decoded<T>): Decoded<T> {
    match r
    case Ok(_) => r
    case Err(e) => Err(DecodeError([seg] + e.path, e.reason))
  }

  // ---------------------------------------------------------------------------
  // Strings

  /** `String`: only a JSON string is accepted; `null` is a type error. */
  function DecodeString(j: Json): Decoded<string> {
    if j.Str? then Ok(j.s) else Mismatch(AString)
  }

  /** `Option<String>`: `null` reads as `None`, a string as `Some`. */
  function DecodeOptString(j: Json): Decoded<Option<string>> {
    match j
    case Null => Ok(None)
    case Str(s) => Ok(Some(s))
    case _ => Mismatch(AString)
  }

  /** `Option<String>` without a skip attribute: `None` is written as `null`. */
  function NullOr(o: Option<string>): Json {
    match o
    case None => Null
    case Some(s) => Str(s)
  }

  /** `Option<String>` under `skip_serializing_if = "Option::is_none"`. */
  function SkipNone(o: Option<string>): Option<Json> {
    match o
    case None => None
    case Some(s) => Some(Str(s))
  }

  lemma OptStringRoundTrip(o: Option<string>)
    ensures DecodeOptString(NullOr(o)) == Ok(o)
    ensures SkipNone(o).Some? ==> DecodeOptString(SkipNone(o).value) == Ok(o)
  {
  }

  // ---------------------------------------------------------------------------
  // Optional records

  /** `Option<T>` for a record `T` under `skip_serializing_if = "Option::is_none"`. */
  function SkipNoneWith<T>(o: Option<T>, enc: T -> Json): Option<Json> {
    match o
    case None => None
    case Some(x) => Some(enc(x))
  }

  /** `Option<T>` for a record `T`: `null` reads as `None`, anything else as a `T`. */
  function DecodeNullable<T>(j: Json, dec: Json -> Decoded<T>): Decoded<Option<T>> {
    if j.Null? then Ok(None)
    else
      var x :- dec(j);
      Ok(Some(x))
  }

  // ---------------------------------------------------------------------------
  // Vectors

  function EncodeItems<T>(xs: seq<T>, enc: T -> Json): (js: seq<Json>)
    ensures |js| == |xs|
    ensures forall i :: 0 <= i < |xs| ==> js[i] == enc(xs[i])
  {
    if xs == [] then [] else [enc(xs[0])] + EncodeItems(xs[1..], enc)
  }

  /** Decodes the items of an array; `start` is the index of `js[0]`, for error paths. */
  function DecodeItems<T>(js: seq<Json>, dec: Json -> Decoded<T>, start: nat): (r: Decoded<seq<T>>)
    ensures r.Ok? ==> |r.value| == |js|
    ensures r.Ok? ==> forall i :: 0 <= i < |js| ==> dec(js[i]) == Ok(r.value[i])
    ensures r.Ok? <==> forall i :: 0 <= i < |js| ==> dec(js[i]).Ok?
    decreases |js|
  {
    if js == [] then Ok([])
    else
      var head :- Within(Index(start), dec(js[0]));
      var tail :- DecodeItems(js[1..], dec, start + 1);
      Ok([head] + tail)
  }

  /** `Vec<T>` written as an array. */
  function EncodeSeq<T>(xs: seq<T>, enc: T -> Json): Json {
    Arr(EncodeItems(xs, enc))
  }

  /** `Vec<T>` under `skip_serializing_if = "Vec::is_empty"`. */
  function SkipEmpty<T>(xs: seq<T>, enc: T -> Json): Option<Json> {
    if xs == [] then None else Some(EncodeSeq(xs, enc))
  }

  /** `Vec<T>`: only an array is accepted; `null` is a type error. */
  function DecodeSeq<T>(j: Json, dec: Json -> Decoded<T>): Decoded<seq<T>> {
    if j.Arr? then DecodeItems(j.items, dec, 0) else Mismatch(ASequence)
  }

  lemma {:induction false} ItemsRoundTrip<T>(xs: seq<T>, enc: T -> Json, dec: Json -> Decoded<T>, start: nat)
    requires forall x :: x in xs ==> dec(enc(x)) == Ok(x)
    ensures DecodeItems(EncodeItems(xs, enc), dec, start) == Ok(xs)
    decreases |xs|
  {
    if xs != [] {
      ItemsRoundTrip(xs[1..], enc, dec, start + 1);
      assert EncodeItems(xs, enc)[1..] == EncodeItems(xs[1..], enc);
      assert [xs[0]] + xs[1..] == xs;
    }
  }

  lemma SeqRoundTrip<T>(xs: seq<T>, enc: T -> Json, dec: Json -> Decoded<T>)
    requires forall x :: x in xs ==> dec(enc(x)) == Ok(x)
    ensures DecodeSeq(EncodeSeq(xs, enc), dec) == Ok(xs)
    ensures SkipEmpty(xs, enc).Some? ==> DecodeSeq(SkipEmpty(xs, enc).value, dec) == Ok(xs)
  {
    ItemsRoundTrip(xs, enc, dec, 0);
  }

  // ---------------------------------------------------------------------------
  // Object fields

  /**
   * The object a serializer writes: every field whose entry is `Some`, under its
   * wire key. Fields whose skip condition held are entered as `None`.
   */
  function Emitted(entries: map<string, Option<Json>>): map<string, Json> {
    map k | k in entries && entries[k].Some? :: entries[k].value
  }

  /**
   * A field of a record under container-level `#[serde(default)]`: a missing key
   * takes the record default's value for the field.
   */
  function Field<T>(m: map<string, Json>, key: string, dec: Json -> Decoded<T>, default: T): Decoded<T> {
    if key in m then Within(Key(key), dec(m[key])) else Ok(default)
  }

  /** A `Vec<T>` field under `#[serde(default)]`: a missing key is the empty vector. */
  function SeqField<T>(m: map<string, Json>, key: string, dec: Json -> Decoded<T>): Decoded<seq<T>> {
    if key in m then Within(Key(key), DecodeSeq(m[key], dec)) else Ok([])
  }

  /** A field of a record without a default: a missing key is an error. */
  function RequiredField<T>(m: map<string, Json>, key: string, dec: Json -> Decoded<T>): Decoded<T> {
    if key in m then Within(Key(key), dec(m[key])) else Err(DecodeError([], MissingField(key)))
  }

  /** A key is emitted exactly when its entry is present, and then with the entry's value. */
  lemma EmittedEntry(entries: map<string, Option<Json>>, key: string)
    requires key in entries
    ensures key in Emitted(entries) <==> entries[key].Some?
    ensures key in Emitted(entries) ==> Emitted(entries)[key] == entries[key].value
  {
  }

  /** An optional text entry is emitted exactly when the text is present. */
  lemma SkipNoneEntry(entries: map<string, Option<Json>>, key: string, o: Option<string>)
    requires key in entries && entries[key] == SkipNone(o)
    ensures o.None? <==> key !in Emitted(entries)
    ensures o.Some? ==> Emitted(entries)[key] == Str(o.value)
  {
  }

  /** An optional record entry is emitted exactly when the record is present. */
  lemma SkipNoneWithEntry<T>(entries: map<string, Option<Json>>, key: string, o: Option<T>, enc: T -> Json)
    requires key in entries && entries[key] == SkipNoneWith(o, enc)
    ensures o.None? <==> key !in Emitted(entries)
    ensures o.Some? ==> Emitted(entries)[key] == enc(o.value)
  {
  }

  /** A list entry that is skipped when empty is emitted exactly when the list is not empty. */
  lemma SkipEmptyEntry<T>(entries: map<string, Option<Json>>, key: string, xs: seq<T>, enc: T -> Json)
    requires key in entries && entries[key] == SkipEmpty(xs, enc)
    ensures xs == [] <==> key !in Emitted(entries)
    ensures xs != [] ==> Emitted(entries)[key] == EncodeSeq(xs, enc)
  {
  }

  /** Two objects agree on `keys`: each key is in both or in neither, with equal values. */
  predicate Agree(m1: map<string, Json>, m2: map<string, Json>, keys: set<string>) {
    forall key :: key in keys ==> (key in m1 <==> key in m2) && (key in m1 ==> m1[key] == m2[key])
  }

  /** Adding a key outside `keys` leaves an object agreeing with the original on `keys`. */
  lemma UpdateAgree(m: map<string, Json>, k: string, v: Json, keys: set<string>)
    requires k !in keys
    ensures Agree(m[k := v], m, keys)
  {
  }

  /** Each field reader looks only at its own key. */
  lemma FieldAgree<T>(m1: map<string, Json>, m2: map<string, Json>, keys: set<string>, key: string,
                      dec: Json -> Decoded<T>, default: T)
    requires Agree(m1, m2, keys) && key in keys
    ensures Field(m1, key, dec, default) == Field(m2, key, dec, default)
  {
  }

  lemma SeqFieldAgree<T>(m1: map<string, Json>, m2: map<string, Json>, keys: set<string>, key: string,
                         dec: Json -> Decoded<T>)
    requires Agree(m1, m2, keys) && key in keys
    ensures SeqField(m1, key, dec) == SeqField(m2, key, dec)
  {
  }

  lemma RequiredFieldAgree<T>(m1: map<string, Json>, m2: map<string, Json>, keys: set<string>, key: string,
                              dec: Json -> Decoded<T>)
    requires Agree(m1, m2, keys) && key in keys
    ensures RequiredField(m1, key, dec) == RequiredField(m2, key, dec)
  {
  }

  // ---------------------------------------------------------------------------
  // Reading back what was emitted

  lemma EmittedField<T>(entries: map<string, Option<Json>>, key: string, dec: Json -> Decoded<T>, default: T, x: T)
    requires key in entries
    requires entries[key].Some? ==> dec(entries[key].value) == Ok(x)
    requires entries[key].None? ==> x == default
    ensures Field(Emitted(entries), key, dec, default) == Ok(x)
  {
  }

  lemma EmittedSeqField<T>(entries: map<string, Option<Json>>, key: string, xs: seq<T>, enc: T -> Json, dec: Json -> Decoded<T>)
    requires key in entries
    requires entries[key] == SkipEmpty(xs, enc) || entries[key] == Some(EncodeSeq(xs, enc))
    requires forall x :: x in xs ==> dec(enc(x)) == Ok(x)
    ensures SeqField(Emitted(entries), key, dec) == Ok(xs)
  {
    SeqRoundTrip(xs, enc, dec);
  }
}
