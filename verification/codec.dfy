/**
  The byte format of the two kinds of blob the component stores.

  `addAssociation` serialises with `JSON.stringify` and `toUtf8Bytes`; here a blob is the
  token stream of that JSON text, with arrays and objects prefixed by their
  element count. An empty blob is the empty byte string the backend returns
  for an absent key.
 */
module Codec {
  import opened Wrappers

  datatype Token = TStr(s: string) | TNum(n: int) | TArr(len: nat) | TObj(len: nat)

  type Blob = seq<Token>

  /** What `addAssociation` serialises for one record, fields in the order of its object literal. */
  datatype StoredRecord = StoredRecord(
    platform: string, brand: string, score: int, data: string, timestamp: int, owner: string)

  /** The fields `loadAssociations` reads back out of a record blob (`owner` is not among them). */
  datatype RecordFields = RecordFields(
    platform: string, brand: string, score: int, data: string, timestamp: int)

  function Fields(r: StoredRecord): RecordFields
  {
    RecordFields(r.platform, r.brand, r.score, r.data, r.timestamp)
  }

  // ---------------------------------------------------------------- index

  /** `JSON.stringify(keys)` for an array of strings. */
  function EncodeIndex(ids: seq<string>): Blob
  {
    [TArr(|ids|)] + seq(|ids|, i requires 0 <= i < |ids| => TStr(ids[i]))
  }

  /** `JSON.parse` of an index blob: succeeds exactly on an array of strings. */
  function DecodeIndex(b: Blob): (r: Option<seq<string>>)
    ensures r.Some? ==> b == EncodeIndex(r.value)
  {
    if |b| > 0 && b[0] == TArr(|b| - 1) && forall i | 1 <= i < |b| :: b[i].TStr? then
      var ids := seq(|b| - 1, i requires 0 <= i < |b| - 1 => b[i + 1].s);
      assert b == EncodeIndex(ids);
      Some(ids)
    else
      None
  }

  /** An index blob decodes to `ids` exactly when it is the encoding of `ids`. */
  lemma IndexCodecIff(b: Blob, ids: seq<string>)
    ensures DecodeIndex(b) == Some(ids) <==> b == EncodeIndex(ids)
  {
    if b == EncodeIndex(ids) {
      var d := DecodeIndex(b);
      assert d.Some?;
      assert d.value == ids;
    }
  }

  // ---------------------------------------------------------------- records

  predicate IsScalar(t: Token)
  {
    t.TStr? || t.TNum?
  }

  /** The key/value pairs of an object body in document order; `None` if the body is malformed. */
  function Members(body: seq<Token>): (r: Option<seq<(string, Token)>>)
    ensures r.Some? ==> |body| == 2 * |r.value|
    decreases |body|
  {
    if |body| == 0 then Some([])
    else if |body| == 1 || !body[0].TStr? || !IsScalar(body[1]) then None
    else match Members(body[2..])
      case None => None
      case Some(rest) => Some([(body[0].s, body[1])] + rest)
  }

  /** The value bound to `name`; as with `JSON.parse`, the last binding of a repeated key wins. */
  function Lookup(ms: seq<(string, Token)>, name: string): Option<Token>
  {
    if |ms| == 0 then None
    else if ms[|ms| - 1].0 == name then Some(ms[|ms| - 1].1)
    else Lookup(ms[..|ms| - 1], name)
  }

  /** `JSON.parse(blob)[name]` when the blob holds an object; `None` otherwise. */
  function FieldOf(b: Blob, name: string): Option<Token>
  {
    if |b| == 0 || !b[0].TObj? then None
    else match Members(b[1..])
      case None => None
      case Some(ms) => if |ms| == b[0].len then Lookup(ms, name) else None
  }

  /** The body of `JSON.stringify` of an object whose members are `ms`, in order. */
  function EncodeMembers(ms: seq<(string, Token)>): Blob
  {
    if |ms| == 0 then [] else [TStr(ms[0].0), ms[0].1] + EncodeMembers(ms[1..])
  }

  /** The members of an encoded record, in the order the object literal in `addAssociation` lists them. */
  function RecordPairs(r: StoredRecord): seq<(string, Token)>
  {
    [("platform", TStr(r.platform)), ("brand", TStr(r.brand)), ("score", TNum(r.score)),
     ("data", TStr(r.data)), ("timestamp", TNum(r.timestamp)), ("owner", TStr(r.owner))]
  }

  /** `JSON.stringify(associationData)`. */
  function EncodeRecord(r: StoredRecord): Blob
  {
    [TObj(6)] + EncodeMembers(RecordPairs(r))
  }

  /** Reads the five fields a reloaded association is built from; any other shape is a parse failure. */
  function DecodeRecord(b: Blob): Option<RecordFields>
  {
    match (FieldOf(b, "platform"), FieldOf(b, "brand"), FieldOf(b, "score"),
           FieldOf(b, "data"), FieldOf(b, "timestamp"))
    case (Some(TStr(p)), Some(TStr(br)), Some(TNum(sc)), Some(TStr(d)), Some(TNum(t))) =>
      Some(RecordFields(p, br, sc, d, t))
    case _ => None
  }

  /** Parsing an encoded object body gives back its members, whatever they are. */
  lemma {:induction false} MembersRoundTrip(ms: seq<(string, Token)>)
    requires forall i | 0 <= i < |ms| :: IsScalar(ms[i].1)
    ensures Members(EncodeMembers(ms)) == Some(ms)
  {
    if |ms| > 0 {
      MembersRoundTrip(ms[1..]);
      assert EncodeMembers(ms)[2..] == EncodeMembers(ms[1..]);
      assert [(ms[0].0, ms[0].1)] + ms[1..] == ms;
    }
  }

  /** Every field written by `EncodeRecord` is read back unchanged, `owner` included. */
  lemma RecordFieldRoundTrip(r: StoredRecord)
    ensures FieldOf(EncodeRecord(r), "platform") == Some(TStr(r.platform))
    ensures FieldOf(EncodeRecord(r), "brand") == Some(TStr(r.brand))
    ensures FieldOf(EncodeRecord(r), "score") == Some(TNum(r.score))
    ensures FieldOf(EncodeRecord(r), "data") == Some(TStr(r.data))
    ensures FieldOf(EncodeRecord(r), "timestamp") == Some(TNum(r.timestamp))
    ensures FieldOf(EncodeRecord(r), "owner") == Some(TStr(r.owner))
  {
    var ps := RecordPairs(r);
    MembersRoundTrip(ps);
    assert EncodeRecord(r)[1..] == EncodeMembers(ps);
    assert ps[..6][..5] == ps[..5];
    assert ps[..5][..4] == ps[..4];
    assert ps[..4][..3] == ps[..3];
    assert ps[..3][..2] == ps[..2];
    assert ps[..2][..1] == ps[..1];
    assert Lookup(ps[..1], "platform") == Some(TStr(r.platform));
    assert Lookup(ps[..2], "platform") == Some(TStr(r.platform));
    assert Lookup(ps[..3], "platform") == Some(TStr(r.platform));
    assert Lookup(ps[..4], "platform") == Some(TStr(r.platform));
    assert Lookup(ps[..5], "platform") == Some(TStr(r.platform));
    assert Lookup(ps[..2], "brand") == Some(TStr(r.brand));
    assert Lookup(ps[..3], "brand") == Some(TStr(r.brand));
    assert Lookup(ps[..4], "brand") == Some(TStr(r.brand));
    assert Lookup(ps[..5], "brand") == Some(TStr(r.brand));
    assert Lookup(ps[..3], "score") == Some(TNum(r.score));
    assert Lookup(ps[..4], "score") == Some(TNum(r.score));
    assert Lookup(ps[..5], "score") == Some(TNum(r.score));
    assert Lookup(ps[..4], "data") == Some(TStr(r.data));
    assert Lookup(ps[..5], "data") == Some(TStr(r.data));
    assert ps == ps[..6];
    assert Lookup(ps, "timestamp") == Lookup(ps[..5], "timestamp") == Some(TNum(r.timestamp));
  }

  lemma RecordRoundTrip(r: StoredRecord)
    ensures DecodeRecord(EncodeRecord(r)) == Some(Fields(r))
  {
    RecordFieldRoundTrip(r);
  }
}
