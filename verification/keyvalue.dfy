/**
  The contract seen as a flat key-value store, plus the faults a run of the
  component may meet when it talks to it.

  The store is an immutable map; a key that is absent reads as the empty blob.
  Faults are injected per key: a key in `getErrors` makes `getData` on it throw,
  a key in `setErrors` makes `setData` on it throw, each with the given message.
 */
module KeyValue {
  import opened Codec

  type Store = map<string, Blob>

  /** The one key that holds the index of all association ids. */
  const IndexKey: string := "association_keys"

  /** Record keys are this prefix followed by the association id. */
  const RecordPrefix: string := "association_"

  function RecordKey(id: string): string
  {
    RecordPrefix + id
  }

  /** `getData(key)` when it does not throw. */
  function Get(s: Store, key: string): Blob
  {
    if key in s then s[key] else []
  }

  /** What `getContractReadOnly()` and `isAvailable()` together yield. */
  datatype ReadAccess = NoContract | Unavailable | Available

  /** What `getContractWithSigner()` yields. */
  datatype SignerAccess = NoSigner | SignerThrows(message: string) | Signer

  datatype Faults = Faults(
    reader: ReadAccess,
    signer: SignerAccess,
    getErrors: map<string, string>,
    setErrors: map<string, string>)

  /** One call on the contract, in the order it is issued. */
  datatype Call = GetCall(key: string) | SetCall(key: string)

  /** The ids an index blob lists: an empty or unparseable blob lists none. */
  function IdsIn(b: Blob): (ids: seq<string>)
    ensures ids != [] ==> b == EncodeIndex(ids)
  {
    if |b| == 0 then []
    else match DecodeIndex(b)
      case None => []
      case Some(ids) => ids
  }

  /** The ids the index currently lists. */
  function StoredIds(s: Store): seq<string>
  {
    IdsIn(Get(s, IndexKey))
  }

  /** Reading back an index that was written lists exactly the ids written. */
  lemma IdsInEncoded(ids: seq<string>)
    ensures IdsIn(EncodeIndex(ids)) == ids
  {
    IndexCodecIff(EncodeIndex(ids), ids);
  }

  /** Distinct ids have distinct record keys. */
  lemma RecordKeyInjective(a: string, b: string)
    ensures RecordKey(a) == RecordKey(b) <==> a == b
  {
    if RecordKey(a) == RecordKey(b) {
      assert a == RecordKey(a)[|RecordPrefix|..];
      assert b == RecordKey(b)[|RecordPrefix|..];
    }
  }

  /** An id with a `-` in it (every id `FormatId` builds) never names the index key. */
  lemma DashedIdAvoidsIndex(id: string)
    requires '-' in id
    ensures RecordKey(id) != IndexKey
  {
    assert RecordKey(id)[|RecordPrefix|..] == id;
    assert IndexKey[|RecordPrefix|..] == "keys";
    assert '-' !in "keys";
  }

  /** The decimal digits of `n`, as `String(Date.now())` prints them. */
  function Decimal(n: nat): string
    decreases n
  {
    if n < 10 then ["0123456789"[n]] else Decimal(n / 10) + ["0123456789"[n % 10]]
  }

  /** `${Date.now()}-${suffix}`: the shape of every id `addAssociation` generates. */
  function FormatId(millis: nat, suffix: string): string
  {
    Decimal(millis) + "-" + suffix
  }

  /** A generated id's record key never collides with the index key. */
  lemma GeneratedIdAvoidsIndex(millis: nat, suffix: string)
    ensures RecordKey(FormatId(millis, suffix)) != IndexKey
  {
    var id := FormatId(millis, suffix);
    assert id[|Decimal(millis)|] == '-';
    DashedIdAvoidsIndex(id);
  }
}
