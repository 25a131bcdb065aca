/**
  The storage protocol behind the component: `loadAssociations` rebuilds the
  collection from the index key and one record key per id, and
  `addAssociation` writes a new record and then appends its id to the index.
 */
module Sync {
  import opened Wrappers
  import opened Codec
  import opened KeyValue
  import opened Collection

  // ---------------------------------------------------------------- reload

  /**
    The association stored under `id`, or `None` when reading its record key
    throws, the blob is empty, or it does not parse.
   */
  function Resolve(s: Store, f: Faults, id: string): (r: Option<Association>)
    ensures r.Some? ==> r.value.id == id
    ensures r.Some? <==> RecordKey(id) !in f.getErrors && DecodeRecord(Get(s, RecordKey(id))).Some?
    // every field but the id comes from the decoded record
    ensures r.Some? ==>
      DecodeRecord(Get(s, RecordKey(id)))
        == Some(RecordFields(r.value.platform, r.value.brand, r.value.score, r.value.encryptedData, r.value.timestamp))
  {
    var key := RecordKey(id);
    if key in f.getErrors then None
    else
      var blob := Get(s, key);
      if |blob| == 0 then None
      else match DecodeRecord(blob)
        case None => None
        case Some(d) => Some(Association(id, d.platform, d.brand, d.score, d.data, d.timestamp))
  }

  function Found(o: Option<Association>): seq<Association>
  {
    match o
    case None => []
    case Some(a) => [a]
  }

  /** The `for (const key of keys)` loop: the associations that resolve, in index order. */
  function Collected(s: Store, f: Faults, keys: seq<string>): seq<Association>
    decreases |keys|
  {
    if |keys| == 0 then []
    else Collected(s, f, keys[..|keys| - 1]) + Found(Resolve(s, f, keys[|keys| - 1]))
  }

  /** The keys whose records resolve, in index order. */
  function Surviving(s: Store, f: Faults, keys: seq<string>): seq<string>
    decreases |keys|
  {
    if |keys| == 0 then []
    else Surviving(s, f, keys[..|keys| - 1])
         + (if Resolve(s, f, keys[|keys| - 1]).Some? then [keys[|keys| - 1]] else [])
  }

  function Ids(xs: seq<Association>): seq<string>
  {
    seq(|xs|, i requires 0 <= i < |xs| => xs[i].id)
  }

  /** The associations whose id is not `id`, in order. */
  function Without(xs: seq<Association>, id: string): seq<Association>
    decreases |xs|
  {
    if |xs| == 0 then []
    else Without(xs[..|xs| - 1], id) + (if xs[|xs| - 1].id == id then [] else [xs[|xs| - 1]])
  }

  /** An association is collected exactly when some index key resolves to it. */
  lemma {:induction false} CollectedMembers(s: Store, f: Faults, keys: seq<string>, x: Association)
    ensures x in Collected(s, f, keys) <==> exists i | 0 <= i < |keys| :: Resolve(s, f, keys[i]) == Some(x)
    decreases |keys|
  {
    if |keys| > 0 {
      var init := keys[..|keys| - 1];
      CollectedMembers(s, f, init, x);
      assert forall i | 0 <= i < |init| :: init[i] == keys[i];
      if Resolve(s, f, keys[|keys| - 1]) == Some(x) {
        assert x in Found(Resolve(s, f, keys[|keys| - 1]));
      }
    }
  }

  /** The collected ids are the surviving keys, in index order and with their repetitions. */
  lemma {:induction false} CollectedIds(s: Store, f: Faults, keys: seq<string>)
    ensures Ids(Collected(s, f, keys)) == Surviving(s, f, keys)
    decreases |keys|
  {
    if |keys| > 0 {
      CollectedIds(s, f, keys[..|keys| - 1]);
    }
  }

  /**
    A record that no longer resolves only removes itself: every other record
    is collected as before.
   */
  lemma {:induction false} CollectedSkipsOnly(
    s: Store, f: Faults, s': Store, f': Faults, id: string, keys: seq<string>)
    requires Resolve(s', f', id).None?
    requires forall j | 0 <= j < |keys| && keys[j] != id :: Resolve(s', f', keys[j]) == Resolve(s, f, keys[j])
    ensures Collected(s', f', keys) == Without(Collected(s, f, keys), id)
    decreases |keys|
  {
    if |keys| > 0 {
      var init := keys[..|keys| - 1];
      var k := keys[|keys| - 1];
      assert forall j | 0 <= j < |init| :: init[j] == keys[j];
      CollectedSkipsOnly(s, f, s', f', id, init);
      WithoutAppend(Collected(s, f, init), Found(Resolve(s, f, k)), id);
    }
  }

  lemma {:induction false} WithoutAppend(xs: seq<Association>, ys: seq<Association>, id: string)
    requires |ys| <= 1
    ensures Without(xs + ys, id) == Without(xs, id) + Without(ys, id)
  {
    if |ys| == 1 {
      assert (xs + ys)[..|xs + ys| - 1] == xs;
      assert ys[..0] == [];
    } else {
      assert xs + ys == xs;
    }
  }

  /** Overwriting one record with a blob that does not parse drops that record and nothing else. */
  lemma CorruptRecordDropsOnlyItself(s: Store, f: Faults, id: string, junk: Blob, keys: seq<string>)
    requires DecodeRecord(junk).None?
    ensures Collected(s[RecordKey(id) := junk], f, keys) == Without(Collected(s, f, keys), id)
  {
    var s' := s[RecordKey(id) := junk];
    forall j | 0 <= j < |keys| && keys[j] != id
      ensures Resolve(s', f, keys[j]) == Resolve(s, f, keys[j])
    {
      RecordKeyInjective(keys[j], id);
    }
    CollectedSkipsOnly(s, f, s', f, id, keys);
  }

  /** A read of one record that throws drops that record and nothing else. */
  lemma FailedReadDropsOnlyItself(s: Store, f: Faults, id: string, message: string, keys: seq<string>)
    ensures Collected(s, f.(getErrors := f.getErrors[RecordKey(id) := message]), keys)
         == Without(Collected(s, f, keys), id)
  {
    var f' := f.(getErrors := f.getErrors[RecordKey(id) := message]);
    forall j | 0 <= j < |keys| && keys[j] != id
      ensures Resolve(s, f', keys[j]) == Resolve(s, f, keys[j])
    {
      RecordKeyInjective(keys[j], id);
    }
    CollectedSkipsOnly(s, f, s, f', id, keys);
  }

  /** Whether `loadAssociations` gets past its early returns and the index read. */
  predicate Reloads(f: Faults)
  {
    f.reader == Available && IndexKey !in f.getErrors
  }

  /**
    `loadAssociations`: `None` when it returns early or the index read throws
    (the collection is then left as it was), otherwise the new collection.
   */
  function LoadAssociations(s: Store, f: Faults): (r: Option<seq<Association>>)
    ensures r.Some? <==> Reloads(f)
    ensures r.Some? ==> NewestFirst(r.value)
    ensures r.Some? ==> multiset(r.value) == multiset(Collected(s, f, StoredIds(s)))
    ensures r.Some? ==> forall x :: x in r.value <==> x in Collected(s, f, StoredIds(s))
  {
    if f.reader != Available then None
    else if IndexKey in f.getErrors then None
    else
      var c := Collected(s, f, StoredIds(s));
      SameMembers(SortNewestFirst(c), c);
      Some(SortNewestFirst(c))
  }

  /** Reload yields exactly the associations some index id resolves to, each carrying that id. */
  lemma ReloadMembership(s: Store, f: Faults, x: Association)
    requires Reloads(f)
    ensures x in LoadAssociations(s, f).value <==>
      exists i | 0 <= i < |StoredIds(s)| :: StoredIds(s)[i] == x.id && Resolve(s, f, StoredIds(s)[i]) == Some(x)
  {
    CollectedMembers(s, f, StoredIds(s), x);
  }

  /** Reload keeps index order among associations with equal timestamps. */
  lemma ReloadIsStable(s: Store, f: Faults, t: int)
    requires Reloads(f)
    ensures StampedAt(LoadAssociations(s, f).value, t) == StampedAt(Collected(s, f, StoredIds(s)), t)
  {
    SortIsStable(Collected(s, f, StoredIds(s)), t);
  }

  /** An empty or unparseable index reloads as the empty collection rather than failing. */
  lemma BrokenIndexReloadsEmpty(s: Store, f: Faults)
    requires Reloads(f)
    requires |Get(s, IndexKey)| == 0 || DecodeIndex(Get(s, IndexKey)).None?
    ensures LoadAssociations(s, f) == Some([])
  {
  }

  // ---------------------------------------------------------------- add

  /** The form's contents (`newAssociation`). */
  datatype Draft = Draft(platform: string, brand: string, score: int, notes: string)

  /** What one add did: the store afterwards, the contract calls it issued, and whether it threw. */
  datatype Write = Write(store: Store, calls: seq<Call>, outcome: Outcome<()>)

  /** The message `addAssociation` throws when there is no signing contract. */
  const NoSignerText: string := "Failed to get contract with signer"

  /**
    The `try` block of `addAssociation`, up to the success status: encrypt, get
    the signing contract, write the record, then read, extend and write the index.
    `cipher` is what the encryption stand-in produced (or the error it threw).
   */
  function WriteAssociation(
    s: Store, f: Faults, d: Draft, account: string, cipher: Outcome<string>, id: string, timestamp: int)
    : (w: Write)
    requires '-' in id
    // the record write is the first call on the contract
    ensures |w.calls| > 0 ==> w.calls[0] == SetCall(RecordKey(id))
    // the index is only touched after the record write went through
    ensures GetCall(IndexKey) in w.calls ==> RecordKey(id) !in f.setErrors
    ensures SetCall(IndexKey) in w.calls ==> RecordKey(id) !in f.setErrors && IndexKey !in f.getErrors
    // the calls are always a prefix of: write the record, read the index, write the index
    ensures w.calls <= [SetCall(RecordKey(id)), GetCall(IndexKey), SetCall(IndexKey)]
    ensures w.outcome.Ok? ==> w.calls == [SetCall(RecordKey(id)), GetCall(IndexKey), SetCall(IndexKey)]
    // a failed add never changes the index
    ensures w.outcome.Thrown? ==> Get(w.store, IndexKey) == Get(s, IndexKey)
    // a throw before the record write (encryption, no signer, signer lookup) issues no call and writes nothing
    ensures !(cipher.Ok? && f.signer == Signer) ==> w.calls == [] && w.store == s
    // a record write that throws stores nothing
    ensures RecordKey(id) in f.setErrors ==> w.store == s
    // the contract is called exactly when encryption and the signer lookup went through
    ensures (cipher.Ok? && f.signer == Signer) <==> w.calls != []
    // a failure after the first call reports the message of the last call, which is the one that threw
    ensures w.outcome.Thrown? && w.calls != [] ==>
      var c := w.calls[|w.calls| - 1];
      if c.SetCall? then c.key in f.setErrors && w.outcome.message == f.setErrors[c.key]
      else c.key in f.getErrors && w.outcome.message == f.getErrors[c.key]
    // a failure before it reports the encryption's or the signer lookup's own message
    ensures w.outcome.Thrown? && w.calls == [] ==>
      w.outcome.message
        == (if cipher.Thrown? then cipher.message else if f.signer == NoSigner then NoSignerText else f.signer.message)
    // nothing but the record key and the index key is written
    ensures w.store - {RecordKey(id), IndexKey} == s - {RecordKey(id), IndexKey}
    ensures w.outcome.Ok? <==>
      cipher.Ok? && f.signer == Signer && RecordKey(id) !in f.setErrors
      && IndexKey !in f.getErrors && IndexKey !in f.setErrors
    // on success the index lists the old ids plus the new one, and the record holds the draft
    ensures w.outcome.Ok? ==> DecodeIndex(Get(w.store, IndexKey)) == Some(StoredIds(s) + [id])
    ensures w.outcome.Ok? ==>
      DecodeRecord(Get(w.store, RecordKey(id)))
        == Some(RecordFields(d.platform, d.brand, d.score, cipher.value, timestamp))
    ensures w.outcome.Ok? ==> FieldOf(Get(w.store, RecordKey(id)), "owner") == Some(TStr(account))
  {
    DashedIdAvoidsIndex(id);
    if cipher.Thrown? then Write(s, [], Thrown(cipher.message))
    else if f.signer == NoSigner then Write(s, [], Thrown(NoSignerText))
    else if f.signer.SignerThrows? then Write(s, [], Thrown(f.signer.message))
    else
      var rk := RecordKey(id);
      var rec := StoredRecord(d.platform, d.brand, d.score, cipher.value, timestamp, account);
      if rk in f.setErrors then Write(s, [SetCall(rk)], Thrown(f.setErrors[rk]))
      else
        var s1 := s[rk := EncodeRecord(rec)];
        if IndexKey in f.getErrors then
          Write(s1, [SetCall(rk), GetCall(IndexKey)], Thrown(f.getErrors[IndexKey]))
        else
          var keys := StoredIds(s1) + [id];
          if IndexKey in f.setErrors then
            Write(s1, [SetCall(rk), GetCall(IndexKey), SetCall(IndexKey)], Thrown(f.setErrors[IndexKey]))
          else
            RecordRoundTrip(rec);
            RecordFieldRoundTrip(rec);
            IndexCodecIff(EncodeIndex(keys), keys);
            Write(s1[IndexKey := EncodeIndex(keys)],
                  [SetCall(rk), GetCall(IndexKey), SetCall(IndexKey)], Ok(()))
  }

  /** The index append keeps every id already listed, repeats included: there is no de-duplication. */
  lemma AppendKeepsDuplicates(
    s: Store, f: Faults, d: Draft, account: string, cipher: Outcome<string>, id: string, timestamp: int)
    requires '-' in id && id in StoredIds(s)
    requires WriteAssociation(s, f, d, account, cipher, id, timestamp).outcome.Ok?
    ensures multiset(StoredIds(WriteAssociation(s, f, d, account, cipher, id, timestamp).store))[id]
         == multiset(StoredIds(s))[id] + 1 >= 2
  {
    var w := WriteAssociation(s, f, d, account, cipher, id, timestamp);
    IndexCodecIff(Get(w.store, IndexKey), StoredIds(s) + [id]);
    IdsInEncoded(StoredIds(s) + [id]);
  }

  /** A corrupt index is replaced by one listing only the new id. */
  lemma CorruptIndexRestartsList(
    s: Store, f: Faults, d: Draft, account: string, cipher: Outcome<string>, id: string, timestamp: int)
    requires '-' in id && DecodeIndex(Get(s, IndexKey)).None?
    requires WriteAssociation(s, f, d, account, cipher, id, timestamp).outcome.Ok?
    ensures StoredIds(WriteAssociation(s, f, d, account, cipher, id, timestamp).store) == [id]
  {
    var w := WriteAssociation(s, f, d, account, cipher, id, timestamp);
    IndexCodecIff(Get(w.store, IndexKey), [id]);
    IdsInEncoded([id]);
  }

  /** When the record write throws, the only call issued is that write, and nothing is stored. */
  lemma RecordWriteFailureWritesNothing(
    s: Store, f: Faults, d: Draft, account: string, cipher: Outcome<string>, id: string, timestamp: int)
    requires '-' in id && cipher.Ok? && f.signer == Signer && RecordKey(id) in f.setErrors
    ensures WriteAssociation(s, f, d, account, cipher, id, timestamp)
         == Write(s, [SetCall(RecordKey(id))], Thrown(f.setErrors[RecordKey(id)]))
  {
  }
}
