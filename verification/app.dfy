/**
  The component's state and the transitions its handlers make on it: refresh,
  add (with its status notification), the form's submit guard and the timed
  resets. The wallet is reduced to whether a provider is connected and the
  current account.
 */
module App {
  import opened Wrappers
  import opened Strings
  import opened Codec
  import opened KeyValue
  import opened Collection
  import opened Sync
  import opened View

  /** The transaction notification: hidden (`Idle`), or visible with a status and a message. */
  datatype TxStatus = Idle | Pending(message: string) | Succeeded(message: string) | Failed(message: string)

  const PendingText: string := "Encrypting brand data with FHE..."
  const SuccessText: string := "Brand data encrypted and stored securely!"
  const RejectedText: string := "Transaction rejected by user"
  const FailurePrefix: string := "Submission failed: "

  const EmptyDraft: Draft := Draft("", "", 0, "")

  datatype AppState = AppState(
    account: string,
    connected: bool,
    associations: seq<Association>,
    loading: bool,
    isRefreshing: bool,
    adding: bool,
    showAddModal: bool,
    status: TxStatus,
    form: Draft,
    searchTerm: string,
    activeTab: string)

  // ---------------------------------------------------------------- refresh

  /**
    `loadAssociations` on the component: `isRefreshing` is raised for the
    duration of the load and cleared (with `loading`) on every path; the
    collection is replaced only when the load gets past its early returns.
   */
  function Refresh(st: AppState, s: Store, f: Faults): (r: AppState)
    ensures !r.isRefreshing && !r.loading
    ensures !Reloads(f) ==> r.associations == st.associations
    ensures Reloads(f) ==> NewestFirst(r.associations)
    ensures Reloads(f) ==> forall x :: x in r.associations <==> x in Collected(s, f, StoredIds(s))
    ensures Reloads(f) ==> multiset(r.associations) == multiset(Collected(s, f, StoredIds(s)))
    // the new collection is exactly what the reload produced, ties in index order included
    ensures Reloads(f) ==> r.associations == LoadAssociations(s, f).value
    ensures r.(associations := st.associations, isRefreshing := st.isRefreshing, loading := st.loading) == st
  {
    var busy := st.(isRefreshing := true);
    var loaded := LoadAssociations(s, f);
    var next := if loaded.Some? then loaded.value else busy.associations;
    busy.(associations := next, isRefreshing := false, loading := false)
  }

  /** Refreshing keeps index order among associations with equal timestamps. */
  lemma RefreshKeepsTieOrder(st: AppState, s: Store, f: Faults, t: int)
    requires Reloads(f)
    ensures StampedAt(Refresh(st, s, f).associations, t) == StampedAt(Collected(s, f, StoredIds(s)), t)
  {
    ReloadIsStable(s, f, t);
  }

  // ---------------------------------------------------------------- add

  /** The notification text for an error thrown while adding. */
  function FailureMessage(error: string): (m: string)
    ensures m == RejectedText <==> Contains(error, "user rejected transaction")
    ensures !Contains(error, "user rejected transaction") ==>
      |m| > |FailurePrefix| && m[..|FailurePrefix|] == FailurePrefix
    ensures !Contains(error, "user rejected transaction") && error != "" ==> m[|FailurePrefix|..] == error
    ensures !Contains(error, "user rejected transaction") && error == "" ==> m == FailurePrefix + "Unknown error"
  {
    if Contains(error, "user rejected transaction") then RejectedText
    else
      var m := FailurePrefix + (if error == "" then "Unknown error" else error);
      assert m[0] != RejectedText[0];
      m
  }

  /** What one add left behind, and the statuses it showed, in order. */
  datatype AddStep = AddStep(state: AppState, store: Store, calls: seq<Call>, shown: seq<TxStatus>)

  /**
    `addAssociation`. Without a provider nothing happens; otherwise the status
    goes to pending, the two-phase write runs, and the status ends at success
    (after which the collection is reloaded) or at the classified error.
   */
  function AddAssociation(
    st: AppState, s: Store, f: Faults, cipher: Outcome<string>, id: string, timestamp: int)
    : (r: AddStep)
    requires '-' in id
    ensures !st.connected ==> r == AddStep(st, s, [], [])
    ensures st.connected ==>
      |r.shown| == 2 && r.shown[0] == Pending(PendingText) && r.state.status == r.shown[1] && !r.state.adding
    ensures st.connected ==>
      var w := WriteAssociation(s, f, st.form, st.account, cipher, id, timestamp);
      r.store == w.store && r.calls == w.calls
      && (w.outcome.Ok? ==> r.shown[1] == Succeeded(SuccessText))
      && (w.outcome.Thrown? ==> r.shown[1] == Failed(FailureMessage(w.outcome.message)))
    ensures st.connected && r.shown[1].Failed? ==> r.state.associations == st.associations
    // nothing but the status and `adding` changes on a failure, and after a success only the reload adds to that
    ensures st.connected && r.shown[1].Failed? ==> r.state == st.(status := r.shown[1], adding := false)
    ensures st.connected && r.shown[1].Succeeded? ==>
      r.state == Refresh(st, r.store, f).(status := r.shown[1], adding := false)
  {
    if !st.connected then AddStep(st, s, [], [])
    else
      var started := st.(adding := true, status := Pending(PendingText));
      var w := WriteAssociation(s, f, st.form, st.account, cipher, id, timestamp);
      match w.outcome
      case Ok(_) =>
        var done := Refresh(started.(status := Succeeded(SuccessText)), w.store, f);
        AddStep(done.(adding := false), w.store, w.calls, [Pending(PendingText), Succeeded(SuccessText)])
      case Thrown(e) =>
        var failed := Failed(FailureMessage(e));
        AddStep(started.(status := failed, adding := false), w.store, w.calls, [Pending(PendingText), failed])
  }

  /** `ModalAdd.handleSubmit`: both brand and platform must be filled in before anything is submitted. */
  function SubmitForm(
    st: AppState, s: Store, f: Faults, cipher: Outcome<string>, id: string, timestamp: int)
    : (r: AddStep)
    requires '-' in id
    ensures st.form.brand == "" || st.form.platform == "" ==> r == AddStep(st, s, [], [])
    ensures r.calls != [] || r.shown != [] ==> st.form.brand != "" && st.form.platform != ""
    ensures st.form.brand != "" && st.form.platform != "" ==>
      r == AddAssociation(st, s, f, cipher, id, timestamp)
  {
    if st.form.brand == "" || st.form.platform == "" then AddStep(st, s, [], [])
    else AddAssociation(st, s, f, cipher, id, timestamp)
  }

  /**
    The timer an add schedules: after a success the notification is hidden,
    the modal closed and the form cleared; after an error only the
    notification is hidden.
   */
  function AutoReset(st: AppState): (r: AppState)
    ensures r.status == Idle
    ensures r.associations == st.associations
    ensures st.status.Succeeded? ==> !r.showAddModal && r.form == EmptyDraft
    ensures !st.status.Succeeded? ==> r == st.(status := Idle)
    // only the status, the modal and the form are touched
    ensures r.(status := st.status, showAddModal := st.showAddModal, form := st.form) == st
  {
    match st.status
    case Succeeded(_) => st.(status := Idle, showAddModal := false, form := EmptyDraft)
    case _ => st.(status := Idle)
  }

  // ---------------------------------------------------------------- properties of add

  /** Without a provider, adding issues no call and writes nothing. */
  lemma NoProviderNoWrite(st: AppState, s: Store, f: Faults, cipher: Outcome<string>, id: string, timestamp: int)
    requires '-' in id && !st.connected
    ensures AddAssociation(st, s, f, cipher, id, timestamp).calls == []
    ensures AddAssociation(st, s, f, cipher, id, timestamp).store == s
  {
  }

  /** One add runs the status through Idle, Pending, then Succeeded or Failed, and its timer returns it to Idle. */
  lemma StatusLifecycle(st: AppState, s: Store, f: Faults, cipher: Outcome<string>, id: string, timestamp: int)
    requires '-' in id && st.connected && st.status == Idle
    ensures var r := AddAssociation(st, s, f, cipher, id, timestamp);
      [st.status] + r.shown + [AutoReset(r.state).status] == [Idle, Pending(PendingText), r.shown[1], Idle]
      && (r.shown[1].Succeeded? || r.shown[1].Failed?)
  {
  }

  /** The user's rejection is reported as such, and only then. */
  lemma RejectionIsReported(st: AppState, s: Store, f: Faults, cipher: Outcome<string>, id: string, timestamp: int)
    requires '-' in id && st.connected
    requires WriteAssociation(s, f, st.form, st.account, cipher, id, timestamp).outcome.Thrown?
    ensures AddAssociation(st, s, f, cipher, id, timestamp).state.status == Failed(RejectedText) <==>
      Contains(WriteAssociation(s, f, st.form, st.account, cipher, id, timestamp).outcome.message,
               "user rejected transaction")
  {
  }

  /**
    The user rejecting the second wallet prompt, the index write, is reported as a
    rejection: the record is stored but the index is not.
   */
  lemma IndexWriteRejectionIsReported(
    st: AppState, s: Store, f: Faults, cipher: Outcome<string>, id: string, timestamp: int)
    requires '-' in id && st.connected && cipher.Ok? && f.signer == Signer
    requires RecordKey(id) !in f.setErrors && IndexKey !in f.getErrors
    requires IndexKey in f.setErrors && Contains(f.setErrors[IndexKey], "user rejected transaction")
    ensures var r := AddAssociation(st, s, f, cipher, id, timestamp);
      r.state.status == Failed(RejectedText)
      && r.calls == [SetCall(RecordKey(id)), GetCall(IndexKey), SetCall(IndexKey)]
      && Get(r.store, IndexKey) == Get(s, IndexKey)
      && DecodeRecord(Get(r.store, RecordKey(id)))
           == Some(RecordFields(st.form.platform, st.form.brand, st.form.score, cipher.value, timestamp))
  {
    var w := WriteAssociation(s, f, st.form, st.account, cipher, id, timestamp);
    RecordRoundTrip(StoredRecord(st.form.platform, st.form.brand, st.form.score, cipher.value, timestamp, st.account));
    DashedIdAvoidsIndex(id);
    assert w.store == s[RecordKey(id) := EncodeRecord(
      StoredRecord(st.form.platform, st.form.brand, st.form.score, cipher.value, timestamp, st.account))];
  }

  /** A record write that throws leaves the index unchanged and the status at Failed. */
  lemma RecordWriteFailureKeepsIndex(
    st: AppState, s: Store, f: Faults, cipher: Outcome<string>, id: string, timestamp: int)
    requires '-' in id && st.connected && cipher.Ok? && f.signer == Signer && RecordKey(id) in f.setErrors
    ensures var r := AddAssociation(st, s, f, cipher, id, timestamp);
      r.calls == [SetCall(RecordKey(id))] && r.store == s
      && StoredIds(r.store) == StoredIds(s) && r.state.status.Failed?
  {
    RecordWriteFailureWritesNothing(s, f, st.form, st.account, cipher, id, timestamp);
  }

  /**
    A successful add, followed by its reload, lists the new association with
    the form's platform, brand and score and the given timestamp.
   */
  lemma AddedAssociationIsListed(
    st: AppState, s: Store, f: Faults, cipher: Outcome<string>, id: string, timestamp: int)
    requires '-' in id && st.connected && cipher.Ok? && f.signer == Signer && f.reader == Available
    requires RecordKey(id) !in f.setErrors && RecordKey(id) !in f.getErrors
    requires IndexKey !in f.getErrors && IndexKey !in f.setErrors
    ensures var r := AddAssociation(st, s, f, cipher, id, timestamp);
      r.shown[1] == Succeeded(SuccessText)
      && Association(id, st.form.platform, st.form.brand, st.form.score, cipher.value, timestamp)
         in r.state.associations
  {
    var w := WriteAssociation(s, f, st.form, st.account, cipher, id, timestamp);
    var keys := StoredIds(s) + [id];
    IndexCodecIff(Get(w.store, IndexKey), keys);
    IdsInEncoded(keys);
    assert StoredIds(w.store) == keys;
    var x := Association(id, st.form.platform, st.form.brand, st.form.score, cipher.value, timestamp);
    assert Resolve(w.store, f, keys[|keys| - 1]) == Some(x);
    CollectedMembers(w.store, f, keys, x);
  }

  /**
    When the record write succeeds but the index update fails, the record is an
    orphan: no later reload lists it, provided the index did not already name it.
   */
  lemma OrphanIsNotListed(
    st: AppState, s: Store, f: Faults, cipher: Outcome<string>, id: string, timestamp: int,
    f': Faults, x: Association)
    requires '-' in id && st.connected && cipher.Ok? && f.signer == Signer && RecordKey(id) !in f.setErrors
    requires IndexKey in f.getErrors || IndexKey in f.setErrors
    requires id !in StoredIds(s)
    ensures var r := AddAssociation(st, s, f, cipher, id, timestamp);
      r.state.status.Failed?
      && Get(r.store, RecordKey(id)) == EncodeRecord(StoredRecord(
           st.form.platform, st.form.brand, st.form.score, cipher.value, timestamp, st.account))
      && (x in Refresh(r.state, r.store, f').associations && Reloads(f') ==> x.id != id)
  {
    var r := AddAssociation(st, s, f, cipher, id, timestamp);
    assert StoredIds(r.store) == StoredIds(s);
    if x in Refresh(r.state, r.store, f').associations && Reloads(f') {
      CollectedMembers(r.store, f', StoredIds(s), x);
    }
  }
}
