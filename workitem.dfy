/** The work-item view of lib/scriptoria-core/workitem.rb: how the
    callback URL, the status, the public fields, the proceed URL and the
    callback payload are derived from a Ruote work item's field map, and
    the two operations that change that map in place. */
module Workitems {
  import opened Json
  import opened Results

  /** Reserved keys: the engine's two status markers (their presence, not
      their value, is what counts) and the two keys hidden from remote
      applications. */
  const TimedOutKey: string := "__timed_out__"
  const ErrorKey: string := "__error__"
  const CallbacksKey: string := "callbacks"
  const DispatchedAtKey: string := "dispatched_at"

  /** Storage ids of work items carry this prefix. */
  const StorageKeyPrefix: string := "wi!"

  /** The pieces of the proceed URL around the two ids. */
  const WorkflowsSegment: string := "/v1/workflows/"
  const WorkitemsSegment: string := "/workitems/"
  const ProceedSegment: string := "/proceed"

  /** The status vocabulary remote applications see (Ruby symbols). */
  datatype Status = Active | Cancel | Timeout | Error

  /** The callback a payload is built for: `:active` from `on_workitem`,
      `:cancel` from `on_cancel`. */
  datatype CallbackKind = Activation | Cancellation

  /** The exceptions raised by this layer. `CallbacksUnindexable` stands for
      the NoMethodError or TypeError Ruby raises when `fields['callbacks']`
      is missing or is a value that cannot be indexed by a string. */
  datatype WorkitemError =
    | NotFoundError
    | WorkflowMismatchError
    | MissingCallbackUrl
    | CallbacksUnindexable

  // ---------------------------------------------------------------------
  // Status

  /** Ruby's `status`: the timeout marker wins over the error marker. */
  function StatusOf(f: Fields): (s: Status)
    ensures s == Timeout <==> TimedOutKey in f
    ensures s == Error <==> TimedOutKey !in f && ErrorKey in f
    ensures s == Active <==> TimedOutKey !in f && ErrorKey !in f
    ensures s != Cancel
  {
    if TimedOutKey in f then Timeout
    else if ErrorKey in f then Error
    else Active
  }

  /** The field map after `reset_status!`: both markers gone, nothing else
      touched. */
  function ResetMarkers(f: Fields): (g: Fields)
    ensures TimedOutKey !in g && ErrorKey !in g
    ensures StatusOf(g) == Active
    ensures forall k :: k in f && k != TimedOutKey && k != ErrorKey ==> k in g && g[k] == f[k]
    ensures forall k :: k in g ==> k in f
  {
    f - {TimedOutKey, ErrorKey}
  }

  /** The status a callback of the given kind reports, as the callers in
      http_participant.rb and the tests expect it (`status(state)`): an
      activation reports the status after `reset_status!`; a cancellation
      reports `status`, with the final `:active` replaced by `:cancel`. */
  function StatusFor(f: Fields, kind: CallbackKind): (s: Status)
    ensures kind == Activation ==> s == Active
    ensures kind == Cancellation ==>
      (s == Cancel <==> TimedOutKey !in f && ErrorKey !in f) &&
      (s == Timeout <==> TimedOutKey in f) &&
      (s == Error <==> TimedOutKey !in f && ErrorKey in f)
  {
    match kind
    case Activation => StatusOf(ResetMarkers(f))
    case Cancellation => if StatusOf(f) == Active then Cancel else StatusOf(f)
  }

  // ---------------------------------------------------------------------
  // Public fields

  /** Ruby's `fields`: a copy of the field map without `callbacks` and
      `dispatched_at`; every other entry passes through unchanged. */
  function PublicFields(f: Fields): (p: Fields)
    ensures CallbacksKey !in p && DispatchedAtKey !in p
    ensures forall k :: k in f && k != CallbacksKey && k != DispatchedAtKey ==> k in p && p[k] == f[k]
    ensures forall k :: k in p ==> k in f
  {
    f - {CallbacksKey, DispatchedAtKey}
  }

  /** Hiding the reserved keys twice hides nothing more. */
  lemma PublicFieldsIdempotent(f: Fields)
    ensures PublicFields(PublicFields(f)) == PublicFields(f)
  {
  }

  /** What a merge does to the public fields: the public part of the update
      overrides, the rest of the public fields stays. */
  lemma PublicFieldsOfMerge(f: Fields, m: Fields)
    ensures PublicFields(f + m) == PublicFields(f) + PublicFields(m)
  {
  }


  /** A merge that brings no marker leaves the status as it was. */
  lemma StatusOfMerge(f: Fields, m: Fields)
    requires TimedOutKey !in m && ErrorKey !in m
    ensures StatusOf(f + m) == StatusOf(f)
  {
  }

  // ---------------------------------------------------------------------
  // Callback URL

  /** `t` occurs in `s` starting at index `i`. */
  predicate OccursAt(t: string, s: string, i: int) {
    0 <= i <= |s| - |t| && s[i..i + |t|] == t
  }

  /** Ruby's `String#[]` with a string argument: `t` is a substring of `s`,
      searched from the front. */
  predicate IsSubstring(t: string, s: string)
    ensures IsSubstring(t, s) <==> exists i :: OccursAt(t, s, i)
    decreases |s|
  {
    if |t| > |s| then false
    else if s[..|t|] == t then assert OccursAt(t, s, 0); true
    else OccurrencesAfterFirst(t, s); IsSubstring(t, s[1..])
  }

  /** The occurrences in `s[1..]` are those in `s` shifted by one. */
  lemma OccurrencesAfterFirst(t: string, s: string)
    requires |s| > 0 && !OccursAt(t, s, 0)
    ensures (exists i :: OccursAt(t, s[1..], i)) <==> (exists i :: OccursAt(t, s, i))
  {
    forall i | OccursAt(t, s[1..], i) ensures OccursAt(t, s, i + 1) {
      assert s[1..][i..i + |t|] == s[i + 1..i + 1 + |t|];
    }
    forall i | OccursAt(t, s, i) ensures OccursAt(t, s[1..], i - 1) {
      assert s[1..][i - 1..i - 1 + |t|] == s[i..i + |t|];
    }
  }

  /** `t` is not a substring of `s` when no window of `s` agrees with `t`
      both at its first position and at position `k`. */
  lemma NoOccurrence(t: string, s: string, k: nat)
    requires 0 < k < |t|
    requires forall i | 0 <= i <= |s| - |t| :: s[i] != t[0] || s[i + k] != t[k]
    ensures !IsSubstring(t, s)
  {
    forall i | 0 <= i <= |s| - |t| ensures !OccursAt(t, s, i) {
      assert s[i..i + |t|][0] == s[i] && s[i..i + |t|][k] == s[i + k];
    }
  }

  /** Ruby's `callback_url`: `fields['callbacks'][participant]`, where a nil
      result raises `MissingCallbackUrl`. With a hash of callbacks this is
      the participant's own entry; a string of callbacks is indexed as a
      string, which yields the participant name itself when it occurs in
      that string; any other shape (including no `callbacks` key) cannot be
      indexed by a string and raises. */
  function CallbackUrlIn(f: Fields, participant: string): (r: Result<Value, WorkitemError>)
    ensures r.Success? ==> CallbacksKey in f && r.value != Null
    ensures CallbacksKey in f && f[CallbacksKey].Obj? ==>
      var callbacks := f[CallbacksKey].members;
      && (r.Success? <==> participant in callbacks && callbacks[participant] != Null)
      && (r.Success? ==> r.value == callbacks[participant])
      && (r.Failure? ==> r.error == MissingCallbackUrl)
    ensures CallbacksKey in f && f[CallbacksKey].Str? ==>
      && (r.Success? <==> IsSubstring(participant, f[CallbacksKey].s))
      && (r.Success? ==> r.value == Str(participant))
      && (r.Failure? ==> r.error == MissingCallbackUrl)
    ensures CallbacksKey !in f || !(f[CallbacksKey].Obj? || f[CallbacksKey].Str?) ==>
      r == Failure(CallbacksUnindexable)
  {
    if CallbacksKey !in f then Failure(CallbacksUnindexable)
    else match f[CallbacksKey]
      case Obj(callbacks) =>
        if participant in callbacks && callbacks[participant] != Null
        then Success(callbacks[participant])
        else Failure(MissingCallbackUrl)
      case Str(s) =>
        if IsSubstring(participant, s) then Success(Str(participant)) else Failure(MissingCallbackUrl)
      case _ => Failure(CallbacksUnindexable)
  }

  /** Another participant's entry is never returned: with a hash of
      callbacks the URL found is exactly the entry under the active
      participant's name. */
  lemma CallbackUrlIsOwnEntry(f: Fields, participant: string, other: string)
    requires CallbacksKey in f && f[CallbacksKey].Obj?
    requires other != participant && other in f[CallbacksKey].members
    requires participant !in f[CallbacksKey].members
    ensures CallbackUrlIn(f, participant) == Failure(MissingCallbackUrl)
  {
  }

  /** A string under `callbacks` is not a catch-all URL: the whole string is
      never returned for a participant whose name differs from it. */
  lemma StringCallbacksAreNotCatchAll(f: Fields, participant: string)
    requires CallbacksKey in f && f[CallbacksKey].Str?
    requires participant != f[CallbacksKey].s
    ensures CallbackUrlIn(f, participant) != Success(f[CallbacksKey])
  {
  }

  /** The catch-all case of the specs: with the string
      `"http://localhost:1234/callbacks"` under `callbacks`, participant
      `alpha` gets `MissingCallbackUrl`, not that string, because `alpha`
      does not occur in it. */
  lemma CatchAllStringFixture()
    ensures CallbackUrlIn(FixtureFields()[CallbacksKey := Str("http://localhost:1234/callbacks")], "alpha")
            == Failure(MissingCallbackUrl)
  {
    var s := "http://localhost:1234/callbacks";
    assert forall i | 0 <= i <= |s| - 5 :: s[i] != 'a' || s[i + 2] != 'p';
    NoOccurrence("alpha", s, 2);
  }

  // ---------------------------------------------------------------------
  // Proceed URL

  /** Ruby's `proceed_url`, with `ENV['BASE_URL']` passed in as `baseUrl`. */
  function ProceedUrl(baseUrl: string, workflowId: string, workitemId: string): (u: string)
    ensures |u| == |baseUrl| + |WorkflowsSegment| + |workflowId| + |WorkitemsSegment| + |workitemId| + |ProceedSegment|
    ensures u[..|baseUrl| + |WorkflowsSegment|] == baseUrl + WorkflowsSegment
    ensures u[|u| - |ProceedSegment|..] == ProceedSegment
  {
    baseUrl + WorkflowsSegment + workflowId + WorkitemsSegment + workitemId + ProceedSegment
  }

  /** Two strings without '/' that are each followed by something starting
      with '/' split a common string at the same place. */
  lemma SplitAtFirstSlash(a: string, x: string, b: string, y: string)
    requires '/' !in a && '/' !in b
    requires |x| > 0 && x[0] == '/' && |y| > 0 && y[0] == '/'
    requires a + x == b + y
    ensures a == b && x == y
  {
    var n := if |a| < |b| then |a| else |b|;
    assert (a + x)[n] == (b + y)[n];
    assert |a| == |b|;
    assert a == (a + x)[..|a|] == (b + y)[..|b|] == b;
    assert x == (a + x)[|a|..] == (b + y)[|b|..] == y;
  }

  /** The workflow and work-item ids can be read back from a proceed URL
      when the workflow id has no '/'. */
  lemma ProceedUrlInjective(baseUrl: string, w1: string, i1: string, w2: string, i2: string)
    requires '/' !in w1 && '/' !in w2
    requires ProceedUrl(baseUrl, w1, i1) == ProceedUrl(baseUrl, w2, i2)
    ensures w1 == w2 && i1 == i2
  {
    var head := baseUrl + WorkflowsSegment;
    var x1 := WorkitemsSegment + i1 + ProceedSegment;
    var x2 := WorkitemsSegment + i2 + ProceedSegment;
    var u1 := ProceedUrl(baseUrl, w1, i1);
    var u2 := ProceedUrl(baseUrl, w2, i2);
    assert u1 == head + (w1 + x1);
    assert u2 == head + (w2 + x2);
    assert w1 + x1 == u1[|head|..] == u2[|head|..] == w2 + x2;
    SplitAtFirstSlash(w1, x1, w2, x2);
    assert i1 == x1[|WorkitemsSegment|..|x1| - |ProceedSegment|];
    assert i2 == x2[|WorkitemsSegment|..|x2| - |ProceedSegment|];
  }

  /** Without that condition two different id pairs can share a URL. */
  lemma ProceedUrlAmbiguousWithSlash()
    ensures ProceedUrl("", "a/workitems/b", "c") == ProceedUrl("", "a", "b/workitems/c")
  {
  }

  // ---------------------------------------------------------------------
  // Callback payload

  /** The payload posted to remote applications. */
  datatype Payload = Payload(
    workflowId: string,
    workitemId: string,
    participant: string,
    status: Status,
    fields: Fields,
    proceedUrl: string)

  /** Ruby's `callback_payload`, as written: no argument, status `status`. */
  function CallbackPayload(baseUrl: string, workflowId: string, workitemId: string,
                           participant: string, f: Fields): (p: Payload)
    ensures p.workflowId == workflowId && p.workitemId == workitemId && p.participant == participant
    ensures p.status == StatusOf(f) && p.fields == PublicFields(f)
    ensures p.proceedUrl == ProceedUrl(baseUrl, workflowId, workitemId)
  {
    Payload(workflowId, workitemId, participant, StatusOf(f), PublicFields(f),
            ProceedUrl(baseUrl, workflowId, workitemId))
  }

  /** The payload with the status of the given callback kind, as the caller
      in http_participant.rb and the tests use `callback_payload(state)`. It
      differs from `CallbackPayload` in the status only. */
  function CallbackPayloadFor(kind: CallbackKind, baseUrl: string, workflowId: string,
                              workitemId: string, participant: string, f: Fields): (p: Payload)
    ensures p == CallbackPayload(baseUrl, workflowId, workitemId, participant, f).(status := StatusFor(f, kind))
    ensures CallbacksKey !in p.fields && DispatchedAtKey !in p.fields
    ensures kind == Activation ==> p.status == Active
    ensures kind == Cancellation ==> p.status == (if StatusOf(f) == Active then Cancel else StatusOf(f))
  {
    CallbackPayload(baseUrl, workflowId, workitemId, participant, f).(status := StatusFor(f, kind))
  }

  /** The JSON name of a status symbol. */
  function StatusName(s: Status): string {
    match s
    case Active => "active"
    case Cancel => "cancel"
    case Timeout => "timeout"
    case Error => "error"
  }

  function ParseStatus(name: string): Option<Status> {
    if name == "active" then Some(Active)
    else if name == "cancel" then Some(Cancel)
    else if name == "timeout" then Some(Timeout)
    else if name == "error" then Some(Error)
    else None
  }

  const PayloadKeys: set<string> :=
    {"workflow_id", "workitem_id", "participant", "status", "fields", "proceed_url"}

  /** The JSON object the payload hash becomes: its keys are exactly the six
      payload keys, `status` is the symbol's name and `fields` the public
      fields as an object. */
  function PayloadJson(p: Payload): (v: Value)
    ensures v.Obj? && v.members.Keys == PayloadKeys
    ensures v.members["status"] == Str(StatusName(p.status))
    ensures v.members["fields"] == Obj(p.fields)
    ensures v.members["proceed_url"] == Str(p.proceedUrl)
  {
    Obj(map[
      "workflow_id" := Str(p.workflowId),
      "workitem_id" := Str(p.workitemId),
      "participant" := Str(p.participant),
      "status" := Str(StatusName(p.status)),
      "fields" := Obj(p.fields),
      "proceed_url" := Str(p.proceedUrl)])
  }

  /** How a remote application reads a payload object back. */
  function PayloadFromJson(v: Value): Option<Payload> {
    if v.Obj? && PayloadKeys <= v.members.Keys then
      var m := v.members;
      match (m["workflow_id"], m["workitem_id"], m["participant"], m["status"], m["fields"], m["proceed_url"])
      case (Str(wf), Str(wi), Str(pa), Str(st), Obj(fs), Str(pu)) =>
        (match ParseStatus(st)
         case Some(s) => Some(Payload(wf, wi, pa, s, fs, pu))
         case None => None)
      case _ => None
    else None
  }

  /** Every payload survives its JSON rendering unchanged. */
  lemma PayloadJsonRoundTrip(p: Payload)
    ensures PayloadFromJson(PayloadJson(p)) == Some(p)
  {
  }

  // ---------------------------------------------------------------------
  // Storage lookup

  /** A work-item document as the engine's storage keeps it. */
  datatype StoredWorkitem = StoredWorkitem(
    storageId: string,
    wfid: string,
    participantName: string,
    fields: Fields)

  /** The checks of Ruby's `find`, in their order: no document under
      `'wi!' + workitemId` raises `NotFoundError`; a document of another
      workflow raises `WorkflowMismatchError`. */
  function Locate(storage: map<string, StoredWorkitem>, workflowId: string, workitemId: string)
    : (r: Result<StoredWorkitem, WorkitemError>)
    ensures r == Failure(NotFoundError) <==> StorageKeyPrefix + workitemId !in storage
    ensures r == Failure(WorkflowMismatchError) <==>
      StorageKeyPrefix + workitemId in storage && storage[StorageKeyPrefix + workitemId].wfid != workflowId
    ensures r.Success? <==>
      StorageKeyPrefix + workitemId in storage && storage[StorageKeyPrefix + workitemId].wfid == workflowId
    ensures r.Success? ==> r.value == storage[StorageKeyPrefix + workitemId]
  {
    var key := StorageKeyPrefix + workitemId;
    if key !in storage then Failure(NotFoundError)
    else if storage[key].wfid != workflowId then Failure(WorkflowMismatchError)
    else Success(storage[key])
  }

  // ---------------------------------------------------------------------
  // The work item of the Ruby specs

  function FixtureFields(): Fields {
    map[
      CallbacksKey := Obj(map[
        "alpha" := Str("http://localhost:1234/callback/alpha"),
        "beta" := Str("http://localhost:1234/callback/beta")]),
      "params" := Obj(map["ref" := Str("alpha")]),
      DispatchedAtKey := Str("2015-10-02 15:43:58.045568 UTC"),
      "status" := Str("pending")]
  }

  /** The active participant's own URL is found; a participant without an
      entry gets `MissingCallbackUrl`. */
  lemma FixtureCallbackUrls()
    ensures CallbackUrlIn(FixtureFields(), "alpha") == Success(Str("http://localhost:1234/callback/alpha"))
    ensures CallbackUrlIn(FixtureFields(), "other") == Failure(MissingCallbackUrl)
  {
  }

  /** The public fields before and after `update_fields({"status" => "success"})`. */
  lemma FixturePublicFields()
    ensures PublicFields(FixtureFields()) ==
      map["params" := Obj(map["ref" := Str("alpha")]), "status" := Str("pending")]
    ensures PublicFields(FixtureFields() + map["status" := Str("success")]) ==
      map["params" := Obj(map["ref" := Str("alpha")]), "status" := Str("success")]
  {
  }

  lemma FixtureProceedUrl()
    ensures ProceedUrl("http://example.com", "wfid123", "0!abc123!wfid123") ==
      "http://example.com/v1/workflows/wfid123/workitems/0!abc123!wfid123/proceed"
  {
    var u1 := "http://example.com" + WorkflowsSegment;
    assert u1 == "http://example.com/v1/workflows/";
    var u2 := u1 + "wfid123";
    assert u2 == "http://example.com/v1/workflows/wfid123";
    var u3 := u2 + WorkitemsSegment;
    assert u3 == "http://example.com/v1/workflows/wfid123/workitems/";
    var u4 := u3 + "0!abc123!wfid123";
    assert u4 == "http://example.com/v1/workflows/wfid123/workitems/0!abc123!wfid123";
    assert u4 + ProceedSegment ==
      "http://example.com/v1/workflows/wfid123/workitems/0!abc123!wfid123/proceed";
  }

  /** The payload of the activation callback for that work item. */
  lemma FixturePayload()
    ensures CallbackPayloadFor(Activation, "http://example.com", "wfid123", "0!abc123!wfid123",
                               "alpha", FixtureFields()) ==
      Payload("wfid123", "0!abc123!wfid123", "alpha", Active,
              map["params" := Obj(map["ref" := Str("alpha")]), "status" := Str("pending")],
              "http://example.com/v1/workflows/wfid123/workitems/0!abc123!wfid123/proceed")
  {
    FixturePublicFields();
    FixtureProceedUrl();
  }

  // ---------------------------------------------------------------------
  // The objects

  /** A Ruote work item: an engine object whose field hash is changed in
      place. Its fei's storage id and wfid are taken as given. */
  class RuoteWorkitem {
    const storageId: string
    const wfid: string
    const participantName: string
    var fields: Fields

    constructor (storageId: string, wfid: string, participantName: string, fields: Fields)
      ensures this.storageId == storageId && this.wfid == wfid
      ensures this.participantName == participantName && this.fields == fields
    {
      this.storageId := storageId;
      this.wfid := wfid;
      this.participantName := participantName;
      this.fields := fields;
    }
  }

  /** `ScriptoriaCore::Workitem`: a view that shares the Ruote work item, so
      changes made through the view are changes to the engine's object. */
  class Workitem {
    const id: string
    const workflowId: string
    const inner: RuoteWorkitem

    constructor (id: string, workflowId: string, inner: RuoteWorkitem)
      ensures this.id == id && this.workflowId == workflowId && this.inner == inner
    {
      this.id := id;
      this.workflowId := workflowId;
      this.inner := inner;
    }

    /** `from_ruote_workitem`: both ids come from the Ruote work item. */
    constructor FromRuoteWorkitem(rw: RuoteWorkitem)
      ensures id == rw.storageId && workflowId == rw.wfid && inner == rw
    {
      id := rw.storageId;
      workflowId := rw.wfid;
      inner := rw;
    }

    /** `find`: looks the document up and wraps it in a new Ruote work item;
        the view takes both ids from the arguments. */
    static method Find(storage: map<string, StoredWorkitem>, workflowId: string, workitemId: string)
      returns (r: Result<Workitem, WorkitemError>)
      ensures r.Failure? <==> Locate(storage, workflowId, workitemId).Failure?
      ensures r.Failure? ==> r.error == Locate(storage, workflowId, workitemId).error
      ensures r.Success? ==>
        var doc := storage[StorageKeyPrefix + workitemId];
        && fresh(r.value) && fresh(r.value.inner)
        && r.value.id == workitemId && r.value.workflowId == workflowId
        && r.value.inner.wfid == workflowId
        && r.value.inner.storageId == doc.storageId
        && r.value.inner.participantName == doc.participantName
        && r.value.inner.fields == doc.fields
    {
      var found := Locate(storage, workflowId, workitemId);
      match found {
        case Failure(e) =>
          r := Failure(e);
        case Success(doc) =>
          var rw := new RuoteWorkitem(doc.storageId, doc.wfid, doc.participantName, doc.fields);
          var w := new Workitem(workitemId, workflowId, rw);
          r := Success(w);
      }
    }

    /** `reset_status!`: deletes both markers from the live field hash. */
    method ResetStatus()
      modifies inner
      ensures inner.fields == ResetMarkers(old(inner.fields))
      ensures StatusOf(inner.fields) == Active
      ensures PublicFields(inner.fields) == ResetMarkers(PublicFields(old(inner.fields)))
    {
      inner.fields := inner.fields - {TimedOutKey};
      inner.fields := inner.fields - {ErrorKey};
      assert inner.fields == ResetMarkers(old(inner.fields));
    }

    /** `update_fields`: writes every entry of `m` into the live field hash,
        one key at a time; entries of `m` win, nothing is removed. */
    method UpdateFields(m: Fields)
      modifies inner
      ensures inner.fields == old(inner.fields) + m
      ensures inner.fields.Keys == old(inner.fields).Keys + m.Keys
      ensures forall k :: k in m ==> inner.fields[k] == m[k]
      ensures forall k :: k in old(inner.fields) && k !in m ==> inner.fields[k] == old(inner.fields)[k]
    {
      var pending := m.Keys;
      while pending != {}
        invariant pending <= m.Keys
        invariant inner.fields == old(inner.fields) + (m - pending)
        decreases pending
      {
        var k :| k in pending;
        inner.fields := inner.fields[k := m[k]];
        pending := pending - {k};
      }
      assert m - pending == m;
    }
  }
}
