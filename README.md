# scriptoria-core: work-item view and callback dispatch, in Dafny

scriptoria-core lets a Ruote workflow hand single steps ("work items") to remote
applications over HTTP. Two pieces of it are modelled here.

- **`ScriptoriaCore::Workitem`** (`workitem.dfy`, module `Workitems`) is a view over a
  Ruote work item. It derives the callback URL, the status (`active`, `timeout`,
  `error`), the public fields, the proceed URL and the callback payload from the
  work item's field map. It also changes that map in place (`reset_status!`,
  `update_fields`), and it looks work items up in the engine's storage (`find`).
  - The derivations are pure functions over the field map (`StatusOf`,
    `PublicFields`, `CallbackUrlIn`, `ProceedUrl`, `CallbackPayload`, `Locate`).
    Ruby's `w.status` is `StatusOf(w.inner.fields)`, and Ruby's `participant_name`
    is `inner.participantName`.
  - `RuoteWorkitem` is the engine's object and holds the mutable `fields` map.
    `Workitem` is the view. It shares its `RuoteWorkitem`, so a change made through
    the view is a change to the engine's object, as in Ruby.
  - The three error classes are the constructors of `WorkitemError`.
- **`ScriptoriaCore::HttpParticipant`** (`http_participant.dfy`, module
  `HttpParticipant`) is the dispatcher. It holds the backoff `n^5 + 30`, the choice
  between redispatching and raising `RetriesExceededError` at `MAX_RETRIES = 10`,
  and the 2xx success rule. It also holds the control flow of `on_workitem`
  (retry after a failed activation callback) and of `on_cancel` (never retry).
  - The HTTP call is an input, `Outcome = Response(code) | TransportError`.
  - The engine's `re_dispatch` and `super` are not performed. The handler returns
    them as a `Reaction`: `Handled(reDispatchIn)` means `super` ran, after a
    redispatch request with that `in:` argument or with none. `Raised(fault)` means
    an exception left the handler.
  - Each handler also returns `sent`, the request it posted, or `None` when it
    raised before posting.
  - `re_dispatch_count` is a plain `nat` argument.
  - `ENV['BASE_URL']` is the `baseUrl` argument. An unset variable interpolates as
    the empty string.

Supporting modules:
- `json.dfy` holds the field value type.
- `results.dfy` holds `Option` and `Result`. `Result` stands for a raised exception.
- `decimal.dfy` models `Integer#to_s`, which builds `"#{delay}s"`, and proves it
  can be read back.

## Where the source and its tests disagree

The model follows `lib/` wherever the two disagree.

- **Arity of `status` and `callback_payload`.** `workitem.rb` defines both without
  a parameter. `http_participant.rb:66` and the specs pass a state instead.
  - `StatusOf` and `CallbackPayload` model the code as written.
  - `StatusFor` and `CallbackPayloadFor` give the behaviour the caller and the specs
    rely on. They are defined from the source's own pieces:
    - the activation status is the status after `reset_status!`, so always `Active`
      (spec/lib/workitem_spec.rb:92-97);
    - the cancellation status is `status` with its final `:active` replaced by
      `:cancel` (spec/lib/workitem_spec.rb:99-111).
  - The dispatcher uses the corrected pair. See "Findings".
- **Shape of `fields['callbacks']`.** `callback_url` indexes the value by
  participant name, and `CallbackUrlIn` does what Ruby does with each shape:
  - a hash gives the participant's own entry, and a nil entry raises
    `MissingCallbackUrl`;
  - a string is indexed as a string (`String#[]`), which returns the participant
    *name* when it occurs in the string and nil otherwise;
  - nil, a number, a boolean or an array raises NoMethodError or TypeError, which
    is `CallbacksUnindexable` here.

  So the catch-all string that spec/lib/workitem_spec.rb:67-70 expects is not
  implemented (`StringCallbacksAreNotCatchAll`; on the specs' own input,
  `CatchAllStringFixture`). The model has no catch-all variant.
- **`update_fields(nil)`.** spec/lib/workitem_spec.rb:158-170 expects this to do
  nothing. The code calls `nil.each`, which raises. Only a map argument is modelled.

## Model

| member | source | states |
|---|---|---|
| `Workitems.StatusOf` | lib/scriptoria-core/workitem.rb:84-92 | `timeout` iff the timed-out marker is present (even with the error marker); `error` iff only the error marker is; `active` iff neither; never `cancel` |
| `Workitems.ResetMarkers` | lib/scriptoria-core/workitem.rb:103-106 | both markers are gone, the status is `active`, every other key keeps its value and no key is added |
| `Workitems.StatusFor` | lib/scriptoria-core/http_participant.rb:64-66 | activation reports `active`; cancellation reports `cancel` iff no marker is present, `timeout` iff the timed-out marker is, `error` iff only the error marker is |
| `Workitems.PublicFields` | lib/scriptoria-core/workitem.rb:124-129 | `callbacks` and `dispatched_at` are absent; every other key of the field map is present with its value; no key is added |
| `Workitems.PublicFieldsIdempotent` | lib/scriptoria-core/workitem.rb:124-129 | filtering the public fields again changes nothing |
| `Workitems.PublicFieldsOfMerge` | lib/scriptoria-core/workitem.rb:124-139 | the public fields after a merge are the old public fields overridden by the public part of the update |
| `Workitems.StatusOfMerge` | lib/scriptoria-core/workitem.rb:84-92 | a merge that brings no marker key leaves the status unchanged |
| `Workitems.CallbackUrlIn` | lib/scriptoria-core/workitem.rb:67-74 | with a hash of callbacks: success iff the participant has a non-nil entry, and the result is that entry; otherwise `MissingCallbackUrl`. With a string: the participant name iff it occurs in the string, else `MissingCallbackUrl`. Any other shape or no `callbacks` key: the Ruby exception `CallbacksUnindexable`. Never returns nil |
| `Workitems.IsSubstring` | lib/scriptoria-core/workitem.rb:68 | Ruby's `String#[]` with a string argument finds something iff the argument occurs in the string at some index |
| `Workitems.CallbackUrlIsOwnEntry` | lib/scriptoria-core/workitem.rb:67-74 | a participant without an entry gets `MissingCallbackUrl` even when other participants have entries |
| `Workitems.StringCallbacksAreNotCatchAll` | lib/scriptoria-core/workitem.rb:67-74 | a string under `callbacks` is never returned whole for a participant whose name differs from it |
| `Workitems.NoOccurrence` | lib/scriptoria-core/workitem.rb:68 | a string is not found inside another when no window agrees with it at its first position and at one other position |
| `Workitems.CatchAllStringFixture` | spec/lib/workitem_spec.rb:67-70 | on the specs' own catch-all input, `"http://localhost:1234/callbacks"` for participant `alpha`, `callback_url` raises `MissingCallbackUrl` instead of returning the string |
| `Workitems.ProceedUrl` | lib/scriptoria-core/workitem.rb:154-156 | the URL starts with the base URL and `/v1/workflows/`, ends with `/proceed`, and is as long as its pieces together |
| `Workitems.ProceedUrlInjective` | lib/scriptoria-core/workitem.rb:154-156 | for one base URL, the proceed URL determines the workflow id and the work-item id, provided the workflow ids contain no `/` |
| `Workitems.ProceedUrlAmbiguousWithSlash` | lib/scriptoria-core/workitem.rb:154-156 | without that proviso two different id pairs can share one proceed URL |
| `Workitems.CallbackPayload` | lib/scriptoria-core/workitem.rb:112-121 | the payload carries both ids and the participant; its status is `status`, its fields are the public fields, and its URL is the proceed URL |
| `Workitems.CallbackPayloadFor` | lib/scriptoria-core/http_participant.rb:66 | the payload for a callback kind differs from `CallbackPayload` only in its status, which is `StatusFor(kind)`; it never exposes `callbacks` or `dispatched_at` |
| `Workitems.PayloadJson` | lib/scriptoria-core/http_participant.rb:66 | the JSON object sent has exactly the keys workflow_id, workitem_id, participant, status, fields and proceed_url; status is the symbol's name and fields is the public field object |
| `Workitems.PayloadJsonRoundTrip` | lib/scriptoria-core/http_participant.rb:66 | a receiver that reads the JSON object back recovers the payload exactly |
| `Workitems.Locate` | lib/scriptoria-core/workitem.rb:37-42 | `NotFoundError` iff there is no document under `'wi!' + id`; `WorkflowMismatchError` iff there is one whose wfid differs; otherwise that document, whose wfid is the one asked for |
| `Workitems.FixtureCallbackUrls` | spec/lib/workitem_spec.rb:57-65 | in the specs' work item, `alpha` gets its own URL and `other` gets `MissingCallbackUrl` |
| `Workitems.FixturePublicFields` | spec/lib/workitem_spec.rb:114-156 | the specs' public fields are `params` and `status` only, and merging `{"status" => "success"}` changes just `status` |
| `Workitems.FixtureProceedUrl` | spec/lib/workitem_spec.rb:88 | the specs' proceed URL |
| `Workitems.FixturePayload` | spec/lib/workitem_spec.rb:78-90 | the specs' activation payload, field by field |
| `Workitems.RuoteWorkitem.constructor` | lib/scriptoria-core/workitem.rb:41 | the engine object holds the document's ids, participant and fields |
| `Workitems.Workitem.constructor` | lib/scriptoria-core/workitem.rb:51-55 | the view holds the id, the workflow id and the engine object it is given |
| `Workitems.Workitem.FromRuoteWorkitem` | lib/scriptoria-core/workitem.rb:18-27 | both ids come from the engine object, which the view shares |
| `Workitems.Workitem.Find` | lib/scriptoria-core/workitem.rb:37-49 | fails exactly as `Locate` does; on success it returns a fresh view whose id and workflow id are the arguments, over a fresh engine object holding the stored document |
| `Workitems.Workitem.ResetStatus` | lib/scriptoria-core/workitem.rb:103-106 | the shared field map loses both markers and nothing else, and the status becomes `active` |
| `Workitems.Workitem.UpdateFields` | lib/scriptoria-core/workitem.rb:135-139 | after the loop every key of the update maps to its new value, every other key keeps its old value, and no key is removed |
| `Decimal.NatToString` | lib/scriptoria-core/http_participant.rb:108 | the rendering is non-empty, all digits, and starts with `0` only for zero |
| `Decimal.NatToStringRoundTrip` | lib/scriptoria-core/http_participant.rb:108 | reading the rendering back gives the number |
| `Decimal.NatToStringInjective` | lib/scriptoria-core/http_participant.rb:108 | different delays render differently |
| `HttpParticipant.SecondsToDelay` | lib/scriptoria-core/http_participant.rb:127-129 | the delay is `count^5 + 30`, at least 30, and 30 only at count 0 |
| `HttpParticipant.DelayStrictlyIncreasing` | lib/scriptoria-core/http_participant.rb:127-129 | a higher count always means a strictly longer delay |
| `HttpParticipant.DelayValues` | lib/scriptoria-core/http_participant.rb:127-129 | the delays at counts 0, 1, 2 and 10 are 30, 31, 62 and 100030 |
| `HttpParticipant.CumulativeDelay` | lib/scriptoria-core/http_participant.rb:114-126 | the sum of the delays of retries 0..k (the time of retry k in the table); that it equals the table is `RetryTimesMatchDocumentation`, and its contract only bounds it below by retry k's own delay |
| `HttpParticipant.RetryTimesMatchDocumentation` | lib/scriptoria-core/http_participant.rb:114-126 | the running sums for retries 0..10 are exactly 30, 61, 123, 396, 1450, 4605, 12411, 29248, 62046, 121125 and 221155 |
| `HttpParticipant.AttemptRetry` | lib/scriptoria-core/http_participant.rb:101-112 | redispatch iff `count <= MAX_RETRIES` (10), always after `seconds_to_delay(count)`; otherwise give up with `RetriesExceededError` |
| `HttpParticipant.RedispatchArgument` | lib/scriptoria-core/http_participant.rb:105-108 | the `in:` argument is the delay's decimal digits, with no leading zero, followed by `s` |
| `HttpParticipant.FirstRedispatchArgument` | lib/scriptoria-core/http_participant.rb:101-112 | at count 0 the work item is redispatched with `"30s"` |
| `HttpParticipant.ScheduledDelays` | lib/scriptoria-core/http_participant.rb:24-27 | the delays scheduled, in order, when every activation callback from count `count` on fails: none past `MAX_RETRIES`, and at most `11 - count` before it |
| `HttpParticipant.ScheduledDelaysShape` | lib/scriptoria-core/http_participant.rb:16 | when every activation callback fails, at most 11 redispatches are scheduled (exactly `11 - count` from count `count`), the i-th after `seconds_to_delay(count + i)` |
| `HttpParticipant.PrefixSumsAreCumulative` | lib/scriptoria-core/http_participant.rb:114-129 | for any sequence whose i-th delay is `seconds_to_delay(i)`, the sum of the first k + 1 delays is the running total of retry k |
| `HttpParticipant.ScheduledDelaysAddUp` | lib/scriptoria-core/http_participant.rb:114-129 | from the first attempt, the first k + 1 scheduled delays add up to the documented time of retry k |
| `HttpParticipant.RequestSucceeded` | lib/scriptoria-core/http_participant.rb:77-89 | success iff the POST returned a response with `200 <= code < 300`; a transport exception is a failure |
| `HttpParticipant.SuccessIsClassTwo` | lib/scriptoria-core/http_participant.rb:79 | for three-digit codes the rule is the 2xx (Successful) class of section 15.3 of RFC 9110 |
| `HttpParticipant.CallbackRequest` | lib/scriptoria-core/http_participant.rb:64-76 | the request goes to the participant's callback URL with content type `application/json` and the payload for the callback kind as body; `callback_url`'s exception is raised instead |
| `HttpParticipant.MakeCallbackRequest` | lib/scriptoria-core/http_participant.rb:64-90 | raises iff `callback_url` raises, and then with its error, whatever the outcome; otherwise it posts exactly `CallbackRequest` for the requested kind: to the callback URL, as `application/json`, with the JSON of that kind's payload as body (which reads back as the payload), and reports `true` iff the response is 2xx, so a transport exception gives `false` |
| `HttpParticipant.OnWorkitem` | lib/scriptoria-core/http_participant.rb:20-31 | a request is posted iff the callback URL resolves, and it is the activation request, whose payload status is `active`; a missing URL is raised; a successful callback schedules no redispatch; a failed one redispatches after `seconds_to_delay(count)` while `count <= 10` and raises `RetriesExceededError` after that |
| `HttpParticipant.OnCancel` | lib/scriptoria-core/http_participant.rb:35-42 | a request is posted iff the callback URL resolves, and it is the cancellation request, whose payload status is `cancel`, or `timeout`/`error` when a marker says so; it never redispatches, whatever the outcome; it raises iff `callback_url` raises, with that error |
| `HttpParticipant.ArityCheck` | lib/scriptoria-core/http_participant.rb:66 | for a method with required positional parameters only, with no optional or rest parameters, a call raises ArgumentError iff the number of arguments differs from the number of those parameters |
| `HttpParticipant.MakeCallbackRequestAgainst` | lib/scriptoria-core/http_participant.rb:64-90 | against a `callback_payload` with required positional parameters only, with no optional or rest parameters: if it requires none (or more than one), the call at line 66 raises ArgumentError; if it requires exactly `state`, the result is `MakeCallbackRequest`'s, with its error wrapped as a callback fault |
| `HttpParticipant.MakeCallbackRequestAsWritten` | lib/scriptoria-core/http_participant.rb:64-66 | against the parameterless `callback_payload` of lib/scriptoria-core/workitem.rb:112, every callback raises ArgumentError, whatever the work item and the outcome |
| `HttpParticipant.OnWorkitemAsWritten` | lib/scriptoria-core/http_participant.rb:24-31 | as written `on_workitem` re-raises that ArgumentError and posts nothing |
| `HttpParticipant.AsWrittenCallbackAlwaysRaises` | lib/scriptoria-core/http_participant.rb:64-66 | as written the callback raises ArgumentError even where a `callback_payload(state)` with one parameter would post it and get `true` for a 200 |

## Findings

| source | as written | input that shows it | evidently intended | confidence | as-written member | corrected member |
|---|---|---|---|---|---|---|
| lib/scriptoria-core/http_participant.rb:66 | `make_callback_request!` calls `sc_workitem.callback_payload(state)`, but lib/scriptoria-core/workitem.rb:112 defines `callback_payload` with no parameter, and `status` at :84 takes none either. Ruby raises ArgumentError, so no callback is ever posted, and `on_workitem` re-raises it | any work item, such as the specs' fixture (participant `alpha` with its callback URL) answered with 200 | `callback_payload(state)` whose status is `status(state)`, as the caller and spec/lib/workitem_spec.rb:79-129 expect | not executed | `HttpParticipant.MakeCallbackRequestAsWritten` and `HttpParticipant.OnWorkitemAsWritten`, shown by `HttpParticipant.AsWrittenCallbackAlwaysRaises` | `Workitems.CallbackPayloadFor` (with `Workitems.StatusFor`), used by `HttpParticipant.CallbackRequest` |

## Left out

- The HTTP transport is left out: `HTTPI::Request`, `HTTPI.post`, timeouts and the
  response body. It is replaced by the `Outcome` input.
- `HttpParticipant.MakeCallbackRequest`: it assumes that building the request
  (lib/scriptoria-core/http_participant.rb:71-76, outside the `begin`/`rescue` at
  77-89) never raises. In Ruby an exception there propagates like
  `MissingCallbackUrl`, for example a URL that HTTPI rejects, such as a number,
  `false`, or the participant name that `String#[]` returns. So "raises iff
  `callback_url` raises" holds only under that assumption.
- The JSON text that `to_json` produces is left out. `PayloadJson` models the
  object's structure only.
- All logging (`ScriptoriaCore.logger`) is left out.
- The Ruote engine is not modelled. This covers `super`
  (`Ruote::StorageParticipant`), the act of redispatching, the engine raising the
  redispatch count on redelivery, and the engine parsing `"30s"`. These appear as
  returned values.
- `proceed!` and `participant` (lib/scriptoria-core/workitem.rb:142-151) are left
  out. They look a handler up in the engine's participant registry and call it,
  which is code not shown here.
- `fei.to_storage_id` and `fei.wfid` are Ruote's formats. They are taken as given
  (`RuoteWorkitem.storageId`, `RuoteWorkitem.wfid`).
- `Workitem.Find`: the storage is a map argument for the `workitems` document
  kind, not `RuoteKit.engine.storage`.
- `Workitems.Workitem.UpdateFields`: `update_fields(nil)` raises in Ruby and is not
  modelled. The tests' no-op expectation is not adopted either.
- Field maps are unordered maps. Ruby hashes keep insertion order, which fixes the
  key order of the JSON sent. That order is not modelled.
- `Dup` shares nested values with the original hash. The modelled values are
  immutable, so nothing about that sharing is captured.
- Field values hold integers only. JSON floating-point numbers are not modelled.
- `Workitems.CallbackPayloadFor`: for an activation it changes only the status. It
  does not remove the markers from the fields sent, nor from the work item.
- The `rescue Exception => e; raise e` of `on_workitem` only logs. It is modelled as
  plain propagation.
- lib/scriptoria-core/workflow.rb, ruote.rb, application.rb,
  lib/scriptoria-core.rb and config/environment.rb are not part of this model.
  They cover workflow launch and parse validation, engine and storage setup, REST
  routing and configuration loading.
- These tests contradict lib/ and are not modelled:
  - spec/lib/http_participant_spec.rb:78 and :87 expect a flat `60s` delay;
  - :67 expects a smaller body;
  - :93-121 test a `HttpParticipant.proceed` that does not exist.
