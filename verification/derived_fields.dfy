/**
 The derived-field pass (sync.js:56-107). For each client row: fetch the
 detailed client record once, read the stored payload from its first custom
 field named CFProxycurlPayload, parse it, and patch only the derived fields
 CFEmployeesInLinkedIn and CFLinkedInURL. No enrichment lookup is made. The
 detail endpoint is an oracle keyed by client id, and JSON.parse is an oracle
 from text to a value (None for text that does not parse).
 */
module DerivedFields {

  import opened Js
  import opened Patches
  import opened Runs
  import Enrichment

  /** The callback of `customfields.find(obj => obj.name == "CFProxycurlPayload")`. */
  predicate IsPayloadField(f: JsValue)
    requires !Nullish(f)
  {
    LooselyEqualsName(Field(f, "name"), PayloadField)
  }

  /** The position `find` stops at: the first field named CFProxycurlPayload,
      or None when there is none. The callback reads `obj.name`, so an
      undefined or null element reached before a match throws. */
  function FindPayloadField(fields: seq<JsValue>): (r: Result<Option<nat>>)
    ensures r.Ok? && r.value.Some? ==>
      && r.value.value < |fields|
      && !Nullish(fields[r.value.value]) && IsPayloadField(fields[r.value.value])
      && forall j | 0 <= j < r.value.value :: !Nullish(fields[j]) && !IsPayloadField(fields[j])
    ensures r.Ok? && r.value.None? ==>
      forall j | 0 <= j < |fields| :: !Nullish(fields[j]) && !IsPayloadField(fields[j])
    ensures r.Err? ==>
      && r.error == TypeError
      && exists j | 0 <= j < |fields| :: Nullish(fields[j]) && forall k | 0 <= k < j :: !Nullish(fields[k]) && !IsPayloadField(fields[k])
    decreases |fields|
  {
    if |fields| == 0 then Ok(None)
    else if Nullish(fields[0]) then Err(TypeError)
    else if IsPayloadField(fields[0]) then Ok(Some(0))
    else
      match FindPayloadField(fields[1..])
      case Err(e) =>
        ghost var j :| 0 <= j < |fields[1..]| && Nullish(fields[1..][j])
          && forall k | 0 <= k < j :: !Nullish(fields[1..][k]) && !IsPayloadField(fields[1..][k]);
        assert Nullish(fields[j + 1]) && forall k | 0 <= k < j + 1 :: !Nullish(fields[k]) && !IsPayloadField(fields[k]) by {
          forall k | 0 <= k < j + 1
            ensures !Nullish(fields[k]) && !IsPayloadField(fields[k])
          {
            if k > 0 {
              assert fields[k] == fields[1..][k - 1];
            }
          }
        }
        Err(e)
      case Ok(None) => Ok(None)
      case Ok(Some(i)) => Ok(Some(i + 1))
  }

  /** sync.js:59-67: the parsed stored payload of a detail fetch. Every step
      that fails here throws outside the update `try`. */
  function StoredPayload(fetched: Completion, parse: string -> Option<JsValue>): (r: Result<JsValue>)
    ensures fetched.Thrown? ==> r == Err(fetched.error)
    ensures fetched.Normal? && Nullish(fetched.value) ==> r == Err(TypeError)
    ensures fetched.Normal? && !Nullish(fetched.value) && !Field(fetched.value, "customfields").Arr? ==> r == Err(TypeError)
    ensures (&& fetched.Normal? && !Nullish(fetched.value) && Field(fetched.value, "customfields").Arr?
             && FindPayloadField(Field(fetched.value, "customfields").elems).Err?) ==> r == Err(TypeError)
    ensures (&& fetched.Normal? && !Nullish(fetched.value) && Field(fetched.value, "customfields").Arr?
             && var fields := Field(fetched.value, "customfields").elems;
                && FindPayloadField(fields).Ok? && FindPayloadField(fields).value.Some?
                && parse(ToText(Field(fields[FindPayloadField(fields).value.value], "value"))).Some?) ==>
      var fields := Field(fetched.value, "customfields").elems;
      r == Ok(parse(ToText(Field(fields[FindPayloadField(fields).value.value], "value"))).value)
    ensures r.Ok? ==>
      && fetched.Normal? && !Nullish(fetched.value)
      && Field(fetched.value, "customfields").Arr?
      && var fields := Field(fetched.value, "customfields").elems;
         && FindPayloadField(fields).Ok? && FindPayloadField(fields).value.Some?
         && var f := fields[FindPayloadField(fields).value.value];
            !Nullish(f) && parse(ToText(Field(f, "value"))) == Some(r.value)
    ensures (&& fetched.Normal? && !Nullish(fetched.value) && Field(fetched.value, "customfields").Arr?
             && FindPayloadField(Field(fetched.value, "customfields").elems) == Ok(None)) ==> r == Err(TypeError)
    ensures (&& fetched.Normal? && !Nullish(fetched.value) && Field(fetched.value, "customfields").Arr?
             && var fields := Field(fetched.value, "customfields").elems;
                && FindPayloadField(fields).Ok? && FindPayloadField(fields).value.Some?
                && parse(ToText(Field(fields[FindPayloadField(fields).value.value], "value"))).None?) ==> r == Err(SyntaxError)
  {
    match fetched
    case Thrown(e) => Err(e)
    case Normal(detail) =>
      var fields :- Member(detail, Named("customfields"));
      if !fields.Arr? then Err(TypeError)
      else
        var found :- FindPayloadField(fields.elems);
        match found
        case None => Err(TypeError)
        case Some(i) =>
          match parse(ToText(Field(fields.elems[i], "value")))
          case None => Err(SyntaxError)
          case Some(v) => Ok(v)
  }

  /** `payload.profile.company_size_on_linkedin`, readable once the payload and
      its profile are not undefined or null. */
  predicate ProfileReadable(payload: JsValue) {
    !Nullish(payload) && !Nullish(Field(payload, "profile"))
  }

  function EmployeesOnLinkedIn(payload: JsValue): JsValue
    requires ProfileReadable(payload)
  {
    Field(Field(payload, "profile"), "company_size_on_linkedin")
  }

  /** The derived fields of sync.js:74-87: the employee count when truthy,
      then the URL when truthy, and nothing else. */
  function Project(payload: JsValue): (r: Result<seq<CustomField>>)
    ensures r.Ok? <==> ProfileReadable(payload)
    ensures r.Err? ==> r.error == TypeError
    ensures r.Ok? ==> |r.value| <= 2
    ensures r.Ok? ==>
      |r.value| == (if Truthy(EmployeesOnLinkedIn(payload)) then 1 else 0) + (if Truthy(Field(payload, "url")) then 1 else 0)
    ensures r.Ok? ==> forall i | 0 <= i < |r.value| :: r.value[i].name == EmployeesField || r.value[i].name == UrlField
    ensures r.Ok? ==> (HasField(r.value, EmployeesField) <==> Truthy(EmployeesOnLinkedIn(payload)))
    ensures r.Ok? ==> (HasField(r.value, UrlField) <==> Truthy(Field(payload, "url")))
    ensures r.Ok? && Truthy(EmployeesOnLinkedIn(payload)) ==>
      r.value[0] == CustomField(EmployeesField, Text(ToText(EmployeesOnLinkedIn(payload))))
    ensures r.Ok? && Truthy(Field(payload, "url")) ==>
      r.value[|r.value| - 1] == CustomField(UrlField, Text(ToText(Field(payload, "url"))))
  {
    var profile :- Member(payload, Named("profile"));
    var employees :- Member(profile, Named("company_size_on_linkedin"));
    var url := Field(payload, "url");
    var fs := EntryIfTruthy(EmployeesField, employees) + EntryIfTruthy(UrlField, url);
    assert HasField(fs, EmployeesField) ==> Truthy(employees);
    assert HasField(fs, UrlField) ==> Truthy(url);
    assert Truthy(employees) ==> fs[0].name == EmployeesField;
    assert Truthy(url) ==> fs[|fs| - 1].name == UrlField;
    Ok(fs)
  }

  /** The payload index.js stores when nothing matched derives no field. */
  lemma DefaultFailureDerivesNothing()
    ensures Project(Enrichment.DefaultFailure) == Ok([])
  {
    var profile := Obj(map["company_size" := Arr([])]);
    assert Member(Enrichment.DefaultFailure, Named("profile")) == Ok(profile);
    assert EmployeesOnLinkedIn(Enrichment.DefaultFailure) == Undefined;
    assert Field(Enrichment.DefaultFailure, "url") == Undefined;
  }

  /** A stored `{"url": "https://x", "profile": {"company_size_on_linkedin": 50}}`
      derives the employee count "50" and then the URL. */
  lemma ExamplePayload()
    ensures Project(Obj(map["url" := Str("https://x"), "profile" := Obj(map["company_size_on_linkedin" := Num(50)])]))
      == Ok([CustomField(EmployeesField, Text("50")), CustomField(UrlField, Text("https://x"))])
  {
    var profile := Obj(map["company_size_on_linkedin" := Num(50)]);
    var payload := Obj(map["url" := Str("https://x"), "profile" := profile]);
    assert Member(payload, Named("profile")) == Ok(profile);
    assert Member(profile, Named("company_size_on_linkedin")) == Ok(Num(50));
    assert Field(payload, "url") == Str("https://x");
    assert NatText(5) == "5";
    assert NatText(50) == "50";
    assert ToText(Num(50)) == "50";
    assert EntryIfTruthy(EmployeesField, Num(50)) == [CustomField(EmployeesField, Text("50"))];
    assert EntryIfTruthy(UrlField, Str("https://x")) == [CustomField(UrlField, Text("https://x"))];
    assert Project(payload) == Ok(EntryIfTruthy(EmployeesField, Num(50)) + EntryIfTruthy(UrlField, Str("https://x")));
    assert [CustomField(EmployeesField, Text("50"))] + [CustomField(UrlField, Text("https://x"))]
      == [CustomField(EmployeesField, Text("50")), CustomField(UrlField, Text("https://x"))];
  }

  /** A payload resolved by the enrichment pass derives CFLinkedInURL exactly
      when a lookup matched (the default failure payload has no url). */
  lemma ResolvedPayloadDerivesUrlIffMatched(domains: seq<string>, name: string, lookup: Enrichment.Query -> Completion)
    requires Project(Enrichment.Resolve(domains, name, lookup).payload).Ok?
    ensures var p := Enrichment.Resolve(domains, name, lookup).payload;
      HasField(Project(p).value, UrlField) <==> p != Enrichment.DefaultFailure
  {
    var p := Enrichment.Resolve(domains, name, lookup).payload;
    Enrichment.PayloadIsAcceptedOrDefault(domains, name, lookup);
    assert Field(Enrichment.DefaultFailure, "url") == Undefined;
  }

  /** What one client's processing did: the detail fetch (by client id) and
      the update call. */
  datatype Work = Work(detailFetch: Option<string>, update: UpdateResult)

  /** One iteration of the client loop (sync.js:56-103). */
  function SyncClient(row: JsValue, detail: string -> Completion, parse: string -> Option<JsValue>, update: Patch -> Completion): (e: Step<Work>)
    ensures e.abort.Some? <==> e.work.update.NotSent?
    ensures Nullish(row) ==> e == Step(Work(None, NotSent), Some(TypeError))
    ensures !Nullish(row) ==>
      var id := ToText(Field(row, "Client ID"));
      && e.work.detailFetch == Some(id)
      && (StoredPayload(detail(id), parse).Err? ==> e.abort == Some(StoredPayload(detail(id), parse).error))
      && (StoredPayload(detail(id), parse).Ok? ==>
            var payload := StoredPayload(detail(id), parse).value;
            && (e.abort.None? <==> ProfileReadable(payload))
            && (e.abort.Some? ==> e.abort == Some(TypeError))
            && (e.abort.None? ==> e.work.update.patch == Patch(true, id, Project(payload).value)))
      && (e.work.update.PostFailed? <==> e.abort.None? && update(e.work.update.patch).Thrown?)
  {
    if Nullish(row) then Step(Work(None, NotSent), Some(TypeError))
    else
      var id := ToText(Field(row, "Client ID"));
      match StoredPayload(detail(id), parse)
      case Err(err) => Step(Work(Some(id), NotSent), Some(err))
      case Ok(payload) =>
        match Project(payload)
        case Err(err) => Step(Work(Some(id), NotSent), Some(err))
        case Ok(fields) => Step(Work(Some(id), SendUpdate(ClientPatch(id, fields), update)), None)
  }

  /** Every client's processing, as if each were reached. */
  function SyncAll(rows: seq<JsValue>, detail: string -> Completion, parse: string -> Option<JsValue>, update: Patch -> Completion): (steps: seq<Step<Work>>)
    ensures |steps| == |rows|
    ensures forall i | 0 <= i < |rows| :: steps[i] == SyncClient(rows[i], detail, parse, update)
  {
    seq(|rows|, i requires 0 <= i < |rows| => SyncClient(rows[i], detail, parse, update))
  }

  /** The whole derived-field run (sync.js:16-107). */
  function SyncRun(report: Completion, detail: string -> Completion, parse: string -> Option<JsValue>, update: Patch -> Completion): (r: Run<Work>)
    ensures ClientRows(report).Err? ==> r == Run([], Some(ClientRows(report).error))
    ensures ClientRows(report).Ok? ==> IsRunOver(r, SyncAll(ClientRows(report).value, detail, parse, update))
  {
    match ClientRows(report)
    case Err(e) => Run([], Some(e))
    case Ok(rows) =>
      var steps := SyncAll(rows, detail, parse, update);
      CompleteIsRunOver(steps);
      Complete(UpToFirstAbort(steps))
  }

  /** A failed update is logged and the run goes on with the next client. */
  lemma FailedUpdateSkipsOnlyThatClient(rows: seq<JsValue>, detail: string -> Completion, parse: string -> Option<JsValue>, update: Patch -> Completion, i: nat)
    requires i + 1 < |rows|
    ensures var log := UpToFirstAbort(SyncAll(rows, detail, parse, update));
      i < |log| && SyncClient(rows[i], detail, parse, update).work.update.PostFailed? ==> i + 1 < |log|
  {
    var steps := SyncAll(rows, detail, parse, update);
    if i < |UpToFirstAbort(steps)| && steps[i].work.update.PostFailed? {
      NonAbortingStepContinues(steps, i);
    }
  }
}
