/**
 The enrichment pass (index.js:59-174). For each client row: split the email
 domains, look the company up by each domain in turn until a response has a
 truthy `url`, otherwise look it up once by name, otherwise fall back to a
 fixed failure payload; then build the sparse custom-field patch and send it.
 The lookup endpoint is an oracle from query to completion; every lookup and
 its outcome is recorded so the order and number of queries can be stated.
 */
module Enrichment {

  import opened Js
  import Text
  import opened Patches
  import opened Runs

  /** A lookup of the company-resolve endpoint, by `company_domain` or by
      `company_name`. */
  datatype Query = ByDomain(domain: string) | ByName(name: string)

  const NoMatchMessage := "Unable to find a successful match using domain or name"

  /** The payload stored when neither strategy finds the company. */
  const DefaultFailure: JsValue :=
    Obj(map["error" := Str(NoMatchMessage), "profile" := Obj(map["company_size" := Arr([])])])

  /** The email-domain list of a row (index.js:63): a field loosely equal to ""
      gives no domains; a string is split on commas, untrimmed, keeping empty
      pieces; anything else has no `split` method and throws. */
  function DomainList(field: JsValue): (r: Result<seq<string>>)
    ensures LooselyEqualsEmpty(field) ==> r == Ok([])
    ensures !LooselyEqualsEmpty(field) && field.Str? ==>
      && r.Ok?
      && |r.value| >= 1
      && Text.Join(r.value, ',') == field.s
      && forall i | 0 <= i < |r.value| :: ',' !in r.value[i]
    ensures !LooselyEqualsEmpty(field) && !field.Str? ==> r == Err(TypeError)
  {
    if LooselyEqualsEmpty(field) then Ok([])
    else if field.Str? then
      Text.JoinSplit(field.s, ',');
      Ok(Text.Split(field.s, ','))
    else Err(TypeError)
  }

  /** A lookup is accepted when it returned a value whose `url` is truthy. */
  predicate Accepted(c: Completion) {
    c.Normal? && !Nullish(c.value) && Truthy(Field(c.value, "url"))
  }

  /** One guarded lookup (index.js:71-90 and 97-115): the working value after
      it. A throwing lookup leaves the value as it was (the assignment never
      happens); an undefined or null result is assigned and then reading its
      `url` throws; a result without a truthy `url` is reset to undefined. */
  function TryLookup(c: Completion, working: JsValue): (w: JsValue)
    ensures Accepted(c) ==> w == c.value
    ensures !Accepted(c) && !Truthy(working) ==> !Truthy(w)
  {
    match c
    case Thrown(_) => working
    case Normal(v) =>
      if Nullish(v) then v
      else if Truthy(Field(v, "url")) then v
      else Undefined
  }

  function DomainQueries(domains: seq<string>): (qs: seq<Query>)
    ensures |qs| == |domains|
    ensures forall i | 0 <= i < |qs| :: qs[i] == ByDomain(domains[i])
  {
    seq(|domains|, i requires 0 <= i < |domains| => ByDomain(domains[i]))
  }

  /** The reference for the domain strategy: the position of the first domain
      whose lookup is accepted, if any. */
  function FirstAccepted(domains: seq<string>, lookup: Query -> Completion): (r: Option<nat>)
    ensures r.Some? ==> r.value < |domains| && Accepted(lookup(ByDomain(domains[r.value])))
    ensures r.Some? ==> forall j | 0 <= j < r.value :: !Accepted(lookup(ByDomain(domains[j])))
    ensures r.None? ==> forall j | 0 <= j < |domains| :: !Accepted(lookup(ByDomain(domains[j])))
    decreases |domains|
  {
    if |domains| == 0 then None
    else if Accepted(lookup(ByDomain(domains[0]))) then Some(0)
    else
      match FirstAccepted(domains[1..], lookup)
      case None => None
      case Some(i) => Some(i + 1)
  }

  /** The working lookup result and the queries issued so far, in order. */
  datatype Resolution = Resolution(payload: JsValue, queries: seq<Query>)

  /** The domain loop (index.js:67-92) from a falsy working value: queries
      domains in order and breaks at the first accepted lookup. */
  function SearchDomains(domains: seq<string>, lookup: Query -> Completion, working: JsValue): (r: Resolution)
    requires !Truthy(working)
    ensures FirstAccepted(domains, lookup).Some? ==>
      var i := FirstAccepted(domains, lookup).value;
      r.queries == DomainQueries(domains[..i + 1]) && r.payload == lookup(ByDomain(domains[i])).value
    ensures FirstAccepted(domains, lookup).None? ==>
      r.queries == DomainQueries(domains) && !Truthy(r.payload)
    decreases |domains|
  {
    if |domains| == 0 then Resolution(working, [])
    else
      var q := ByDomain(domains[0]);
      var next := TryLookup(lookup(q), working);
      if Truthy(next) then Resolution(next, [q])
      else
        var rest := SearchDomains(domains[1..], lookup, next);
        assert DomainQueries(domains) == [q] + DomainQueries(domains[1..]);
        Resolution(rest.payload, [q] + rest.queries)
  }

  /** Domain lookups, then the name lookup, then the default payload
      (index.js:66-126). */
  function Resolve(domains: seq<string>, name: string, lookup: Query -> Completion): (r: Resolution)
    ensures Truthy(r.payload)
    ensures FirstAccepted(domains, lookup).Some? ==>
      var i := FirstAccepted(domains, lookup).value;
      r.queries == DomainQueries(domains[..i + 1]) && r.payload == lookup(ByDomain(domains[i])).value
    ensures FirstAccepted(domains, lookup).None? ==>
      && r.queries == DomainQueries(domains) + [ByName(name)]
      && r.payload == (if Accepted(lookup(ByName(name))) then lookup(ByName(name)).value else DefaultFailure)
  {
    var search := SearchDomains(domains, lookup, Undefined);
    if Truthy(search.payload) then Resolution(search.payload, search.queries)
    else
      var q := ByName(name);
      var found := TryLookup(lookup(q), search.payload);
      Resolution(if Truthy(found) then found else DefaultFailure, search.queries + [q])
  }

  /** The name lookup is issued exactly once when no domain lookup is
      accepted, as the last query, and never otherwise. */
  lemma NameLookupExactlyOnceIffNoDomainMatch(domains: seq<string>, name: string, lookup: Query -> Completion)
    ensures var r := Resolve(domains, name, lookup);
      forall i | 0 <= i < |r.queries| ::
        r.queries[i].ByName? <==> FirstAccepted(domains, lookup).None? && i == |r.queries| - 1
    ensures FirstAccepted(domains, lookup).None? ==> Resolve(domains, name, lookup).queries[|Resolve(domains, name, lookup).queries| - 1] == ByName(name)
  {
  }

  /** With no domains, the only query is the name lookup. */
  lemma NoDomainsQueriesName(name: string, lookup: Query -> Completion)
    ensures Resolve([], name, lookup).queries == [ByName(name)]
  {
  }

  /** The payload is either an accepted lookup result (with a truthy url) or
      exactly the default failure payload. */
  lemma PayloadIsAcceptedOrDefault(domains: seq<string>, name: string, lookup: Query -> Completion)
    ensures var p := Resolve(domains, name, lookup).payload;
      p == DefaultFailure || (!Nullish(p) && Truthy(Field(p, "url")))
  {
  }

  /** Reading `payload.profile.company_size` succeeds. */
  predicate SizesReadable(payload: JsValue) {
    && !Nullish(payload)
    && !Nullish(Field(payload, "profile"))
    && !Nullish(Field(Field(payload, "profile"), "company_size"))
  }

  /** `payload.profile.company_size[i]`. */
  function CompanySize(payload: JsValue, i: nat): JsValue
    requires SizesReadable(payload)
  {
    Member(Field(Field(payload, "profile"), "company_size"), Indexed(i)).value
  }

  /** The patch of index.js:129-156. Reading the sizes sits outside the update
      `try`, so a payload without `profile.company_size` throws out of the
      client loop. Both size bounds are written under the same field name. */
  function EnrichmentPatch(id: string, payload: JsValue, stamp: string): (r: Result<Patch>)
    ensures r.Ok? <==> SizesReadable(payload)
    ensures r.Err? ==> r.error == TypeError
    ensures r.Ok? ==> r.value.isClientDetails && r.value.id == id
    ensures r.Ok? ==>
      var f := r.value.customFields;
      && 2 <= |f| <= 4
      && f[|f| - 2] == CustomField(PayloadField, Serialized(payload))
      && f[|f| - 1] == CustomField(LastSyncedField, Text(stamp))
      && |f| - 2 == (if Truthy(CompanySize(payload, 0)) then 1 else 0) + (if Truthy(CompanySize(payload, 1)) then 1 else 0)
      && (forall i | 0 <= i < |f| - 2 :: f[i].name == SizeField)
      && (Truthy(CompanySize(payload, 0)) ==> f[0].value == Text(ToText(CompanySize(payload, 0))))
      && (Truthy(CompanySize(payload, 1)) ==> f[|f| - 3].value == Text(ToText(CompanySize(payload, 1))))
  {
    var profile :- Member(payload, Named("profile"));
    var sizes :- Member(profile, Named("company_size"));
    var lower :- Member(sizes, Indexed(0));
    var upper := Member(sizes, Indexed(1)).value;
    Ok(ClientPatch(id,
      EntryIfTruthy(SizeField, lower) + EntryIfTruthy(SizeField, upper)
      + [CustomField(PayloadField, Serialized(payload)), CustomField(LastSyncedField, Text(stamp))]))
  }

  /** The default failure payload gives a patch of exactly two fields:
      the payload, then the last-synced stamp. */
  lemma DefaultFailurePatch(id: string, stamp: string)
    ensures EnrichmentPatch(id, DefaultFailure, stamp)
      == Ok(Patch(true, id, [CustomField(PayloadField, Serialized(DefaultFailure)), CustomField(LastSyncedField, Text(stamp))]))
  {
    var profile := Obj(map["company_size" := Arr([])]);
    assert Member(DefaultFailure, Named("profile")) == Ok(profile);
    assert Member(profile, Named("company_size")) == Ok(Arr([]));
    assert CompanySize(DefaultFailure, 0) == Undefined;
    assert CompanySize(DefaultFailure, 1) == Undefined;
    var r := EnrichmentPatch(id, DefaultFailure, stamp);
    var f := r.value.customFields;
    assert |f| == 2;
    assert f == [CustomField(PayloadField, Serialized(DefaultFailure)), CustomField(LastSyncedField, Text(stamp))];
  }

  /** What one client's processing did: the lookups issued, in order, and
      the update call. */
  datatype Work = Work(queries: seq<Query>, update: UpdateResult)

  /** One iteration of the client loop (index.js:59-170). */
  function EnrichClient(row: JsValue, lookup: Query -> Completion, update: Patch -> Completion, stamp: string): (e: Step<Work>)
    ensures e.abort.Some? <==> e.work.update.NotSent?
    ensures Nullish(row) ==> e == Step(Work([], NotSent), Some(TypeError))
    ensures !Nullish(row) && DomainList(Field(row, "Email Domains")).Err? ==>
      e == Step(Work([], NotSent), Some(TypeError))
    ensures !Nullish(row) && DomainList(Field(row, "Email Domains")).Ok? ==>
      var res := Resolve(DomainList(Field(row, "Email Domains")).value, ToText(Field(row, "Client")), lookup);
      && e.work.queries == res.queries
      && (e.abort.None? <==> SizesReadable(res.payload))
      && (e.abort.Some? ==> e.abort == Some(TypeError))
      && (e.abort.None? ==> e.work.update.patch == EnrichmentPatch(ToText(Field(row, "Client ID")), res.payload, stamp).value)
      && (e.work.update.PostFailed? <==> e.abort.None? && update(e.work.update.patch).Thrown?)
  {
    if Nullish(row) then Step(Work([], NotSent), Some(TypeError))
    else
      match DomainList(Field(row, "Email Domains"))
      case Err(err) => Step(Work([], NotSent), Some(err))
      case Ok(domains) =>
        var res := Resolve(domains, ToText(Field(row, "Client")), lookup);
        match EnrichmentPatch(ToText(Field(row, "Client ID")), res.payload, stamp)
        case Err(err) => Step(Work(res.queries, NotSent), Some(err))
        case Ok(patch) => Step(Work(res.queries, SendUpdate(patch, update)), None)
  }

  /** Every client's processing, as if each were reached; `clock(i)` is the
      timestamp taken while building the i-th client's patch. */
  function EnrichAll(rows: seq<JsValue>, lookup: Query -> Completion, update: Patch -> Completion, clock: nat -> string): (steps: seq<Step<Work>>)
    ensures |steps| == |rows|
    ensures forall i | 0 <= i < |rows| :: steps[i] == EnrichClient(rows[i], lookup, update, clock(i))
  {
    seq(|rows|, i requires 0 <= i < |rows| => EnrichClient(rows[i], lookup, update, clock(i)))
  }

  /** The whole enrichment run (index.js:17-174). */
  function EnrichmentRun(report: Completion, lookup: Query -> Completion, update: Patch -> Completion, clock: nat -> string): (r: Run<Work>)
    ensures ClientRows(report).Err? ==> r == Run([], Some(ClientRows(report).error))
    ensures ClientRows(report).Ok? ==> IsRunOver(r, EnrichAll(ClientRows(report).value, lookup, update, clock))
  {
    match ClientRows(report)
    case Err(e) => Run([], Some(e))
    case Ok(rows) =>
      var steps := EnrichAll(rows, lookup, update, clock);
      CompleteIsRunOver(steps);
      Complete(UpToFirstAbort(steps))
  }

  /** A failed update is logged and the run goes on with the next client;
      only errors outside the update `try` end the run. */
  lemma FailedUpdateSkipsOnlyThatClient(rows: seq<JsValue>, lookup: Query -> Completion, update: Patch -> Completion, clock: nat -> string, i: nat)
    requires i + 1 < |rows|
    ensures var log := UpToFirstAbort(EnrichAll(rows, lookup, update, clock));
      i < |log| && EnrichClient(rows[i], lookup, update, clock(i)).work.update.PostFailed? ==> i + 1 < |log|
  {
    var steps := EnrichAll(rows, lookup, update, clock);
    if i < |UpToFirstAbort(steps)| && steps[i].work.update.PostFailed? {
      NonAbortingStepContinues(steps, i);
    }
  }
}
