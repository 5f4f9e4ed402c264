/**
 The body both scripts POST to the service desk's `/client` endpoint: one
 `{isclientdetails, id, customfields}` record whose custom fields are a sparse
 list of name/value pairs (absent fields are left untouched server-side).
 */
module Patches {

  import opened Js

  const SizeField := "CFLinkedInCompanySizeUpper"
  const PayloadField := "CFProxycurlPayload"
  const LastSyncedField := "CFProxycurlLastSynced"
  const EmployeesField := "CFEmployeesInLinkedIn"
  const UrlField := "CFLinkedInURL"

  /** A field value: text, or a whole payload stored through JSON.stringify
      (kept structured here; serialisation is not modelled). */
  datatype FieldValue = Text(text: string) | Serialized(payload: JsValue)

  datatype CustomField = CustomField(name: string, value: FieldValue)

  datatype Patch = Patch(isClientDetails: bool, id: string, customFields: seq<CustomField>)

  /** The update call for one client: not issued, issued and completed, or
      issued and thrown (caught, logged, and the client skipped). */
  datatype UpdateResult = NotSent | Posted(patch: Patch) | PostFailed(patch: Patch, error: Error)

  /** `...(v ? [{name, value: `${v}`}] : [])`: one entry for a truthy value,
      none otherwise. */
  function EntryIfTruthy(name: string, v: JsValue): (fs: seq<CustomField>)
    ensures |fs| <= 1
    ensures |fs| == 1 <==> Truthy(v)
    ensures forall i | 0 <= i < |fs| :: fs[i] == CustomField(name, Text(ToText(v)))
  {
    if Truthy(v) then [CustomField(name, Text(ToText(v)))] else []
  }

  predicate HasField(fs: seq<CustomField>, name: string) {
    exists i | 0 <= i < |fs| :: fs[i].name == name
  }

  /** The record for client `id`, as both scripts build it. */
  function ClientPatch(id: string, fields: seq<CustomField>): (p: Patch)
    ensures p.isClientDetails && p.id == id && p.customFields == fields
  {
    Patch(true, id, fields)
  }

  /** The guarded update call (`try { await apiCaller(...) } catch { continue }`):
      the patch is sent exactly once, and a throw is recorded, not propagated. */
  function SendUpdate(patch: Patch, update: Patch -> Completion): (u: UpdateResult)
    ensures !u.NotSent? && u.patch == patch
    ensures u.PostFailed? <==> update(patch).Thrown?
  {
    match update(patch)
    case Normal(_) => Posted(patch)
    case Thrown(e) => PostFailed(patch, e)
  }
}
