# Service plan claims: the update protocol and the claim wrapper

This project models two pieces of the claim lifecycle of the steward service broker,
and proves properties of them in Dafny.

- **The claim update protocol** (module `State`). An `Update` is one of three
  variants: a full update (status, description, two identifiers, extra data), a
  status-only update, or an error update wrapping an error. Each answers
  `Status()`, `Description()` and `Extra()`. `UpdateClaim` writes an update into a
  claim in place. The claim is the class `K8s.ServicePlanClaim`. The method is proved
  against the pure function `Applied`, which gives the claim's value afterwards. The
  policy is the one `TestUpdateClaim` asserts:
  - the status is always overwritten;
  - the description changes on a full update, and on an error update it becomes the
    error's message;
  - the extra data is replaced outright on a full update and left alone otherwise.
- **The claim wrapper codec** (module `Claim`). A `ServicePlanClaimWrapper` is a
  claim together with the metadata of the config map that stores it.
  `ServicePlanClaimWrapperFromConfigMap` decodes a config map. It propagates the
  domain codec's error unchanged. On success it copies the name, the namespace, the
  resource version and the labels, and nothing else. `ToConfigMap` copies the whole
  metadata and encodes the claim. The domain codec (`mode.ServicePlanClaimFromMap`
  and `ToMap`) is not part of this model. It is a pair of functions: decoding takes
  `fromMap`, encoding takes `toMap`, and only the round-trip lemmas take both. The
  claim type is a type parameter. `ServicePlanClaimsListWrapper`
  is a plain datatype: a sequence of wrappers and a resource version.

Module `K8s` holds the status type and the claim, both as an in-place class and as
the value `ClaimRecord`.

The applier's own source file (`k8s/claim/state/update.go`) is not part of this
model. The applier is modelled from the assertions of `TestUpdateClaim`. That test
never looks at the two identifiers of a full update. The model stores them in the
claim on a full update only.

## Model

| member | source | states |
|---|---|---|
| `K8s.ServicePlanClaimStatus.String` | k8s/claim/state/update_test.go:71 | Converting a claim's stored status string back to a status gives the status that was stored. |
| `K8s.ServicePlanClaim.constructor` | k8s/claim/state/update_test.go:20-23 | A claim built from a status string, a description and extra data holds exactly those; the identifiers are unset. |
| `State.Update.Status` | k8s/claim/state/update_test.go:71 | A full or status update answers the status it was built with; an error update answers `StatusFailed`. |
| `State.Update.Description` | k8s/claim/state/update_test.go:74 | A full update answers the description it was built with; an error update answers the error's message. |
| `State.Update.Extra` | k8s/claim/state/update_test.go:84-85 | A full update answers the extra map it was built with. |
| `State.Applied` | k8s/claim/state/update_test.go:71-96 | After an update, the status converts back to `update.Status()`. The description is `Description()` on a full update, the error's message on an error update, and the old one on a status update. Extra is exactly `update.Extra()` on a full update and the old extra otherwise. The identifiers change only on a full update. |
| `State.UpdateClaim` | k8s/claim/state/update_test.go:66 | Takes every (non-nil) claim and every update, with no precondition. The claim's new value is `Applied` of its old value, field by field: status, description, extra and identifiers as above. |
| `State.StatusUpdateChangesOnlyStatus` | k8s/claim/state/update_test.go:78-96 | A status-only update changes the status and leaves every other field as it was. |
| `State.ErrUpdateChangesStatusAndDescription` | k8s/claim/state/update_test.go:75-77 | An error update sets the failed status and the error's text, and leaves extra and identifiers as they were. |
| `State.FullUpdateForgetsPriorClaim` | k8s/claim/state/update_test.go:82-88 | A full update's result does not depend on the prior claim, whether its extra was unset, empty or had other keys. Extra is replaced, not merged. |
| `State.AppliedIdempotent` | k8s/claim/state/update_test.go:66 | Writing the same update twice gives the same claim as writing it once. |
| `State.SameEntriesIsEquality` | k8s/claim/state/update_test.go:82-88 | "Same size, and every entry of the result is an entry of the expected map" holds exactly when the two maps are equal. |
| `State.ExtraCheckSoundWithoutEmptyValues` | k8s/claim/state/update_test.go:82-96 | The test's Extra check, as written, is as strong as equality when no value of the checked map is empty. |
| `State.ExtraCheckAsWritten` | k8s/claim/state/update_test.go:84-94 | The test's Extra check as written (length, then Go lookups that give "" for a missing key) accepts every pair of maps that the intended check accepts. |
| `State.ExtraCheckAcceptsOtherMap` | k8s/claim/state/update_test.go:82-88 | The test's Extra check, as written, accepts `{x: ""}` against `{y: z}`, two different maps. |
| `State.AppliedPassesTestAssertions` | k8s/claim/state/update_test.go:82-96 | Every Extra assertion of the test loop holds after `Applied`, under both the as-written and the intended check: against `update.Extra()` on a full update, against the old Extra otherwise. |
| `State.TestUpdateClaim` | k8s/claim/state/update_test.go:18-66 | Running `UpdateClaim` on the test's four claims gives exactly the expected claims. The two full updates give their status, description, identifiers and extra. The error update gives the failed status and "error" with empty extra. The status update keeps "something else" with empty extra. |
| `Claim.ServicePlanClaimWrapper.ToConfigMap` | k8s/claim/service_plan_claim_wrapper.go:37-42 | The config map's metadata is the wrapper's whole metadata, verbatim, and its data is `toMap` of the claim. |
| `Claim.ServicePlanClaimWrapperFromConfigMap` | k8s/claim/service_plan_claim_wrapper.go:16-30 | Decoding fails exactly when the domain codec fails on the data, with the same error and no wrapper. On success the claim is the codec's result. Resource version, name, namespace and labels are copied, and no other metadata is carried. |
| `Claim.DecodeReadsOnlyCarriedMetadata` | k8s/claim/service_plan_claim_wrapper.go:23-28 | Two config maps that agree on the data and on the four carried fields decode to the same result, whatever their other metadata. |
| `Claim.DecodedMetadataIsCarried` | k8s/claim/service_plan_claim_wrapper.go:21-29 | A successful decode is exactly the wrapper of the codec's claim and the config map's metadata with every other field cleared. |
| `Claim.DecodeFailureIsCodecFailure` | k8s/claim/service_plan_claim_wrapper.go:17-20 | Decoding returns a given error exactly when the domain codec returns that error. |
| `Claim.EncodeCarriesAllMetadata` | k8s/claim/service_plan_claim_wrapper.go:37-42 | `ToConfigMap` copies the wrapper's whole metadata verbatim, and its data is the claim's encoding. Wrappers that encode to the same config map have the same metadata. |
| `Claim.DecodeAfterEncodeKeepsMetadata` | k8s/claim/service_plan_claim_wrapper.go:23-39 | If the claim part decodes, decoding `ToConfigMap(w)` succeeds with `w`'s name, namespace, resource version and labels. |
| `Claim.DecodeAfterEncode` | k8s/claim/service_plan_claim_wrapper.go:16-42 | If the codec round-trips the claim, decoding `ToConfigMap(w)` gives `w` with its other metadata cleared. That is `w` itself exactly when `w` has no other metadata. |
| `Claim.EncodeAfterDecode` | k8s/claim/service_plan_claim_wrapper.go:16-42 | If the codec round-trips the data, encoding a decoded config map gives back its data and carried metadata. That is the config map itself exactly when it has no other metadata. |

## Findings

| source | as written | input that shows it | evidently intended | confidence | as-written member | corrected member |
|---|---|---|---|---|---|---|
| k8s/claim/state/update_test.go:82-96 | The Extra check compares lengths, then reads `newExtra[k]` (or `oldExtra[k]`) for each key of the result. Go gives "" for a key that is absent. | A result Extra of `{x: ""}` checked against an expected `{y: z}` passes: the lengths match and `expected["x"]` is "". | The result's Extra equals the expected map (the comments say "should be set" and "should be unchanged"). | not executed; the gap needs an empty value, and the test's own cases have none | `State.ExtraCheckAcceptsOtherMap` | `State.SameEntriesIsEquality` |

The corrected check is `State.SameEntries`. It also requires each key to be present in
the expected map. `State.AppliedPassesTestAssertions` proves that the applier meets
both checks. `State.Applied` states the intended property directly, as map equality.
The finding is about the test's check only; the modelled applier is not affected.

## Left out

- The applier's own source file is not part of this model. Its behaviour comes from
  the test's assertions. What it does with the two full-update identifiers is a
  modelling choice (stored on a full update only), not something the test observes.
- Map aliasing is not modelled. Go maps are references, so the test's `origClaim.Extra`
  is the same map as the claim's `Extra`. Decoding also shares `Labels` between a
  config map and its wrapper, and `toConfigMap` shares the whole `ObjectMeta`,
  `Labels` included. Maps are values here, so the model says nothing about changes
  made to a shared map in place.
- State.UpdateClaim and Claim.ServicePlanClaimWrapperFromConfigMap: nil pointers are
  not modelled. In the source, `UpdateClaim(nil, u)`, decoding a nil config map, and
  `toConfigMap` on a wrapper with a nil claim panic, and so does a call on a nil
  element of the list wrapper's `Claims`. Dafny's non-null class type and value types
  exclude these inputs. "Total" means total over non-nil claims and config maps.
- A nil map and an empty map are not distinguished (both are `map[]`), for `Extra`
  and for `Labels`.
- The string values of the k8s status constants are not part of this model. The
  constants in `K8s` only need to be distinct. `StatusFailed` is the status an
  error update sets.
- `Update.Description()` of a status update and `Update.Extra()` of a status or
  error update answer Go zero values ("" and the empty map). Nothing depends on these
  values: the applier never asks for them.
- Calls to `uuid.New()` become identifier parameters of `State.TestUpdateClaim`.
- The domain codec (`mode.ServicePlanClaimFromMap`, `ToMap`, `mode.JSONObject`) is
  passed in as function parameters. Its key layout is not modelled.
- `ServicePlanClaimWrapper.String()` (k8s/claim/service_plan_claim_wrapper.go:33-35)
  is left out. It is diagnostic formatting with no persistence contract.
- The config map's type metadata (kind and API version) is left out. `toConfigMap`
  leaves it at its zero value.
- The wrapper's claim is a value here, not a pointer. Sharing of the claim between
  wrappers is not modelled.
- Store I/O is left out: create, read, update, list and watch of config maps, and the
  compare-and-swap on the resource version. Concurrency is left out too. None of
  these are in the modelled files.
- There is no lifecycle legality check. The applier accepts any status change, as
  in the source.
