/**
 * The claim record of the k8s package as the update protocol sees it: a claim's
 * lifecycle status, its description, its extension data and the two identifiers
 * a full update carries.
 */
module K8s {

  /** A lifecycle status. In the source it is a named string type, so converting
      the claim's `Status` string back to a status is a plain conversion. */
  datatype ServicePlanClaimStatus = ServicePlanClaimStatus(value: string) {

    /** The canonical string form stored in a claim's `Status` field. */
    function String(): (s: string)
      ensures ServicePlanClaimStatus(s) == this
    {
      value
    }
  }

  // The statuses the update protocol uses by name. Their string values live in the
  // k8s package, which is not part of this model; the ones below only need to differ.
  const StatusProvisioned := ServicePlanClaimStatus("provisioned")
  const StatusBinding := ServicePlanClaimStatus("binding")
  const StatusBound := ServicePlanClaimStatus("bound")
  const StatusFailed := ServicePlanClaimStatus("failed")

  /** The value of a claim at one moment: the fields the update protocol reads and writes. */
  datatype ClaimRecord = ClaimRecord(
    Status: string,
    StatusDescription: string,
    FirstID: string,
    SecondID: string,
    Extra: map<string, string>)

  /** A claim that its callers update in place through a reference. An unset `Extra`
      (a nil map in the source) and an empty one are both the empty map here. */
  class ServicePlanClaim {
    var Status: string
    var StatusDescription: string
    var FirstID: string
    var SecondID: string
    var Extra: map<string, string>

    constructor (status: string, description: string, extra: map<string, string>)
      ensures Snapshot() == ClaimRecord(status, description, "", "", extra)
    {
      Status := status;
      StatusDescription := description;
      FirstID := "";
      SecondID := "";
      Extra := extra;
    }

    /** The claim's current value. */
    function Snapshot(): (c: ClaimRecord)
      reads this
    {
      ClaimRecord(Status, StatusDescription, FirstID, SecondID, Extra)
    }
  }
}
