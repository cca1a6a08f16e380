/** The labels and badge classes of
    frontend/components/modal/ContributorDetailsModal.jsx. */
module ContributorDetails {
  import opened Schemas
  import ProjectDetails

  /** `getContributionTypeLabel`: the three known types get a label, any
      other value is shown as it is. */
  function TypeLabel(kind: string): (r: string)
    ensures kind !in ContributionTypes ==> r == kind
    ensures kind in ContributionTypes ==> r != kind && r in {"Participant", "Resource Provider", "Donor"}
  {
    match kind
    case "participant" => "Participant"
    case "resource_provider" => "Resource Provider"
    case "donor" => "Donor"
    case _ => kind
  }

  /** The known types get different labels. */
  lemma TypeLabelsDistinct(a: string, b: string)
    requires a in ContributionTypes && b in ContributionTypes && a != b
    ensures TypeLabel(a) != TypeLabel(b)
  {
  }

  /** `getStatusBadgeClass`: a contributor status other than `pending`
      names its own class, and anything else shows as `pending`. */
  function StatusClass(status: string): (r: string)
    ensures r in ContributorStatuses
    ensures status in ContributorStatuses ==> r == status
    ensures status !in ContributorStatuses ==> r == "pending"
  {
    match status
    case "confirmed" => "confirmed"
    case "delivered" => "delivered"
    case "completed" => "completed"
    case "cancelled" => "cancelled"
    case _ => "pending"
  }

  /** The class of a class is itself, and every record the schema accepts
      shows its own status. */
  lemma StatusClassLaws(c: Contributor)
    requires ContributorOk(c)
    ensures StatusClass(c.status) == c.status
    ensures StatusClass(StatusClass(c.status)) == StatusClass(c.status)
  {
  }

  /** `getAttendedBadgeClass`. */
  function AttendedClass(attended: string): (r: string)
    ensures r in {"attended", "not-attended", "pending"}
    ensures r == "attended" <==> attended == "yes"
    ensures r == "not-attended" <==> attended == "no"
  {
    match attended
    case "yes" => "attended"
    case "no" => "not-attended"
    case _ => "pending"
  }

  /** The delivery badge: its class and its text. */
  datatype Badge = Badge(cls: string, text: string)

  /** The delivery status of a resource provider: delivered exactly when
      `resourcesDelivered` is `delivered`; the schema's default
      `Not delivered` shows as pending. */
  function DeliveryBadge(resourcesDelivered: string): (b: Badge)
    ensures b.text == "Delivered" <==> resourcesDelivered == "delivered"
    ensures b.cls == "delivered" <==> resourcesDelivered == "delivered"
    ensures b.text != "Delivered" ==> b == Badge("pending", "Not Delivered")
  {
    if resourcesDelivered == "delivered" then Badge("delivered", "Delivered")
    else Badge("pending", "Not Delivered")
  }

  /** What the details view shows after the project's creator marks a
      record: attended for a participant, delivered (status and badge) for a
      resource provider. */
  lemma MarkShows(c: Contributor)
    ensures AttendedClass(ProjectDetails.Mark(c, "participant").attended) == "attended"
    ensures DeliveryBadge(ProjectDetails.Mark(c, "resource_provider").resourcesDelivered).text == "Delivered"
    ensures StatusClass(ProjectDetails.Mark(c, "resource_provider").status) == "delivered"
  {
  }
}
