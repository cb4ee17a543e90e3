/** The role names in use: the backend's three, and the three aliases the user interface shows. */
module Roles {
  const Exporter: string := "exporter"
  const QaAgency: string := "qa_agency"
  const Importer: string := "importer"

  const Farmer: string := "farmer"
  const Qa: string := "qa"
  const Buyer: string := "buyer"

  /** The roles the backend grants a listing to. */
  predicate IsBackendRole(role: string)
  {
    role == Exporter || role == QaAgency || role == Importer
  }

  /** The six role strings the frontend recognises. */
  predicate IsKnownRole(role: string)
  {
    IsBackendRole(role) || role == Farmer || role == Qa || role == Buyer
  }
}
