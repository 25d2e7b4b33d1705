/** The user model's role validator: every stored role is normalised on assignment. */
module RoleNames {
  import opened Wrappers
  import opened Text

  /** The canonical spelling of a lower-cased known role, if it is one. */
  function Canonical(lower: string): Option<string> {
    if lower == "admin" then Some("Admin")
    else if lower == "manager" then Some("Manager")
    else if lower == "inspector" then Some("Inspector")
    else if lower == "citizen" then Some("Citizen")
    else None
  }

  /** `normalize_role`: a missing or empty role is "Citizen"; a known role in any case is its canonical name; anything else is lower-cased. */
  function NormalizeRole(value: Option<string>): (r: string)
    ensures r != ""
  {
    if value.None? || value.value == "" then "Citizen"
    else
      var v := Lower(value.value);
      match Canonical(v)
      case Some(c) => c
      case None => v
  }

  /**
   * The four roles in any letter case map to their canonical names, the
   * canonical names are kept as they are, and any other role comes back
   * lower-cased.
   */
  lemma NormalizeMeaning(value: string)
    ensures value == "" ==> NormalizeRole(Some(value)) == "Citizen" && NormalizeRole(None) == "Citizen"
    ensures value != "" && Canonical(Lower(value)).Some? ==> NormalizeRole(Some(value)) == Canonical(Lower(value)).value
    ensures value != "" && Canonical(Lower(value)).None? ==> NormalizeRole(Some(value)) == Lower(value)
    ensures value in ["Admin", "Manager", "Inspector", "Citizen"] ==> NormalizeRole(Some(value)) == value
  {
    if value == "Admin" { assert Lower(value) == "admin"; }
    if value == "Manager" { assert Lower(value) == "manager"; }
    if value == "Inspector" { assert Lower(value) == "inspector"; }
    if value == "Citizen" { assert Lower(value) == "citizen"; }
  }

  /** Normalising a normalised role changes nothing. */
  lemma NormalizeIdempotent(value: Option<string>)
    ensures NormalizeRole(Some(NormalizeRole(value))) == NormalizeRole(value)
  {
    var r := NormalizeRole(value);
    NormalizeMeaning(r);
    if value.Some? && value.value != "" && Canonical(Lower(value.value)).None? {
      LowerIdempotent(value.value);
    }
  }
}
