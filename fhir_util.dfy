/**
 * FhirUtil.getPatientSearchKeyForResource: the search parameter that names
 * the patient for a resource type. Immunization uses "patient"; every other
 * type, and a null type, uses "subject".
 */
module FhirUtil {
  import opened Wrappers
  import opened JavaStrings

  const ImmunizationType := "Immunization"

  /** StringUtils.equalsIgnoreCase(resourceType, "Immunization"), which is
      false for null, decides the key. */
  function GetPatientSearchKeyForResource(resourceType: Option<string>): (key: string)
    ensures key == "patient" || key == "subject"
    ensures key == "patient" <==> resourceType.Some? && EqualsIgnoreCase(resourceType.value, ImmunizationType)
  {
    if resourceType.Some? && EqualsIgnoreCase(resourceType.value, ImmunizationType) then "patient"
    else "subject"
  }

  /** For an ASCII type, the key is "patient" exactly when the type spelled
      in lower case is "immunization". */
  lemma PatientKeyForAsciiType(resourceType: string)
    requires IsAscii(resourceType)
    ensures (GetPatientSearchKeyForResource(Some(resourceType)) == "patient") <==> LowerAscii(resourceType) == "immunization"
  {
    EqualsIgnoreCaseIsLowerAscii(resourceType, ImmunizationType);
    assert LowerAscii(ImmunizationType) == "immunization";
  }

  /** Case-insensitive comparison also lets in non-ASCII spellings: a dotted
      capital I (U+0130) or a dotless i (U+0131) in place of an 'i' still
      selects "patient". */
  lemma PatientKeyForDottedCapitalI()
    ensures GetPatientSearchKeyForResource(Some("\U{0130}mmunization")) == "patient"
    ensures GetPatientSearchKeyForResource(Some("Immun\U{0131}zation")) == "patient"
  {
    var a := "\U{0130}mmunization";
    var b := "Immun\U{0131}zation";
    assert forall i :: 0 <= i < |a| ==> CharEqualsIgnoreCase(a[i], ImmunizationType[i]);
    assert forall i :: 0 <= i < |b| ==> CharEqualsIgnoreCase(b[i], ImmunizationType[i]);
  }
}
