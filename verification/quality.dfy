/** The quality grades a QA agency assigns and the colour each portal shows for them. */
module Quality {
  const Excellent := "Excellent"
  const Good := "Good"
  const Medium := "Medium"
  const Poor := "Poor"

  /** The four grades the colour table names. */
  predicate IsGrade(q: string)
  {
    q == Excellent || q == Good || q == Medium || q == Poor
  }

  const SuccessColor := "var(--success-500)"
  const PrimaryColor := "var(--primary-500)"
  const WarningColor := "var(--warning-500)"
  const ErrorColor := "var(--error-500)"
  const GrayColor := "var(--gray-500)"

  /** `getQualityColor`, written identically in the buyer portal and the QR scanner. */
  function QualityColor(q: string): (c: string)
    ensures q == Excellent ==> c == SuccessColor
    ensures q == Good ==> c == PrimaryColor
    ensures q == Medium ==> c == WarningColor
    ensures q == Poor ==> c == ErrorColor
    ensures c == GrayColor <==> !IsGrade(q)
    ensures c in {SuccessColor, PrimaryColor, WarningColor, ErrorColor, GrayColor}
  {
    if q == Excellent then SuccessColor
    else if q == Good then PrimaryColor
    else if q == Medium then WarningColor
    else if q == Poor then ErrorColor
    else GrayColor
  }

  /** Different grades get different colours, so the colour alone tells the grade. */
  lemma GradeColorsDistinct(a: string, b: string)
    requires IsGrade(a) && IsGrade(b) && a != b
    ensures QualityColor(a) != QualityColor(b)
  {
  }
}
