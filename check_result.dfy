/** The value object a parsed check result is returned as. */
module Model {
  import opened Php

  /** The outcome of one uniqueness check: the service's text identifier, the
      percentage of the text judged unique, and the "water" (filler) percentage.
      A datatype value cannot be updated in place, so the three fields keep the
      values given at construction; the getters are the destructors. */
  datatype CheckResult = CheckResult(textId: Value, uniquePercent: real, waterPercent: Value)

  /** Each getter returns what the constructor was given, and two results are
      equal exactly when their three fields are. */
  lemma CheckResultFields(textId: Value, uniquePercent: real, waterPercent: Value, other: CheckResult)
    ensures CheckResult(textId, uniquePercent, waterPercent).textId == textId
    ensures CheckResult(textId, uniquePercent, waterPercent).uniquePercent == uniquePercent
    ensures CheckResult(textId, uniquePercent, waterPercent).waterPercent == waterPercent
    ensures CheckResult(textId, uniquePercent, waterPercent) == other
        <==> other.textId == textId && other.uniquePercent == uniquePercent && other.waterPercent == waterPercent
  {
  }
}
