/** Status vocabularies shared by the compliance and verification packages. */
module Vocabulary {

  datatype ComplianceStatus = PASS | FAIL | WARNING | MISSING | UNVERIFIABLE | NOT_APPLICABLE | NOT_CHECKED

  datatype VerificationStatus = VERIFIED | INVALID | INACTIVE | NOT_FOUND | UNAVAILABLE | ERROR

  datatype QualityState = GOOD | DEGRADED | UNKNOWN
}
