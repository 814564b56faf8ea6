/** The severity scale and its threshold test (domain/enums/severity.py). */
module Severities {

  /** The order of the four severities, written out: which of them meet which threshold. */
  lemma Thresholds(s: Severity)
    ensures s.MeetsThreshold(Low)
    ensures s.MeetsThreshold(Medium) <==> s != Low
    ensures s.MeetsThreshold(High) <==> s == High || s == Critical
    ensures s.MeetsThreshold(Critical) <==> s == Critical
  {
  }

  datatype Severity = Low | Medium | High | Critical {

    function Rank(): nat {
      match this
      case Low => 0
      case Medium => 1
      case High => 2
      case Critical => 3
    }

    predicate MeetsThreshold(minimum: Severity) {
      Rank() >= minimum.Rank()
    }
  }
}
