/** The verdict order of src/repo_health_doctor/gate/verdict.py. */
module Verdicts {
  datatype Verdict = AllowLimited | Warn | Unknown | Quarantine | Block

  function Rank(v: Verdict): nat {
    match v
    case AllowLimited => 0
    case Warn => 1
    case Unknown => 2
    case Quarantine => 3
    case Block => 4
  }

  predicate AtLeast(v: Verdict, w: Verdict) {
    Rank(v) >= Rank(w)
  }

  /** `strongest_verdict`: the first candidate of the highest rank. */
  function StrongestVerdict(candidates: seq<Verdict>): Verdict {
    if candidates == [] then AllowLimited
    else
      var front := StrongestVerdict(candidates[..|candidates| - 1]);
      if Rank(candidates[|candidates| - 1]) > Rank(front) then candidates[|candidates| - 1] else front
  }

  function AsSet(candidates: seq<Verdict>): set<Verdict> {
    set v | v in candidates
  }

  /** The strongest verdict of a set of candidates. */
  function StrongestOf(candidates: set<Verdict>): Verdict {
    if Block in candidates then Block
    else if Quarantine in candidates then Quarantine
    else if Unknown in candidates then Unknown
    else if Warn in candidates then Warn
    else AllowLimited
  }

  /** The order and the multiplicity of the candidates do not matter; the result is one of them, or the weakest. */
  lemma {:induction false} StrongestIsMaximum(candidates: seq<Verdict>)
    ensures StrongestVerdict(candidates) == StrongestOf(AsSet(candidates))
    ensures forall v :: v in candidates ==> AtLeast(StrongestVerdict(candidates), v)
    ensures StrongestVerdict(candidates) in candidates || StrongestVerdict(candidates) == AllowLimited
  {
    if candidates != [] {
      var n := |candidates| - 1;
      StrongestIsMaximum(candidates[..n]);
      assert AsSet(candidates) == AsSet(candidates[..n]) + {candidates[n]};
      assert forall v :: v in candidates ==> v in candidates[..n] || v == candidates[n];
    }
  }

  lemma StrongestIsAtLeast(candidates: set<Verdict>, v: Verdict)
    requires v in candidates
    ensures AtLeast(StrongestOf(candidates), v)
  {
  }
}
