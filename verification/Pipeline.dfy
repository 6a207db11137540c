/** Processing stages and validated transitions (src/infrastructure/pipeline.py). */
module Pipeline {
  import opened Ordering

  datatype Stage =
    | INGESTED
    | NORMALIZED
    | VERIFICATION_PENDING
    | VERIFIED
    | AI_ANALYSIS_PENDING
    | AI_ANALYZED
    | EXPLANATION_PENDING
    | EXPLANATION_READY
    | COMPLETE
    | FAILED

  const LINEAR_STAGES: seq<Stage> := [
    INGESTED, NORMALIZED, VERIFICATION_PENDING, VERIFIED, AI_ANALYSIS_PENDING,
    AI_ANALYZED, EXPLANATION_PENDING, EXPLANATION_READY, COMPLETE
  ]

  function Index(s: Stage): (i: nat)
    requires s != FAILED
    ensures i < |LINEAR_STAGES| && LINEAR_STAGES[i] == s
  {
    match s
    case INGESTED => 0
    case NORMALIZED => 1
    case VERIFICATION_PENDING => 2
    case VERIFIED => 3
    case AI_ANALYSIS_PENDING => 4
    case AI_ANALYZED => 5
    case EXPLANATION_PENDING => 6
    case EXPLANATION_READY => 7
    case COMPLETE => 8
  }

  function Successor(s: Stage): Option<Stage> {
    if s == FAILED || s == COMPLETE then None else Some(LINEAR_STAGES[Index(s) + 1])
  }

  function LinearTargets(s: Stage): set<Stage> {
    {s, FAILED} + if Successor(s).Some? then {Successor(s).value} else {}
  }

  /** Builds the transition table the way the source does. */
  method AllowedTransitions() returns (allowed: map<Stage, set<Stage>>)
    ensures forall s: Stage :: s in allowed
    ensures forall s, t: Stage :: t in allowed[s] <==> CanMove(s, t)
  {
    hide LinearTargets, CanMove, Index;
    allowed := map[];
    for i := 0 to |LINEAR_STAGES|
      invariant forall j :: 0 <= j < i ==> LINEAR_STAGES[j] in allowed
      invariant forall s :: s in allowed ==> allowed[s] == LinearTargets(s)
    {
      var stage := LINEAR_STAGES[i];
      var targets := {stage, FAILED};
      var successor := Successor(stage);
      if successor.Some? {
        targets := targets + {successor.value};
      }
      TargetsOf(stage);
      allowed := allowed[stage := targets];
    }
    ghost var linear := allowed;
    allowed := allowed[COMPLETE := {COMPLETE}];
    allowed := allowed[FAILED := (set s | s in LINEAR_STAGES) + {FAILED}];
    forall s: Stage ensures s in allowed {
      if s != FAILED {
        assert LINEAR_STAGES[Index(s)] in linear;
      }
    }
    forall s, t: Stage ensures t in allowed[s] <==> CanMove(s, t) {
      if t != FAILED {
        assert LINEAR_STAGES[Index(t)] in LINEAR_STAGES;
      }
      MovesAre(s, t);
    }
  }

  lemma TargetsOf(s: Stage)
    ensures LinearTargets(s) == {s, FAILED} + if Successor(s).Some? then {Successor(s).value} else {}
  {
  }

  lemma MovesAre(s: Stage, t: Stage)
    ensures s != FAILED && s != COMPLETE ==> (t in LinearTargets(s) <==> CanMove(s, t))
    ensures CanMove(COMPLETE, t) <==> t == COMPLETE
    ensures CanMove(FAILED, t)
  {
  }

  /** A move is a re-entry, a failure, the next stage, or a retry from FAILED;
      COMPLETE can only be re-entered. */
  predicate CanMove(s: Stage, t: Stage) {
    if s == COMPLETE then t == COMPLETE
    else if s == FAILED then true
    else t == s || t == FAILED || Index(t) == Index(s) + 1
  }
}
