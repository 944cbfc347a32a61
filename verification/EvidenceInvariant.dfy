/** The evidence behind every evidence commit stays stored under its id. */
module EvidenceInvariant {
  import opened CaseHistory
  import opened Documents
  import opened Machine
  import opened HistoryInvariant

  ghost predicate Stored(evidence: map<string, EvidenceRecord>, record: EvidenceRecord) {
    record.candidate.evidenceId in evidence && evidence[record.candidate.evidenceId] == record
  }

  ghost predicate EvidenceInv(s: State) {
    forall i :: 0 <= i < |s.history| && s.history[i].writer.Evidence? ==>
      Stored(s.docs.evidence, s.history[i].writer.record)
  }

  lemma PerformKeepsEvidence(s: State, effect: Effect)
    requires HistoryInv(s) && EvidenceInv(s) && EffectSound(s, effect)
    ensures EvidenceInv(Perform(s, effect))
  {
    var s' := Perform(s, effect);
    forall i | 0 <= i < |s'.history| && s'.history[i].writer.Evidence?
      ensures Stored(s'.docs.evidence, s'.history[i].writer.record)
    {
      if i < |s.history| {
        assert Stored(s.docs.evidence, s.history[i].writer.record);
      }
    }
  }

  lemma EvidenceStep(s: State, l: Label)
    requires HistoryInv(s) && EvidenceInv(s) && Enabled(s, l)
    ensures EvidenceInv(Next(s, l))
  {
    match l
    case Work(w, o) =>
      if !s.workers[w].pc.Finish? {
        MoveOfSound(s, w, o);
        PerformKeepsEvidence(s, MoveOf(s, w, o).effect);
      }
    case Bounce =>
      if RecordBounce(s.docs) != s.docs {
        BounceSound(s);
        PerformKeepsEvidence(s, Commits(RecordBounce(s.docs), Transport, []));
      }
    case _ =>
  }
}
