/** The branches the muon filler declares in the output tree, and what the
    dropped ones mean for the records. */
module Schema {
  import opened Wrappers
  import opened Event
  import opened Muons
  import opened Triggers
  import opened Pipeline

  const MuonsBranch: string := "muons"
  /** A leading `!` removes the named field from the output. */
  const MatchedGenDropped: string := "!muons.matchedGen_"
  const TriggerMatchDropped: string := "!muons.triggerMatch"

  /** The event branch list after the filler has added its entries: the
      collection itself, then the generator reference dropped in real data
      and the trigger flags dropped when trigger matching is off. */
  function BranchNames(eventBranches: seq<string>, isRealData: bool, useTrigger: bool): (r: seq<string>)
    ensures |r| == |eventBranches| + 1 + (if isRealData then 1 else 0) + (if useTrigger then 0 else 1)
    ensures r[..|eventBranches|] == eventBranches
    ensures r[|eventBranches|] == MuonsBranch
    ensures MatchedGenDropped in r[|eventBranches|..] <==> isRealData
    ensures TriggerMatchDropped in r[|eventBranches|..] <==> !useTrigger
    ensures isRealData && !useTrigger ==>
      r[|eventBranches| + 1] == MatchedGenDropped && r[|eventBranches| + 2] == TriggerMatchDropped
  {
    assert MuonsBranch[0] != MatchedGenDropped[0] && MuonsBranch[0] != TriggerMatchDropped[0];
    assert MatchedGenDropped[7] != TriggerMatchDropped[7];
    var added := [MuonsBranch]
      + (if isRealData then [MatchedGenDropped] else [])
      + (if useTrigger then [] else [TriggerMatchDropped]);
    assert (eventBranches + added)[|eventBranches|..] == added;
    eventBranches + added
  }

  /** The fields the filler drops are the ones it never sets: in real data
      no record has a generator reference, and without trigger matching no
      record has a trigger flag raised. */
  lemma DroppedFieldsUnset(cfg: FillerConfig, inMuons: seq<InputMuon>, vertices: seq<Vertex>,
                           patId: Identification, recoId: Identification, store: ObjectMapStore,
                           deltaR: (TriggerObject, InputMuon) -> real)
    requires Runnable(cfg, inMuons, vertices, patId, recoId, store)
    ensures var out := Run(cfg, inMuons, vertices, patId, recoId, store, deltaR).value.1;
      var added := BranchNames([], cfg.isRealData, cfg.useTrigger);
      && (MatchedGenDropped in added ==> forall iP :: 0 <= iP < |out| ==> out[iP].matchedGen.None?)
      && (TriggerMatchDropped in added ==>
            forall iP :: 0 <= iP < |out| ==> out[iP].triggerMatch == seq(|cfg.triggerObjectNames|, _ => false))
  {
    var out := Run(cfg, inMuons, vertices, patId, recoId, store, deltaR).value.1;
    var added := BranchNames([], cfg.isRealData, cfg.useTrigger);
    assert added[0..] == added;
    if cfg.isRealData {
      forall iP | 0 <= iP < |out| ensures out[iP].matchedGen.None? {
        RunRecord(cfg, inMuons, vertices, patId, recoId, store, deltaR, iP);
      }
    }
    if !cfg.useTrigger {
      forall iP | 0 <= iP < |out| ensures out[iP].triggerMatch == seq(|cfg.triggerObjectNames|, _ => false) {
        RunFlagsOff(cfg, inMuons, vertices, patId, recoId, store, deltaR, iP);
      }
    }
  }
}
