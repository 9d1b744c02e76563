/** Pass 2 of the muon filler (`setRefs`): the pending PF, vertex and
    generator links are resolved against the forward maps the other fillers
    published, and the trigger-match flags are set. */
module Pass2 {
  import opened Wrappers
  import opened Event
  import opened Muons
  import opened Pass1
  import opened Triggers

  /** The two references whose targets may legitimately be missing. */
  datatype CandRef = MatchedPF | MatchedGen

  function GetRef(m: OutMuon, f: CandRef): Option<nat> {
    match f
    case MatchedPF => m.matchedPF
    case MatchedGen => m.matchedGen
  }

  function WithRef(m: OutMuon, f: CandRef, v: Option<nat>): OutMuon {
    match f
    case MatchedPF => m.(matchedPF := v)
    case MatchedGen => m.(matchedGen := v)
  }

  /** The loop over a candidate link map's output->input direction, for the
      output positions below `k`: a link whose target the target filler
      mapped sets the reference to that target's image; any other link is
      skipped and leaves the reference as it was. */
  function ResolveTolerant(muons: seq<OutMuon>, bwd: map<nat, CandPtr>, target: map<CandPtr, nat>,
                           f: CandRef, k: nat): (r: seq<OutMuon>)
    requires k <= |muons|
    ensures |r| == |muons|
    ensures forall p :: 0 <= p < |r| ==> r[p] == WithRef(muons[p], f, GetRef(r[p], f))
    ensures forall p :: 0 <= p < |r| ==>
      GetRef(r[p], f) == (if p < k && p in bwd && bwd[p] in target then Some(target[bwd[p]])
                          else GetRef(muons[p], f))
  {
    if k == 0 then muons
    else
      var prev := ResolveTolerant(muons, bwd, target, f, k - 1);
      var p := k - 1;
      if p in bwd && bwd[p] in target then prev[p := WithRef(prev[p], f, Some(target[bwd[p]]))]
      else prev
  }

  /** The loop over the vertex link map's output->input direction, for the
      output positions below `k`: every linked vertex must be in the vertex
      filler's map (`at`), otherwise the event aborts. */
  function ResolveVertices(muons: seq<OutMuon>, bwd: map<nat, VertexPtr>, target: map<VertexPtr, nat>,
                           k: nat): (r: Result<seq<OutMuon>, Error>)
    requires k <= |muons|
    ensures r.Success? <==> forall p :: 0 <= p < k && p in bwd ==> bwd[p] in target
    ensures r.Success? ==> |r.value| == |muons|
    ensures r.Success? ==> forall p :: 0 <= p < |muons| ==>
      r.value[p] == muons[p].(vertex := if p < k && p in bwd then Some(target[bwd[p]]) else muons[p].vertex)
    ensures r.Failure? ==>
      exists p :: 0 <= p < k && p in bwd && bwd[p] !in target && r.error == MissingVertex(bwd[p])
  {
    if k == 0 then Success(muons)
    else
      var prev :- ResolveVertices(muons, bwd, target, k - 1);
      var p := k - 1;
      if p !in bwd then Success(prev)
      else if bwd[p] !in target then Failure(MissingVertex(bwd[p]))
      else Success(prev[p := prev[p].(vertex := Some(target[bwd[p]]))])
  }

  /** Generator matching: skipped entirely for real data; in simulation the
      "genParticles" map must exist and missing targets are tolerated. */
  function ResolveGen(isRealData: bool, store: ObjectMapStore, muons: seq<OutMuon>, bwd: map<nat, CandPtr>)
    : (r: Result<seq<OutMuon>, Error>)
    ensures isRealData ==> r == Success(muons)
    ensures !isRealData ==> (r.Success? <==> GenParticlesKey in store)
    ensures r.Failure? ==> r.error == MissingMap(GenParticlesKey)
    ensures r.Success? && !isRealData ==>
      r.value == ResolveTolerant(muons, bwd, store[GenParticlesKey].genParticles, MatchedGen, |muons|)
  {
    if isRealData then Success(muons)
    else
      var gen :- Lookup(store, GenParticlesKey);
      Success(ResolveTolerant(muons, bwd, gen.genParticles, MatchedGen, |muons|))
  }

  /** Trigger matching: skipped when it is off; otherwise the "hlt" map must
      exist, its objects are split into categories and every muon linked in
      the muon map is matched against them. */
  function ResolveTriggers(useTrigger: bool, cats: seq<set<string>>, store: ObjectMapStore,
                           muons: seq<OutMuon>, inMuons: seq<InputMuon>, fwd: map<MuonPtr, nat>,
                           deltaR: (TriggerObject, InputMuon) -> real): (r: Result<seq<OutMuon>, Error>)
    requires forall x :: x in fwd ==> x.index < |inMuons| && fwd[x] < |muons|
    requires forall p :: 0 <= p < |muons| ==> |muons[p].triggerMatch| == |cats|
    ensures !useTrigger ==> r == Success(muons)
    ensures useTrigger ==> (r.Success? <==> HltKey in store)
    ensures r.Failure? ==> r.error == MissingMap(HltKey)
    ensures r.Success? && useTrigger ==>
      r.value == MatchTriggers(muons, inMuons, FwdEntries(fwd, |inMuons|),
                               CategoryMembers(store[HltKey].triggerFilters, cats), deltaR)
  {
    if !useTrigger then Success(muons)
    else
      var hlt :- Lookup(store, HltKey);
      Success(MatchTriggers(muons, inMuons, FwdEntries(fwd, |inMuons|),
                            CategoryMembers(hlt.triggerFilters, cats), deltaR))
  }

  /** The flag of category `iT` on record `p` after the trigger step: with
      matching off it is untouched; with it on it is raised exactly when some
      muon-map link to the record comes from a muon that a member of the
      category is close to. */
  lemma ResolveTriggersFlag(useTrigger: bool, cats: seq<set<string>>, store: ObjectMapStore,
                            muons: seq<OutMuon>, inMuons: seq<InputMuon>, fwd: map<MuonPtr, nat>,
                            deltaR: (TriggerObject, InputMuon) -> real, p: nat, iT: nat)
    requires forall x :: x in fwd ==> x.index < |inMuons| && fwd[x] < |muons|
    requires forall q :: 0 <= q < |muons| ==> |muons[q].triggerMatch| == |cats|
    requires useTrigger ==> HltKey in store
    requires p < |muons| && iT < |cats|
    ensures var out := ResolveTriggers(useTrigger, cats, store, muons, inMuons, fwd, deltaR).value;
      && |out| == |muons|
      && |out[p].triggerMatch| == |cats|
      && (!useTrigger ==> out == muons)
      && (useTrigger ==>
            (out[p].triggerMatch[iT] <==>
               muons[p].triggerMatch[iT] ||
               LinkedMatch(FwdEntries(fwd, |inMuons|), p, Members(store[HltKey].triggerFilters, cats[iT]),
                           inMuons, deltaR)))
  {
    if useTrigger {
      var members := CategoryMembers(store[HltKey].triggerFilters, cats);
      assert members[iT] == Members(store[HltKey].triggerFilters, cats[iT]);
    }
  }

  /** All named maps pass 2 needs under this configuration are in the store. */
  predicate MapsPresent(cfg: FillerConfig, store: ObjectMapStore) {
    && PFCandidatesKey in store
    && VerticesKey in store
    && (!cfg.isRealData ==> GenParticlesKey in store)
    && (cfg.useTrigger ==> HltKey in store)
  }

  /** Every vertex link of pass 1 targets a vertex the vertex filler mapped. */
  predicate VerticesResolvable(s: Pass1Output, store: ObjectMapStore)
    requires VerticesKey in store
  {
    forall p :: p in s.links.vtxMu.bwd ==> s.links.vtxMu.bwd[p] in store[VerticesKey].vertices
  }

  /** Pass 2. The named maps are looked up in source order ("pfCandidates",
      "vertices", then "genParticles" in simulation and "hlt" with trigger
      matching), and the vertex links are resolved before the last two. */
  function SetRefs(cfg: FillerConfig, inMuons: seq<InputMuon>, s: Pass1Output, store: ObjectMapStore,
                   deltaR: (TriggerObject, InputMuon) -> real): (r: Result<seq<OutMuon>, Error>)
    requires WellFormed(|cfg.triggerObjectNames|, inMuons, s)
    ensures PFCandidatesKey !in store ==> r == Failure(MissingMap(PFCandidatesKey))
    ensures PFCandidatesKey in store && VerticesKey !in store ==> r == Failure(MissingMap(VerticesKey))
    ensures PFCandidatesKey in store && VerticesKey in store && !VerticesResolvable(s, store) ==>
      r.Failure? && r.error.MissingVertex?
    ensures r.Success? <==> MapsPresent(cfg, store) && VerticesResolvable(s, store)
    ensures r.Success? ==> |r.value| == |s.muons|
  {
    var pf :- Lookup(store, PFCandidatesKey);
    var vtx :- Lookup(store, VerticesKey);
    var n := |s.muons|;
    var withPF := ResolveTolerant(s.muons, s.links.pfMu.bwd, pf.pfCandidates, MatchedPF, n);
    var withVertex :- ResolveVertices(withPF, s.links.vtxMu.bwd, vtx.vertices, n);
    var withGen :- ResolveGen(cfg.isRealData, store, withVertex, s.links.genMu.bwd);
    ResolveTriggers(cfg.useTrigger, cfg.triggerObjectNames, store, withGen, inMuons,
                    s.links.muMu.fwd, deltaR)
  }

  /** What a successful pass 2 leaves in each record: the physics fields of
      pass 1 untouched, and the PF reference set to the PF filler's image of
      the linked candidate when that filler mapped it (a candidate it did
      not map is skipped). */
  lemma SetRefsResolution(cfg: FillerConfig, inMuons: seq<InputMuon>, s: Pass1Output, store: ObjectMapStore,
                          deltaR: (TriggerObject, InputMuon) -> real)
    requires WellFormed(|cfg.triggerObjectNames|, inMuons, s)
    requires MapsPresent(cfg, store) && VerticesResolvable(s, store)
    ensures var out := SetRefs(cfg, inMuons, s, store, deltaR).value;
      && |out| == |s.muons|
      && (forall p :: 0 <= p < |s.muons| ==>
            out[p] == s.muons[p].(matchedPF := out[p].matchedPF, vertex := out[p].vertex,
                                  matchedGen := out[p].matchedGen, triggerMatch := out[p].triggerMatch))
      && (forall p :: 0 <= p < |s.muons| ==>
            var pf := s.links.pfMu.bwd;
            var pfMap := store[PFCandidatesKey].pfCandidates;
            out[p].matchedPF == (if p in pf && pf[p] in pfMap then Some(pfMap[pf[p]]) else s.muons[p].matchedPF))
  {
  }

  /** The vertex and generator references a successful pass 2 leaves in
      each record: the vertex filler's image of the linked vertex, and in
      simulation the generator filler's image of the linked particle when
      that filler mapped it. */
  lemma SetRefsVertexGen(cfg: FillerConfig, inMuons: seq<InputMuon>, s: Pass1Output, store: ObjectMapStore,
                       deltaR: (TriggerObject, InputMuon) -> real)
    requires WellFormed(|cfg.triggerObjectNames|, inMuons, s)
    requires MapsPresent(cfg, store) && VerticesResolvable(s, store)
    ensures var out := SetRefs(cfg, inMuons, s, store, deltaR).value;
      && |out| == |s.muons|
      && (forall p :: 0 <= p < |s.muons| ==>
            var vtx := s.links.vtxMu.bwd;
            out[p].vertex == (if p in vtx then Some(store[VerticesKey].vertices[vtx[p]]) else s.muons[p].vertex))
      && (forall p :: 0 <= p < |s.muons| ==>
            out[p].matchedGen ==
              if cfg.isRealData then s.muons[p].matchedGen
              else
                var gen := s.links.genMu.bwd;
                var genMap := store[GenParticlesKey].genParticles;
                if p in gen && gen[p] in genMap then Some(genMap[gen[p]]) else s.muons[p].matchedGen)
  {
  }

  /** With trigger matching off, pass 2 leaves every record's flags as
      pass 1 set them. */
  lemma SetRefsFlagsOff(cfg: FillerConfig, inMuons: seq<InputMuon>, s: Pass1Output, store: ObjectMapStore,
                        deltaR: (TriggerObject, InputMuon) -> real, p: nat)
    requires WellFormed(|cfg.triggerObjectNames|, inMuons, s)
    requires MapsPresent(cfg, store) && VerticesResolvable(s, store)
    requires !cfg.useTrigger && p < |s.muons|
    ensures SetRefs(cfg, inMuons, s, store, deltaR).value[p].triggerMatch == s.muons[p].triggerMatch
  {
  }

  /** After a successful pass 2 a trigger flag is raised exactly when it was
      raised before or, with trigger matching on, some muon-map link to the
      record comes from a muon that a member of that category is close to. */
  lemma SetRefsTriggerFlag(cfg: FillerConfig, inMuons: seq<InputMuon>, s: Pass1Output, store: ObjectMapStore,
                           deltaR: (TriggerObject, InputMuon) -> real, p: nat, iT: nat)
    requires WellFormed(|cfg.triggerObjectNames|, inMuons, s)
    requires MapsPresent(cfg, store) && VerticesResolvable(s, store)
    requires p < |s.muons| && iT < |cfg.triggerObjectNames|
    ensures var out := SetRefs(cfg, inMuons, s, store, deltaR).value;
      && |out[p].triggerMatch| == |cfg.triggerObjectNames|
      && (out[p].triggerMatch[iT] <==>
           s.muons[p].triggerMatch[iT] ||
           (cfg.useTrigger &&
            LinkedMatch(FwdEntries(s.links.muMu.fwd, |inMuons|), p,
                        Members(store[HltKey].triggerFilters, cfg.triggerObjectNames[iT]), inMuons, deltaR)))
  {
    var n := |s.muons|;
    var pfMap := store[PFCandidatesKey].pfCandidates;
    var withPF := ResolveTolerant(s.muons, s.links.pfMu.bwd, pfMap, MatchedPF, n);
    var withVertex := ResolveVertices(withPF, s.links.vtxMu.bwd, store[VerticesKey].vertices, n).value;
    var withGen := ResolveGen(cfg.isRealData, store, withVertex, s.links.genMu.bwd).value;
    assert withGen[p].triggerMatch == s.muons[p].triggerMatch;
    var out := SetRefs(cfg, inMuons, s, store, deltaR).value;
    assert out == ResolveTriggers(cfg.useTrigger, cfg.triggerObjectNames, store, withGen, inMuons,
                                  s.links.muMu.fwd, deltaR).value;
    ResolveTriggersFlag(cfg.useTrigger, cfg.triggerObjectNames, store, withGen, inMuons,
                        s.links.muMu.fwd, deltaR, p, iT);
  }
}
