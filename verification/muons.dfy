/** Input muons as the filler sees them (physics left opaque), the panda
    output record restricted to the fields the link protocol and the
    identification flags touch, and the per-muon part of pass 1. */
module Muons {
  import opened Wrappers
  import opened Event

  /** Result of the dynamic_cast to pat::Muon: a pat muon carries a
      generator-particle reference, a plain reco muon does not. */
  datatype Flavour = PatMuon(genParticleRef: Option<CandPtr>) | RecoMuon

  /** `sourceCandidatePtr(0)`: null, a candidate, or a pat::PackedCandidate
      with its (possibly null) vertex reference. */
  datatype SourceCandidate =
    | NullSource
    | Candidate(ptr: CandPtr)
    | PackedCandidate(ptr: CandPtr, vertexRef: Option<VertexPtr>)

  /** An input muon. A `None` track quantity stands for a null track
      reference; the reals are the external quantities mediumBtoF reads. */
  datatype InputMuon = InputMuon(
    pt: real,
    flavour: Flavour,
    source: SourceCandidate,
    isGlobal: bool,
    innerTrackValidFraction: Option<real>,
    globalTrackNormChi2: Option<real>,
    chi2LocalPosition: real,
    trkKink: real,
    segmentCompatibility: real,
    hasBestTrack: bool)

  /** An element of the event's primary-vertex collection. */
  datatype Vertex = Vertex(ptr: VertexPtr)

  /** The external identification algorithms of one code path (pat::Muon
      members or the muon:: selectors); tight and soft take the first vertex. */
  datatype Identification = Identification(
    loose: InputMuon -> bool,
    medium: InputMuon -> bool,
    tight: (InputMuon, Vertex) -> bool,
    soft: (InputMuon, Vertex) -> bool)

  /** The panda::Muon fields of this model; references are positions in the
      PF-candidate, vertex and generator-particle output collections. */
  datatype OutMuon = OutMuon(
    pt: real,
    loose: bool,
    medium: bool,
    tight: bool,
    soft: bool,
    mediumBtoF: bool,
    matchedPF: Option<nat>,
    vertex: Option<nat>,
    matchedGen: Option<nat>,
    triggerMatch: seq<bool>)

  // Thresholds of the 2016 runs B-F medium identification.
  const MinValidFraction: real := 0.49
  const MaxNormChi2: real := 3.0
  const MaxChi2LocalPosition: real := 12.0
  const MaxTrkKink: real := 20.0
  const MinSegCompGlobal: real := 0.303
  const MinSegComp: real := 0.451

  /** A record as create_back leaves it: no reference set, no trigger flag. */
  predicate Unresolved(m: OutMuon, nTrig: nat) {
    && m.matchedPF.None? && m.vertex.None? && m.matchedGen.None?
    && m.triggerMatch == seq(nTrig, _ => false)
  }

  /** The runs B-F medium flag of muon number `i`, evaluated with C++
      short-circuiting: the inner track is dereferenced only once `loose`
      holds, the global track only for a global muon that passed the
      valid-fraction cut; a null one aborts the event. */
  function MediumBtoF(i: nat, mu: InputMuon, loose: bool): (r: Result<bool, Error>)
    ensures !loose ==> r == Success(false)
    ensures r.Failure? <==>
      loose && (mu.innerTrackValidFraction.None? ||
                (mu.innerTrackValidFraction.value > MinValidFraction &&
                 mu.isGlobal && mu.globalTrackNormChi2.None?))
    ensures r.Failure? ==> r.error.NullTrack? && r.error.muon == i
    ensures r.Success? ==>
      (r.value <==>
         && loose
         && mu.innerTrackValidFraction.Some? && mu.innerTrackValidFraction.value > MinValidFraction
         && ((&& mu.isGlobal
              && mu.globalTrackNormChi2.Some? && mu.globalTrackNormChi2.value < MaxNormChi2
              && mu.chi2LocalPosition < MaxChi2LocalPosition
              && mu.trkKink < MaxTrkKink
              && mu.segmentCompatibility > MinSegCompGlobal)
             || mu.segmentCompatibility > MinSegComp))
    ensures && loose
            && mu.innerTrackValidFraction.Some?
            && mu.innerTrackValidFraction.value > MinValidFraction
            && mu.segmentCompatibility > MinSegComp
            && (mu.isGlobal ==> mu.globalTrackNormChi2.Some?)
            ==> r == Success(true)
  {
    if !loose then Success(false)
    else if mu.innerTrackValidFraction.None? then Failure(NullTrack(i, InnerTrack))
    else if !(mu.innerTrackValidFraction.value > MinValidFraction) then Success(false)
    else
      var globalBranch :- (
        if !mu.isGlobal then Success(false)
        else if mu.globalTrackNormChi2.None? then Failure(NullTrack(i, GlobalTrack))
        else Success(
          && mu.globalTrackNormChi2.value < MaxNormChi2
          && mu.chi2LocalPosition < MaxChi2LocalPosition
          && mu.trkKink < MaxTrkKink
          && mu.segmentCompatibility > MinSegCompGlobal));
      Success(globalBranch || mu.segmentCompatibility > MinSegComp)
  }

  /** The identification code path the dynamic_cast selects. */
  function IdOf(mu: InputMuon, patId: Identification, recoId: Identification): Identification {
    if mu.flavour.PatMuon? then patId else recoId
  }

  /** Builds the output record of muon number `i` (one iteration of the
      pass-1 loop, restricted to the modelled fields). */
  function FillRecord(i: nat, mu: InputMuon, vertices: seq<Vertex>,
                      patId: Identification, recoId: Identification, nTrig: nat): (r: Result<OutMuon, Error>)
    ensures r.Success? ==> r.value.pt == mu.pt && Unresolved(r.value, nTrig)
    ensures r.Success? ==>
      && r.value.loose == IdOf(mu, patId, recoId).loose(mu)
      && r.value.medium == IdOf(mu, patId, recoId).medium(mu)
    ensures r.Success? && |vertices| == 0 ==> !r.value.tight && !r.value.soft
    ensures r.Success? && |vertices| > 0 ==>
      && r.value.tight == IdOf(mu, patId, recoId).tight(mu, vertices[0])
      && r.value.soft == IdOf(mu, patId, recoId).soft(mu, vertices[0])
    ensures r.Success? && mu.flavour.PatMuon? ==> MediumBtoF(i, mu, patId.loose(mu)) == Success(r.value.mediumBtoF)
    ensures r.Success? && !mu.flavour.PatMuon? ==> !r.value.mediumBtoF
    ensures r.Failure? <==>
      !mu.hasBestTrack || (mu.flavour.PatMuon? && MediumBtoF(i, mu, patId.loose(mu)).Failure?)
    ensures r.Failure? ==> r.error.NullTrack? && r.error.muon == i
  {
    var id := IdOf(mu, patId, recoId);
    var loose := id.loose(mu);
    var btof :- if mu.flavour.PatMuon? then MediumBtoF(i, mu, loose) else Success(false);
    var tight := if |vertices| == 0 then false else id.tight(mu, vertices[0]);
    var soft := if |vertices| == 0 then false else id.soft(mu, vertices[0]);
    if !mu.hasBestTrack then Failure(NullTrack(i, BestTrack))
    else Success(OutMuon(mu.pt, loose, id.medium(mu), tight, soft, btof,
                         None, None, None, seq(nTrig, _ => false)))
  }
}
