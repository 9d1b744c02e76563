/** Pass 1 of the muon filler (`fill`): one output record per input muon,
    the sort by descending pt, and the identity links published under the
    final positions. */
module Pass1 {
  import opened Wrappers
  import opened Event
  import opened Muons
  import opened Ordering

  /** The records appended by the pass-1 loop, and `ptrList` beside them. */
  datatype Appended = Appended(muons: seq<OutMuon>, ptrList: seq<MuonPtr>)

  /** The links the muon filler publishes: muon->muon, PF->muon ("pf"),
      vertex->muon and gen->muon ("gen"). */
  datatype MuonLinks = MuonLinks(
    muMu: ObjectMap<MuonPtr>,
    pfMu: ObjectMap<CandPtr>,
    vtxMu: ObjectMap<VertexPtr>,
    genMu: ObjectMap<CandPtr>)

  /** Everything pass 1 leaves behind for pass 2. */
  datatype Pass1Output = Pass1Output(
    muons: seq<OutMuon>,
    ptrList: seq<MuonPtr>,
    order: seq<nat>,
    links: MuonLinks)

  /** The loop over the first `m` input muons; the first muon whose record
      cannot be built aborts the event. */
  function AppendRecords(inMuons: seq<InputMuon>, vertices: seq<Vertex>,
                         patId: Identification, recoId: Identification,
                         nTrig: nat, m: nat): (r: Result<Appended, Error>)
    requires m <= |inMuons|
    ensures r.Success? <==>
      forall i :: 0 <= i < m ==> FillRecord(i, inMuons[i], vertices, patId, recoId, nTrig).Success?
    ensures r.Success? ==> |r.value.muons| == m && |r.value.ptrList| == m
    ensures r.Success? ==> forall i :: 0 <= i < m ==>
      && FillRecord(i, inMuons[i], vertices, patId, recoId, nTrig) == Success(r.value.muons[i])
      && r.value.ptrList[i] == MuonPtr(i)
    ensures r.Failure? ==> exists i :: (
      && 0 <= i < m
      && FillRecord(i, inMuons[i], vertices, patId, recoId, nTrig) == Failure(r.error)
      && forall j :: 0 <= j < i ==> FillRecord(j, inMuons[j], vertices, patId, recoId, nTrig).Success?)
  {
    if m == 0 then Success(Appended([], []))
    else
      var prev :- AppendRecords(inMuons, vertices, patId, recoId, nTrig, m - 1);
      var rec :- FillRecord(m - 1, inMuons[m - 1], vertices, patId, recoId, nTrig);
      Success(Appended(prev.muons + [rec], prev.ptrList + [MuonPtr(m - 1)]))
  }

  /** The PF candidate a muon is linked to: its non-null source candidate. */
  function PFLink(mu: InputMuon): Option<CandPtr> {
    match mu.source
    case NullSource => None
    case Candidate(c) => Some(c)
    case PackedCandidate(c, _) => Some(c)
  }

  /** The vertex a muon is linked to: the non-null vertex of a packed source. */
  function VertexLink(mu: InputMuon): Option<VertexPtr> {
    if mu.source.PackedCandidate? then mu.source.vertexRef else None
  }

  /** The generator particle a muon is linked to: in simulation only, the
      non-null generator reference of a pat muon. */
  function GenLink(mu: InputMuon, isRealData: bool): Option<CandPtr> {
    if !isRealData && mu.flavour.PatMuon? then mu.flavour.genParticleRef else None
  }

  /** One iteration of the publishing loop, for the muon `mu` that ended at
      final position `iP`. */
  function LinkOne(links: MuonLinks, iP: nat, ptr: MuonPtr, mu: InputMuon, isRealData: bool): MuonLinks {
    var muMu := Add(links.muMu, ptr, iP);
    var pfMu := if mu.source.NullSource? then links.pfMu else Add(links.pfMu, mu.source.ptr, iP);
    var vtxMu :=
      if mu.source.PackedCandidate? && mu.source.vertexRef.Some?
      then Add(links.vtxMu, mu.source.vertexRef.value, iP)
      else links.vtxMu;
    var genMu :=
      if !isRealData && mu.flavour.PatMuon? && mu.flavour.genParticleRef.Some?
      then Add(links.genMu, mu.flavour.genParticleRef.value, iP)
      else links.genMu;
    MuonLinks(muMu, pfMu, vtxMu, genMu)
  }

  /** The effect of one iteration on each map: the muon link is always
      added, and the PF, vertex and gen links exactly when the muon carries
      that object; a map whose link the muon lacks is left as it was. */
  lemma LinkOneMaps(links: MuonLinks, iP: nat, ptr: MuonPtr, mu: InputMuon, isRealData: bool)
    ensures var r := LinkOne(links, iP, ptr, mu, isRealData);
      && r.muMu == Add(links.muMu, ptr, iP)
      && r.pfMu == (if PFLink(mu).Some? then Add(links.pfMu, PFLink(mu).value, iP) else links.pfMu)
      && r.vtxMu == (if VertexLink(mu).Some? then Add(links.vtxMu, VertexLink(mu).value, iP) else links.vtxMu)
      && r.genMu == (if GenLink(mu, isRealData).Some? then Add(links.genMu, GenLink(mu, isRealData).value, iP)
                     else links.genMu)
  {
  }

  /** `ptrList` and `order` can be followed from a final position to an input muon. */
  predicate Traceable(inMuons: seq<InputMuon>, ptrList: seq<MuonPtr>, order: seq<nat>) {
    && (forall i :: 0 <= i < |order| ==> order[i] < |ptrList|)
    && (forall j :: 0 <= j < |ptrList| ==> ptrList[j].index < |inMuons|)
  }

  /** `*ptrList[originalIndices[iP]]`: the input muon of final position `iP`. */
  function MuonAt(inMuons: seq<InputMuon>, ptrList: seq<MuonPtr>, order: seq<nat>, iP: nat): InputMuon
    requires Traceable(inMuons, ptrList, order)
    requires iP < |order|
  {
    inMuons[ptrList[order[iP]].index]
  }

  /** The publishing loop over the first `k` final positions. */
  function RegisterLinks(inMuons: seq<InputMuon>, ptrList: seq<MuonPtr>, order: seq<nat>,
                         isRealData: bool, k: nat): MuonLinks
    requires Traceable(inMuons, ptrList, order)
    requires k <= |order|
  {
    if k == 0 then MuonLinks(EmptyMap(), EmptyMap(), EmptyMap(), EmptyMap())
    else
      LinkOne(RegisterLinks(inMuons, ptrList, order, isRealData, k - 1), k - 1,
              ptrList[order[k - 1]], MuonAt(inMuons, ptrList, order, k - 1), isRealData)
  }

  /** Seen from the output side, every final position below `k` has its
      muon link, to the input muon `ptrList[order[p]]`. */
  lemma {:induction false} MuonLinksBackward(inMuons: seq<InputMuon>, ptrList: seq<MuonPtr>,
                                             order: seq<nat>, isRealData: bool, k: nat)
    requires Traceable(inMuons, ptrList, order)
    requires k <= |order|
    ensures var bwd := RegisterLinks(inMuons, ptrList, order, isRealData, k).muMu.bwd;
      && (forall p: nat :: p in bwd <==> p < k)
      && (forall p: nat :: p < k ==> bwd[p] == ptrList[order[p]])
  {
    if k > 0 {
      MuonLinksBackward(inMuons, ptrList, order, isRealData, k - 1);
      LinkOneMaps(RegisterLinks(inMuons, ptrList, order, isRealData, k - 1), k - 1,
                  ptrList[order[k - 1]], MuonAt(inMuons, ptrList, order, k - 1), isRealData);
    }
  }

  /** A position has a PF link exactly when its muon has a non-null source
      candidate, and the link goes to that candidate. */
  lemma {:induction false} PFLinksBackward(inMuons: seq<InputMuon>, ptrList: seq<MuonPtr>,
                                           order: seq<nat>, isRealData: bool, k: nat)
    requires Traceable(inMuons, ptrList, order)
    requires k <= |order|
    ensures var bwd := RegisterLinks(inMuons, ptrList, order, isRealData, k).pfMu.bwd;
      && (forall p: nat :: p in bwd <==> p < k && PFLink(MuonAt(inMuons, ptrList, order, p)).Some?)
      && (forall p: nat :: p < k && p in bwd ==> bwd[p] == PFLink(MuonAt(inMuons, ptrList, order, p)).value)
  {
    if k > 0 {
      PFLinksBackward(inMuons, ptrList, order, isRealData, k - 1);
      LinkOneMaps(RegisterLinks(inMuons, ptrList, order, isRealData, k - 1), k - 1,
                  ptrList[order[k - 1]], MuonAt(inMuons, ptrList, order, k - 1), isRealData);
    }
  }

  /** A position has a vertex link exactly when its muon's source is a
      packed candidate with a non-null vertex, and the link goes to that vertex. */
  lemma {:induction false} VertexLinksBackward(inMuons: seq<InputMuon>, ptrList: seq<MuonPtr>,
                                               order: seq<nat>, isRealData: bool, k: nat)
    requires Traceable(inMuons, ptrList, order)
    requires k <= |order|
    ensures var bwd := RegisterLinks(inMuons, ptrList, order, isRealData, k).vtxMu.bwd;
      && (forall p: nat :: p in bwd <==> p < k && VertexLink(MuonAt(inMuons, ptrList, order, p)).Some?)
      && (forall p: nat :: p < k && p in bwd ==> bwd[p] == VertexLink(MuonAt(inMuons, ptrList, order, p)).value)
  {
    if k > 0 {
      VertexLinksBackward(inMuons, ptrList, order, isRealData, k - 1);
      LinkOneMaps(RegisterLinks(inMuons, ptrList, order, isRealData, k - 1), k - 1,
                  ptrList[order[k - 1]], MuonAt(inMuons, ptrList, order, k - 1), isRealData);
    }
  }

  /** A position has a gen link exactly when the event is simulation and its
      muon is a pat muon with a non-null generator reference. */
  lemma {:induction false} GenLinksBackward(inMuons: seq<InputMuon>, ptrList: seq<MuonPtr>,
                                            order: seq<nat>, isRealData: bool, k: nat)
    requires Traceable(inMuons, ptrList, order)
    requires k <= |order|
    ensures var bwd := RegisterLinks(inMuons, ptrList, order, isRealData, k).genMu.bwd;
      && (forall p: nat :: p in bwd <==> p < k && GenLink(MuonAt(inMuons, ptrList, order, p), isRealData).Some?)
      && (forall p: nat :: p < k && p in bwd ==>
            bwd[p] == GenLink(MuonAt(inMuons, ptrList, order, p), isRealData).value)
  {
    if k > 0 {
      GenLinksBackward(inMuons, ptrList, order, isRealData, k - 1);
      LinkOneMaps(RegisterLinks(inMuons, ptrList, order, isRealData, k - 1), k - 1,
                  ptrList[order[k - 1]], MuonAt(inMuons, ptrList, order, k - 1), isRealData);
    }
  }

  /** Seen from the input side, the muon map sends the input muon of every
      final position back to that position, and holds no other muon. */
  lemma {:induction false} RegisterLinksForward(inMuons: seq<InputMuon>, ptrList: seq<MuonPtr>,
                                                order: seq<nat>, isRealData: bool, k: nat)
    requires Traceable(inMuons, ptrList, order)
    requires Distinct(order) && Distinct(ptrList)
    requires k <= |order|
    ensures var fwd := RegisterLinks(inMuons, ptrList, order, isRealData, k).muMu.fwd;
      && (forall p :: 0 <= p < k ==> ptrList[order[p]] in fwd && fwd[ptrList[order[p]]] == p)
      && (forall x :: x in fwd ==> exists p :: 0 <= p < k && ptrList[order[p]] == x)
  {
    if k > 0 {
      RegisterLinksForward(inMuons, ptrList, order, isRealData, k - 1);
      LinkOneMaps(RegisterLinks(inMuons, ptrList, order, isRealData, k - 1), k - 1,
                  ptrList[order[k - 1]], MuonAt(inMuons, ptrList, order, k - 1), isRealData);
      forall p | 0 <= p < k - 1 ensures ptrList[order[p]] != ptrList[order[k - 1]] {
        assert order[p] != order[k - 1];
      }
    }
  }

  /** The publishing loop over every final position: each position has its
      muon link, and a PF, vertex or gen link exactly when its muon carries
      that object, to that object. */
  function Publish(inMuons: seq<InputMuon>, ptrList: seq<MuonPtr>, order: seq<nat>,
                   isRealData: bool): (r: MuonLinks)
    requires Traceable(inMuons, ptrList, order)
    ensures forall p: nat :: p in r.muMu.bwd <==> p < |order|
    ensures forall p: nat :: p < |order| ==> r.muMu.bwd[p] == ptrList[order[p]]
    ensures forall p: nat :: p in r.pfMu.bwd <==> p < |order| && PFLink(MuonAt(inMuons, ptrList, order, p)).Some?
    ensures forall p: nat :: p in r.pfMu.bwd ==> r.pfMu.bwd[p] == PFLink(MuonAt(inMuons, ptrList, order, p)).value
    ensures forall p: nat :: p in r.vtxMu.bwd <==> p < |order| && VertexLink(MuonAt(inMuons, ptrList, order, p)).Some?
    ensures forall p: nat :: p in r.vtxMu.bwd ==> r.vtxMu.bwd[p] == VertexLink(MuonAt(inMuons, ptrList, order, p)).value
    ensures forall p: nat :: p in r.genMu.bwd <==>
      p < |order| && GenLink(MuonAt(inMuons, ptrList, order, p), isRealData).Some?
    ensures forall p: nat :: p in r.genMu.bwd ==>
      r.genMu.bwd[p] == GenLink(MuonAt(inMuons, ptrList, order, p), isRealData).value
  {
    MuonLinksBackward(inMuons, ptrList, order, isRealData, |order|);
    PFLinksBackward(inMuons, ptrList, order, isRealData, |order|);
    VertexLinksBackward(inMuons, ptrList, order, isRealData, |order|);
    GenLinksBackward(inMuons, ptrList, order, isRealData, |order|);
    RegisterLinks(inMuons, ptrList, order, isRealData, |order|)
  }

  /** With `ptrList[i] == ptrAt(i)` and any permutation `order`, every input
      muon is linked to exactly one output record, that record is the one
      built from it, and the two directions of the muon map are inverse. */
  lemma EveryMuonLinkedOnce(inMuons: seq<InputMuon>, ptrList: seq<MuonPtr>, order: seq<nat>, isRealData: bool)
    requires |ptrList| == |inMuons| && forall i :: 0 <= i < |ptrList| ==> ptrList[i] == MuonPtr(i)
    requires IsPermutation(order, |inMuons|)
    ensures Traceable(inMuons, ptrList, order)
    ensures var m := Publish(inMuons, ptrList, order, isRealData).muMu;
      && (forall i :: 0 <= i < |inMuons| ==>
            MuonPtr(i) in m.fwd && m.fwd[MuonPtr(i)] < |inMuons| && order[m.fwd[MuonPtr(i)]] == i)
      && (forall x :: x in m.fwd ==> x.index < |inMuons|)
      && (forall p: nat :: p in m.bwd <==> p < |inMuons|)
      && (forall p :: p in m.bwd ==> m.bwd[p] in m.fwd && m.fwd[m.bwd[p]] == p)
      && (forall p, q :: p in m.bwd && q in m.bwd && m.bwd[p] == m.bwd[q] ==> p == q)
  {
    var n := |inMuons|;
    assert Distinct(ptrList) by {
      forall a, b | 0 <= a < b < n ensures ptrList[a] != ptrList[b] {
        assert ptrList[a].index != ptrList[b].index;
      }
    }
    MuonLinksBackward(inMuons, ptrList, order, isRealData, n);
    RegisterLinksForward(inMuons, ptrList, order, isRealData, n);
    var m := Publish(inMuons, ptrList, order, isRealData).muMu;
    forall i | 0 <= i < n
      ensures MuonPtr(i) in m.fwd && m.fwd[MuonPtr(i)] < n && order[m.fwd[MuonPtr(i)]] == i
    {
      var k: nat := i;
      assert k in order;
      var p :| 0 <= p < n && order[p] == i;
      assert ptrList[order[p]] == MuonPtr(i);
    }
  }

  /** The pt of each record, the key the sort orders by. */
  function Pts(recs: seq<OutMuon>): (keys: seq<real>)
    ensures |keys| == |recs|
    ensures forall i :: 0 <= i < |recs| ==> keys[i] == recs[i].pt
  {
    seq(|recs|, i requires 0 <= i < |recs| => recs[i].pt)
  }

  /** What pass 2 relies on: every link points into the collections, and
      every record has one trigger flag per category. */
  predicate WellFormed(nTrig: nat, inMuons: seq<InputMuon>, s: Pass1Output) {
    && (forall p :: p in s.links.pfMu.bwd ==> p < |s.muons|)
    && (forall p :: p in s.links.vtxMu.bwd ==> p < |s.muons|)
    && (forall p :: p in s.links.genMu.bwd ==> p < |s.muons|)
    && (forall x :: x in s.links.muMu.fwd ==> x.index < |inMuons| && s.links.muMu.fwd[x] < |s.muons|)
    && (forall p :: 0 <= p < |s.muons| ==> |s.muons[p].triggerMatch| == nTrig)
  }

  /** The sorted, linked state pass 1 assembles from the appended records
      and a sort order. */
  function Assemble(inMuons: seq<InputMuon>, appended: Appended, order: seq<nat>, isRealData: bool): Pass1Output
    requires Traceable(inMuons, appended.ptrList, order)
    requires forall i :: 0 <= i < |order| ==> order[i] < |appended.muons|
  {
    Pass1Output(Reorder(appended.muons, order), appended.ptrList, order,
                Publish(inMuons, appended.ptrList, order, isRealData))
  }

  /** Sorting and publishing keep the records (as a multiset), leave pt
      non-increasing and yield a state pass 2 can consume. */
  lemma AssembleFacts(nTrig: nat, inMuons: seq<InputMuon>, appended: Appended, order: seq<nat>, isRealData: bool)
    requires |appended.muons| == |inMuons| && |appended.ptrList| == |inMuons|
    requires forall i :: 0 <= i < |inMuons| ==> appended.ptrList[i] == MuonPtr(i)
    requires forall i :: 0 <= i < |inMuons| ==> |appended.muons[i].triggerMatch| == nTrig
    requires IsSortOrder(order, Pts(appended.muons))
    ensures Traceable(inMuons, appended.ptrList, order)
    ensures var out := Assemble(inMuons, appended, order, isRealData);
      && |out.muons| == |inMuons|
      && (forall iP, jP :: 0 <= iP < jP < |inMuons| ==> out.muons[iP].pt >= out.muons[jP].pt)
      && multiset(out.muons) == multiset(appended.muons)
      && WellFormed(nTrig, inMuons, out)
  {
    EveryMuonLinkedOnce(inMuons, appended.ptrList, order, isRealData);
    ReorderIsPermutation(appended.muons, order);
    var out := Assemble(inMuons, appended, order, isRealData);
    assert forall iP :: 0 <= iP < |order| ==> out.muons[iP].pt == Pts(appended.muons)[order[iP]];
  }

  /** Every input muon yields a record: the condition under which pass 1
      completes. */
  predicate Fillable(cfg: FillerConfig, inMuons: seq<InputMuon>, vertices: seq<Vertex>,
                     patId: Identification, recoId: Identification) {
    forall i :: 0 <= i < |inMuons| ==>
      FillRecord(i, inMuons[i], vertices, patId, recoId, |cfg.triggerObjectNames|).Success?
  }

  /** Pass 1: build the records, sort them by descending pt, and publish the
      links under the final positions. */
  function Fill(cfg: FillerConfig, inMuons: seq<InputMuon>, vertices: seq<Vertex>,
                patId: Identification, recoId: Identification): (r: Result<Pass1Output, Error>)
    ensures r.Success? <==> Fillable(cfg, inMuons, vertices, patId, recoId)
    ensures r.Success? ==>
      && |r.value.muons| == |inMuons|
      && |r.value.ptrList| == |inMuons|
      && (forall i :: 0 <= i < |inMuons| ==> r.value.ptrList[i] == MuonPtr(i))
      && IsPermutation(r.value.order, |inMuons|)
      && Traceable(inMuons, r.value.ptrList, r.value.order)
      && r.value.links == Publish(inMuons, r.value.ptrList, r.value.order, cfg.isRealData)
    ensures r.Success? ==> forall iP :: 0 <= iP < |inMuons| ==>
      FillRecord(r.value.order[iP], inMuons[r.value.order[iP]], vertices, patId, recoId,
                 |cfg.triggerObjectNames|) == Success(r.value.muons[iP])
    ensures r.Success? ==> forall iP, jP :: 0 <= iP < jP < |inMuons| ==>
      r.value.muons[iP].pt >= r.value.muons[jP].pt
    ensures r.Success? ==>
      multiset(r.value.muons) == multiset(
        AppendRecords(inMuons, vertices, patId, recoId, |cfg.triggerObjectNames|, |inMuons|).value.muons)
    ensures r.Success? ==> WellFormed(|cfg.triggerObjectNames|, inMuons, r.value)
  {
    var nTrig := |cfg.triggerObjectNames|;
    var appended :- AppendRecords(inMuons, vertices, patId, recoId, nTrig, |inMuons|);
    var order := SortByKey(Pts(appended.muons));
    AssembleFacts(nTrig, inMuons, appended, order, cfg.isRealData);
    Success(Assemble(inMuons, appended, order, cfg.isRealData))
  }
}
