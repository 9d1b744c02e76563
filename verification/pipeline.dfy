/** One event through both passes of the muon filler: what each final
    record holds, stated in terms of the input muon it was built from. */
module Pipeline {
  import opened Wrappers
  import opened Event
  import opened Muons
  import opened Ordering
  import opened Pass1
  import opened Triggers
  import opened Pass2

  /** The image of an optional input object under a sibling filler's
      forward map: nothing when there is no object or the filler did not
      map it. */
  function Image<K(==)>(k: Option<K>, m: map<K, nat>): Option<nat> {
    if k.Some? && k.value in m then Some(m[k.value]) else None
  }

  /** Every vertex that an input muon's packed source candidate refers to
      was mapped by the vertex filler. */
  predicate VerticesMapped(inMuons: seq<InputMuon>, store: ObjectMapStore)
    requires VerticesKey in store
  {
    forall i :: 0 <= i < |inMuons| && VertexLink(inMuons[i]).Some? ==>
      VertexLink(inMuons[i]).value in store[VerticesKey].vertices
  }

  /** The condition under which both passes complete: every input muon
      yields a record, the sibling fillers' maps are published, and each
      muon's vertex was mapped. */
  predicate Runnable(cfg: FillerConfig, inMuons: seq<InputMuon>, vertices: seq<Vertex>,
                     patId: Identification, recoId: Identification, store: ObjectMapStore) {
    && Fillable(cfg, inMuons, vertices, patId, recoId)
    && MapsPresent(cfg, store)
    && VerticesMapped(inMuons, store)
  }

  /** Pass 1 followed by pass 2 on one event; the pass-1 state is returned
      with the records so that each record can be traced to its input muon. */
  function Run(cfg: FillerConfig, inMuons: seq<InputMuon>, vertices: seq<Vertex>,
               patId: Identification, recoId: Identification, store: ObjectMapStore,
               deltaR: (TriggerObject, InputMuon) -> real): (r: Result<(Pass1Output, seq<OutMuon>), Error>)
    ensures r.Success? <==> Runnable(cfg, inMuons, vertices, patId, recoId, store)
    ensures r.Success? ==> r.value.0 == Fill(cfg, inMuons, vertices, patId, recoId).value
    ensures r.Success? ==> |r.value.1| == |inMuons|
  {
    var s :- Fill(cfg, inMuons, vertices, patId, recoId);
    ResolvableIffMapped(cfg, inMuons, vertices, patId, recoId, store);
    var out :- SetRefs(cfg, inMuons, s, store, deltaR);
    Success((s, out))
  }

  /** A completing run is pass 1's state paired with pass 2's records. */
  lemma RunParts(cfg: FillerConfig, inMuons: seq<InputMuon>, vertices: seq<Vertex>,
                 patId: Identification, recoId: Identification, store: ObjectMapStore,
                 deltaR: (TriggerObject, InputMuon) -> real)
    requires Runnable(cfg, inMuons, vertices, patId, recoId, store)
    ensures Fill(cfg, inMuons, vertices, patId, recoId).Success?
    ensures var s := Fill(cfg, inMuons, vertices, patId, recoId).value;
      && WellFormed(|cfg.triggerObjectNames|, inMuons, s)
      && MapsPresent(cfg, store) && VerticesResolvable(s, store)
      && Run(cfg, inMuons, vertices, patId, recoId, store, deltaR) ==
         Success((s, SetRefs(cfg, inMuons, s, store, deltaR).value))
  {
    ResolvableIffMapped(cfg, inMuons, vertices, patId, recoId, store);
  }

  /** Pass 1's links of final position `iP`, in terms of the input muon the
      record was built from. */
  lemma PositionLinks(cfg: FillerConfig, inMuons: seq<InputMuon>, vertices: seq<Vertex>,
                      patId: Identification, recoId: Identification, iP: nat)
    requires Fillable(cfg, inMuons, vertices, patId, recoId)
    requires iP < |inMuons|
    ensures var s := Fill(cfg, inMuons, vertices, patId, recoId).value;
      var mu := inMuons[s.order[iP]];
      && (iP in s.links.pfMu.bwd <==> PFLink(mu).Some?)
      && (iP in s.links.pfMu.bwd ==> s.links.pfMu.bwd[iP] == PFLink(mu).value)
      && (iP in s.links.vtxMu.bwd <==> VertexLink(mu).Some?)
      && (iP in s.links.vtxMu.bwd ==> s.links.vtxMu.bwd[iP] == VertexLink(mu).value)
      && (iP in s.links.genMu.bwd <==> GenLink(mu, cfg.isRealData).Some?)
      && (iP in s.links.genMu.bwd ==> s.links.genMu.bwd[iP] == GenLink(mu, cfg.isRealData).value)
  {
    var s := Fill(cfg, inMuons, vertices, patId, recoId).value;
    assert MuonAt(inMuons, s.ptrList, s.order, iP) == inMuons[s.order[iP]];
  }

  /** The vertex links of pass 1 all resolve exactly when every input
      muon's vertex does: the sort only moves the links around. */
  lemma ResolvableIffMapped(cfg: FillerConfig, inMuons: seq<InputMuon>, vertices: seq<Vertex>,
                            patId: Identification, recoId: Identification, store: ObjectMapStore)
    requires Fillable(cfg, inMuons, vertices, patId, recoId)
    ensures VerticesKey in store ==>
      (VerticesResolvable(Fill(cfg, inMuons, vertices, patId, recoId).value, store) <==>
       VerticesMapped(inMuons, store))
  {
    if VerticesKey !in store { return; }
    var s := Fill(cfg, inMuons, vertices, patId, recoId).value;
    var n := |inMuons|;
    var vtx := s.links.vtxMu.bwd;
    var target := store[VerticesKey].vertices;
    if VerticesResolvable(s, store) {
      forall i | 0 <= i < n && VertexLink(inMuons[i]).Some?
        ensures VertexLink(inMuons[i]).value in target
      {
        var k: nat := i;
        assert k in s.order;
        var p :| 0 <= p < n && s.order[p] == i;
        PositionLinks(cfg, inMuons, vertices, patId, recoId, p);
      }
    }
    if VerticesMapped(inMuons, store) {
      forall p | p in vtx ensures vtx[p] in target {
        assert p < n;
        PositionLinks(cfg, inMuons, vertices, patId, recoId, p);
      }
    }
  }

  /** A record after both passes: pass 1's physics fields of the muon it was
      built from, the PF and gen references resolved through the sibling
      fillers' maps (gen left unset in real data), and the vertex
      reference resolved whenever the muon has one. */
  lemma RunRecord(cfg: FillerConfig, inMuons: seq<InputMuon>, vertices: seq<Vertex>,
                  patId: Identification, recoId: Identification, store: ObjectMapStore,
                  deltaR: (TriggerObject, InputMuon) -> real, iP: nat)
    requires Runnable(cfg, inMuons, vertices, patId, recoId, store)
    requires iP < |inMuons|
    ensures var (s, out) := Run(cfg, inMuons, vertices, patId, recoId, store, deltaR).value;
      var i := s.order[iP];
      var mu := inMuons[i];
      var rec := FillRecord(i, mu, vertices, patId, recoId, |cfg.triggerObjectNames|);
      && rec.Success?
      && out[iP] == rec.value.(matchedPF := out[iP].matchedPF, vertex := out[iP].vertex,
                               matchedGen := out[iP].matchedGen, triggerMatch := out[iP].triggerMatch)
      && out[iP].matchedPF == Image(PFLink(mu), store[PFCandidatesKey].pfCandidates)
      && out[iP].vertex == Image(VertexLink(mu), store[VerticesKey].vertices)
      && (VertexLink(mu).Some? ==> out[iP].vertex.Some?)
      && out[iP].matchedGen ==
           (if cfg.isRealData then None else Image(GenLink(mu, false), store[GenParticlesKey].genParticles))
  {
    RunParts(cfg, inMuons, vertices, patId, recoId, store, deltaR);
    var s := Fill(cfg, inMuons, vertices, patId, recoId).value;
    var out := SetRefs(cfg, inMuons, s, store, deltaR).value;
    SetRefsResolution(cfg, inMuons, s, store, deltaR);
    SetRefsVertexGen(cfg, inMuons, s, store, deltaR);
    PositionLinks(cfg, inMuons, vertices, patId, recoId, iP);
    ResolvableIffMapped(cfg, inMuons, vertices, patId, recoId, store);
    var i := s.order[iP];
    assert FillRecord(i, inMuons[i], vertices, patId, recoId, |cfg.triggerObjectNames|) == Success(s.muons[iP]);
  }

  /** When the muon map sends every input muon `i` to the position that
      `order` gives it and holds nothing else, the links to position `iP`
      all come from the input muon `order[iP]`, so a linked match is a
      match of that muon. */
  lemma LinkedMatchOfPosition(fwd: map<MuonPtr, nat>, order: seq<nat>, inMuons: seq<InputMuon>,
                              objs: seq<TriggerObject>, deltaR: (TriggerObject, InputMuon) -> real, iP: nat)
    requires IsPermutation(order, |inMuons|)
    requires forall i :: 0 <= i < |inMuons| ==>
      MuonPtr(i) in fwd && fwd[MuonPtr(i)] < |inMuons| && order[fwd[MuonPtr(i)]] == i
    requires forall x :: x in fwd ==> x.index < |inMuons|
    requires iP < |inMuons|
    ensures LinkedMatch(FwdEntries(fwd, |inMuons|), iP, objs, inMuons, deltaR) <==>
      exists o :: o in objs && deltaR(o, inMuons[order[iP]]) < MatchRadius
  {
    var n := |inMuons|;
    var links := FwdEntries(fwd, n);
    var i := order[iP];
    forall j | 0 <= j < |links| && links[j].1 == iP ensures links[j].0 == MuonPtr(i) {
      var x := links[j].0;
      assert order[fwd[x]] == x.index;
    }
    assert fwd[MuonPtr(i)] == iP;
    if exists o :: o in objs && deltaR(o, inMuons[i]) < MatchRadius {
      assert (MuonPtr(i), iP) in links;
      var j :| 0 <= j < |links| && links[j] == (MuonPtr(i), iP);
      assert links[j].1 == iP;
    }
  }

  /** The same for the trigger objects of one category, stated over the
      entries of the trigger-object name map. */
  lemma CategoryMatchOfPosition(fwd: map<MuonPtr, nat>, order: seq<nat>, inMuons: seq<InputMuon>,
                                entries: seq<FilterEntry>, names: set<string>,
                                deltaR: (TriggerObject, InputMuon) -> real, iP: nat)
    requires IsPermutation(order, |inMuons|)
    requires forall i :: 0 <= i < |inMuons| ==>
      MuonPtr(i) in fwd && fwd[MuonPtr(i)] < |inMuons| && order[fwd[MuonPtr(i)]] == i
    requires forall x :: x in fwd ==> x.index < |inMuons|
    requires iP < |inMuons|
    ensures LinkedMatch(FwdEntries(fwd, |inMuons|), iP, Members(entries, names), inMuons, deltaR) <==>
      exists j :: 0 <= j < |entries| && Qualifies(entries[j].1, names) &&
        deltaR(entries[j].0, inMuons[order[iP]]) < MatchRadius
  {
    var mu := inMuons[order[iP]];
    var objs := Members(entries, names);
    LinkedMatchOfPosition(fwd, order, inMuons, objs, deltaR, iP);
    if exists o :: o in objs && deltaR(o, mu) < MatchRadius {
      var o :| o in objs && deltaR(o, mu) < MatchRadius;
      var j :| 0 <= j < |entries| && entries[j].0 == o && Qualifies(entries[j].1, names);
      assert deltaR(entries[j].0, mu) < MatchRadius;
    }
    if exists j :: 0 <= j < |entries| && Qualifies(entries[j].1, names) && deltaR(entries[j].0, mu) < MatchRadius {
      var j :| 0 <= j < |entries| && Qualifies(entries[j].1, names) && deltaR(entries[j].0, mu) < MatchRadius;
      assert entries[j].0 in objs;
    }
  }

  /** A trigger flag after both passes: raised exactly when trigger matching
      is on and some trigger object carrying one of the category's filter
      names lies within the matching radius of the record's input muon. */
  lemma RunTriggerFlag(cfg: FillerConfig, inMuons: seq<InputMuon>, vertices: seq<Vertex>,
                       patId: Identification, recoId: Identification, store: ObjectMapStore,
                       deltaR: (TriggerObject, InputMuon) -> real, iP: nat, iT: nat)
    requires Runnable(cfg, inMuons, vertices, patId, recoId, store)
    requires iP < |inMuons| && iT < |cfg.triggerObjectNames|
    ensures var (s, out) := Run(cfg, inMuons, vertices, patId, recoId, store, deltaR).value;
      var mu := inMuons[s.order[iP]];
      && |out[iP].triggerMatch| == |cfg.triggerObjectNames|
      && (out[iP].triggerMatch[iT] <==>
            cfg.useTrigger &&
            exists j :: 0 <= j < |store[HltKey].triggerFilters| &&
              Qualifies(store[HltKey].triggerFilters[j].1, cfg.triggerObjectNames[iT]) &&
              deltaR(store[HltKey].triggerFilters[j].0, mu) < MatchRadius)
  {
    RunParts(cfg, inMuons, vertices, patId, recoId, store, deltaR);
    var s := Fill(cfg, inMuons, vertices, patId, recoId).value;
    var out := SetRefs(cfg, inMuons, s, store, deltaR).value;
    var i := s.order[iP];
    assert FillRecord(i, inMuons[i], vertices, patId, recoId, |cfg.triggerObjectNames|) == Success(s.muons[iP]);
    assert Unresolved(s.muons[iP], |cfg.triggerObjectNames|);
    assert !s.muons[iP].triggerMatch[iT];
    assert WellFormed(|cfg.triggerObjectNames|, inMuons, s);
    assert SetRefs(cfg, inMuons, s, store, deltaR).Success?;
    SetRefsTriggerFlag(cfg, inMuons, s, store, deltaR, iP, iT);
    if cfg.useTrigger {
      EveryMuonLinkedOnce(inMuons, s.ptrList, s.order, cfg.isRealData);
      CategoryMatchOfPosition(s.links.muMu.fwd, s.order, inMuons, store[HltKey].triggerFilters,
                              cfg.triggerObjectNames[iT], deltaR, iP);
    }
  }

  /** With trigger matching off, every record after both passes has one
      lowered flag per category. */
  lemma RunFlagsOff(cfg: FillerConfig, inMuons: seq<InputMuon>, vertices: seq<Vertex>,
                    patId: Identification, recoId: Identification, store: ObjectMapStore,
                    deltaR: (TriggerObject, InputMuon) -> real, iP: nat)
    requires Runnable(cfg, inMuons, vertices, patId, recoId, store)
    requires !cfg.useTrigger && iP < |inMuons|
    ensures Run(cfg, inMuons, vertices, patId, recoId, store, deltaR).value.1[iP].triggerMatch ==
      seq(|cfg.triggerObjectNames|, _ => false)
  {
    RunParts(cfg, inMuons, vertices, patId, recoId, store, deltaR);
    var s := Fill(cfg, inMuons, vertices, patId, recoId).value;
    var out := SetRefs(cfg, inMuons, s, store, deltaR).value;
    var i := s.order[iP];
    assert FillRecord(i, inMuons[i], vertices, patId, recoId, |cfg.triggerObjectNames|) == Success(s.muons[iP]);
    SetRefsFlagsOff(cfg, inMuons, s, store, deltaR, iP);
  }

  /** After both passes the records are ordered by non-increasing pt and
      each input muon has exactly one record, carrying its pt. */
  lemma RunSorted(cfg: FillerConfig, inMuons: seq<InputMuon>, vertices: seq<Vertex>,
                  patId: Identification, recoId: Identification, store: ObjectMapStore,
                  deltaR: (TriggerObject, InputMuon) -> real)
    requires Runnable(cfg, inMuons, vertices, patId, recoId, store)
    ensures var (s, out) := Run(cfg, inMuons, vertices, patId, recoId, store, deltaR).value;
      && IsPermutation(s.order, |inMuons|)
      && (forall iP :: 0 <= iP < |out| ==> out[iP].pt == inMuons[s.order[iP]].pt)
      && (forall iP, jP :: 0 <= iP < jP < |out| ==> out[iP].pt >= out[jP].pt)
  {
    RunParts(cfg, inMuons, vertices, patId, recoId, store, deltaR);
    var s := Fill(cfg, inMuons, vertices, patId, recoId).value;
    var out := SetRefs(cfg, inMuons, s, store, deltaR).value;
    forall iP | 0 <= iP < |out| ensures out[iP].pt == s.muons[iP].pt {
      RunRecord(cfg, inMuons, vertices, patId, recoId, store, deltaR, iP);
    }
  }

  /** An event without primary vertices has no tight and no soft muon,
      whichever identification path each muon takes. */
  lemma RunVertexFallback(cfg: FillerConfig, inMuons: seq<InputMuon>, vertices: seq<Vertex>,
                          patId: Identification, recoId: Identification, store: ObjectMapStore,
                          deltaR: (TriggerObject, InputMuon) -> real)
    requires Runnable(cfg, inMuons, vertices, patId, recoId, store)
    requires |vertices| == 0
    ensures var out := Run(cfg, inMuons, vertices, patId, recoId, store, deltaR).value.1;
      forall iP :: 0 <= iP < |out| ==> !out[iP].tight && !out[iP].soft
  {
    var out := Run(cfg, inMuons, vertices, patId, recoId, store, deltaR).value.1;
    forall iP | 0 <= iP < |out| ensures !out[iP].tight && !out[iP].soft {
      RunRecord(cfg, inMuons, vertices, patId, recoId, store, deltaR, iP);
    }
  }
}
