/** Event-scoped identities, the bidirectional object maps that fillers
    publish, the store that pass 2 reads, the filler configuration and the
    errors that abort an event or, for a bad configuration, construction. */
module Event {
  import opened Wrappers

  /** edm::Ptr<reco::Muon> into the event's muon collection; `ptrAt(i)`
      identifies the muon by its position `i` in that collection. */
  datatype MuonPtr = MuonPtr(index: nat)

  /** Identity of a reco::Candidate (a PF candidate or a generator particle). */
  datatype CandPtr = CandPtr(id: nat)

  /** Identity of a reco::Vertex. */
  datatype VertexPtr = VertexPtr(id: nat)

  /** A pat::TriggerObjectStandAlone of the event. */
  datatype TriggerObject = TriggerObject(id: nat)

  /** One (source kind, panda kind) object map: `fwd` goes from the input
      object to the position of the output record, `bwd` the other way. */
  datatype ObjectMap<K(==)> = ObjectMap(fwd: map<K, nat>, bwd: map<nat, K>)

  function EmptyMap<K(==)>(): ObjectMap<K> {
    ObjectMap(map[], map[])
  }

  /** Every insertion updates both directions at once. */
  function Add<K(==)>(m: ObjectMap<K>, k: K, pos: nat): ObjectMap<K> {
    ObjectMap(m.fwd[k := pos], m.bwd[pos := k])
  }

  /** After an insertion `k` maps to `pos` and back, an earlier entry for
      either is overwritten, and every other entry stays. */
  lemma AddEffect<K>(m: ObjectMap<K>, k: K, pos: nat)
    ensures var r := Add(m, k, pos);
      && k in r.fwd && r.fwd[k] == pos
      && pos in r.bwd && r.bwd[pos] == k
      && r.fwd.Keys == m.fwd.Keys + {k}
      && r.bwd.Keys == m.bwd.Keys + {pos}
      && (forall x :: x in m.fwd && x != k ==> r.fwd[x] == m.fwd[x])
      && (forall p :: p in m.bwd && p != pos ==> r.bwd[p] == m.bwd[p])
  {
  }

  /** One entry of the trigger-object name map: the object and its filter names. */
  type FilterEntry = (TriggerObject, seq<string>)

  /** No trigger object occurs in two entries of the name map. */
  predicate DistinctObjects(entries: seq<FilterEntry>) {
    forall j, j' :: 0 <= j < j' < |entries| ==> entries[j].0 != entries[j'].0
  }

  /** The trigger-object name map (a `std::map` keyed by the object), kept
      in its iteration order: its keys are distinct. */
  type NameMap = entries: seq<FilterEntry> | DistinctObjects(entries) witness []

  /** The forward maps one sibling filler published, as read by the muon
      filler's pass 2; a map the filler never filled reads as empty. */
  datatype PublishedMaps = PublishedMaps(
    pfCandidates: map<CandPtr, nat>,
    vertices: map<VertexPtr, nat>,
    genParticles: map<CandPtr, nat>,
    triggerFilters: NameMap)

  /** All fillers' maps for one event, keyed by the filler's name. */
  type ObjectMapStore = map<string, PublishedMaps>

  const PFCandidatesKey: string := "pfCandidates"
  const VerticesKey: string := "vertices"
  const GenParticlesKey: string := "genParticles"
  const HltKey: string := "hlt"

  datatype TrackKind = InnerTrack | GlobalTrack | BestTrack

  /** The conditions that abort the event; `BadTriggerObjectName` is raised
      by the constructor, at configuration time. */
  datatype Error =
    | NullTrack(muon: nat, track: TrackKind)   // dereference of a null track reference
    | MissingMap(name: string)                 // ObjectMapStore::at on an absent filler name
    | MissingVertex(ptr: VertexPtr)            // fwdMap.at on a vertex the vertex filler did not map
    | BadTriggerObjectName(category: nat)      // substr(1) on an empty trigger-object name, in the constructor

  /** `_objectMaps.at(name)`. */
  function Lookup(store: ObjectMapStore, name: string): (r: Result<PublishedMaps, Error>)
    ensures r.Success? <==> name in store
    ensures r.Success? ==> r.value == store[name]
    ensures r.Failure? ==> r.error == MissingMap(name)
  {
    if name in store then Success(store[name]) else Failure(MissingMap(name))
  }

  /** The muon filler's configuration: real data or simulation, whether
      trigger matching is on, and per trigger-object category the set of
      qualifying filter names (one category per panda::Muon trigger slot). */
  datatype FillerConfig = FillerConfig(
    isRealData: bool,
    useTrigger: bool,
    triggerObjectNames: seq<set<string>>)
}
