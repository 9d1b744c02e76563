# MuonsFiller link protocol, in Dafny

This project models the muon filler of the PandaProd ntuple producer
(`Producer/src/MuonsFiller.cc`). It covers the filler's two passes over one event.

- **Pass 1 (`fill`).**
  - It creates one output record per input muon. The model keeps pt, the
    identification flags, `mediumBtoF`, the PF, vertex and gen references
    and the trigger flags; the other physics fields are left out.
  - It sorts the records by descending pt.
  - It then registers up to four links per record, under the record's final position:
    - muon → record, in the muon map, always;
    - source candidate → record, in the PF map, when the source candidate is non-null;
    - vertex → record, in the vertex map, when the source is a packed
      candidate with a non-null vertex reference;
    - generator particle → record, in the gen map, in simulation only and
      when the muon is a pat muon with a non-null generator reference.
- **Pass 2 (`setRefs`).**
  - It resolves the PF, vertex and gen links against the forward maps that the
    other fillers published in the object-map store.
  - A PF or gen candidate that the target filler did not map is skipped.
  - A vertex it did not map aborts the event, as does any missing named map.
  - With trigger matching on, it splits the `hlt` trigger objects into
    categories by filter name. It then raises a record's flag for a category
    when some member of that category lies within ΔR < 0.3 of the record's
    input muon.
- **Also modelled.**
  - The constructor's derivation of configuration keys, `"triggerObjects."`
    followed by the category name without its first character.
  - The `branchNames` schema rule.

Modules, one per file:

| file | module | holds |
|---|---|---|
| `wrappers.dfy` | `Wrappers` | `Option`, `Result` |
| `event.dfy` | `Event` | object identities, object maps, the trigger-object name map, the store, the configuration, the errors |
| `muons.dfy` | `Muons` | input and output records, `mediumBtoF`, one iteration of the pass-1 loop |
| `ordering.dfy` | `Ordering` | sort orders, a concrete sort, reordering |
| `pass1.dfy` | `Pass1` | `fill` |
| `triggers.dfy` | `Triggers` | the constructor's configuration keys and categories, the category split, first-match flags |
| `pass2.dfy` | `Pass2` | `setRefs` |
| `pipeline.dfy` | `Pipeline` | both passes on one event, and what each final record holds in terms of its input muon |
| `schema.dfy` | `Schema` | `branchNames` |

The model treats several things as parameters rather than modelling them:

- **Identification algorithms.** `isLooseMuon`, `isMediumMuon`,
  `isTightMuon` and `isSoftMuon` are supplied as function values, one set
  for the pat path and one for the reco path.
- **ΔR.** The angular distance is an abstract function `deltaR`.
- **Parameter-set access.** It is a total `lookup` function from key to filter
  names: a missing parameter is not modelled (see `Triggers.Configure` under
  "## Left out").
- **Failing dereferences.** A null track reference that the source
  dereferences becomes `Error.NullTrack`. A missing name in the object-map
  store becomes `Error.MissingMap`. A missing vertex becomes
  `Error.MissingVertex`. An empty trigger-object name becomes
  `Error.BadTriggerObjectName`. The first three abort the event. The last
  is thrown by the constructor, at configuration time, before any event.

Decisions where the source leaves something open:

- **Muon identity.** An `edm::Ptr` to an input muon is its index in the input
  collection, which is what `ptrAt(iMu)` denotes.
- **The sort.** `panda::Particle::PtGreater` and the collection's `sort` are
  not part of this model. Every statement about pass 1 holds for any index
  permutation that leaves pt non-increasing (`Ordering.IsSortOrder`), so no
  tie-breaking rule is assumed. The concrete `SortByKey` used by `Fill` is an
  insertion sort that satisfies that contract. Whether equal-pt records keep
  their input order depends on the collection's sort, which is not modelled;
  nothing here depends on it.
- **ObjectMap.** `ObjectMap::add` is not part of this model. `Event.Add`
  writes both directions and overwrites (`Event.AddEffect`). Within one event every output
  position is added at most once per map, and every muon pointer once.
- **Iteration order.** The model iterates the output→input direction in
  ascending position order, and the muon map's input→output direction in
  ascending input index. The `hlt` name map is an ordered sequence of entries
  whose objects are distinct (`Event.NameMap`), as the keys of a `std::map` are.
  Lemmas show that the trigger results do not depend on either order:
  `Triggers.MembershipOrderIndependent` and
  `Triggers.MatchTriggersOrderIndependent`.
- **Fresh records.** `create_back` is assumed to give a record with no
  reference set, every trigger flag lowered and `mediumBtoF` false.

## Model

| member | source | states |
|---|---|---|
| Event.Lookup | Producer/src/MuonsFiller.cc:208-209 | the store access succeeds exactly when the name is present, returns that filler's maps, and otherwise fails with MissingMap of that name |
| Event.AddEffect | Producer/src/MuonsFiller.cc:177-196 | an `add` makes the object map to the position and the position back to the object, overwrites an earlier entry of either, and keeps every other entry |
| Muons.MediumBtoF | Producer/src/MuonsFiller.cc:108-114 | when evaluation completes the flag equals the runs B-F medium formula with thresholds 0.49, 3, 12, 20, 0.303 and 0.451; it is false without looseness; it aborts (NullTrack of this muon) exactly when loose with a null inner track, or loose, valid fraction above 0.49, global and a null global track; the single-cut branch above 0.451 yields true |
| Muons.FillRecord | Producer/src/MuonsFiller.cc:101-157 | the record carries the muon's pt and no references or flags; loose and medium come from the pat path for pat muons and the reco path otherwise; with no vertices tight and soft are false, otherwise they are the chosen path's verdict on the first vertex; a pat muon's mediumBtoF is the value of the runs B-F formula on it and any other muon's is false; the muon aborts exactly when it has no best track or its mediumBtoF evaluation aborts |
| Pass1.AppendRecords | Producer/src/MuonsFiller.cc:57-163 | the creation loop succeeds exactly when every muon's record does, records muon i at position i with pointer ptrAt(i), and on failure reports the first failing muon |
| Ordering.SortByKey | Producer/src/MuonsFiller.cc:165 | the returned index list is a permutation of the record positions with non-increasing pt |
| Ordering.Reorder | Producer/src/MuonsFiller.cc:165 | the reordered collection is as long as the index list and holds at position i the record that stood at index order[i] |
| Ordering.ReorderIsPermutation | Producer/src/MuonsFiller.cc:165 | reordering the records by a permutation keeps them as a multiset |
| Pass1.LinkOneMaps | Producer/src/MuonsFiller.cc:174-198 | one export iteration adds the muon link, adds the PF, vertex and gen links exactly when the muon carries that object, and leaves a map untouched otherwise |
| Pass1.MuonLinksBackward | Producer/src/MuonsFiller.cc:174-177 | after the export loop every final position has exactly one muon link, to the input muon the sort put there |
| Pass1.PFLinksBackward | Producer/src/MuonsFiller.cc:179-181 | a position has a PF link exactly when its muon's source candidate is non-null, and the link targets that candidate |
| Pass1.VertexLinksBackward | Producer/src/MuonsFiller.cc:182-186 | a position has a vertex link exactly when its muon's source is a packed candidate with a non-null vertex reference, and the link targets that vertex |
| Pass1.GenLinksBackward | Producer/src/MuonsFiller.cc:189-198 | a position has a gen link exactly in simulation when its muon is a pat muon with a non-null generator reference, and the link targets that particle |
| Pass1.RegisterLinksForward | Producer/src/MuonsFiller.cc:174-177 | the muon map's input→output direction sends each registered muon to its final position and holds no other muon |
| Pass1.Publish | Producer/src/MuonsFiller.cc:174-199 | after the export loop every final position has its muon link to ptrList[order[p]], and a PF, vertex or gen link exactly when that muon carries the object, targeting it |
| Pass1.EveryMuonLinkedOnce | Producer/src/MuonsFiller.cc:162-177 | for any sort permutation every input muon is linked to exactly one record, the one built from it, and the two directions of the muon map are inverse |
| Pass1.AssembleFacts | Producer/src/MuonsFiller.cc:165-199 | sorting and export keep the records as a multiset, leave pt non-increasing and keep every link inside the collections |
| Pass1.Fill | Producer/src/MuonsFiller.cc:47-200 | pass 1 succeeds exactly when every muon's record does; then position iP holds the record of input muon order[iP], order is a permutation, pt is non-increasing, the records are a rearrangement of the appended ones, and the links are those the export loop publishes |
| Triggers.Configure | Producer/src/MuonsFiller.cc:11-24 | with parameter access taken to be total, construction succeeds exactly when matching is off or no category name is empty; the configuration keeps the data kind and the trigger switch and gives each category the filter names under its key, none with matching off |
| Triggers.ConfigKey | Producer/src/MuonsFiller.cc:19-20 | the key is "triggerObjects." followed by the name without its first character, and an empty name aborts |
| Triggers.CategoriesPrefix | Producer/src/MuonsFiller.cc:18-22 | with parameter access taken to be total, the category loop succeeds exactly when every name so far is non-empty, reports the first empty one otherwise, and gives each category exactly the filter names configured under its key |
| Triggers.Categories | Producer/src/MuonsFiller.cc:17-23 | with matching off every category is empty; with it on and parameter access taken to be total, construction succeeds exactly when no category name is empty, and each category holds exactly its configured filter names |
| Triggers.ConfiguredQualifies | Producer/src/MuonsFiller.cc:17-22 | under the constructed configuration an object qualifies for a category exactly when matching is on and one of its filter names is configured under that category's key |
| Triggers.Members | Producer/src/MuonsFiller.cc:251-263 | an object is in a category's list exactly when some name-map entry for it carries one of the category's filter names |
| Triggers.MembersDistinct | Producer/src/MuonsFiller.cc:255-260 | thanks to the break after the first matching name, no object is pushed twice into a category |
| Triggers.SplitMembers | Producer/src/MuonsFiller.cc:251-263 | the nested loop over entries and categories builds one list per category, each exactly that category's member list |
| Triggers.CategoryMembersDistinct | Producer/src/MuonsFiller.cc:251-263 | as the name map is keyed by the object, no category list holds an object twice |
| Triggers.CategoryMembers | Producer/src/MuonsFiller.cc:248-263 | the split yields one list per category, each equal to that category's member list |
| Triggers.MembershipOrderIndependent | Producer/src/MuonsFiller.cc:251 | membership depends only on which entries the name map holds, not on its iteration order |
| Triggers.AnyWithin | Producer/src/MuonsFiller.cc:272-277 | the first-match search with break reports exactly whether some member lies within ΔR 0.3 |
| Triggers.Stamp | Producer/src/MuonsFiller.cc:271-278 | a flag is raised when a member of its category is close enough and is never lowered |
| Triggers.FwdEntries | Producer/src/MuonsFiller.cc:265-267 | the iterated entries are exactly the muon map's input→output pairs |
| Triggers.MatchTriggers | Producer/src/MuonsFiller.cc:267-279 | only the flags change; a flag ends raised exactly when it was raised or some link to the record comes from a muon a category member is close to |
| Triggers.MatchTriggersOrderIndependent | Producer/src/MuonsFiller.cc:267 | the flags depend only on which links the muon map holds, not on its iteration order |
| Pass2.ResolveTolerant | Producer/src/MuonsFiller.cc:211-221 | each linked record's reference becomes the target filler's image of the candidate when it is mapped, a link to an unmapped candidate is skipped, and nothing else changes |
| Pass2.ResolveVertices | Producer/src/MuonsFiller.cc:223-228 | the vertex loop succeeds exactly when every linked vertex is mapped, sets each linked record's vertex to its image, and otherwise aborts with MissingVertex of an unmapped vertex |
| Pass2.ResolveGen | Producer/src/MuonsFiller.cc:230-243 | real data leaves the records untouched; simulation needs the genParticles map and resolves like PF |
| Pass2.ResolveTriggers | Producer/src/MuonsFiller.cc:245-280 | with matching off nothing changes; with it on the hlt map is required and the records are matched against the category split |
| Pass2.ResolveTriggersFlag | Producer/src/MuonsFiller.cc:245-279 | with matching on, a flag is raised exactly when it was raised or a linked muon is close to a member of the category |
| Pass2.SetRefs | Producer/src/MuonsFiller.cc:203-281 | a missing pfCandidates map aborts first, then a missing vertices map, then an unmapped linked vertex; pass 2 succeeds exactly when every needed named map is present and every vertex link resolves |
| Pass2.SetRefsResolution | Producer/src/MuonsFiller.cc:205-221 | after pass 2 only references and flags differ from pass 1, and each PF reference is the image of the linked candidate if the PF filler mapped it |
| Pass2.SetRefsVertexGen | Producer/src/MuonsFiller.cc:223-243 | after pass 2 each vertex reference is the image of the linked vertex, and in simulation each gen reference is the image of the linked particle if mapped; real data leaves it unset |
| Pass2.SetRefsFlagsOff | Producer/src/MuonsFiller.cc:245 | with matching off pass 2 leaves every flag as pass 1 set it |
| Pass2.SetRefsTriggerFlag | Producer/src/MuonsFiller.cc:245-279 | after pass 2 a flag is raised exactly when it was before or, with matching on, a linked muon is close to a member of the category |
| Pipeline.Run | Producer/src/MuonsFiller.cc:47-281 | the event goes through both passes exactly when every muon's record succeeds, every needed named map is present and every input muon's vertex is mapped by the vertex filler |
| Pipeline.PositionLinks | Producer/src/MuonsFiller.cc:174-198 | final position iP has a PF, vertex or gen link exactly when the input muon order[iP] has such an object, and the link targets it |
| Pipeline.ResolvableIffMapped | Producer/src/MuonsFiller.cc:223-228 | pass 2's vertex lookups all succeed exactly when every input muon's vertex is mapped: the sort only moves links around |
| Pipeline.RunRecord | Producer/src/MuonsFiller.cc:205-243 | the final record at iP keeps pass 1's record of muon order[iP]; its PF and gen references are the images of that muon's candidate and particle, gen being unset in real data; its vertex reference is always set when the muon has a vertex |
| Pipeline.LinkedMatchOfPosition | Producer/src/MuonsFiller.cc:267-277 | matching through the muon map at position iP is matching the input muon order[iP] |
| Pipeline.CategoryMatchOfPosition | Producer/src/MuonsFiller.cc:251-277 | matching a position against a category's list is matching its input muon against the name-map entries that carry one of the category's filter names |
| Pipeline.RunTriggerFlag | Producer/src/MuonsFiller.cc:245-279 | after both passes a flag is raised exactly when matching is on and some trigger object carrying one of the category's filter names is within ΔR 0.3 of the record's input muon |
| Pipeline.RunFlagsOff | Producer/src/MuonsFiller.cc:245 | with matching off every record ends with one lowered flag per category |
| Pipeline.RunSorted | Producer/src/MuonsFiller.cc:165 | after both passes the records are in non-increasing pt, one per input muon, each carrying its muon's pt |
| Pipeline.RunVertexFallback | Producer/src/MuonsFiller.cc:116-131 | an event without vertices has no tight and no soft muon on either identification path |
| Schema.BranchNames | Producer/src/MuonsFiller.cc:36-44 | the existing branches are kept, "muons" follows, "!muons.matchedGen_" is added exactly for real data and "!muons.triggerMatch" exactly without matching, in that order |
| Schema.DroppedFieldsUnset | Producer/src/MuonsFiller.cc:40-43 | a field the schema drops is never set: with the gen branch dropped no record has a gen reference, and with the trigger branch dropped every flag is lowered |

## Left out

- Triggers.Configure, Triggers.Categories and Triggers.CategoriesPrefix: parameter-set access is taken to be total, so a configuration missing a `triggerObjects.<name>` entry (`getParameter_` at `MuonsFiller.cc:20` takes no default) and a failing token lookup (`getToken_` at `MuonsFiller.cc:14-15`) are not modelled; their success-iff covers only the empty-name abort of `substr(1)`. Names are `seq<char>`, so `objectName[1..]` drops the first character where `substr(1)` drops the first byte; the two agree because the category names are ASCII constants.
- The `global`, `tracker` and `pf` flags and the other copied fields of the record (`MuonsFiller.cc:63-65` and the lines after) are plain copies of input accessors; no link, flag or abort depends on them.
- `ObjectMapStore::get` on a filler's maps that the filler never filled is taken to read as empty; the store's code is not part of this model.
- Pass 1 starts from an empty `outMuons` collection and from empty object maps of the muon filler, as the framework provides them at the start of an event.
- Kinematics and physics fields: p4, charge, isolation, hit counts, `pfPt`, `hltsafe`, `dxy` and `dz` are left out. They are floating-point copies of external quantities and take part in no link or flag. The best-track dereferences are kept, as the NullTrack abort.
- The identification algorithms and `muon::segmentCompatibility` are external. They are function parameters or recorded inputs.
- `reco::deltaR` is floating point. It is the abstract parameter `deltaR`; only its comparison with 0.3 is modelled.
- `addOutput` writes a documentation tree to a ROOT file. It is I/O.
- Token retrieval (`getToken_`, `getProduct_`) and the framework's event access are left out: the muon and vertex collections are arguments.
- `panda::Particle::PtGreater` and the collection sort are not part of this model. The sort is specified through `IsSortOrder`, and stability of ties is not modelled.
- `ObjectMap` and `ObjectMapStore` internals are not part of this model. Their interface is the functions `Event.Add` and `Event.Lookup`.
- `Producer/python/utils/eGammaCorrection.py` belongs to the electron and photon configuration, not to this filler.
- Pointer identity of trigger objects is modelled as `TriggerObject` identities, and panda record pointers as output positions.
