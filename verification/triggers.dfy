/** Trigger matching: the per-category filter-name configuration, the
    split of the event's trigger objects into per-category member lists,
    and the first-match proximity flags. */
module Triggers {
  import opened Wrappers
  import opened Event
  import opened Muons
  import opened Ordering

  /** Angular distance below which a trigger object matches a muon. */
  const MatchRadius: real := 0.3

  const ConfigPrefix: string := "triggerObjects."

  /** The configuration key of trigger-object category `iT`: the prefix
      followed by the category name without its leading tag character.
      Dropping the first character of an empty name throws. */
  function ConfigKey(iT: nat, objectName: string): (r: Result<string, Error>)
    ensures r.Failure? <==> |objectName| == 0
    ensures r.Failure? ==> r.error == BadTriggerObjectName(iT)
    ensures r.Success? ==>
      && |r.value| == |ConfigPrefix| + |objectName| - 1
      && r.value[..|ConfigPrefix|] == ConfigPrefix
      && r.value[|ConfigPrefix|..] == objectName[1..]
  {
    if |objectName| == 0 then Failure(BadTriggerObjectName(iT))
    else Success(ConfigPrefix + objectName[1..])
  }

  /** The qualifying filter names of the first `m` categories, read through
      `lookup` (the parameter-set access) under each category's key. */
  function CategoriesPrefix(objectNames: seq<string>, lookup: string -> seq<string>, m: nat)
    : (r: Result<seq<set<string>>, Error>)
    requires m <= |objectNames|
    ensures r.Success? <==> forall iT :: 0 <= iT < m ==> |objectNames[iT]| > 0
    ensures r.Success? ==> |r.value| == m
    ensures r.Success? ==> forall iT, f :: 0 <= iT < m ==>
      (f in r.value[iT] <==> f in lookup(ConfigPrefix + objectNames[iT][1..]))
    ensures r.Failure? ==> exists iT :: (
      && 0 <= iT < m && |objectNames[iT]| == 0 && r.error == BadTriggerObjectName(iT)
      && forall j :: 0 <= j < iT ==> |objectNames[j]| > 0)
  {
    if m == 0 then Success([])
    else
      var prev :- CategoriesPrefix(objectNames, lookup, m - 1);
      var key :- ConfigKey(m - 1, objectNames[m - 1]);
      Success(prev + [set f | f in lookup(key)])
  }

  /** The constructor's trigger configuration: with matching off every
      category is empty, otherwise each holds the configured filter names. */
  function Categories(useTrigger: bool, objectNames: seq<string>, lookup: string -> seq<string>)
    : (r: Result<seq<set<string>>, Error>)
    ensures r.Success? ==> |r.value| == |objectNames|
    ensures !useTrigger ==> r.Success? && forall iT :: 0 <= iT < |objectNames| ==> r.value[iT] == {}
    ensures useTrigger ==> (r.Success? <==> forall iT :: 0 <= iT < |objectNames| ==> |objectNames[iT]| > 0)
    ensures useTrigger && r.Success? ==> forall iT, f :: 0 <= iT < |objectNames| ==>
      (f in r.value[iT] <==> f in lookup(ConfigPrefix + objectNames[iT][1..]))
  {
    if !useTrigger then Success(seq(|objectNames|, _ => {}))
    else CategoriesPrefix(objectNames, lookup, |objectNames|)
  }

  /** The muon filler's constructor, as far as this model reads it: the data
      kind and the trigger switch are taken over, and the per-category
      filter names are those `Categories` reads. This is the configuration
      both passes run under. */
  function Configure(isRealData: bool, useTrigger: bool, objectNames: seq<string>,
                     lookup: string -> seq<string>): (r: Result<FillerConfig, Error>)
    ensures r.Success? <==> !useTrigger || forall iT :: 0 <= iT < |objectNames| ==> |objectNames[iT]| > 0
    ensures r.Failure? ==> r.error.BadTriggerObjectName? && r.error.category < |objectNames|
    ensures r.Success? ==>
      && r.value.isRealData == isRealData
      && r.value.useTrigger == useTrigger
      && |r.value.triggerObjectNames| == |objectNames|
      && forall iT, f :: 0 <= iT < |objectNames| ==>
           (f in r.value.triggerObjectNames[iT] <==> useTrigger && f in lookup(ConfigPrefix + objectNames[iT][1..]))
  {
    var cats :- Categories(useTrigger, objectNames, lookup);
    Success(FillerConfig(isRealData, useTrigger, cats))
  }

  /** Some filter name of the object is one of the category's names. */
  predicate Qualifies(filters: seq<string>, names: set<string>) {
    exists i :: 0 <= i < |filters| && filters[i] in names
  }

  /** Under the constructed configuration, an object qualifies for category
      `iT` exactly when trigger matching is on and one of its filter names is
      configured under the category's key. */
  lemma ConfiguredQualifies(isRealData: bool, useTrigger: bool, objectNames: seq<string>,
                            lookup: string -> seq<string>, filters: seq<string>, iT: nat)
    requires Configure(isRealData, useTrigger, objectNames, lookup).Success?
    requires iT < |objectNames|
    ensures var cfg := Configure(isRealData, useTrigger, objectNames, lookup).value;
      Qualifies(filters, cfg.triggerObjectNames[iT]) <==>
        useTrigger && exists i :: 0 <= i < |filters| && filters[i] in lookup(ConfigKey(iT, objectNames[iT]).value)
  {
    var cfg := Configure(isRealData, useTrigger, objectNames, lookup).value;
    if useTrigger {
      assert ConfigKey(iT, objectNames[iT]).value == ConfigPrefix + objectNames[iT][1..];
      if Qualifies(filters, cfg.triggerObjectNames[iT]) {
        var i :| 0 <= i < |filters| && filters[i] in cfg.triggerObjectNames[iT];
      }
    } else {
      assert cfg.triggerObjectNames[iT] == {};
    }
  }

  /** The members of one category, in encounter order. */
  function Members(entries: seq<FilterEntry>, names: set<string>): (r: seq<TriggerObject>)
    ensures |r| <= |entries|
    ensures forall o :: o in r <==>
      exists j :: 0 <= j < |entries| && entries[j].0 == o && Qualifies(entries[j].1, names)
  {
    if |entries| == 0 then []
    else
      var front := entries[..|entries| - 1];
      var e := entries[|entries| - 1];
      assert forall j :: 0 <= j < |front| ==> front[j] == entries[j];
      var rest := Members(front, names);
      if Qualifies(e.1, names) then rest + [e.0] else rest
  }

  /** A trigger object is pushed at most once into a category. */
  lemma {:induction false} MembersDistinct(entries: seq<FilterEntry>, names: set<string>)
    requires DistinctObjects(entries)
    ensures Distinct(Members(entries, names))
  {
    if |entries| > 0 {
      var front := entries[..|entries| - 1];
      var e := entries[|entries| - 1];
      assert DistinctObjects(front);
      MembersDistinct(front, names);
      var rest := Members(front, names);
      if Qualifies(e.1, names) {
        assert e.0 !in rest;
        assert Distinct(rest + [e.0]);
      }
    }
  }

  /** The loop nest over the first `m` name-map entries and, inside, over
      the categories: each qualifying entry is appended to the category's
      list, so every category ends with exactly its member list. */
  function SplitMembers(entries: seq<FilterEntry>, cats: seq<set<string>>, m: nat)
    : (r: seq<seq<TriggerObject>>)
    requires m <= |entries|
    ensures |r| == |cats|
    ensures forall iT :: 0 <= iT < |cats| ==> r[iT] == Members(entries[..m], cats[iT])
  {
    if m == 0 then seq(|cats|, _ => [])
    else
      var prev := SplitMembers(entries, cats, m - 1);
      var e := entries[m - 1];
      assert entries[..m][..m - 1] == entries[..m - 1];
      assert entries[..m][m - 1] == e;
      seq(|cats|, iT requires 0 <= iT < |cats| =>
        if Qualifies(e.1, cats[iT]) then prev[iT] + [e.0] else prev[iT])
  }

  /** The member lists of all categories for the whole name map. */
  function CategoryMembers(entries: seq<FilterEntry>, cats: seq<set<string>>): (r: seq<seq<TriggerObject>>)
    ensures |r| == |cats|
    ensures forall iT :: 0 <= iT < |cats| ==> r[iT] == Members(entries, cats[iT])
  {
    assert entries[..|entries|] == entries;
    SplitMembers(entries, cats, |entries|)
  }

  /** Since the name map is keyed by the object, no category list of an
      event's trigger objects holds an object twice. */
  lemma CategoryMembersDistinct(entries: NameMap, cats: seq<set<string>>)
    ensures forall iT :: 0 <= iT < |cats| ==> Distinct(CategoryMembers(entries, cats)[iT])
  {
    forall iT | 0 <= iT < |cats| ensures Distinct(CategoryMembers(entries, cats)[iT]) {
      MembersDistinct(entries, cats[iT]);
    }
  }

  /** Membership depends on which entries the name map holds, not on the
      order it presents them in. */
  lemma MembershipOrderIndependent(entries1: seq<FilterEntry>, entries2: seq<FilterEntry>, names: set<string>)
    requires forall e :: e in entries1 <==> e in entries2
    ensures forall o :: o in Members(entries1, names) <==> o in Members(entries2, names)
  {
    forall o | o in Members(entries1, names) ensures o in Members(entries2, names) {
      var j :| 0 <= j < |entries1| && entries1[j].0 == o && Qualifies(entries1[j].1, names);
      assert entries1[j] in entries2;
    }
    forall o | o in Members(entries2, names) ensures o in Members(entries1, names) {
      var j :| 0 <= j < |entries2| && entries2[j].0 == o && Qualifies(entries2[j].1, names);
      assert entries2[j] in entries1;
    }
  }

  /** The inner search with `break`: stops at the first object within the
      radius. As a flag it says whether any object is within the radius. */
  function AnyWithin(objs: seq<TriggerObject>, mu: InputMuon,
                     deltaR: (TriggerObject, InputMuon) -> real): (r: bool)
    ensures r <==> exists o :: o in objs && deltaR(o, mu) < MatchRadius
  {
    if |objs| == 0 then false
    else if deltaR(objs[0], mu) < MatchRadius then true
    else
      assert forall o :: o in objs <==> o == objs[0] || o in objs[1..] by {
        assert objs == [objs[0]] + objs[1..];
      }
      AnyWithin(objs[1..], mu, deltaR)
  }

  /** The category loop for one muon: a flag is raised when a member of its
      category is close enough, and never lowered. */
  function Stamp(flags: seq<bool>, members: seq<seq<TriggerObject>>, mu: InputMuon,
                 deltaR: (TriggerObject, InputMuon) -> real): (r: seq<bool>)
    requires |flags| == |members|
    ensures |r| == |flags|
    ensures forall iT :: 0 <= iT < |r| ==>
      (r[iT] <==> flags[iT] || exists o :: o in members[iT] && deltaR(o, mu) < MatchRadius)
  {
    seq(|flags|, iT requires 0 <= iT < |flags| => flags[iT] || AnyWithin(members[iT], mu, deltaR))
  }

  /** The entries of the muon map's forward direction in its iteration
      order, ascending input index, for the inputs below `n`. */
  function FwdEntries(fwd: map<MuonPtr, nat>, n: nat): (r: seq<(MuonPtr, nat)>)
    ensures forall e :: e in r <==> e.0 in fwd && e.0.index < n && e.1 == fwd[e.0]
  {
    if n == 0 then []
    else
      FwdEntries(fwd, n - 1) +
      (if MuonPtr(n - 1) in fwd then [(MuonPtr(n - 1), fwd[MuonPtr(n - 1)])] else [])
  }

  /** Every link names an input muon and an output record that exist. */
  predicate ValidLinks(links: seq<(MuonPtr, nat)>, nOut: nat, nIn: nat) {
    forall j :: 0 <= j < |links| ==> links[j].1 < nOut && links[j].0.index < nIn
  }

  /** Some link to output position `p` comes from a muon that a trigger
      object of `objs` is close to. */
  predicate LinkedMatch(links: seq<(MuonPtr, nat)>, p: nat, objs: seq<TriggerObject>,
                        inMuons: seq<InputMuon>, deltaR: (TriggerObject, InputMuon) -> real)
    requires forall j :: 0 <= j < |links| ==> links[j].0.index < |inMuons|
  {
    exists j :: 0 <= j < |links| && links[j].1 == p &&
      exists o :: o in objs && deltaR(o, inMuons[links[j].0.index]) < MatchRadius
  }

  /** The loop over the muon map's links, stamping each linked record with
      the flags of its input muon. */
  function MatchTriggers(muons: seq<OutMuon>, inMuons: seq<InputMuon>, links: seq<(MuonPtr, nat)>,
                         members: seq<seq<TriggerObject>>,
                         deltaR: (TriggerObject, InputMuon) -> real): (r: seq<OutMuon>)
    requires ValidLinks(links, |muons|, |inMuons|)
    requires forall p :: 0 <= p < |muons| ==> |muons[p].triggerMatch| == |members|
    ensures |r| == |muons|
    ensures forall p :: 0 <= p < |r| ==>
      r[p] == muons[p].(triggerMatch := r[p].triggerMatch) && |r[p].triggerMatch| == |members|
    ensures forall p, iT :: 0 <= p < |r| && 0 <= iT < |members| ==>
      (r[p].triggerMatch[iT] <==>
         muons[p].triggerMatch[iT] || LinkedMatch(links, p, members[iT], inMuons, deltaR))
    decreases |links|
  {
    if |links| == 0 then muons
    else
      var front := links[..|links| - 1];
      assert forall j :: 0 <= j < |front| ==> front[j] == links[j];
      var prev := MatchTriggers(muons, inMuons, front, members, deltaR);
      var (ptr, pos) := links[|links| - 1];
      prev[pos := prev[pos].(triggerMatch := Stamp(prev[pos].triggerMatch, members, inMuons[ptr.index], deltaR))]
  }

  /** The flags depend on which links the muon map holds, not on the order
      the map is iterated in. */
  lemma MatchTriggersOrderIndependent(muons: seq<OutMuon>, inMuons: seq<InputMuon>,
                                      links1: seq<(MuonPtr, nat)>, links2: seq<(MuonPtr, nat)>,
                                      members: seq<seq<TriggerObject>>,
                                      deltaR: (TriggerObject, InputMuon) -> real)
    requires ValidLinks(links1, |muons|, |inMuons|) && ValidLinks(links2, |muons|, |inMuons|)
    requires forall p :: 0 <= p < |muons| ==> |muons[p].triggerMatch| == |members|
    requires forall e :: e in links1 <==> e in links2
    ensures MatchTriggers(muons, inMuons, links1, members, deltaR) ==
            MatchTriggers(muons, inMuons, links2, members, deltaR)
  {
    var r1 := MatchTriggers(muons, inMuons, links1, members, deltaR);
    var r2 := MatchTriggers(muons, inMuons, links2, members, deltaR);
    forall p, iT | 0 <= p < |muons| && 0 <= iT < |members|
      ensures r1[p].triggerMatch[iT] == r2[p].triggerMatch[iT]
    {
      if LinkedMatch(links1, p, members[iT], inMuons, deltaR) {
        var j :| 0 <= j < |links1| && links1[j].1 == p &&
          exists o :: o in members[iT] && deltaR(o, inMuons[links1[j].0.index]) < MatchRadius;
        assert links1[j] in links2;
      }
      if LinkedMatch(links2, p, members[iT], inMuons, deltaR) {
        var j :| 0 <= j < |links2| && links2[j].1 == p &&
          exists o :: o in members[iT] && deltaR(o, inMuons[links2[j].0.index]) < MatchRadius;
        assert links2[j] in links1;
      }
    }
    forall p | 0 <= p < |muons| ensures r1[p] == r2[p] {
      assert r1[p].triggerMatch == r2[p].triggerMatch;
    }
  }
}
