/**
 * The resource loop of parseResources (lib/index.js:162-233): every action of
 * every resource is normalized in document order, and a parameter object
 * shared by several actions keeps the tags of the last one.
 */
module Resources {
  import opened Report
  import opened Ast
  import opened Document
  import opened Normalizer

  // ------------------------------------------------------- over values

  /** The warnings of a run of normalizations, in order. */
  function Warnings(outs: seq<Normalized>): seq<Warning> {
    if outs == [] then [] else Warnings(outs[..|outs| - 1]) + outs[|outs| - 1].warnings
  }

  /** The parameter objects a run of normalizations tags. */
  function Touched(outs: seq<Normalized>): set<Parameter> {
    set k, p | 0 <= k < |outs| && p in outs[k].state.parameters :: p
  }

  /** The tags left by a run of normalizations: a later one overwrites an earlier one's. */
  function Tagging(outs: seq<Normalized>): map<Parameter, Tags> {
    if outs == [] then map[]
    else
      var o := outs[|outs| - 1];
      Tagging(outs[..|outs| - 1]) + ListTags(o.state.parameters, o.query)
  }

  lemma WarningsSnoc(outs: seq<Normalized>, o: Normalized)
    ensures Warnings(outs + [o]) == Warnings(outs) + o.warnings
  {
    assert (outs + [o])[..|outs|] == outs;
  }

  lemma TaggingSnoc(outs: seq<Normalized>, o: Normalized)
    ensures Tagging(outs + [o]) == Tagging(outs) + ListTags(o.state.parameters, o.query)
  {
    assert (outs + [o])[..|outs|] == outs;
  }

  lemma SnocSplit<T>(xs: seq<T>, ys: seq<T>)
    requires ys != []
    ensures ys == ys[..|ys| - 1] + [ys[|ys| - 1]]
    ensures xs + ys == (xs + ys[..|ys| - 1]) + [ys[|ys| - 1]]
  {
  }

  lemma PrefixSnoc<T>(s: seq<T>, i: nat)
    requires i < |s|
    ensures s[..i + 1] == s[..i] + [s[i]]
  {
  }

  lemma MapUnionAssoc<K, V>(a: map<K, V>, b: map<K, V>, c: map<K, V>)
    ensures (a + b) + c == a + (b + c)
  {
  }

  /** Warnings are collected run after run. */
  lemma {:induction false} WarningsAppend(xs: seq<Normalized>, ys: seq<Normalized>)
    ensures Warnings(xs + ys) == Warnings(xs) + Warnings(ys)
  {
    if ys == [] {
      assert xs + ys == xs;
    } else {
      var ys' := ys[..|ys| - 1];
      var o := ys[|ys| - 1];
      SnocSplit(xs, ys);
      WarningsAppend(xs, ys');
      WarningsSnoc(xs + ys', o);
      WarningsSnoc(ys', o);
    }
  }

  /** Tags of a later run overwrite those of an earlier one. */
  lemma {:induction false} TaggingAppend(xs: seq<Normalized>, ys: seq<Normalized>)
    ensures Tagging(xs + ys) == Tagging(xs) + Tagging(ys)
  {
    if ys == [] {
      assert xs + ys == xs;
    } else {
      var ys' := ys[..|ys| - 1];
      var o := ys[|ys| - 1];
      var last := ListTags(o.state.parameters, o.query);
      SnocSplit(xs, ys);
      calc {
        Tagging(xs + ys);
        Tagging((xs + ys') + [o]);
        { TaggingSnoc(xs + ys', o); }
        Tagging(xs + ys') + last;
        { TaggingAppend(xs, ys'); }
        (Tagging(xs) + Tagging(ys')) + last;
        { MapUnionAssoc(Tagging(xs), Tagging(ys'), last); }
        Tagging(xs) + (Tagging(ys') + last);
        { TaggingSnoc(ys', o); }
        Tagging(xs) + Tagging(ys' + [o]);
      }
    }
  }

  /** Exactly the parameter objects of the normalized actions are tagged. */
  lemma {:induction false} TaggingKeys(outs: seq<Normalized>)
    ensures Tagging(outs).Keys == Touched(outs)
  {
    if outs != [] {
      var outs' := outs[..|outs| - 1];
      var o := outs[|outs| - 1];
      TaggingKeys(outs');
      assert outs == outs' + [o];
      forall p | p in Touched(outs) ensures p in Tagging(outs).Keys {
        var k :| 0 <= k < |outs| && p in outs[k].state.parameters;
        if k < |outs| - 1 {
          assert p in outs'[k].state.parameters;
        }
      }
      forall p | p in Tagging(outs).Keys ensures p in Touched(outs) {
        if p in ListTags(o.state.parameters, o.query) {
          assert p in outs[|outs| - 1].state.parameters;
        } else {
          var k :| 0 <= k < |outs'| && p in outs'[k].state.parameters;
          assert p in outs[k].state.parameters;
        }
      }
    }
  }

  /**
   * A parameter object carries the tags given by the last normalization
   * whose parameter list holds it.
   */
  lemma {:induction false} LastWriterWins(outs: seq<Normalized>, k: nat, p: Parameter)
    requires k < |outs| && p in outs[k].state.parameters
    requires forall l :: k < l < |outs| ==> p !in outs[l].state.parameters
    ensures p in Tagging(outs)
    ensures Tagging(outs)[p] == ListTags(outs[k].state.parameters, outs[k].query)[p]
  {
    var outs' := outs[..|outs| - 1];
    var o := outs[|outs| - 1];
    if k < |outs| - 1 {
      assert p !in ListTags(o.state.parameters, o.query);
      LastWriterWins(outs', k, p);
    }
  }

  // -------------------------------------------------------- over objects

  /** What normalizing the actions of `r` from the given states gives, in order. */
  function Outcomes(r: Resource, states: seq<ActionState>, env: Foreign): (os: seq<Normalized>)
    requires |states| == |r.actions|
    ensures |os| == |r.actions|
  {
    seq(|r.actions|, k requires 0 <= k < |r.actions| => Normalize(r, r.actions[k], states[k], env))
  }

  /** The states of the actions of each resource, in order. */
  ghost function Snapshots(rs: seq<Resource>): (ss: seq<seq<ActionState>>)
    reads set r, a | r in rs && a in r.actions :: a
    ensures |ss| == |rs| && forall i :: 0 <= i < |rs| ==> ss[i] == States(rs[i].actions)
  {
    if rs == [] then [] else Snapshots(rs[..|rs| - 1]) + [States(rs[|rs| - 1].actions)]
  }

  /** One state sequence per resource, one state per action. */
  predicate Fits(rs: seq<Resource>, ss: seq<seq<ActionState>>) {
    |ss| == |rs| && forall i :: 0 <= i < |rs| ==> |ss[i]| == |rs[i].actions|
  }

  lemma SnapshotsFit(rs: seq<Resource>)
    ensures Fits(rs, Snapshots(rs))
  {
  }

  /** The outcomes of all actions of the first `n` resources, in the order the loops visit them. */
  function AllOutcomes(rs: seq<Resource>, ss: seq<seq<ActionState>>, env: Foreign, n: nat): seq<Normalized>
    requires Fits(rs, ss) && n <= |rs|
  {
    if n == 0 then [] else AllOutcomes(rs, ss, env, n - 1) + Outcomes(rs[n - 1], ss[n - 1], env)
  }

  /** The parameter objects the actions of `r` tag: each action's own list, or the resource's. */
  function TaggedParameters(r: Resource): set<Parameter>
    reads set a | a in r.actions
  {
    set a, p | a in r.actions && p in InheritedParameters(r, a.parameters) :: p
  }

  /** The objects normalizing `r` tags are those its outcomes touch. */
  lemma TouchedIsTagged(r: Resource, env: Foreign)
    ensures Touched(Outcomes(r, States(r.actions), env)) == TaggedParameters(r)
  {
    hide Normalize;
    var os := Outcomes(r, States(r.actions), env);
    forall p | p in TaggedParameters(r) ensures p in Touched(os) {
      var a :| a in r.actions && p in InheritedParameters(r, a.parameters);
      var k :| 0 <= k < |r.actions| && r.actions[k] == a;
      NormalizeFacts(r, a, State(a), env);
      assert p in os[k].state.parameters;
    }
    forall p | p in Touched(os) ensures p in TaggedParameters(r) {
      var k :| 0 <= k < |os| && p in os[k].state.parameters;
      var a := r.actions[k];
      NormalizeFacts(r, a, State(a), env);
      assert p in InheritedParameters(r, a.parameters);
    }
  }

  lemma WarningsPrefix(outs: seq<Normalized>, i: nat)
    requires i < |outs|
    ensures Warnings(outs[..i + 1]) == Warnings(outs[..i]) + outs[i].warnings
  {
    PrefixSnoc(outs, i);
    WarningsSnoc(outs[..i], outs[i]);
  }

  /**
   * Step `i` of the action loop: action `i` is normalized, every other action
   * is left alone, and the parameter objects it does not list keep the tags
   * the earlier steps left.
   */
  method NormalizeStep(r: Resource, acts: seq<Action>, env: Foreign, ghost outs: seq<Normalized>, i: nat)
    returns (warnings: seq<Warning>)
    requires i < |acts| && i < |outs| && outs[i] == Normalize(r, acts[i], State(acts[i]), env)
    requires forall k, l :: 0 <= k < l < |acts| ==> acts[k] != acts[l]
    requires var earlier := Tagging(outs[..i]); TagsHold(earlier) && forall p :: p in earlier ==> allocated(p)
    modifies acts[i], ParameterSet(InheritedParameters(r, acts[i].parameters))
    ensures forall k :: 0 <= k < |acts| && k != i ==> unchanged(acts[k])
    ensures State(acts[i]) == outs[i].state && warnings == outs[i].warnings
    ensures var now := Tagging(outs[..i + 1]); TagsHold(now) && forall p :: p in now ==> allocated(p)
  {
    hide Normalize;
    var a := acts[i];
    ghost var earlier := Tagging(outs[..i]);
    ghost var mine := ListTags(outs[i].state.parameters, outs[i].query);
    PrefixSnoc(outs, i);
    TaggingSnoc(outs[..i], outs[i]);
    warnings := NormalizeAction(r, a, env);
    assert ParameterSet(a.parameters) == mine.Keys;
    forall p | p in earlier + mine ensures TagsOf(p) == (earlier + mine)[p] {
      if p !in mine {
        assert p !in ParameterSet(InheritedParameters(r, old(a.parameters)));
        assert TagsOf(p) == old(TagsOf(p));
      }
    }
  }

  /** The inner loop (lib/index.js:167-231): the actions of one resource, in order. */
  method NormalizeActions(r: Resource, env: Foreign) returns (warnings: seq<Warning>)
    requires forall k, l :: 0 <= k < l < |r.actions| ==> r.actions[k] != r.actions[l]
    modifies set a | a in r.actions
    modifies TaggedParameters(r)
    ensures forall k :: 0 <= k < |r.actions| ==> State(r.actions[k]) == Outcomes(r, old(States(r.actions)), env)[k].state
    ensures warnings == Warnings(Outcomes(r, old(States(r.actions)), env))
    ensures TagsHold(Tagging(Outcomes(r, old(States(r.actions)), env)))
  {
    hide Normalize;
    var acts := r.actions;
    ghost var olds := States(acts);
    ghost var outs := Outcomes(r, olds, env);
    warnings := [];
    for actIdx := 0 to |acts|
      invariant forall k :: 0 <= k < actIdx ==> State(acts[k]) == outs[k].state
      invariant forall k :: actIdx <= k < |acts| ==> unchanged(acts[k])
      invariant warnings == Warnings(outs[..actIdx])
      invariant TagsHold(Tagging(outs[..actIdx]))
      invariant forall p :: p in Tagging(outs[..actIdx]) ==> allocated(p)
    {
      assert ParameterSet(InheritedParameters(r, acts[actIdx].parameters)) <= old(TaggedParameters(r));
      assert State(acts[actIdx]) == olds[actIdx];
      WarningsPrefix(outs, actIdx);
      var w := NormalizeStep(r, acts, env, outs, actIdx);
      warnings := warnings + w;
    }
    assert outs[..|acts|] == outs;
  }

  /** No action object appears twice, in one resource or across two. */
  predicate DistinctActions(rs: seq<Resource>) {
    forall i, j, k, l :: 0 <= i < |rs| && 0 <= j < |rs| && 0 <= k < |rs[i].actions| && 0 <= l < |rs[j].actions|
      && (i != j || k != l)
      ==> rs[i].actions[k] != rs[j].actions[l]
  }

  /** What step `i` needs of distinctness: inside resource `i`, and between it and the others. */
  lemma DistinctAt(rs: seq<Resource>, i: nat)
    requires DistinctActions(rs) && i < |rs|
    ensures forall k, l :: 0 <= k < l < |rs[i].actions| ==> rs[i].actions[k] != rs[i].actions[l]
    ensures forall j, k :: 0 <= j < |rs| && j != i && 0 <= k < |rs[j].actions| ==> rs[j].actions[k] !in rs[i].actions
  {
    forall j, k | 0 <= j < |rs| && j != i && 0 <= k < |rs[j].actions|
      ensures rs[j].actions[k] !in rs[i].actions
    {
      forall l | 0 <= l < |rs[i].actions| ensures rs[i].actions[l] != rs[j].actions[k] {
      }
    }
  }

  /** The parameter objects actions in the given states tag: each one's own list, or the resource's. */
  function TaggedBy(r: Resource, states: seq<ActionState>): set<Parameter> {
    set k, p | 0 <= k < |states| && p in InheritedParameters(r, states[k].parameters) :: p
  }

  /** The parameter objects all actions of all of `rs`, in the given states, tag. */
  function AllTaggedBy(rs: seq<Resource>, ss: seq<seq<ActionState>>): set<Parameter>
    requires Fits(rs, ss)
  {
    set i, k, p | 0 <= i < |rs| && 0 <= k < |ss[i]| && p in InheritedParameters(rs[i], ss[i][k].parameters) :: p
  }

  lemma TaggedByState(r: Resource)
    ensures TaggedParameters(r) == TaggedBy(r, States(r.actions))
  {
    var states := States(r.actions);
    forall p | p in TaggedParameters(r) ensures p in TaggedBy(r, states) {
      var a :| a in r.actions && p in InheritedParameters(r, a.parameters);
      var k :| 0 <= k < |r.actions| && r.actions[k] == a;
      assert p in InheritedParameters(r, states[k].parameters);
    }
  }

  lemma TaggedBySubset(rs: seq<Resource>, ss: seq<seq<ActionState>>, i: nat)
    requires Fits(rs, ss) && i < |rs|
    ensures TaggedBy(rs[i], ss[i]) <= AllTaggedBy(rs, ss)
  {
  }


  /**
   * Resource `i` adds its outcomes after those of the resources before it, and
   * the objects its outcomes tag are the ones its actions list.
   */
  lemma ResourceStepFacts(rs: seq<Resource>, ss: seq<seq<ActionState>>, env: Foreign, i: nat)
    requires Fits(rs, ss) && i < |rs| && ss[i] == States(rs[i].actions)
    ensures var before := AllOutcomes(rs, ss, env, i); var outs := Outcomes(rs[i], ss[i], env);
      && Warnings(AllOutcomes(rs, ss, env, i + 1)) == Warnings(before) + Warnings(outs)
      && Tagging(AllOutcomes(rs, ss, env, i + 1)) == Tagging(before) + Tagging(outs)
      && Tagging(outs).Keys == TaggedParameters(rs[i])
  {
    hide Normalize, TagFor;
    var before := AllOutcomes(rs, ss, env, i);
    var outs := Outcomes(rs[i], ss[i], env);
    WarningsAppend(before, outs);
    TaggingAppend(before, outs);
    TouchedIsTagged(rs[i], env);
    TaggingKeys(outs);
  }

  /** The action states a run of normalizations leaves, in order. */
  function NewStates(outs: seq<Normalized>): (r: seq<ActionState>)
    ensures |r| == |outs| && forall k :: 0 <= k < |outs| ==> r[k] == outs[k].state
  {
    seq(|outs|, k requires 0 <= k < |outs| => outs[k].state)
  }

  /**
   * How far the action loops of parseResources have got after `n` resources:
   * those resources' actions hold their normalized states, the later ones
   * their original states, `warnings` holds the warnings so far, and every
   * parameter object tagged so far carries the tags of the last action that
   * listed it.
   */
  ghost predicate Progress(rs: seq<Resource>, ss: seq<seq<ActionState>>, env: Foreign, n: nat, warnings: seq<Warning>)
    requires Fits(rs, ss) && n <= |rs|
    reads set r, a | r in rs && a in r.actions :: a
    reads Tagging(AllOutcomes(rs, ss, env, n)).Keys
  {
    && (forall i :: 0 <= i < n ==> States(rs[i].actions) == NewStates(Outcomes(rs[i], ss[i], env)))
    && (forall i :: n <= i < |rs| ==> States(rs[i].actions) == ss[i])
    && warnings == Warnings(AllOutcomes(rs, ss, env, n))
    && TagsHold(Tagging(AllOutcomes(rs, ss, env, n)))
  }

  /**
   * The action loop of resource `i` (lib/index.js:167-231): its actions are
   * normalized; the actions of the other resources are left alone, and the
   * objects resource `i` does not tag keep the tags the earlier resources left.
   */
  method ParseResource(rs: seq<Resource>, env: Foreign, ghost ss: seq<seq<ActionState>>, i: nat, ghost done: seq<Warning>)
    returns (warnings: seq<Warning>)
    requires i < |rs| && Fits(rs, ss) && DistinctActions(rs)
    requires Progress(rs, ss, env, i, done)
    requires forall p :: p in Tagging(AllOutcomes(rs, ss, env, i)) ==> allocated(p)
    modifies set a | a in rs[i].actions
    modifies TaggedBy(rs[i], ss[i])
    ensures Progress(rs, ss, env, i + 1, done + warnings)
    ensures var now := Tagging(AllOutcomes(rs, ss, env, i + 1)); forall p :: p in now ==> allocated(p)
  {
    hide Normalize, TagFor;
    var r := rs[i];
    ghost var earlier := Tagging(AllOutcomes(rs, ss, env, i));
    ghost var mine := Tagging(Outcomes(r, ss[i], env));
    ghost var tagged := TaggedParameters(r);
    DistinctAt(rs, i);
    ResourceStepFacts(rs, ss, env, i);
    TaggedByState(r);
    warnings := NormalizeActions(r, env);
    assert States(r.actions) == NewStates(Outcomes(r, ss[i], env));
    hide Tagging, AllOutcomes, Outcomes, TaggedParameters, NewStates;
    forall j | 0 <= j < |rs| && j != i ensures States(rs[j].actions) == old(States(rs[j].actions)) {
      forall k | 0 <= k < |rs[j].actions| ensures State(rs[j].actions[k]) == old(State(rs[j].actions[k])) {
        assert rs[j].actions[k] !in r.actions;
      }
    }
    forall p | p in earlier + mine ensures TagsOf(p) == (earlier + mine)[p] {
      if p !in mine {
        assert p !in tagged;
      }
    }
    assert TagsHold(earlier + mine);
  }

  /** `resource.resourcename = resource.name` for every resource (lib/index.js:166). */
  method NameResources(rs: seq<Resource>)
    modifies set r | r in rs
    ensures forall i :: 0 <= i < |rs| ==> rs[i].resourceName == rs[i].name
  {
    for resIdx := 0 to |rs|
      invariant forall i :: 0 <= i < resIdx ==> rs[i].resourceName == rs[i].name
    {
      rs[resIdx].resourceName := rs[resIdx].name;
    }
  }

  /** Before the loops start nothing is normalized: no warnings, no tags. */
  lemma NoProgressYet(rs: seq<Resource>, env: Foreign)
    ensures Progress(rs, Snapshots(rs), env, 0, [])
    ensures Tagging(AllOutcomes(rs, Snapshots(rs), env, 0)) == map[]
  {
    var ss := Snapshots(rs);
    assert Tagging(AllOutcomes(rs, ss, env, 0)) == map[];
  }

  /** After the last resource every action is normalized. */
  lemma ProgressDone(rs: seq<Resource>, ss: seq<seq<ActionState>>, env: Foreign, warnings: seq<Warning>)
    requires Fits(rs, ss) && Progress(rs, ss, env, |rs|, warnings)
    ensures forall i :: 0 <= i < |rs| ==> States(rs[i].actions) == NewStates(Outcomes(rs[i], ss[i], env))
    ensures warnings == Warnings(AllOutcomes(rs, ss, env, |rs|))
    ensures TagsHold(Tagging(AllOutcomes(rs, ss, env, |rs|)))
  {
  }

  /**
   * The action loops of parseResources (lib/index.js:167-231), resource after
   * resource: every action gets its normalized state, the warnings of all
   * actions come out in document order, and each parameter object carries the
   * tags of the last action that lists it.
   */
  method NormalizeResources(rs: seq<Resource>, env: Foreign) returns (warnings: seq<Warning>)
    requires DistinctActions(rs)
    modifies set r, a | r in rs && a in r.actions :: a
    modifies AllTaggedBy(rs, Snapshots(rs))
    ensures forall i :: 0 <= i < |rs| ==>
      States(rs[i].actions) == NewStates(Outcomes(rs[i], old(Snapshots(rs))[i], env))
    ensures warnings == Warnings(AllOutcomes(rs, old(Snapshots(rs)), env, |rs|))
    ensures TagsHold(Tagging(AllOutcomes(rs, old(Snapshots(rs)), env, |rs|)))
  {
    hide *;
    ghost var ss := Snapshots(rs);
    SnapshotsFit(rs);
    warnings := [];
    NoProgressYet(rs, env);
    for resIdx := 0 to |rs|
      invariant Progress(rs, ss, env, resIdx, warnings)
      invariant forall p :: p in Tagging(AllOutcomes(rs, ss, env, resIdx)) ==> allocated(p)
    {
      TaggedBySubset(rs, ss, resIdx);
      var w := ParseResource(rs, env, ss, resIdx, warnings);
      warnings := warnings + w;
    }
    ProgressDone(rs, ss, env, warnings);
  }

  /**
   * parseResources (lib/index.js:162-233): every resource gets its name copied
   * to `resourcename`, every action its normalized state; the warnings of all
   * actions come out in document order, and each parameter object carries the
   * tags of the last action that lists it. The source copies the name at the
   * head of each resource's iteration; normalization neither reads nor writes
   * `resourcename`, so copying all names first leaves the same final state.
   */
  method ParseResources(rs: seq<Resource>, env: Foreign) returns (warnings: seq<Warning>)
    requires DistinctActions(rs)
    modifies set r | r in rs
    modifies set r, a | r in rs && a in r.actions :: a
    modifies AllTaggedBy(rs, Snapshots(rs))
    ensures forall i :: 0 <= i < |rs| ==> rs[i].resourceName == rs[i].name
    ensures forall i :: 0 <= i < |rs| ==>
      States(rs[i].actions) == NewStates(Outcomes(rs[i], old(Snapshots(rs))[i], env))
    ensures warnings == Warnings(AllOutcomes(rs, old(Snapshots(rs)), env, |rs|))
    ensures TagsHold(Tagging(AllOutcomes(rs, old(Snapshots(rs)), env, |rs|)))
  {
    hide Normalize, TagFor, Outcomes, Tagging, AllOutcomes, Warnings, DistinctActions, NewStates, TagsHold;
    NameResources(rs);
    assert Snapshots(rs) == old(Snapshots(rs));
    warnings := NormalizeResources(rs, env);
  }
}
