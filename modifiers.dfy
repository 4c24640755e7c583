/**
 * The resource modifier engine (appendParameterDefinitions and
 * applyResourceModifiers). A rule whose pattern accepts an action's
 * `Controller.action` name replaces the action's extra annotations when it
 * names some, and rebuilds the action's parameter list as the rule's complete
 * prepended definitions, the action's own parameters, then the rule's complete
 * appended definitions, every separator renumbered. Rules apply in order, each
 * to the outcome of the ones before.
 */
module Modifiers {
  import opened Wrappers
  import opened Report
  import opened TypeNames
  import opened Document
  import opened Resources

  // ---------------------------------------------------------------- rules

  /** A parameter definition of a rule; "" stands for an absent (or empty) entry. */
  datatype ParamDef = ParamDef(name: string, paramType: string, annotation: string)

  /**
   * An entry of `options.resourceModifiers`. The compiled regular expression
   * is a given predicate on the full action name; an absent prepended list is
   * the empty list.
   */
  datatype ResourceModifier = ResourceModifier(
    pattern: string -> bool,
    methodAnnotations: Option<seq<string>>,
    prependedParameters: seq<ParamDef>,
    appendedParameters: seq<ParamDef>)

  /** `param.name && param.type`: a definition appendParameterDefinitions accepts. */
  predicate Complete(d: ParamDef) {
    d.name != "" && d.paramType != ""
  }

  /** The definitions appendParameterDefinitions pushes, in order. */
  function Accepted(defs: seq<ParamDef>): seq<ParamDef> {
    if defs == [] then []
    else Accepted(defs[..|defs| - 1]) + if Complete(defs[|defs| - 1]) then [defs[|defs| - 1]] else []
  }

  /** The errors appendParameterDefinitions reports, in order. */
  function Rejections(defs: seq<ParamDef>): seq<Warning> {
    if defs == [] then []
    else Rejections(defs[..|defs| - 1]) + if Complete(defs[|defs| - 1]) then [] else [MissingParameterField]
  }

  /** The definitions pushed are exactly the complete ones, duplicates included. */
  lemma {:induction false} AcceptedExact(defs: seq<ParamDef>)
    ensures forall d :: d in Accepted(defs) <==> d in defs && Complete(d)
  {
    if defs != [] {
      var init := defs[..|defs| - 1];
      AcceptedExact(init);
      assert defs == init + [defs[|defs| - 1]];
    }
  }

  /** One more definition: pushed when complete, reported otherwise. */
  lemma DefinitionStep(defs: seq<ParamDef>, k: nat)
    requires k < |defs|
    ensures Accepted(defs[..k + 1]) == Accepted(defs[..k]) + if Complete(defs[k]) then [defs[k]] else []
    ensures Rejections(defs[..k + 1]) == Rejections(defs[..k]) + if Complete(defs[k]) then [] else [MissingParameterField]
  {
    assert defs[..k + 1][..k] == defs[..k];
  }

  lemma NoDefinitions(defs: seq<ParamDef>)
    ensures Accepted(defs[..0]) == [] && Rejections(defs[..0]) == []
  {
    assert defs[..0] == [];
  }

  /** Every definition is either pushed or reported, never both. */
  lemma {:induction false} AcceptedOrRejected(defs: seq<ParamDef>)
    ensures |Accepted(defs)| + |Rejections(defs)| == |defs|
    ensures forall k :: 0 <= k < |Rejections(defs)| ==> Rejections(defs)[k] == MissingParameterField
  {
    if defs != [] {
      AcceptedOrRejected(defs[..|defs| - 1]);
    }
  }

  // ---------------------------------------------------------------- views

  /** Everything a parameter object carries, as a value. */
  datatype ParamView = ParamView(
    name: string,
    paramType: string,
    defaultText: string,
    showParamAnno: Option<bool>,
    showCustomAnno: Option<bool>,
    delim: string,
    annotation: string,
    defaultValue: string)

  function ViewOf(p: Parameter): ParamView
    reads p
  {
    ParamView(p.name, p.paramType, p.defaultText, p.showParamAnno, p.showCustomAnno, p.delim, p.annotation, p.defaultValue)
  }

  function Views(ps: seq<Parameter>): (r: seq<ParamView>)
    reads set p | p in ps
    ensures |r| == |ps| && forall i :: 0 <= i < |ps| ==> r[i] == ViewOf(ps[i])
  {
    if ps == [] then [] else Views(ps[..|ps| - 1]) + [ViewOf(ps[|ps| - 1])]
  }

  lemma ViewsSplit(ps: seq<Parameter>, n: nat)
    requires n <= |ps|
    ensures Views(ps) == Views(ps[..n]) + Views(ps[n..])
  {
    hide *;
    var r := Views(ps[..n]) + Views(ps[n..]);
    forall i | 0 <= i < |ps| ensures Views(ps)[i] == r[i] {
      if i < n {
        assert ps[..n][i] == ps[i];
      } else {
        assert ps[n..][i - n] == ps[i];
      }
    }
  }

  lemma ViewsSnoc(ps: seq<Parameter>, p: Parameter)
    ensures Views(ps + [p]) == Views(ps) + [ViewOf(p)]
  {
    assert Views(ps + [p]) == Views(ps) + [ViewOf(p)];
  }

  /** The object pushed for definition `d` (lib/index.js:354-361), with separator `delim`. */
  function DefView(d: ParamDef, delim: string): (r: ParamView)
    ensures r.name == d.name && r.delim == delim
  {
    ParamView(d.name, d.paramType, "", Some(false), Some(d.annotation != ""), delim, StripPrefixedAt(d.annotation), "")
  }

  /** The objects pushed for `defs` onto a list already `offset` long. */
  function DefViews(defs: seq<ParamDef>, offset: nat): (r: seq<ParamView>)
    ensures |r| == |defs| && forall k :: 0 <= k < |defs| ==> r[k] == DefView(defs[k], Delim(offset + k))
  {
    seq(|defs|, k requires 0 <= k < |defs| => DefView(defs[k], Delim(offset + k)))
  }

  lemma DefViewsSnoc(defs: seq<ParamDef>, d: ParamDef, offset: nat)
    ensures DefViews(defs + [d], offset) == DefViews(defs, offset) + [DefView(d, Delim(offset + |defs|))]
  {
    hide DefView, Delim;
    assert DefViews(defs + [d], offset) == DefViews(defs, offset) + [DefView(d, Delim(offset + |defs|))];
  }

  /** An action's own parameters moved to start at `offset`, each separator rewritten. */
  function Shifted(vs: seq<ParamView>, offset: nat): (r: seq<ParamView>)
    ensures |r| == |vs| && forall j :: 0 <= j < |vs| ==> r[j] == vs[j].(delim := Delim(offset + j))
  {
    seq(|vs|, j requires 0 <= j < |vs| => vs[j].(delim := Delim(offset + j)))
  }

  /** The parameter list a matching rule builds (lib/index.js:384-399). */
  function Spliced(rule: ResourceModifier, vs: seq<ParamView>): seq<ParamView> {
    var pre := Accepted(rule.prependedParameters);
    DefViews(pre, 0) + Shifted(vs, |pre|) + DefViews(Accepted(rule.appendedParameters), |pre| + |vs|)
  }

  /** The mutable part of an action that the engine rewrites, as a value. */
  datatype ActionView = ActionView(parameters: seq<ParamView>, extraAnnotations: seq<string>)

  function ActionViewOf(a: Action): ActionView
    reads a, set p | p in a.parameters
  {
    ActionView(Views(a.parameters), a.extraAnnotations)
  }

  /** `controllerClassName + '.' + camelCase(action.name)`, the string the pattern is tested on. */
  function FullName(controllerClassName: string, actionName: string, camelCase: string -> string): string {
    controllerClassName + "." + camelCase(actionName)
  }

  /** One rule applied to one action. */
  function ApplyRule(rule: ResourceModifier, fullName: string, v: ActionView): ActionView {
    if !rule.pattern(fullName) then v
    else
      ActionView(Spliced(rule, v.parameters),
                 if rule.methodAnnotations.Some? then rule.methodAnnotations.value else v.extraAnnotations)
  }

  /** The rules applied to one action, in declaration order. */
  function ApplyRules(rules: seq<ResourceModifier>, fullName: string, v: ActionView): ActionView {
    if rules == [] then v else ApplyRule(rules[|rules| - 1], fullName, ApplyRules(rules[..|rules| - 1], fullName, v))
  }

  /** The errors one rule reports for one action. */
  function RuleWarnings(rule: ResourceModifier, fullName: string): seq<Warning> {
    if rule.pattern(fullName) then Rejections(rule.prependedParameters) + Rejections(rule.appendedParameters) else []
  }

  lemma RuleWarningsCases(rule: ResourceModifier, fullName: string)
    ensures !rule.pattern(fullName) ==> RuleWarnings(rule, fullName) == []
    ensures rule.pattern(fullName) ==> RuleWarnings(rule, fullName) == Rejections(rule.prependedParameters) + Rejections(rule.appendedParameters)
  {
  }

  /** The full names of `acts`, in order. */
  function ActionNames(controllerClassName: string, acts: seq<Action>, camelCase: string -> string): (names: seq<string>)
    ensures |names| == |acts|
    ensures forall k :: 0 <= k < |acts| ==> names[k] == FullName(controllerClassName, acts[k].name, camelCase)
  {
    if acts == [] then []
    else ActionNames(controllerClassName, acts[..|acts| - 1], camelCase) + [FullName(controllerClassName, acts[|acts| - 1].name, camelCase)]
  }

  /** The full names of all actions of `rs`, resource after resource. */
  function FullNames(controllerClassName: string, rs: seq<Resource>, camelCase: string -> string): seq<string> {
    if rs == [] then []
    else FullNames(controllerClassName, rs[..|rs| - 1], camelCase) + ActionNames(controllerClassName, rs[|rs| - 1].actions, camelCase)
  }

  /** The errors one rule reports over the actions named `names`. */
  function RuleWarningsOver(rule: ResourceModifier, names: seq<string>): seq<Warning> {
    if names == [] then [] else RuleWarningsOver(rule, names[..|names| - 1]) + RuleWarnings(rule, names[|names| - 1])
  }

  /** The errors all rules report, rule after rule. */
  function RulesWarningsOver(rules: seq<ResourceModifier>, names: seq<string>): seq<Warning> {
    if rules == [] then [] else RulesWarningsOver(rules[..|rules| - 1], names) + RuleWarningsOver(rules[|rules| - 1], names)
  }

  // ----------------------------------------------------------- properties

  /** Every separator is the one its position calls for: none first, `, ` after. */
  predicate Positional(vs: seq<ParamView>) {
    forall i :: 0 <= i < |vs| ==> vs[i].delim == Delim(i)
  }

  /** A spliced list renders its separators by position, whatever the separators it started from. */
  lemma SplicedPositional(rule: ResourceModifier, vs: seq<ParamView>)
    ensures Positional(Spliced(rule, vs))
  {
    hide DefView, Delim, Accepted, DefViews, Shifted, Spliced;
    var pre := Accepted(rule.prependedParameters);
    SplicedParts(rule, vs, |pre| + |vs|);
    var s := Spliced(rule, vs);
    forall i | 0 <= i < |s| ensures s[i].delim == Delim(i) {
      if i < |pre| {
        assert s[i] == DefView(pre[i], Delim(i));
      } else if i < |pre| + |vs| {
        assert s[i] == vs[i - |pre|].(delim := Delim(i));
      } else {
        assert s[i] == DefView(Accepted(rule.appendedParameters)[i - |pre| - |vs|], Delim(i));
      }
    }
  }

  /** The names of a parameter list. */
  function Names(vs: seq<ParamView>): (r: seq<string>)
    ensures |r| == |vs| && forall i :: 0 <= i < |vs| ==> r[i] == vs[i].name
  {
    seq(|vs|, i requires 0 <= i < |vs| => vs[i].name)
  }

  /** The names of some definitions. */
  function DefNames(defs: seq<ParamDef>): (r: seq<string>)
    ensures |r| == |defs| && forall i :: 0 <= i < |defs| ==> r[i] == defs[i].name
  {
    seq(|defs|, i requires 0 <= i < |defs| => defs[i].name)
  }

  /**
   * Prepended, existing, appended: the spliced names are the complete
   * prepended definitions', the action's own in their order, then the
   * complete appended definitions'; the action's own parameters sit in the
   * middle, in order, with only their separators changed.
   */
  lemma SplicedOrder(rule: ResourceModifier, vs: seq<ParamView>)
    ensures var pre := Accepted(rule.prependedParameters);
      && Names(Spliced(rule, vs)) == DefNames(pre) + Names(vs) + DefNames(Accepted(rule.appendedParameters))
      && |pre| + |vs| <= |Spliced(rule, vs)|
      && Spliced(rule, vs)[|pre|..|pre| + |vs|] == Shifted(vs, |pre|)
  {
    hide *;
    SplicedNames(rule, vs);
    SplicedKeepsOwn(rule, vs);
  }

  /** The names half of `SplicedOrder`. */
  lemma SplicedNames(rule: ResourceModifier, vs: seq<ParamView>)
    ensures Names(Spliced(rule, vs)) ==
      DefNames(Accepted(rule.prependedParameters)) + Names(vs) + DefNames(Accepted(rule.appendedParameters))
  {
    hide *;
    var pre := Accepted(rule.prependedParameters);
    var app := Accepted(rule.appendedParameters);
    var n := |pre| + |vs|;
    SplicedParts(rule, vs, n);
    var a, b, c := DefViews(pre, 0), Shifted(vs, |pre|), DefViews(app, n);
    NamesAppend(a, b);
    NamesAppend(a + b, c);
    DefViewsNames(pre, 0);
    ShiftedNames(vs, |pre|);
    DefViewsNames(app, n);
  }

  /** The own-parameters half of `SplicedOrder`. */
  lemma SplicedKeepsOwn(rule: ResourceModifier, vs: seq<ParamView>)
    ensures var pre := Accepted(rule.prependedParameters);
      && |pre| + |vs| <= |Spliced(rule, vs)|
      && Spliced(rule, vs)[|pre|..|pre| + |vs|] == Shifted(vs, |pre|)
  {
    hide *;
    var pre := Accepted(rule.prependedParameters);
    var n := |pre| + |vs|;
    SplicedParts(rule, vs, n);
    var a, b, c := DefViews(pre, 0), Shifted(vs, |pre|), DefViews(Accepted(rule.appendedParameters), n);
    assert (a + b + c)[|a|..|a| + |b|] == b;
  }

  /** The names of a concatenation are the names of its parts. */
  lemma NamesAppend(x: seq<ParamView>, y: seq<ParamView>)
    ensures Names(x + y) == Names(x) + Names(y)
  {
    assert forall i :: 0 <= i < |x + y| ==> Names(x + y)[i] == (Names(x) + Names(y))[i];
  }

  /** The objects pushed for some definitions carry the definitions' names. */
  lemma DefViewsNames(defs: seq<ParamDef>, offset: nat)
    ensures Names(DefViews(defs, offset)) == DefNames(defs)
  {
    hide DefView;
    assert forall i :: 0 <= i < |defs| ==> Names(DefViews(defs, offset))[i] == DefNames(defs)[i];
  }

  /** Moving parameters keeps their names. */
  lemma ShiftedNames(vs: seq<ParamView>, offset: nat)
    ensures Names(Shifted(vs, offset)) == Names(vs)
  {
    assert forall i :: 0 <= i < |vs| ==> Names(Shifted(vs, offset))[i] == Names(vs)[i];
  }

  /** Rules whose pattern rejects the action's name leave it as it was. */
  lemma {:induction false} NoMatchNoChange(rules: seq<ResourceModifier>, fullName: string, v: ActionView)
    requires forall m :: 0 <= m < |rules| ==> !rules[m].pattern(fullName)
    ensures ApplyRules(rules, fullName, v) == v
  {
    if rules != [] {
      NoMatchNoChange(rules[..|rules| - 1], fullName, v);
    }
  }

  /** Once any rule matched, the action's separators follow the positions of its parameters. */
  lemma {:induction false} MatchedIsPositional(rules: seq<ResourceModifier>, fullName: string, v: ActionView, m: nat)
    requires m < |rules| && rules[m].pattern(fullName)
    ensures Positional(ApplyRules(rules, fullName, v).parameters)
  {
    var last := rules[|rules| - 1];
    var before := ApplyRules(rules[..|rules| - 1], fullName, v);
    if last.pattern(fullName) {
      SplicedPositional(last, before.parameters);
    } else {
      MatchedIsPositional(rules[..|rules| - 1], fullName, v, m);
    }
  }

  /**
   * The extra annotations are those of the last matching rule that names
   * some: a later rule overwrites an earlier one's.
   */
  lemma {:induction false} LastAnnotationsWin(rules: seq<ResourceModifier>, fullName: string, v: ActionView, m: nat)
    requires m < |rules| && rules[m].pattern(fullName) && rules[m].methodAnnotations.Some?
    requires forall n :: m < n < |rules| && rules[n].pattern(fullName) ==> rules[n].methodAnnotations.None?
    ensures ApplyRules(rules, fullName, v).extraAnnotations == rules[m].methodAnnotations.value
  {
    if m < |rules| - 1 {
      LastAnnotationsWin(rules[..|rules| - 1], fullName, v, m);
    }
  }

  /** A rule naming no annotations leaves the annotations as they were. */
  lemma {:induction false} AnnotationsKept(rules: seq<ResourceModifier>, fullName: string, v: ActionView)
    requires forall m :: 0 <= m < |rules| && rules[m].pattern(fullName) ==> rules[m].methodAnnotations.None?
    ensures ApplyRules(rules, fullName, v).extraAnnotations == v.extraAnnotations
  {
    if rules != [] {
      AnnotationsKept(rules[..|rules| - 1], fullName, v);
    }
  }

  lemma AcceptedSingle(d: ParamDef)
    requires Complete(d)
    ensures Accepted([d]) == [d] && Accepted([]) == []
  {
    assert [d][..0] == [];
  }

  /**
   * A rule prepending `auth: String` to an action whose only parameter is
   * `p1` yields `[auth, p1]`: `auth` without a separator before it, `p1` with one.
   */
  lemma PrependAuth(p1: ParamView, fullName: string, annotations: seq<string>)
    ensures var rule := ResourceModifier(_ => true, None, [ParamDef("auth", "String", "")], []);
      var r := ApplyRule(rule, fullName, ActionView([p1], annotations));
      && r.parameters == [ParamView("auth", "String", "", Some(false), Some(false), "", "", ""), p1.(delim := ", ")]
      && r.extraAnnotations == annotations
  {
    hide Spliced;
    PrependAuthSpliced(ResourceModifier(_ => true, None, [ParamDef("auth", "String", "")], []), p1);
  }

  lemma PrependAuthSpliced(rule: ResourceModifier, p1: ParamView)
    requires rule.prependedParameters == [ParamDef("auth", "String", "")] && rule.appendedParameters == []
    ensures Spliced(rule, [p1]) == [ParamView("auth", "String", "", Some(false), Some(false), "", "", ""), p1.(delim := ", ")]
  {
    var auth := ParamDef("auth", "String", "");
    AcceptedSingle(auth);
    hide Accepted, DefViews, Shifted, Spliced, ApplyRule;
    assert Accepted(rule.prependedParameters) == [auth] && Accepted(rule.appendedParameters) == [];
    SplicedParts(rule, [p1], 2);
    assert StripPrefixedAt("") == "";
    var a := ParamView("auth", "String", "", Some(false), Some(false), "", "", "");
    var pre := DefViews([auth], 0);
    assert pre == [a];
    assert Shifted([p1], 1) == [p1.(delim := ", ")];
    assert DefViews([], 2) == [];
    assert Spliced(rule, [p1]) == [a] + [p1.(delim := ", ")] + [];
  }

  // ------------------------------------------------- appendParameterDefinitions

  /** The object lib/index.js:354-361 pushes for a complete definition, onto a list `count` long. */
  method NewParameter(param: ParamDef, count: nat) returns (p: Parameter)
    ensures fresh(p) && ViewOf(p) == DefView(param, Delim(count))
  {
    p := new Parameter.FromDefinition(param.name, param.paramType, param.annotation != "",
                                      StripPrefixedAt(param.annotation), if count > 0 then ", " else "");
  }

  /**
   * appendParameterDefinitions (lib/index.js:344-363): pushes a fresh object
   * for each complete definition, separated by position, and reports each
   * incomplete one.
   */
  method AppendParameterDefinitions(newParams: seq<Parameter>, insertParams: seq<ParamDef>)
    returns (newParams': seq<Parameter>, warnings: seq<Warning>)
    ensures |newParams'| == |newParams| + |Accepted(insertParams)| && newParams'[..|newParams|] == newParams
    ensures Views(newParams'[|newParams|..]) == DefViews(Accepted(insertParams), |newParams|)
    ensures forall i :: |newParams| <= i < |newParams'| ==> fresh(newParams'[i])
    ensures warnings == Rejections(insertParams)
  {
    hide Accepted, Rejections, DefViews, DefView, Delim, Views;
    ghost var added: seq<Parameter> := [];
    newParams', warnings := newParams, [];
    NoDefinitions(insertParams);
    for pIdx := 0 to |insertParams|
      invariant newParams' == newParams + added
      invariant |added| == |Accepted(insertParams[..pIdx])|
      invariant Views(added) == DefViews(Accepted(insertParams[..pIdx]), |newParams|)
      invariant forall i :: 0 <= i < |added| ==> fresh(added[i])
      invariant warnings == Rejections(insertParams[..pIdx])
    {
      DefinitionStep(insertParams, pIdx);
      var param := insertParams[pIdx];
      if !(param.name != "" && param.paramType != "") {
        warnings := warnings + [MissingParameterField];
      } else {
        ghost var accepted := Accepted(insertParams[..pIdx]);
        var p := NewParameter(param, |newParams'|);
        ViewsSnoc(added, p);
        DefViewsSnoc(accepted, param, |newParams|);
        newParams' := newParams' + [p];
        added := added + [p];
      }
    }
    assert insertParams[..|insertParams|] == insertParams;
    assert newParams'[|newParams|..] == added;
  }

  // ----------------------------------------------------- applyResourceModifiers

  /** A copy of `p` placed at position `count` of a new list. */
  method CopyParameter(p: Parameter, count: nat) returns (c: Parameter)
    ensures fresh(c) && ViewOf(c) == ViewOf(p).(delim := Delim(count))
  {
    c := new Parameter.Copy(p, if count > 0 then ", " else "");
  }

  lemma ShiftedSnoc(vs: seq<ParamView>, k: nat, offset: nat)
    requires k < |vs|
    ensures Shifted(vs[..k + 1], offset) == Shifted(vs[..k], offset) + [vs[k].(delim := Delim(offset + k))]
  {
    hide Delim;
    assert Shifted(vs[..k + 1], offset) == Shifted(vs[..k], offset) + [vs[k].(delim := Delim(offset + k))];
  }

  /** Copies of `own`, appended to `newParams` with the separators of their new positions. */
  method CopyShifted(newParams: seq<Parameter>, own: seq<Parameter>) returns (newParams': seq<Parameter>)
    ensures |newParams'| == |newParams| + |own| && newParams'[..|newParams|] == newParams
    ensures Views(newParams'[|newParams|..]) == Shifted(Views(own), |newParams|)
  {
    hide Shifted, Delim, Views;
    ghost var ownViews := Views(own);
    ghost var added: seq<Parameter> := [];
    newParams' := newParams;
    for pIdx := 0 to |own|
      invariant newParams' == newParams + added && |added| == pIdx
      invariant forall j :: 0 <= j < |own| ==> ViewOf(own[j]) == ownViews[j]
      invariant forall j :: 0 <= j < pIdx ==> ViewOf(added[j]) == Shifted(ownViews[..pIdx], |newParams|)[j]
    {
      var copy := CopyParameter(own[pIdx], |newParams'|);
      ShiftedSnoc(ownViews, pIdx, |newParams|);
      newParams' := newParams' + [copy];
      added := added + [copy];
    }
    assert ownViews[..|own|] == ownViews;
    assert newParams'[|newParams|..] == added;
    assert Views(own) == ownViews;
  }

  /** The three parts of a spliced list, the appended part starting at `n`. */
  lemma SplicedParts(rule: ResourceModifier, vs: seq<ParamView>, n: nat)
    requires n == |Accepted(rule.prependedParameters)| + |vs|
    ensures Spliced(rule, vs) == DefViews(Accepted(rule.prependedParameters), 0) + Shifted(vs, |Accepted(rule.prependedParameters)|)
                                 + DefViews(Accepted(rule.appendedParameters), n)
  {
  }

  /** The parameter list lib/index.js:384-399 builds for a matching rule, from fresh objects and copies. */
  method BuildParameters(own: seq<Parameter>, rule: ResourceModifier) returns (params: seq<Parameter>, warnings: seq<Warning>)
    ensures Views(params) == Spliced(rule, Views(own))
    ensures warnings == Rejections(rule.prependedParameters) + Rejections(rule.appendedParameters)
  {
    hide *;
    ghost var ownViews := Views(own);
    ghost var pre := DefViews(Accepted(rule.prependedParameters), 0);
    var newParams, w := AppendParameterDefinitions([], rule.prependedParameters);
    assert newParams[0..] == newParams;
    assert Views(newParams) == pre;
    var moved := CopyShifted(newParams, own);
    assert Views(own) == ownViews;
    ViewsSplit(moved, |newParams|);
    assert Views(moved) == pre + Shifted(ownViews, |pre|);
    ghost var post := DefViews(Accepted(rule.appendedParameters), |moved|);
    params, warnings := AppendParameterDefinitions(moved, rule.appendedParameters);
    assert Views(moved) == pre + Shifted(ownViews, |pre|);
    ghost var middle := Views(moved);
    assert params[..|moved|] == moved;
    ViewsSplit(params, |moved|);
    assert Views(params) == middle + post;
    assert |moved| == |Accepted(rule.prependedParameters)| + |ownViews|;
    SplicedParts(rule, ownViews, |moved|);
    assert Views(params) == Spliced(rule, ownViews);
    assert Views(own) == ownViews;
    warnings := w + warnings;
  }

  /**
   * The body of the action loop of applyResourceModifiers (lib/index.js:376-400)
   * for one rule and one action, with the existing parameters copied rather
   * than rewritten in place (see the findings): the action becomes what the
   * rule makes of it, and no parameter object changes.
   */
  method ApplyToAction(controllerClassName: string, action: Action, rule: ResourceModifier, camelCase: string -> string)
    returns (warnings: seq<Warning>)
    modifies action`parameters, action`extraAnnotations
    ensures unchanged(action`uriTemplate, action`description, action`responseClassName, action`bodyContent)
    ensures ActionViewOf(action) == ApplyRule(rule, FullName(controllerClassName, action.name, camelCase), old(ActionViewOf(action)))
    ensures warnings == RuleWarnings(rule, FullName(controllerClassName, action.name, camelCase))
  {
    hide Accepted, Rejections, Spliced;
    var fullName := controllerClassName + "." + camelCase(action.name);
    if !rule.pattern(fullName) {
      return [];
    }
    var params;
    params, warnings := BuildParameters(action.parameters, rule);
    if rule.methodAnnotations.Some? {
      action.extraAnnotations := rule.methodAnnotations.value;
    }
    action.parameters := params;
  }

  // ------------------------------------------------------ as written

  /** No entry of `ps` after `j` and before `n` is the object at `j`. */
  predicate LastBefore(ps: seq<Parameter>, j: nat, n: nat)
    requires j < n <= |ps|
  {
    forall j' :: j < j' < n ==> ps[j'] != ps[j]
  }

  /** No later entry of `ps` is the object at `j`: the last write to it was made at `j`. */
  predicate LastOccurrence(ps: seq<Parameter>, j: nat)
    requires j < |ps|
  {
    LastBefore(ps, j, |ps|)
  }

  /**
   * The loop of lib/index.js:388-393 as written: each of the action's own
   * parameter objects gets, in place, the separator of its new position
   * `offset + j`; where an object occurs twice, the later write wins.
   */
  method RewriteDelims(own: seq<Parameter>, offset: nat)
    modifies (set p | p in own)`delim
    ensures forall j :: 0 <= j < |own| && LastOccurrence(own, j) ==> own[j].delim == Delim(offset + j)
    ensures forall p :: p in own ==> p.annotation == old(p.annotation) && p.defaultValue == old(p.defaultValue)
  {
    hide Delim;
    for pIdx := 0 to |own|
      invariant forall p :: p in own ==> p.annotation == old(p.annotation) && p.defaultValue == old(p.defaultValue)
      invariant forall j :: 0 <= j < pIdx && LastBefore(own, j, pIdx) ==> own[j].delim == Delim(offset + j)
    {
      own[pIdx].delim := Delim(offset + pIdx);
      forall j | 0 <= j < pIdx + 1 && LastBefore(own, j, pIdx + 1) ensures own[j].delim == Delim(offset + j) {
        if j < pIdx {
          assert own[j] != own[pIdx] && LastBefore(own, j, pIdx);
        }
      }
    }
  }

  /**
   * The parameter list lib/index.js:384-399 builds, as written: fresh
   * objects for the definitions around the action's own objects, whose
   * separators are rewritten in place.
   */
  method BuildParametersAsWritten(own: seq<Parameter>, rule: ResourceModifier) returns (params: seq<Parameter>, warnings: seq<Warning>)
    modifies (set p | p in own)`delim
    ensures var n := |Accepted(rule.prependedParameters)|;
      && |params| == n + |own| + |Accepted(rule.appendedParameters)|
      && params[n..n + |own|] == own
      && Views(params[..n]) == DefViews(Accepted(rule.prependedParameters), 0)
      && Views(params[n + |own|..]) == DefViews(Accepted(rule.appendedParameters), n + |own|)
      && (forall j :: 0 <= j < |own| && LastOccurrence(own, j) ==> own[j].delim == Delim(n + j))
    ensures forall p :: p in own ==> p.annotation == old(p.annotation) && p.defaultValue == old(p.defaultValue)
    ensures warnings == Rejections(rule.prependedParameters) + Rejections(rule.appendedParameters)
  {
    hide *;
    var pres, w := AppendParameterDefinitions([], rule.prependedParameters);
    assert pres[0..] == pres;
    ghost var preViews := Views(pres);
    RewriteDelims(own, |pres|);
    assert forall j :: 0 <= j < |pres| ==> ViewOf(pres[j]) == preViews[j];
    ghost var m := |pres + own|;
    params, warnings := AppendParameterDefinitions(pres + own, rule.appendedParameters);
    assert params[..|pres|] == pres;
    ghost var n := |Accepted(rule.prependedParameters)|;
    assert m == n + |own|;
    warnings := w + warnings;
  }

  /**
   * The action loop body of applyResourceModifiers (lib/index.js:376-400) as
   * written: the action's own parameter objects are pushed themselves, and
   * their `__delim` is rewritten in place, so an object that another action
   * shares changes for that action too.
   */
  method ApplyToActionAsWritten(controllerClassName: string, action: Action, rule: ResourceModifier, camelCase: string -> string)
    returns (warnings: seq<Warning>)
    modifies action`parameters, action`extraAnnotations, (set p | p in action.parameters)`delim
    ensures warnings == RuleWarnings(rule, FullName(controllerClassName, action.name, camelCase))
    ensures !rule.pattern(FullName(controllerClassName, action.name, camelCase)) ==>
      unchanged(action) && unchanged(set p | p in old(action.parameters))
    ensures forall p :: p in old(action.parameters) ==> p.annotation == old(p.annotation) && p.defaultValue == old(p.defaultValue)
    ensures rule.pattern(FullName(controllerClassName, action.name, camelCase)) ==>
      var own := old(action.parameters);
      var n := |Accepted(rule.prependedParameters)|;
      && |action.parameters| == n + |own| + |Accepted(rule.appendedParameters)|
      && action.parameters[n..n + |own|] == own
      && Views(action.parameters[..n]) == DefViews(Accepted(rule.prependedParameters), 0)
      && Views(action.parameters[n + |own|..]) == DefViews(Accepted(rule.appendedParameters), n + |own|)
      && (forall j :: 0 <= j < |own| && LastOccurrence(own, j) ==> own[j].delim == Delim(n + j))
      && action.extraAnnotations == if rule.methodAnnotations.Some? then rule.methodAnnotations.value else old(action.extraAnnotations)
  {
    hide *;
    var fullName := FullName(controllerClassName, action.name, camelCase);
    RuleWarningsCases(rule, fullName);
    if !rule.pattern(fullName) {
      return [];
    }
    var own := action.parameters;
    var params;
    params, warnings := BuildParametersAsWritten(own, rule);
    ghost var n := |Accepted(rule.prependedParameters)|;
    assert params[n..n + |own|] == own;
    if rule.methodAnnotations.Some? {
      action.extraAnnotations := rule.methodAnnotations.value;
    }
    action.parameters := params;
  }

  /**
   * Under the identity camel-casing the demo rule matches `first` and not
   * `second`, and prepends exactly one parameter.
   */
  lemma DemoRuleFacts(camelCase: string -> string)
    requires forall t :: camelCase(t) == t
    ensures DemoRule().pattern(FullName("Demo", "first", camelCase))
    ensures !DemoRule().pattern(FullName("Demo", "second", camelCase))
    ensures forall v :: ApplyRule(DemoRule(), FullName("Demo", "second", camelCase), v) == v
    ensures |Accepted(DemoRule().prependedParameters)| == 1
  {
    assert FullName("Demo", "first", camelCase) == "Demo.first";
    assert FullName("Demo", "second", camelCase)[5] == 's';
    AcceptedSingle(ParamDef("auth", "String", ""));
  }

  /** The view of an action whose only parameter is `p`. */
  lemma OneParameterView(a: Action, p: Parameter)
    requires a.parameters == [p]
    ensures ActionViewOf(a) == ActionView([ViewOf(p)], a.extraAnnotations)
  {
  }

  /** The one entry of a one-element list is its last occurrence. */
  lemma SingleIsLast(ps: seq<Parameter>)
    requires |ps| == 1
    ensures LastOccurrence(ps, 0)
  {
  }

  /** A rule that prepends `auth: String` to the action `Demo.first` only. */
  function DemoRule(): ResourceModifier {
    ResourceModifier(s => s == "Demo.first", None, [ParamDef("auth", "String", "")], [])
  }

  /**
   * Two actions of one resource that inherit its parameter `id`, and the
   * rule above run over both as written. The rule does not match the second
   * action, so it should stay as it was; as written, the `id` object it
   * shares with the first action now carries the separator `, `, and its
   * method would render as `(, String id)`.
   */
  method SharedParameterAsWritten() returns (before: ActionView, after: ActionView)
    ensures before == ActionView([ParamView("id", "String", "", None, None, "", "", "")], [])
    ensures ApplyRule(DemoRule(), FullName("Demo", "second", s => s), before) == before
    ensures |after.parameters| == 1 && after.parameters[0].delim == ", " && after != before
  {
    hide Rejections, RuleWarnings, DefViews, Spliced, Shifted, LastOccurrence, LastBefore, Accepted, ApplyRule, FullName, ActionViewOf, Views;
    var rule := DemoRule();
    var camelCase: string -> string := s => s;
    DemoRuleFacts(camelCase);
    // The parameter object parseResources hands to both actions (lib/index.js:170-171).
    var id := new Parameter.FromDocument("id", "String", "");
    var first := new Action("first", "GET", [], [], [id], "", "");
    var second := new Action("second", "GET", [], [], [id], "", "");
    OneParameterView(second, id);
    before := ActionViewOf(second);
    SingleIsLast(first.parameters);
    var w1 := ApplyToActionAsWritten("Demo", first, rule, camelCase);
    assert id.delim == Delim(1) && second.parameters == [id];
    var w2 := ApplyToActionAsWritten("Demo", second, rule, camelCase);
    assert second.parameters == [id] && id.delim == ", ";
    OneParameterView(second, id);
    after := ActionViewOf(second);
  }

  /** The same two actions under the corrected engine: the second action keeps its separators. */
  method SharedParameterCorrected() returns (before: ActionView, after: ActionView)
    ensures before == ActionView([ParamView("id", "String", "", None, None, "", "", "")], [])
    ensures after == ApplyRule(DemoRule(), FullName("Demo", "second", s => s), before) && after == before
  {
    hide Rejections, RuleWarnings, DefViews, Spliced, Shifted, Accepted, ApplyRule, FullName, Views;
    var rule := DemoRule();
    var camelCase: string -> string := s => s;
    DemoRuleFacts(camelCase);
    var id := new Parameter.FromDocument("id", "String", "");
    var first := new Action("first", "GET", [], [], [id], "", "");
    var second := new Action("second", "GET", [], [], [id], "", "");
    OneParameterView(second, id);
    before := ActionViewOf(second);
    var w1 := ApplyToAction("Demo", first, rule, camelCase);
    assert ActionViewOf(second) == before;
    var w2 := ApplyToAction("Demo", second, rule, camelCase);
    after := ActionViewOf(second);
  }

  /** The views of some actions, in order. */
  ghost function ActionViews(acts: seq<Action>): (vs: seq<ActionView>)
    reads set a | a in acts
    reads set a, p | a in acts && p in a.parameters :: p
    ensures |vs| == |acts| && forall k :: 0 <= k < |acts| ==> vs[k] == ActionViewOf(acts[k])
  {
    if acts == [] then [] else ActionViews(acts[..|acts| - 1]) + [ActionViewOf(acts[|acts| - 1])]
  }

  /** The views of every action of every resource. */
  ghost function Snapshot(rs: seq<Resource>): (ss: seq<seq<ActionView>>)
    reads set r, a | r in rs && a in r.actions :: a
    reads set r, a, p | r in rs && a in r.actions && p in a.parameters :: p
    ensures |ss| == |rs| && forall i :: 0 <= i < |rs| ==> ss[i] == ActionViews(rs[i].actions)
  {
    seq(|rs|, i
      requires 0 <= i < |rs|
      reads set r, a | r in rs && a in r.actions :: a
      reads set r, a, p | r in rs && a in r.actions && p in a.parameters :: p
      => ActionViews(rs[i].actions))
  }

  /** The full names of every action of every resource. */
  function AllNames(controllerClassName: string, rs: seq<Resource>, camelCase: string -> string): (names: seq<seq<string>>)
    ensures |names| == |rs| && forall i :: 0 <= i < |rs| ==> names[i] == ActionNames(controllerClassName, rs[i].actions, camelCase)
  {
    seq(|rs|, i requires 0 <= i < |rs| => ActionNames(controllerClassName, rs[i].actions, camelCase))
  }

  predicate SameShape(names: seq<seq<string>>, views: seq<seq<ActionView>>) {
    |names| == |views| && forall i :: 0 <= i < |names| ==> |names[i]| == |views[i]|
  }

  /** The views once a rule has reached action `j` of resource `n`: the actions before it rewritten, the rest as they were. */
  function RuleUpTo(rule: ResourceModifier, names: seq<seq<string>>, views: seq<seq<ActionView>>, n: nat, j: nat): (r: seq<seq<ActionView>>)
    requires SameShape(names, views)
    ensures SameShape(names, r)
    ensures forall i, k :: 0 <= i < |views| && 0 <= k < |views[i]| ==>
      r[i][k] == if i < n || (i == n && k < j) then ApplyRule(rule, names[i][k], views[i][k]) else views[i][k]
  {
    seq(|views|, i requires 0 <= i < |views| =>
      seq(|views[i]|, k requires 0 <= k < |views[i]| =>
        if i < n || (i == n && k < j) then ApplyRule(rule, names[i][k], views[i][k]) else views[i][k]))
  }

  /** One rule applied to every action. */
  function RuleOnAll(rule: ResourceModifier, names: seq<seq<string>>, views: seq<seq<ActionView>>): (r: seq<seq<ActionView>>)
    requires SameShape(names, views)
    ensures SameShape(names, r)
  {
    RuleUpTo(rule, names, views, |views|, 0)
  }

  /** The rules applied to every action, rule after rule. */
  function RulesOnAll(rules: seq<ResourceModifier>, names: seq<seq<string>>, views: seq<seq<ActionView>>): (r: seq<seq<ActionView>>)
    requires SameShape(names, views)
    ensures SameShape(names, r)
  {
    if rules == [] then views else RuleOnAll(rules[|rules| - 1], names, RulesOnAll(rules[..|rules| - 1], names, views))
  }

  /** Rule after rule over every action is, for each action, its rules in order. */
  lemma {:induction false} RulesOnAllAt(rules: seq<ResourceModifier>, names: seq<seq<string>>, views: seq<seq<ActionView>>, i: nat, k: nat)
    requires SameShape(names, views) && i < |views| && k < |views[i]|
    ensures RulesOnAll(rules, names, views)[i][k] == ApplyRules(rules, names[i][k], views[i][k])
  {
    if rules != [] {
      RulesOnAllAt(rules[..|rules| - 1], names, views, i, k);
    }
  }

  lemma RuleUpToStart(rule: ResourceModifier, names: seq<seq<string>>, views: seq<seq<ActionView>>)
    requires SameShape(names, views)
    ensures RuleUpTo(rule, names, views, 0, 0) == views
  {
    var r := RuleUpTo(rule, names, views, 0, 0);
    forall i | 0 <= i < |views| ensures r[i] == views[i] {
      assert |r[i]| == |views[i]|;
    }
  }

  lemma RuleUpToStep(rule: ResourceModifier, names: seq<seq<string>>, views: seq<seq<ActionView>>, n: nat, j: nat)
    requires SameShape(names, views) && n < |views| && j < |views[n]|
    ensures var r := RuleUpTo(rule, names, views, n, j);
      RuleUpTo(rule, names, views, n, j + 1) == r[n := r[n][j := ApplyRule(rule, names[n][j], views[n][j])]]
  {
    hide ApplyRule;
    var r := RuleUpTo(rule, names, views, n, j);
    var s := RuleUpTo(rule, names, views, n, j + 1);
    var t := r[n := r[n][j := ApplyRule(rule, names[n][j], views[n][j])]];
    forall i | 0 <= i < |views| ensures s[i] == t[i] {
      assert |s[i]| == |t[i]|;
    }
  }

  lemma RuleUpToNext(rule: ResourceModifier, names: seq<seq<string>>, views: seq<seq<ActionView>>, n: nat)
    requires SameShape(names, views) && n < |views|
    ensures RuleUpTo(rule, names, views, n, |views[n]|) == RuleUpTo(rule, names, views, n + 1, 0)
  {
    hide ApplyRule;
    var s := RuleUpTo(rule, names, views, n, |views[n]|);
    var t := RuleUpTo(rule, names, views, n + 1, 0);
    forall i | 0 <= i < |views| ensures s[i] == t[i] {
      assert |s[i]| == |t[i]|;
    }
  }

  /**
   * ApplyToAction on action `k` of resource `i`: that action's view changes
   * as the rule says, every other action's stays as it was.
   */
  method ApplyToActionAt(controllerClassName: string, rs: seq<Resource>, i: nat, k: nat, rule: ResourceModifier, camelCase: string -> string)
    returns (warnings: seq<Warning>)
    requires DistinctActions(rs) && i < |rs| && k < |rs[i].actions|
    modifies {rs[i].actions[k]}`parameters, {rs[i].actions[k]}`extraAnnotations
    ensures var before := old(Snapshot(rs));
      Snapshot(rs) == before[i := before[i][k := ApplyRule(rule, FullName(controllerClassName, rs[i].actions[k].name, camelCase), before[i][k])]]
    ensures warnings == RuleWarnings(rule, FullName(controllerClassName, rs[i].actions[k].name, camelCase))
  {
    hide ApplyRule, RuleWarnings, FullName, Snapshot, ActionViews;
    ghost var before := Snapshot(rs);
    var action := rs[i].actions[k];
    warnings := ApplyToAction(controllerClassName, action, rule, camelCase);
    ghost var expected := before[i := before[i][k := ApplyRule(rule, FullName(controllerClassName, action.name, camelCase), before[i][k])]];
    ghost var now := Snapshot(rs);
    forall i', k' | 0 <= i' < |rs| && 0 <= k' < |rs[i'].actions| && (i' != i || k' != k)
      ensures now[i'][k'] == expected[i'][k']
    {
      assert rs[i'].actions[k'] != action;
    }
    forall i' | 0 <= i' < |rs| ensures now[i'] == expected[i'] {
      assert |now[i']| == |expected[i']|;
    }
  }

  lemma NoNamesYet(controllerClassName: string, rs: seq<Resource>, rule: ResourceModifier, camelCase: string -> string)
    ensures FullNames(controllerClassName, rs[..0], camelCase) == [] && RuleWarningsOver(rule, []) == []
  {
    assert rs[..0] == [];
  }

  lemma RuleWarningsSnoc(rule: ResourceModifier, names: seq<string>, name: string)
    ensures RuleWarningsOver(rule, names + [name]) == RuleWarningsOver(rule, names) + RuleWarnings(rule, name)
  {
    assert (names + [name])[..|names|] == names;
  }

  lemma ActionNamesSnoc(controllerClassName: string, acts: seq<Action>, j: nat, camelCase: string -> string)
    requires j < |acts|
    ensures ActionNames(controllerClassName, acts[..j + 1], camelCase) ==
      ActionNames(controllerClassName, acts[..j], camelCase) + [FullName(controllerClassName, acts[j].name, camelCase)]
  {
    assert acts[..j + 1][..j] == acts[..j];
  }

  /** One more action of the current resource: its rule's errors come next. */
  lemma WarningsStep(controllerClassName: string, done: seq<string>, acts: seq<Action>, j: nat, rule: ResourceModifier, camelCase: string -> string)
    requires j < |acts|
    ensures RuleWarningsOver(rule, done + ActionNames(controllerClassName, acts[..j + 1], camelCase)) ==
      RuleWarningsOver(rule, done + ActionNames(controllerClassName, acts[..j], camelCase)) + RuleWarnings(rule, FullName(controllerClassName, acts[j].name, camelCase))
  {
    hide FullName, RuleWarnings;
    var name := FullName(controllerClassName, acts[j].name, camelCase);
    ActionNamesSnoc(controllerClassName, acts, j, camelCase);
    RuleWarningsSnoc(rule, done + ActionNames(controllerClassName, acts[..j], camelCase), name);
    assert done + ActionNames(controllerClassName, acts[..j + 1], camelCase) ==
      done + ActionNames(controllerClassName, acts[..j], camelCase) + [name];
  }

  lemma FullNamesSnoc(controllerClassName: string, rs: seq<Resource>, n: nat, camelCase: string -> string)
    requires n < |rs|
    ensures FullNames(controllerClassName, rs[..n + 1], camelCase) ==
      FullNames(controllerClassName, rs[..n], camelCase) + ActionNames(controllerClassName, rs[n].actions, camelCase)
  {
    assert rs[..n + 1][..n] == rs[..n];
  }

  /** The action loop of applyResourceModifiers (lib/index.js:376-403): one rule over the actions of resource `n`, in order. */
  method ApplyRuleToResource(controllerClassName: string, rs: seq<Resource>, n: nat, rule: ResourceModifier, camelCase: string -> string,
                             ghost names: seq<seq<string>>, ghost olds: seq<seq<ActionView>>, ghost done: seq<string>, warnings: seq<Warning>)
    returns (warnings': seq<Warning>)
    requires DistinctActions(rs) && n < |rs|
    requires names == AllNames(controllerClassName, rs, camelCase) && SameShape(names, olds)
    requires Snapshot(rs) == RuleUpTo(rule, names, olds, n, 0)
    requires warnings == RuleWarningsOver(rule, done)
    modifies (set a | a in rs[n].actions)`parameters, (set a | a in rs[n].actions)`extraAnnotations
    ensures Snapshot(rs) == RuleUpTo(rule, names, olds, n, |rs[n].actions|)
    ensures warnings' == RuleWarningsOver(rule, done + ActionNames(controllerClassName, rs[n].actions, camelCase))
  {
    hide ApplyRule, RuleWarnings, RuleWarningsOver, FullName, FullNames, ActionNames, RuleUpTo, Snapshot, DistinctActions;
    var actions := rs[n].actions;
    assert actions[..0] == [];
    assert done + ActionNames(controllerClassName, actions[..0], camelCase) == done;
    warnings' := warnings;
    for actIdx := 0 to |actions|
      invariant Snapshot(rs) == RuleUpTo(rule, names, olds, n, actIdx)
      invariant warnings' == RuleWarningsOver(rule, done + ActionNames(controllerClassName, actions[..actIdx], camelCase))
    {
      assert actions[actIdx] in actions;
      var w := ApplyToActionAt(controllerClassName, rs, n, actIdx, rule, camelCase);
      RuleUpToStep(rule, names, olds, n, actIdx);
      WarningsStep(controllerClassName, done, actions, actIdx, rule, camelCase);
      warnings' := warnings' + w;
    }
    assert actions[..|actions|] == actions;
  }

  /** The resource and action loops of applyResourceModifiers (lib/index.js:373-404): one rule over every action. */
  method ApplyRuleEverywhere(controllerClassName: string, rs: seq<Resource>, rule: ResourceModifier, camelCase: string -> string)
    returns (warnings: seq<Warning>)
    requires DistinctActions(rs)
    modifies (set r, a | r in rs && a in r.actions :: a)`parameters, (set r, a | r in rs && a in r.actions :: a)`extraAnnotations
    ensures Snapshot(rs) == RuleOnAll(rule, AllNames(controllerClassName, rs, camelCase), old(Snapshot(rs)))
    ensures warnings == RuleWarningsOver(rule, FullNames(controllerClassName, rs, camelCase))
  {
    hide ApplyRule, RuleWarnings, RuleWarningsOver, FullName, FullNames, ActionNames, RuleUpTo, Snapshot, DistinctActions;
    ghost var names := AllNames(controllerClassName, rs, camelCase);
    ghost var olds := Snapshot(rs);
    RuleUpToStart(rule, names, olds);
    NoNamesYet(controllerClassName, rs, rule, camelCase);
    warnings := [];
    for resIdx := 0 to |rs|
      invariant Snapshot(rs) == RuleUpTo(rule, names, olds, resIdx, 0)
      invariant warnings == RuleWarningsOver(rule, FullNames(controllerClassName, rs[..resIdx], camelCase))
    {
      ghost var done := FullNames(controllerClassName, rs[..resIdx], camelCase);
      warnings := ApplyRuleToResource(controllerClassName, rs, resIdx, rule, camelCase, names, olds, done, warnings);
      RuleUpToNext(rule, names, olds, resIdx);
      FullNamesSnoc(controllerClassName, rs, resIdx, camelCase);
    }
    assert rs[..|rs|] == rs;
  }

  /**
   * applyResourceModifiers (lib/index.js:365-405): every action becomes what
   * the rules, in declaration order, make of it, and the errors come out rule
   * by rule, action by action.
   */
  method ApplyResourceModifiers(controllerClassName: string, rs: seq<Resource>, rules: seq<ResourceModifier>, camelCase: string -> string)
    returns (warnings: seq<Warning>)
    requires DistinctActions(rs)
    modifies (set r, a | r in rs && a in r.actions :: a)`parameters, (set r, a | r in rs && a in r.actions :: a)`extraAnnotations
    ensures forall i, k :: 0 <= i < |rs| && 0 <= k < |rs[i].actions| ==>
      ActionViewOf(rs[i].actions[k]) == ApplyRules(rules, FullName(controllerClassName, rs[i].actions[k].name, camelCase), old(ActionViewOf(rs[i].actions[k])))
    ensures var acts := set r, a | r in rs && a in r.actions :: a;
      unchanged(acts`uriTemplate, acts`description, acts`responseClassName, acts`bodyContent)
    ensures warnings == RulesWarningsOver(rules, FullNames(controllerClassName, rs, camelCase))
  {
    hide ApplyRule, ApplyRules, RuleOnAll, RuleWarningsOver, FullNames, DistinctActions;
    ghost var names := AllNames(controllerClassName, rs, camelCase);
    ghost var olds := Snapshot(rs);
    warnings := [];
    assert rules[..0] == [];
    for rmIdx := 0 to |rules|
      invariant Snapshot(rs) == RulesOnAll(rules[..rmIdx], names, olds)
      invariant warnings == RulesWarningsOver(rules[..rmIdx], FullNames(controllerClassName, rs, camelCase))
    {
      assert rules[..rmIdx + 1][..rmIdx] == rules[..rmIdx];
      var w := ApplyRuleEverywhere(controllerClassName, rs, rules[rmIdx], camelCase);
      warnings := warnings + w;
    }
    assert rules[..|rules|] == rules;
    forall i, k | 0 <= i < |rs| && 0 <= k < |rs[i].actions|
      ensures ActionViewOf(rs[i].actions[k]) == ApplyRules(rules, FullName(controllerClassName, rs[i].actions[k].name, camelCase), olds[i][k])
    {
      RulesOnAllAt(rules, names, olds, i, k);
    }
  }
}
