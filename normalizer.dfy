/**
 * parseResources (lib/index.js:162-233): fills each action in place with what
 * the templates need, and tags each parameter object of the action.
 */
module Normalizer {
  import opened Wrappers
  import opened JsText
  import opened Ast
  import opened Report
  import opened TypeNames
  import opened SpringHttpStatus
  import opened Document
  import opened ExampleAnalysis

  const DefaultObjectType: string := "Object"
  const ResponseStatusPrefix: string := "@ResponseStatus(org.springframework.http.HttpStatus."

  // --------------------------------------------------------- URI templates

  const QueryOpeners: set<char> := {'?', '&'}
  const StrippedOpeners: set<char> := {'?', '#', '&'}

  /** The first `}` at or after `k`. */
  function CloseFrom(s: string, k: nat): (r: Option<nat>)
    ensures r.Some? ==> k <= r.value < |s| && s[r.value] == '}' && forall m :: k <= m < r.value ==> s[m] != '}'
    ensures r.None? ==> forall m :: k <= m < |s| ==> s[m] != '}'
    decreases |s| - k
  {
    if k >= |s| then None else if s[k] == '}' then Some(k) else CloseFrom(s, k + 1)
  }

  /**
   * Where a group `{` opener `[^}]+` `}` starting at `i` closes, if one starts
   * there: the first `}` after at least one other character.
   */
  function GroupEnd(s: string, i: nat, openers: set<char>): (j: Option<nat>)
    ensures j.Some? ==> i + 2 < j.value < |s| && s[j.value] == '}'
    ensures j.Some? ==> forall m :: i + 2 <= m < j.value ==> s[m] != '}'
    ensures j.Some? ==> s[i] == '{' && s[i + 1] in openers
  {
    if i + 2 < |s| && s[i] == '{' && s[i + 1] in openers && s[i + 2] != '}'
    then CloseFrom(s, i + 2)
    else None
  }

  /** The leftmost match of `/\{[?&]([^}]+)}/` at or after `from`: its start and closing brace. */
  function QueryGroupFrom(s: string, from: nat): (g: Option<(nat, nat)>)
    ensures g.Some? ==> from <= g.value.0 && GroupEnd(s, g.value.0, QueryOpeners) == Some(g.value.1)
    ensures g.Some? ==> forall i :: from <= i < g.value.0 ==> GroupEnd(s, i, QueryOpeners).None?
    ensures g.None? ==> forall i :: from <= i < |s| ==> GroupEnd(s, i, QueryOpeners).None?
    decreases |s| - from
  {
    if from >= |s| then None
    else match GroupEnd(s, from, QueryOpeners)
      case Some(j) => Some((from, j))
      case None => QueryGroupFrom(s, from + 1)
  }

  /** `s.replace(/\{[?#&][^}]+}/g, '')` applied to `s[from..]`. */
  function StripFrom(s: string, from: nat): (r: string)
    ensures from <= |s| ==> |r| <= |s| - from
    decreases |s| - from
  {
    if from >= |s| then ""
    else match GroupEnd(s, from, StrippedOpeners)
      case Some(j) => StripFrom(s, j + 1)
      case None => [s[from]] + StripFrom(s, from + 1)
  }

  /** The names in the first query group, split on `,`; none without a group. */
  function QueryNames(uri: string): set<string> {
    match QueryGroupFrom(uri, 0)
    case None => {}
    case Some((i, j)) => NameSet(Split(uri[i + 2..j], ','))
  }

  function NameSet(names: seq<string>): set<string> {
    set x | x in names
  }

  /** The template with every `{?...}`, `{#...}` and `{&...}` group removed, but only when a query group exists. */
  function StrippedTemplate(uri: string): string {
    if QueryGroupFrom(uri, 0).Some? then StripFrom(uri, 0) else uri
  }

  /** A `{?...}`, `{#...}` or `{&...}` group at `p` is dropped whole. */
  lemma StripSkip(s: string, p: nat, e: nat)
    requires GroupEnd(s, p, StrippedOpeners) == Some(e)
    ensures StripFrom(s, p) == StripFrom(s, e + 1)
  {
  }

  /** Any other character at `p` is kept. */
  lemma StripKeep(s: string, p: nat)
    requires p < |s| && GroupEnd(s, p, StrippedOpeners).None?
    ensures |StripFrom(s, p)| == 1 + |StripFrom(s, p + 1)|
  {
  }

  /** A group opened before `i` that is still open at `i` cannot close inside the query group at `i`. */
  lemma GroupCannotCloseInside(s: string, p: nat, i: nat, j: nat, e: nat)
    requires p < i <= e && GroupEnd(s, i, QueryOpeners) == Some(j)
    requires GroupEnd(s, p, StrippedOpeners) == Some(e)
    ensures j <= e
  {
    assert s[e] == '}' && s[i] == '{' && s[i + 1] in QueryOpeners;
  }

  /** A `{?...}` or `{&...}` group is also one of the groups stripping removes. */
  lemma QueryGroupIsStrippedGroup(s: string, i: nat, j: nat)
    requires GroupEnd(s, i, QueryOpeners) == Some(j)
    ensures GroupEnd(s, i, StrippedOpeners) == Some(j)
  {
  }

  /** A query group that survives the scan up to `p` is removed entirely. */
  lemma {:induction false} StripCoversGroup(s: string, p: nat, i: nat, j: nat)
    requires p <= i && GroupEnd(s, i, QueryOpeners) == Some(j)
    ensures |StripFrom(s, p)| <= |s| - p - (j + 1 - i)
    decreases |s| - p
  {
    hide *;
    if p == i {
      QueryGroupIsStrippedGroup(s, i, j);
      StripSkip(s, p, j);
    } else {
      var end := GroupEnd(s, p, StrippedOpeners);
      if end.Some? {
        var e := end.value;
        StripSkip(s, p, e);
        if e < i {
          StripCoversGroup(s, e + 1, i, j);
        } else {
          GroupCannotCloseInside(s, p, i, j, e);
        }
      } else {
        StripKeep(s, p);
        StripCoversGroup(s, p + 1, i, j);
      }
    }
  }

  /**
   * When a template has a query group, stripping removes at least that group
   * (its body and three delimiter characters); without one it is unchanged.
   */
  lemma QueryGroupIsStripped(uri: string)
    ensures QueryGroupFrom(uri, 0).None? ==> StrippedTemplate(uri) == uri && QueryNames(uri) == {}
    ensures QueryGroupFrom(uri, 0).Some? ==>
      var (i, j) := QueryGroupFrom(uri, 0).value;
      |StrippedTemplate(uri)| <= |uri| - |uri[i + 2..j]| - 3
  {
    if QueryGroupFrom(uri, 0).Some? {
      var (i, j) := QueryGroupFrom(uri, 0).value;
      StripCoversGroup(uri, 0, i, j);
    }
  }

  // ------------------------------------------------------- status annotation

  /** The annotations and warnings for the 2xx codes found (lib/index.js:207-221). */
  function StatusAnnotations(codes: seq<int>): (seq<string>, seq<Warning>) {
    if |codes| > 1 then ([], [MultipleSuccessStatuses(codes[0])])
    else if |codes| == 1 then
      match FromStatusCode(codes[0])
      case None => ([], [UnknownStatusCode(codes[0])])
      case Some(st) => (if st.isDefault then [] else [ResponseStatusPrefix + st.name + ")"], [])
    else ([], [])
  }

  /**
   * At most one annotation, added exactly when there is one code and it has a
   * non-default table entry; several codes give one warning naming the first.
   */
  lemma StatusAnnotationRule(codes: seq<int>)
    ensures |StatusAnnotations(codes).0| <= 1
    ensures |StatusAnnotations(codes).0| == 1 <==>
      |codes| == 1 && FromStatusCode(codes[0]).Some? && !FromStatusCode(codes[0]).value.isDefault
    ensures |StatusAnnotations(codes).0| == 1 ==>
      StatusAnnotations(codes).0[0] == ResponseStatusPrefix + FromStatusCode(codes[0]).value.name + ")"
    ensures |codes| > 1 ==> StatusAnnotations(codes).1 == [MultipleSuccessStatuses(codes[0])]
    ensures StatusAnnotations([201, 204]) == ([], [MultipleSuccessStatuses(201)])
    ensures StatusAnnotations([201]) == (["@ResponseStatus(org.springframework.http.HttpStatus.CREATED)"], [])
    ensures StatusAnnotations([200]) == ([], [])
  {
    assert ResponseStatusPrefix + "CREATED" + ")" == "@ResponseStatus(org.springframework.http.HttpStatus.CREATED)";
  }

  // ------------------------------------------------------------- parameters

  /** `RequestParam` for a name the URI template lists as a query parameter, `PathVariable` otherwise. */
  function AnnotationFor(name: string, query: set<string>): string {
    if name in query then "RequestParam" else "PathVariable"
  }

  /** The tags parameter `p` gets at position `index` given the query names. */
  function TagFor(p: Parameter, index: nat, query: set<string>): Tags {
    Tags(Delim(index), AnnotationFor(p.name, query), if p.defaultText != "" then p.defaultText else "")
  }

  /** The tags the loop at lib/index.js:224-229 leaves on each parameter object of `ps`. */
  function ListTags(ps: seq<Parameter>, query: set<string>): (m: map<Parameter, Tags>)
    ensures m.Keys == set p | p in ps
  {
    if ps == [] then map[]
    else ListTags(ps[..|ps| - 1], query)[ps[|ps| - 1] := TagFor(ps[|ps| - 1], |ps| - 1, query)]
  }

  /**
   * In a list of distinct parameters, parameter i gets `""` or `", "` as its
   * delimiter, `RequestParam` exactly when its name is a query name, and its
   * default value.
   */
  lemma {:induction false} ListTagsAt(ps: seq<Parameter>, query: set<string>, i: nat)
    requires i < |ps| && forall k, l :: 0 <= k < l < |ps| ==> ps[k] != ps[l]
    ensures ListTags(ps, query)[ps[i]] == TagFor(ps[i], i, query)
    ensures ListTags(ps, query)[ps[i]].delim == (if i == 0 then "" else ", ")
    ensures ListTags(ps, query)[ps[i]].annotation == "RequestParam" <==> ps[i].name in query
    ensures ListTags(ps, query)[ps[i]].defaultValue == ps[i].defaultText
  {
    if i < |ps| - 1 {
      ListTagsAt(ps[..|ps| - 1], query, i);
    }
  }

  // ------------------------------------------------------------ one action

  function InheritedParameters(r: Resource, own: seq<Parameter>): seq<Parameter> {
    if |own| == 0 then r.parameters else own
  }

  function InheritedTemplate(r: Resource, own: string): string {
    if own == "" then r.uriTemplate else own
  }

  function ParameterSet(ps: seq<Parameter>): set<Parameter> {
    set p | p in ps
  }

  /** What normalizing one action produces: its new fields, its query names and its warnings. */
  datatype Normalized = Normalized(state: ActionState, query: set<string>, warnings: seq<Warning>)

  predicate HasRequests(a: Action) {
    |a.examples| > 0 && |a.examples[0].requests| > 0
  }

  /** The response class name of an action and the warnings found choosing it (lib/index.js:177-182). */
  function ResponseType(r: Resource, a: Action, env: Foreign): (string, seq<Warning>) {
    var response := PayloadClassName(r.content, a.examples, a.content, Responses, env.pascalCase);
    if Truthy(response.0) then (response.0.value, response.1)
    else (DefaultObjectType, response.1 + [DefaultResponseType])
  }

  /** The request body of an action with `params` and the warnings found choosing its class (lib/index.js:185-193). */
  function RequestBody(r: Resource, a: Action, params: seq<Parameter>, body: Option<BodyContent>, env: Foreign)
    : (Option<BodyContent>, seq<Warning>)
  {
    if HasRequests(a) then
      var request := PayloadClassName(r.content, a.examples, a.content, Requests, env.pascalCase);
      var requestName := if Truthy(request.0) then request.0.value else DefaultObjectType;
      (Some(BodyContent(env.camelCase(requestName), requestName, Delim(|params|))), request.1)
    else (body, [])
  }

  /** The body of the action loop of parseResources, on values. */
  function Normalize(r: Resource, a: Action, s: ActionState, env: Foreign): Normalized {
    var params := InheritedParameters(r, s.parameters);
    var uri := InheritedTemplate(r, s.uriTemplate);
    var response := ResponseType(r, a, env);
    var request := RequestBody(r, a, params, s.bodyContent, env);
    var status := StatusAnnotations(ExampleSuccessCodes(a.examples, env.parseInt));
    Normalized(
      ActionState(params, StrippedTemplate(uri), Trim(s.description), response.0, request.0, status.0),
      QueryNames(uri),
      response.1 + request.1 + status.1)
  }

  /** `Normalize` in terms of its parts. */
  lemma NormalizeParts(r: Resource, a: Action, s: ActionState, env: Foreign)
    ensures var params := InheritedParameters(r, s.parameters);
      var uri := InheritedTemplate(r, s.uriTemplate);
      var status := StatusAnnotations(ExampleSuccessCodes(a.examples, env.parseInt));
      Normalize(r, a, s, env) == Normalized(
        ActionState(params, StrippedTemplate(uri), Trim(s.description), ResponseType(r, a, env).0,
                    RequestBody(r, a, params, s.bodyContent, env).0, status.0),
        QueryNames(uri),
        ResponseType(r, a, env).1 + RequestBody(r, a, params, s.bodyContent, env).1 + status.1)
  {
  }

  /** The per-action contract of parseResources. */
  lemma NormalizeFacts(r: Resource, a: Action, s: ActionState, env: Foreign)
    ensures var n := Normalize(r, a, s, env);
      && (n.state.parameters == if |s.parameters| == 0 then r.parameters else s.parameters)
      && (s.uriTemplate != "" ==> n.state.uriTemplate == StrippedTemplate(s.uriTemplate))
      && (s.uriTemplate == "" ==> n.state.uriTemplate == StrippedTemplate(r.uriTemplate))
      && n.state.responseClassName != ""
      && (!Truthy(PayloadClassName(r.content, a.examples, a.content, Responses, env.pascalCase).0) ==> n.state.responseClassName == DefaultObjectType)
      && (DefaultResponseType in n.warnings <==> !Truthy(PayloadClassName(r.content, a.examples, a.content, Responses, env.pascalCase).0))
      && |n.state.extraAnnotations| <= 1
      && (n.state.bodyContent != s.bodyContent ==> HasRequests(a))
  {
    StatusAnnotationRule(ExampleSuccessCodes(a.examples, env.parseInt));
    PayloadWarnsOnlyMismatches(r.content, a.examples, a.content, Responses, env.pascalCase);
    PayloadWarnsOnlyMismatches(r.content, a.examples, a.content, Requests, env.pascalCase);
  }

  /** One iteration of the action loop of parseResources. */
  method NormalizeAction(r: Resource, a: Action, env: Foreign) returns (warnings: seq<Warning>)
    modifies a, ParameterSet(InheritedParameters(r, a.parameters))
    ensures a.parameters == InheritedParameters(r, old(a.parameters))
    ensures var n := Normalize(r, a, old(State(a)), env);
      && State(a) == n.state
      && warnings == n.warnings
      && forall p :: p in ListTags(n.state.parameters, n.query) ==> TagsOf(p) == ListTags(n.state.parameters, n.query)[p]
  {
    ghost var s0 := State(a);
    var query;
    query, warnings := UpdateAction(r, a, env);
    NormalizeParts(r, a, s0, env);
    // Parameter delimiters
    TagParameters(a.parameters, query);
  }

  /** The action's own fields: everything the loop body does before it tags the parameters. */
  method UpdateAction(r: Resource, a: Action, env: Foreign) returns (query: set<string>, warnings: seq<Warning>)
    modifies a
    ensures a.parameters == InheritedParameters(r, old(a.parameters))
    ensures a.uriTemplate == StrippedTemplate(InheritedTemplate(r, old(a.uriTemplate)))
    ensures a.description == Trim(old(a.description))
    ensures a.responseClassName == ResponseType(r, a, env).0
    ensures a.bodyContent == RequestBody(r, a, a.parameters, old(a.bodyContent), env).0
    ensures a.extraAnnotations == StatusAnnotations(ExampleSuccessCodes(a.examples, env.parseInt)).0
    ensures query == QueryNames(InheritedTemplate(r, old(a.uriTemplate)))
    ensures warnings == ResponseType(r, a, env).1 + RequestBody(r, a, a.parameters, old(a.bodyContent), env).1
                        + StatusAnnotations(ExampleSuccessCodes(a.examples, env.parseInt)).1
  {
    hide *;
    InheritDefaults(r, a);
    warnings := ResolveTypes(r, a, env);

    // Request parameters
    var stripped;
    query, stripped := RequestParameters(a.uriTemplate);
    a.uriTemplate := stripped;

    // Method annotations
    a.extraAnnotations := [];
    var annotations, w := ResponseStatusAnnotations(a, env.parseInt);
    a.extraAnnotations := a.extraAnnotations + annotations;
    warnings := warnings + w;
  }

  /** Inherit the resource's parameters and template and trim the description (lib/index.js:169-175). */
  method InheritDefaults(r: Resource, a: Action)
    modifies a
    ensures a.parameters == InheritedParameters(r, old(a.parameters))
    ensures a.uriTemplate == InheritedTemplate(r, old(a.uriTemplate))
    ensures a.description == Trim(old(a.description))
    ensures a.responseClassName == old(a.responseClassName) && a.bodyContent == old(a.bodyContent)
    ensures a.extraAnnotations == old(a.extraAnnotations)
  {
    if |a.parameters| == 0 {
      a.parameters := r.parameters;
    }
    if a.uriTemplate == "" {
      a.uriTemplate := r.uriTemplate;
    }
    a.description := Trim(a.description);
  }

  /** Choose the response class and the request body (lib/index.js:177-193). */
  method ResolveTypes(r: Resource, a: Action, env: Foreign) returns (warnings: seq<Warning>)
    modifies a
    ensures a.parameters == old(a.parameters) && a.uriTemplate == old(a.uriTemplate)
    ensures a.description == old(a.description) && a.extraAnnotations == old(a.extraAnnotations)
    ensures a.responseClassName == ResponseType(r, a, env).0
    ensures a.bodyContent == RequestBody(r, a, a.parameters, old(a.bodyContent), env).0
    ensures warnings == ResponseType(r, a, env).1 + RequestBody(r, a, a.parameters, old(a.bodyContent), env).1
  {
    // Response type
    var responseName, w := ClassNameFromActionExamples(r, a, Responses, env.pascalCase);
    warnings := w;
    if !Truthy(responseName) {
      warnings := warnings + [DefaultResponseType];
      a.responseClassName := DefaultObjectType;
    } else {
      a.responseClassName := responseName.value;
    }

    // Request body type
    if |a.examples| > 0 && |a.examples[0].requests| > 0 {
      var requestName, w' := ClassNameFromActionExamples(r, a, Requests, env.pascalCase);
      warnings := warnings + w';
      var requestClassName := if Truthy(requestName) then requestName.value else DefaultObjectType;
      a.bodyContent := Some(BodyContent(env.camelCase(requestClassName), requestClassName,
                                        if |a.parameters| > 0 then ", " else ""));
    }
  }

  /** The query names of a template and the template with its groups stripped (lib/index.js:196-204). */
  method RequestParameters(uri: string) returns (query: set<string>, stripped: string)
    ensures query == QueryNames(uri) && stripped == StrippedTemplate(uri)
  {
    query := {};
    stripped := uri;
    var requestParams := QueryGroupFrom(uri, 0);
    if requestParams.Some? {
      var (i, j) := requestParams.value;
      var paramNames := Split(uri[i + 2..j], ',');
      for idx := 0 to |paramNames|
        invariant query == set k | 0 <= k < idx :: paramNames[k]
      {
        query := query + {paramNames[idx]};
      }
      assert forall x :: x in paramNames ==> x in query by {
        forall x | x in paramNames ensures x in query {
          var k :| 0 <= k < |paramNames| && paramNames[k] == x;
        }
      }
      stripped := StripFrom(uri, 0);
    }
  }

  /** The status annotation of an action and the warnings about its codes (lib/index.js:209-221). */
  method ResponseStatusAnnotations(a: Action, parseInt: string -> Option<int>)
    returns (annotations: seq<string>, warnings: seq<Warning>)
    ensures (annotations, warnings) == StatusAnnotations(ExampleSuccessCodes(a.examples, parseInt))
  {
    annotations, warnings := [], [];
    var responseStatus := SuccessStatuses(a, parseInt);
    if |responseStatus| > 1 {
      warnings := [MultipleSuccessStatuses(responseStatus[0])];
    } else if |responseStatus| == 1 {
      var statusCode := FromStatusCode(responseStatus[0]);
      if statusCode.None? {
        warnings := [UnknownStatusCode(responseStatus[0])];
      } else if !statusCode.value.isDefault {
        annotations := [ResponseStatusPrefix + statusCode.value.name + ")"];
      }
    }
  }

  /** Extending the list by one parameter overwrites that parameter's tags. */
  lemma ListTagsSnoc(ps: seq<Parameter>, query: set<string>, n: nat)
    requires n < |ps|
    ensures ListTags(ps[..n + 1], query) == ListTags(ps[..n], query)[ps[n] := TagFor(ps[n], n, query)]
  {
    assert ps[..n + 1][..n] == ps[..n];
  }

  /** The parameter loop (lib/index.js:224-229): writes the tags of every parameter object in `ps`. */
  method TagParameters(ps: seq<Parameter>, query: set<string>)
    modifies ParameterSet(ps)
    ensures TagsHold(ListTags(ps, query))
  {
    hide AnnotationFor, Delim;
    for paramIdx := 0 to |ps|
      invariant TagsHold(ListTags(ps[..paramIdx], query))
    {
      ghost var before := ListTags(ps[..paramIdx], query);
      ListTagsSnoc(ps, query, paramIdx);
      var param := ps[paramIdx];
      label written:
      param.delim := Delim(paramIdx);
      param.annotation := AnnotationFor(param.name, query);
      param.defaultValue := if param.defaultText != "" then param.defaultText else "";
      ghost var after := before[param := TagFor(param, paramIdx, query)];
      forall p | p in after ensures TagsOf(p) == after[p] {
        if p != param {
          assert old@written(TagsOf(p)) == before[p];
        }
      }
    }
    assert ps[..|ps|] == ps;
  }

}
