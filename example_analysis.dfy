/**
 * What the examples of an action say: its 2xx status codes
 * (get2xxResponseHttpStatusFromActionExamples) and its payload type
 * (getClassNameFromActionExamples).
 */
module ExampleAnalysis {
  import opened Wrappers
  import opened Ast
  import opened Report
  import opened TypeNames
  import opened Document

  /** JavaScript truthiness of a name that may be null: neither null nor "". */
  predicate Truthy(name: Option<string>) {
    name.Some? && name.value != ""
  }

  // ------------------------------------------------------------ status codes

  /** The parsed names of `ps` that lie in [200, 300), in order; unparsable names are skipped. */
  function SuccessCodes(ps: seq<Payload>, parseInt: string -> Option<int>): (r: seq<int>)
    ensures |r| <= |ps|
    ensures forall c :: c in r ==> 200 <= c < 300
  {
    if ps == [] then []
    else
      var code := parseInt(ps[|ps| - 1].name);
      SuccessCodes(ps[..|ps| - 1], parseInt)
        + (if code.Some? && 200 <= code.value < 300 then [code.value] else [])
  }

  /** The 2xx codes of the first example block's responses; none without an example block. */
  function ExampleSuccessCodes(examples: seq<Example>, parseInt: string -> Option<int>): seq<int> {
    if |examples| > 0 then SuccessCodes(examples[0].responses, parseInt) else []
  }

  /** get2xxResponseHttpStatusFromActionExamples. */
  method SuccessStatuses(a: Action, parseInt: string -> Option<int>) returns (found: seq<int>)
    ensures found == ExampleSuccessCodes(a.examples, parseInt)
  {
    found := [];
    if |a.examples| > 0 && |a.examples[0].responses| > 0 {
      var responses := a.examples[0].responses;
      for i := 0 to |responses|
        invariant found == SuccessCodes(responses[..i], parseInt)
      {
        assert responses[..i + 1][..i] == responses[..i];
        var statusCode := parseInt(responses[i].name);
        if statusCode.None? {
          continue;
        }
        if 200 <= statusCode.value < 300 {
          found := found + [statusCode.value];
        }
      }
      assert responses[..|responses|] == responses;
    }
  }

  /** The codes of a concatenation are the codes of each part, in order. */
  lemma {:induction false} SuccessCodesAppend(ps: seq<Payload>, qs: seq<Payload>, parseInt: string -> Option<int>)
    ensures SuccessCodes(ps + qs, parseInt) == SuccessCodes(ps, parseInt) + SuccessCodes(qs, parseInt)
    decreases |qs|
  {
    if qs == [] {
      assert ps + qs == ps;
    } else {
      assert (ps + qs)[..|ps + qs| - 1] == ps + qs[..|qs| - 1];
      SuccessCodesAppend(ps, qs[..|qs| - 1], parseInt);
    }
  }

  /** A code is collected exactly when some response name parses to it and it is 2xx. */
  lemma {:induction false} SuccessCodesMembership(ps: seq<Payload>, parseInt: string -> Option<int>, code: int)
    ensures code in SuccessCodes(ps, parseInt) <==>
      (200 <= code < 300 && exists i :: 0 <= i < |ps| && parseInt(ps[i].name) == Some(code))
  {
    if ps != [] {
      var init := ps[..|ps| - 1];
      SuccessCodesMembership(init, parseInt, code);
      if 200 <= code < 300 && parseInt(ps[|ps| - 1].name) != Some(code) {
        if exists i :: 0 <= i < |ps| && parseInt(ps[i].name) == Some(code) {
          var i :| 0 <= i < |ps| && parseInt(ps[i].name) == Some(code);
          assert init[i] == ps[i];
        }
      }
      if exists i :: 0 <= i < |init| && parseInt(init[i].name) == Some(code) {
        var i :| 0 <= i < |init| && parseInt(init[i].name) == Some(code);
        assert ps[i] == init[i];
      }
    }
  }

  // ------------------------------------------------------------ payload type

  /** The type one content entry names: only a `dataStructure` with exactly one child names one. */
  function EntryName(c: Node, pascalCase: string -> string): Option<string> {
    if c.element == "dataStructure" && c.content.Children? && |c.content.nodes| == 1
    then Some(ClassNameOf(c.content.nodes[0], pascalCase))
    else None
  }

  /** getNameFromExample: the name of the first entry that names a type. */
  function NameFromContents(cs: seq<Node>, pascalCase: string -> string): Option<string> {
    if cs == [] then None
    else
      var before := NameFromContents(cs[..|cs| - 1], pascalCase);
      if before.Some? then before else EntryName(cs[|cs| - 1], pascalCase)
  }

  /** getNameFromExample's forEach: keeps the first name found. */
  method NameFromExample(cs: seq<Node>, pascalCase: string -> string) returns (name: Option<string>)
    ensures name == NameFromContents(cs, pascalCase)
  {
    name := None;
    for i := 0 to |cs|
      invariant name == NameFromContents(cs[..i], pascalCase)
    {
      assert cs[..i + 1][..i] == cs[..i];
      if name.None? && cs[i].element == "dataStructure" && cs[i].content.Children? && |cs[i].content.nodes| == 1 {
        name := Some(ClassNameOf(cs[i].content.nodes[0], pascalCase));
      }
    }
    assert cs[..|cs|] == cs;
  }

  /** The name found is that of the first naming entry; with no naming entry there is none. */
  lemma {:induction false} NameFromContentsIsFirst(cs: seq<Node>, pascalCase: string -> string, i: nat)
    requires i <= |cs|
    requires forall j :: 0 <= j < i ==> EntryName(cs[j], pascalCase).None?
    requires i < |cs| ==> EntryName(cs[i], pascalCase).Some?
    ensures NameFromContents(cs, pascalCase) == (if i < |cs| then EntryName(cs[i], pascalCase) else None)
  {
    if cs != [] {
      var init := cs[..|cs| - 1];
      if i < |cs| - 1 {
        NameFromContentsIsFirst(init, pascalCase, i);
      } else {
        NameFromContentsIsFirst(init, pascalCase, |init|);
      }
    }
  }

  /** The name kept so far and the mismatch warnings emitted so far. */
  datatype Pick = Pick(name: Option<string>, warnings: seq<Warning>)

  /**
   * One iteration of the loop at lib/index.js:130-138: a candidate that differs
   * from a truthy kept name only produces a warning; otherwise it is kept.
   */
  function PickStep(acc: Pick, exampleNumber: nat, candidate: Option<string>): Pick {
    match candidate
    case None => acc
    case Some(c) =>
      if Truthy(acc.name) && c != acc.name.value
      then Pick(acc.name, acc.warnings + [ExampleTypeMismatch(exampleNumber, acc.name.value, c)])
      else Pick(candidate, acc.warnings)
  }

  /** The loop over all payloads of one kind in the first example block. */
  function PickName(ps: seq<Payload>, pascalCase: string -> string): Pick {
    if ps == [] then Pick(None, [])
    else PickStep(PickName(ps[..|ps| - 1], pascalCase), |ps|, NameFromContents(ps[|ps| - 1].content, pascalCase))
  }

  /** The candidate name of payload `i`. */
  function Candidate(ps: seq<Payload>, i: nat, pascalCase: string -> string): Option<string>
    requires i < |ps|
  {
    NameFromContents(ps[i].content, pascalCase)
  }

  /**
   * When the first payload with a candidate names a non-empty type `c`, `c` is
   * the result, and every warning expected `c` and saw a different name.
   */
  lemma {:induction false} FirstExampleNameWins(ps: seq<Payload>, pascalCase: string -> string, i: nat, c: string)
    requires i < |ps| && Candidate(ps, i, pascalCase) == Some(c) && c != ""
    requires forall j :: 0 <= j < i ==> Candidate(ps, j, pascalCase).None?
    ensures PickName(ps, pascalCase).name == Some(c)
    ensures forall w :: w in PickName(ps, pascalCase).warnings ==>
      w.ExampleTypeMismatch? && w.expected == c && w.actual != c && w.exampleNumber > i + 1
  {
    var init := ps[..|ps| - 1];
    if i < |ps| - 1 {
      assert forall j :: 0 <= j < i ==> Candidate(init, j, pascalCase) == Candidate(ps, j, pascalCase);
      FirstExampleNameWins(init, pascalCase, i, c);
    } else {
      assert forall j :: 0 <= j < |init| ==> Candidate(init, j, pascalCase) == Candidate(ps, j, pascalCase);
      NoCandidateNoName(init, pascalCase);
    }
  }

  /** The loop only ever reports example type mismatches. */
  lemma {:induction false} PickWarnsOnlyMismatches(ps: seq<Payload>, pascalCase: string -> string)
    ensures forall w :: w in PickName(ps, pascalCase).warnings ==> w.ExampleTypeMismatch?
  {
    if ps != [] {
      PickWarnsOnlyMismatches(ps[..|ps| - 1], pascalCase);
    }
  }

  /** Without any candidate there is no name and no warning. */
  lemma {:induction false} NoCandidateNoName(ps: seq<Payload>, pascalCase: string -> string)
    requires forall j :: 0 <= j < |ps| ==> Candidate(ps, j, pascalCase).None?
    ensures PickName(ps, pascalCase) == Pick(None, [])
  {
    if ps != [] {
      var init := ps[..|ps| - 1];
      assert forall j :: 0 <= j < |init| ==> Candidate(init, j, pascalCase) == Candidate(ps, j, pascalCase);
      NoCandidateNoName(init, pascalCase);
      assert Candidate(ps, |ps| - 1, pascalCase).None?;
      assert Candidate(ps, |ps| - 1, pascalCase).None?;
    }
  }

  /** The pick over the first example block, if it has payloads of this kind. */
  function ExamplePick(examples: seq<Example>, kind: PayloadKind, pascalCase: string -> string): Pick {
    if |examples| > 0 && |Payloads(examples[0], kind)| > 0
    then PickName(Payloads(examples[0], kind), pascalCase)
    else Pick(None, [])
  }

  /** The children of a resource content entry, which getNameFromExample scans. */
  function EntryContents(e: Node): seq<Node> {
    if e.content.Children? then e.content.nodes else []
  }

  /**
   * The lookup at lib/index.js:146-157: the first resource content entry whose
   * name (or literal) is `name` replaces it by the type that entry names.
   */
  function ResourceOverride(entries: seq<Node>, name: string, pascalCase: string -> string): Option<string> {
    if entries == [] then Some(name)
    else if NameOrLiteral(entries[0].name) == Some(name) then NameFromContents(EntryContents(entries[0]), pascalCase)
    else ResourceOverride(entries[1..], name, pascalCase)
  }

  /**
   * getClassNameFromActionExamples on values: the example name, else the
   * action's own content, then the resource-level override; and the warnings.
   */
  function PayloadClassName(resourceContent: seq<Node>, examples: seq<Example>, actionContent: seq<Node>,
                            kind: PayloadKind, pascalCase: string -> string): (Option<string>, seq<Warning>)
  {
    var pick := ExamplePick(examples, kind, pascalCase);
    var name := if Truthy(pick.name) then pick.name else NameFromContents(actionContent, pascalCase);
    var resolved := if Truthy(name) then ResourceOverride(resourceContent, name.value, pascalCase) else name;
    (resolved, pick.warnings)
  }

  /** The only warnings choosing a payload class gives are example type mismatches. */
  lemma PayloadWarnsOnlyMismatches(resourceContent: seq<Node>, examples: seq<Example>, actionContent: seq<Node>,
                                   kind: PayloadKind, pascalCase: string -> string)
    ensures forall w :: w in PayloadClassName(resourceContent, examples, actionContent, kind, pascalCase).1 ==> w.ExampleTypeMismatch?
  {
    if |examples| > 0 && |Payloads(examples[0], kind)| > 0 {
      PickWarnsOnlyMismatches(Payloads(examples[0], kind), pascalCase);
    }
  }

  /** The loop over the first example block's payloads (lib/index.js:130-138). */
  method PickFromExamples(examples: seq<Example>, kind: PayloadKind, pascalCase: string -> string)
    returns (name: Option<string>, warnings: seq<Warning>)
    ensures Pick(name, warnings) == ExamplePick(examples, kind, pascalCase)
  {
    name := None;
    warnings := [];
    if |examples| > 0 && |Payloads(examples[0], kind)| > 0 {
      var ps := Payloads(examples[0], kind);
      for i := 0 to |ps|
        invariant Pick(name, warnings) == PickName(ps[..i], pascalCase)
      {
        assert ps[..i + 1][..i] == ps[..i];
        var thisName := NameFromExample(ps[i].content, pascalCase);
        if thisName.Some? {
          if Truthy(name) && thisName.value != name.value {
            warnings := warnings + [ExampleTypeMismatch(i + 1, name.value, thisName.value)];
          } else {
            name := thisName;
          }
        }
      }
      assert ps[..|ps|] == ps;
    }
  }

  /** The loop over the resource's content entries (lib/index.js:146-157). */
  method LookupOverride(entries: seq<Node>, target: string, pascalCase: string -> string) returns (name: Option<string>)
    ensures name == ResourceOverride(entries, target, pascalCase)
  {
    name := Some(target);
    var k := 0;
    while k < |entries|
      invariant 0 <= k <= |entries| && name == Some(target)
      invariant ResourceOverride(entries, target, pascalCase) == ResourceOverride(entries[k..], target, pascalCase)
    {
      var resContentName := NameOrLiteral(entries[k].name);
      if resContentName == name {
        name := NameFromExample(EntryContents(entries[k]), pascalCase);
        return;
      }
      assert entries[k..][1..] == entries[k + 1..];
      k := k + 1;
    }
  }

  /** getClassNameFromActionExamples. */
  method ClassNameFromActionExamples(r: Resource, a: Action, kind: PayloadKind, pascalCase: string -> string)
    returns (name: Option<string>, warnings: seq<Warning>)
    ensures (name, warnings) == PayloadClassName(r.content, a.examples, a.content, kind, pascalCase)
  {
    hide ExamplePick, ResourceOverride, NameFromContents;
    name, warnings := PickFromExamples(a.examples, kind, pascalCase);
    if !Truthy(name) {
      name := NameFromExample(a.content, pascalCase);
    }
    if Truthy(name) {
      name := LookupOverride(r.content, name.value, pascalCase);
    }
  }

  /** Once the examples give a truthy name, the action's own content is never consulted. */
  lemma ActionContentOnlyAsFallback(resourceContent: seq<Node>, examples: seq<Example>, c1: seq<Node>, c2: seq<Node>,
                                    kind: PayloadKind, pascalCase: string -> string)
    requires Truthy(ExamplePick(examples, kind, pascalCase).name)
    ensures PayloadClassName(resourceContent, examples, c1, kind, pascalCase)
         == PayloadClassName(resourceContent, examples, c2, kind, pascalCase)
  {
  }

  /**
   * A name equal to the name of resource content entry `j` (the first such entry)
   * is replaced by the type that entry names; with no such entry it is kept.
   */
  lemma {:induction false} ResourceOverrideFirstMatch(entries: seq<Node>, name: string, pascalCase: string -> string, j: nat)
    requires j <= |entries|
    requires forall i :: 0 <= i < j ==> NameOrLiteral(entries[i].name) != Some(name)
    requires j < |entries| ==> NameOrLiteral(entries[j].name) == Some(name)
    ensures ResourceOverride(entries, name, pascalCase) ==
      (if j < |entries| then NameFromContents(EntryContents(entries[j]), pascalCase) else Some(name))
  {
    if entries != [] && j > 0 {
      ResourceOverrideFirstMatch(entries[1..], name, pascalCase, j - 1);
    }
  }

  /**
   * Two responses naming `Widget` and then `Gadget`: the result is `Widget`
   * with one mismatch warning for example 2.
   */
  lemma WidgetThenGadget(pascalCase: string -> string)
    requires pascalCase("Widget") == "Widget" && pascalCase("Gadget") == "Gadget"
    ensures var w := Node("dataStructure", NoName, Meta("", ""), Children([Node("Widget", NoName, Meta("", ""), Null)]));
            var g := Node("dataStructure", NoName, Meta("", ""), Children([Node("Gadget", NoName, Meta("", ""), Null)]));
            PayloadClassName([], [Example([], [Payload("200", [w]), Payload("200", [g])])], [], Responses, pascalCase)
              == (Some("Widget"), [ExampleTypeMismatch(2, "Widget", "Gadget")])
  {
    assert forall i :: 0 <= i < 6 ==> IsWordChar("Widget"[i]);
    assert forall i :: 0 <= i < 6 ==> IsWordChar("Gadget"[i]);
    assert "Widget" != "Long<String>" && "Gadget" != "Long<String>";
    var w := Node("dataStructure", NoName, Meta("", ""), Children([Node("Widget", NoName, Meta("", ""), Null)]));
    var g := Node("dataStructure", NoName, Meta("", ""), Children([Node("Gadget", NoName, Meta("", ""), Null)]));
    assert NameFromContents([w], pascalCase) == Some("Widget");
    assert NameFromContents([g], pascalCase) == Some("Gadget");
    var ps := [Payload("200", [w]), Payload("200", [g])];
    assert ps[..1] == [Payload("200", [w])];
    assert ps[..1][..0] == [];
    assert PickName(ps[..1], pascalCase) == Pick(Some("Widget"), []);
    assert ps[..|ps| - 1] == ps[..1];
    assert PickName(ps, pascalCase) == Pick(Some("Widget"), [ExampleTypeMismatch(2, "Widget", "Gadget")]);
  }
}
