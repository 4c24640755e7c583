/**
 * Model extraction (lib/index.js:235-342): the data structures of the document
 * become model class definitions with their fields, options and parent class.
 */
module Models {
  import opened Wrappers
  import opened JsText
  import opened Ast
  import opened Report
  import opened TypeNames

  /** One generated field: the member's key and its Java type. */
  datatype Field = Field(name: string, typeName: string)

  /** One entry of the result of parseModels. */
  datatype ModelDefinition = ModelDefinition(
    name: string,
    fields: seq<Field>,
    subClass: Option<string>,
    modelOptions: map<string, string>)

  // ---------------------------------------------------------- collection

  /** An entry of a data-structure list that becomes a model: named, not skipped, no `.` in its name. */
  predicate Eligible(ds: Node, skipModels: set<string>) {
    ds.meta.id != "" && ds.meta.id !in skipModels && '.' !in ds.meta.id
  }

  /** The forEach over a `dataStructure` node's entries: the models it pushes and the errors it reports. */
  function ListedModels(entries: seq<Node>, skipModels: set<string>): (seq<Node>, seq<Warning>) {
    if entries == [] then ([], [])
    else
      var (models, warnings) := ListedModels(entries[..|entries| - 1], skipModels);
      var ds := entries[|entries| - 1];
      if ds.meta.id == "" then (models, warnings + [MissingModelName])
      else if Eligible(ds, skipModels) then (models + [ds], warnings)
      else (models, warnings)
  }

  /** processContent(content): nothing without children, the entries of a `dataStructure`, else its children's. */
  function CollectNode(n: Node, skipModels: set<string>): (seq<Node>, seq<Warning>)
    decreases n
  {
    if !n.content.Children? || |n.content.nodes| == 0 then ([], [])
    else if n.element == "dataStructure" then ListedModels(n.content.nodes, skipModels)
    else CollectFromList(n.content.nodes, skipModels)
  }

  /** processContent on each node of `nodes`, in order (the loops of lib/index.js:261-266). */
  function CollectFromList(nodes: seq<Node>, skipModels: set<string>): (seq<Node>, seq<Warning>)
    decreases nodes
  {
    if nodes == [] then ([], [])
    else
      var (models, warnings) := CollectFromList(nodes[..|nodes| - 1], skipModels);
      var (more, moreWarnings) := CollectNode(nodes[|nodes| - 1], skipModels);
      (models + more, warnings + moreWarnings)
  }

  /** Every collected model has a name, is not skip-listed and has no `.` in its name. */
  lemma {:induction false} ListedModelsEligible(entries: seq<Node>, skipModels: set<string>)
    ensures forall m :: m in ListedModels(entries, skipModels).0 ==> Eligible(m, skipModels)
  {
    if entries != [] {
      ListedModelsEligible(entries[..|entries| - 1], skipModels);
    }
  }

  lemma {:induction false} CollectedEligible(nodes: seq<Node>, skipModels: set<string>)
    ensures forall m :: m in CollectFromList(nodes, skipModels).0 ==> Eligible(m, skipModels)
    decreases nodes
  {
    if nodes != [] {
      CollectedEligible(nodes[..|nodes| - 1], skipModels);
      var n := nodes[|nodes| - 1];
      assert n in nodes;
      if n.content.Children? && |n.content.nodes| > 0 {
        if n.element == "dataStructure" {
          ListedModelsEligible(n.content.nodes, skipModels);
        } else {
          CollectedEligible(n.content.nodes, skipModels);
        }
      }
    }
  }

  /**
   * An eligible entry of a data-structure list is collected, and nameless
   * entries are reported once each: the entries kept are exactly the eligible
   * ones, duplicates included.
   */
  lemma {:induction false} ListedModelsExact(entries: seq<Node>, skipModels: set<string>)
    ensures forall ds :: ds in ListedModels(entries, skipModels).0 <==> ds in entries && Eligible(ds, skipModels)
  {
    if entries != [] {
      var init := entries[..|entries| - 1];
      ListedModelsExact(init, skipModels);
      assert entries == init + [entries[|entries| - 1]];
    }
  }

  /** Every nameless entry of a data-structure list is reported, once. */
  lemma {:induction false} NamelessReported(entries: seq<Node>, skipModels: set<string>)
    ensures |ListedModels(entries, skipModels).1| == |NamelessPositions(entries)|
  {
    hide Eligible, NamelessPositions;
    NamelessPositionsSnoc(entries);
    if entries != [] {
      NamelessReported(entries[..|entries| - 1], skipModels);
    }
  }

  /** The positions of the entries without a name. */
  ghost function NamelessPositions(entries: seq<Node>): set<nat> {
    set k | 0 <= k < |entries| && entries[k].meta.id == ""
  }

  lemma NamelessPositionsSnoc(entries: seq<Node>)
    ensures entries == [] ==> NamelessPositions(entries) == {}
    ensures entries != [] ==> var last := |entries| - 1;
      last !in NamelessPositions(entries[..last]) &&
      NamelessPositions(entries) == NamelessPositions(entries[..last]) + if entries[last].meta.id == "" then {last} else {}
  {
    if entries == [] {
      return;
    }
    var last := |entries| - 1;
    if entries[last].meta.id == "" {
      assert NamelessPositions(entries) == NamelessPositions(entries[..last]) + {last};
    } else {
      assert NamelessPositions(entries) == NamelessPositions(entries[..last]);
    }
  }

  /** The forEach of lib/index.js:246-257 over a `dataStructure` node's entries. */
  method PushListedModels(entries: seq<Node>, skipModels: set<string>, models: seq<Node>, warnings: seq<Warning>)
    returns (models': seq<Node>, warnings': seq<Warning>)
    ensures models' == models + ListedModels(entries, skipModels).0
    ensures warnings' == warnings + ListedModels(entries, skipModels).1
  {
    models', warnings' := models, warnings;
    for dsIdx := 0 to |entries|
      invariant models' == models + ListedModels(entries[..dsIdx], skipModels).0
      invariant warnings' == warnings + ListedModels(entries[..dsIdx], skipModels).1
    {
      assert entries[..dsIdx + 1][..dsIdx] == entries[..dsIdx];
      var ds := entries[dsIdx];
      var name := ds.meta.id;
      if name == "" {
        warnings' := warnings' + [MissingModelName];
      } else if !(name in skipModels || '.' in name) {
        models' := models' + [ds];
      }
    }
    assert entries[..|entries|] == entries;
  }

  /** processContent (lib/index.js:240-262), pushing onto `models` and reporting nameless entries. */
  method ProcessContent(content: Node, skipModels: set<string>, models: seq<Node>, warnings: seq<Warning>)
    returns (models': seq<Node>, warnings': seq<Warning>)
    ensures models' == models + CollectNode(content, skipModels).0
    ensures warnings' == warnings + CollectNode(content, skipModels).1
    decreases content
  {
    hide ListedModels;
    models', warnings' := models, warnings;
    if !content.content.Children? || |content.content.nodes| == 0 {
      return;
    }
    var children := content.content.nodes;
    if content.element == "dataStructure" {
      models', warnings' := PushListedModels(children, skipModels, models', warnings');
    } else {
      for conIdx := 0 to |children|
        invariant models' == models + CollectFromList(children[..conIdx], skipModels).0
        invariant warnings' == warnings + CollectFromList(children[..conIdx], skipModels).1
      {
        assert children[..conIdx + 1][..conIdx] == children[..conIdx];
        models', warnings' := ProcessContent(children[conIdx], skipModels, models', warnings');
      }
      assert children[..|children|] == children;
    }
  }

  // ------------------------------------------------------------- options

  /** Index of the first character at or after `i` that `p` rejects. */
  function RunEnd(s: string, i: nat, p: char -> bool): (j: nat)
    requires i <= |s|
    ensures i <= j <= |s| && (j == |s| || !p(s[j]))
    ensures forall k :: i <= k < j ==> p(s[k])
    decreases |s| - i
  {
    if i < |s| && p(s[i]) then RunEnd(s, i + 1, p) else i
  }

  /** A run of `p` characters from `i` that ends at `j` ends where `RunEnd` says. */
  lemma {:induction false} RunEndIs(s: string, i: nat, j: nat, p: char -> bool)
    requires i <= j <= |s| && (j == |s| || !p(s[j]))
    requires forall k :: i <= k < j ==> p(s[k])
    ensures RunEnd(s, i, p) == j
    decreases |s| - i
  {
    if i < j {
      RunEndIs(s, i + 1, j, p);
    }
  }

  predicate NotLineTerminator(c: char) {
    !IsLineTerminator(c)
  }

  /**
   * A match of `/\+\s*([a-zA-Z]+)\s*:\s*(.*)/` starting at `i`: the key and
   * the value it captures. The character classes leave no choice to the
   * backtracking: every run is taken whole.
   */
  function OptionAt(s: string, i: nat): (m: Option<(string, string)>)
    requires i < |s|
    ensures m.Some? ==> |m.value.0| > 0 && forall k :: 0 <= k < |m.value.0| ==> IsAsciiLetter(m.value.0[k])
    ensures m.Some? ==> forall k :: 0 <= k < |m.value.1| ==> !IsLineTerminator(m.value.1[k])
  {
    if s[i] != '+' then None
    else
      var keyStart := RunEnd(s, i + 1, IsJsSpace);
      var keyEnd := RunEnd(s, keyStart, IsAsciiLetter);
      var colon := RunEnd(s, keyEnd, IsJsSpace);
      if keyEnd == keyStart || colon == |s| || s[colon] != ':' then None
      else
        var valueStart := RunEnd(s, colon + 1, IsJsSpace);
        var valueEnd := RunEnd(s, valueStart, NotLineTerminator);
        Some((s[keyStart..keyEnd], s[valueStart..valueEnd]))
  }

  /** `modelPropertyPattern.exec(line)`: the leftmost match at or after `from`. */
  function FindOption(line: string, from: nat): (m: Option<(string, string)>)
    ensures m.Some? ==> |m.value.0| > 0 && forall k :: 0 <= k < |m.value.0| ==> IsAsciiLetter(m.value.0[k])
    ensures m.Some? ==> forall k :: 0 <= k < |m.value.1| ==> !IsLineTerminator(m.value.1[k])
    ensures m.None? ==> forall i :: from <= i < |line| ==> OptionAt(line, i).None?
    decreases |line| - from
  {
    if from >= |line| then None
    else match OptionAt(line, from)
      case Some(m) => Some(m)
      case None => FindOption(line, from + 1)
  }

  /** A match found at or after `from` is the match at some position there, and no earlier position matches. */
  lemma {:induction false} FindOptionIsLeftmost(line: string, from: nat)
    requires FindOption(line, from).Some?
    ensures exists i :: from <= i < |line| && OptionAt(line, i) == FindOption(line, from) && forall k :: from <= k < i ==> OptionAt(line, k).None?
    decreases |line| - from
  {
    hide OptionAt;
    if OptionAt(line, from).None? {
      FindOptionIsLeftmost(line, from + 1);
      var i :| from + 1 <= i < |line| && OptionAt(line, i) == FindOption(line, from + 1) && forall k :: from + 1 <= k < i ==> OptionAt(line, k).None?;
      assert forall k :: from <= k < i ==> OptionAt(line, k).None?;
    } else {
      assert OptionAt(line, from) == FindOption(line, from);
    }
  }

  /** A line without `+` carries no option. */
  lemma {:induction false} NoPlusNoOption(line: string, from: nat)
    requires '+' !in line
    ensures FindOption(line, from).None?
    decreases |line| - from
  {
    if from < |line| {
      assert line[from] in line;
      NoPlusNoOption(line, from + 1);
    }
  }

  /** A match whose runs end at the given positions captures the key and value between them. */
  lemma OptionAtIs(s: string, i: nat, keyStart: nat, keyEnd: nat, colon: nat, valueStart: nat, valueEnd: nat)
    requires i < |s| && s[i] == '+'
    requires RunEnd(s, i + 1, IsJsSpace) == keyStart && RunEnd(s, keyStart, IsAsciiLetter) == keyEnd && keyStart < keyEnd
    requires RunEnd(s, keyEnd, IsJsSpace) == colon && colon < |s| && s[colon] == ':'
    requires RunEnd(s, colon + 1, IsJsSpace) == valueStart && RunEnd(s, valueStart, NotLineTerminator) == valueEnd
    ensures OptionAt(s, i) == Some((s[keyStart..keyEnd], s[valueStart..valueEnd]))
  {
  }

  /** `s` reads `+ key: value`, character by character. */
  predicate LaidOut(s: string, key: string, value: string) {
    var n := |key|;
    && |s| == 4 + n + |value| && s[0] == '+' && s[1] == ' ' && s[2 + n] == ':' && s[3 + n] == ' '
    && s[2..2 + n] == key && s[4 + n..] == value
    && (forall k :: 2 <= k < 2 + n ==> s[k] == key[k - 2])
    && (forall k :: 4 + n <= k < |s| ==> s[k] == value[k - (4 + n)])
  }

  /** The characters of a line `+ key: value`. */
  lemma OptionLineShape(key: string, value: string)
    ensures LaidOut("+ " + key + ": " + value, key, value)
  {
  }

  /** The characters around the key: a space is white space, a colon is neither white space nor a letter. */
  lemma SeparatorClasses()
    ensures IsJsSpace(' ') && !IsJsSpace(':') && !IsAsciiLetter(':')
    ensures forall c :: IsAsciiLetter(c) ==> !IsJsSpace(c)
  {
  }

  /** In `+ key: value`, the runs before the colon end around the letters-only key. */
  lemma OptionLineKeyRuns(s: string, key: string, value: string)
    requires LaidOut(s, key, value)
    requires |key| > 0 && forall k :: 0 <= k < |key| ==> IsAsciiLetter(key[k])
    ensures RunEnd(s, 1, IsJsSpace) == 2 && RunEnd(s, 2, IsAsciiLetter) == 2 + |key| && RunEnd(s, 2 + |key|, IsJsSpace) == 2 + |key|
  {
    hide RunEnd, IsJsSpace, IsAsciiLetter;
    SeparatorClasses();
    var n := |key|;
    RunEndIs(s, 1, 2, IsJsSpace);
    RunEndIs(s, 2, 2 + n, IsAsciiLetter);
    RunEndIs(s, 2 + n, 2 + n, IsJsSpace);
  }

  /** In `+ key: value`, the runs after the colon end around the value. */
  lemma OptionLineValueRuns(s: string, key: string, value: string)
    requires LaidOut(s, key, value)
    requires forall k :: 0 <= k < |value| ==> !IsLineTerminator(value[k])
    requires value == [] || !IsJsSpace(value[0])
    ensures RunEnd(s, 3 + |key|, IsJsSpace) == 4 + |key| && RunEnd(s, 4 + |key|, NotLineTerminator) == |s|
  {
    hide RunEnd, IsJsSpace, IsAsciiLetter, IsLineTerminator;
    SeparatorClasses();
    var n := |key|;
    assert 4 + n == |s| || s[4 + n] == value[0];
    RunEndIs(s, 3 + n, 4 + n, IsJsSpace);
    RunEndIs(s, 4 + n, |s|, NotLineTerminator);
  }

  /** A line laid out as `+ key: value` yields that key and value. */
  lemma OptionLineMatches(s: string, key: string, value: string)
    requires LaidOut(s, key, value)
    requires |key| > 0 && forall k :: 0 <= k < |key| ==> IsAsciiLetter(key[k])
    requires forall k :: 0 <= k < |value| ==> !IsLineTerminator(value[k])
    requires value == [] || !IsJsSpace(value[0])
    ensures FindOption(s, 0) == Some((key, value))
  {
    hide RunEnd, OptionAt, IsJsSpace, IsAsciiLetter, IsLineTerminator;
    var n := |key|;
    OptionLineKeyRuns(s, key, value);
    OptionLineValueRuns(s, key, value);
    OptionAtIs(s, 0, 2, 2 + n, 2 + n, 4 + n, |s|);
    assert s[4 + n..|s|] == value;
  }

  /**
   * A description line `+ key: value` sets option `key` to `value`, for a
   * letters-only key and a value that neither starts with white space nor
   * holds a line terminator.
   */
  lemma OptionLineRoundTrip(key: string, value: string)
    requires |key| > 0 && forall k :: 0 <= k < |key| ==> IsAsciiLetter(key[k])
    requires forall k :: 0 <= k < |value| ==> !IsLineTerminator(value[k])
    requires value == [] || !IsJsSpace(value[0])
    ensures FindOption("+ " + key + ": " + value, 0) == Some((key, value))
  {
    OptionLineShape(key, value);
    OptionLineMatches("+ " + key + ": " + value, key, value);
  }

  /** The option map after the matching lines of `lines` were written into `options`, in order. */
  function ReadOptions(lines: seq<string>, options: map<string, string>): map<string, string> {
    if lines == [] then options
    else
      var before := ReadOptions(lines[..|lines| - 1], options);
      match FindOption(lines[|lines| - 1], 0)
      case None => before
      case Some((key, value)) => before[key := value]
  }

  /** The options a model's description sets (lib/index.js:271-284); an empty description sets none. */
  function DescriptionOptions(description: string, options: map<string, string>): map<string, string> {
    if description == "" then options else ReadOptions(Split(description, '\n'), options)
  }

  /** Reading lines keeps every option that no line names, and adds only keys some line names. */
  lemma {:induction false} ReadOptionsKeeps(lines: seq<string>, options: map<string, string>, key: string)
    requires key !in ReadOptions(lines, map[])
    ensures key in ReadOptions(lines, options) <==> key in options
    ensures key in options ==> ReadOptions(lines, options)[key] == options[key]
  {
    if lines != [] {
      ReadOptionsKeeps(lines[..|lines| - 1], options, key);
    }
  }

  /** The later of two lines naming the same key wins. */
  lemma LaterLineWins(first: string, second: string, options: map<string, string>)
    requires FindOption(first, 0).Some? && FindOption(second, 0).Some?
    requires FindOption(first, 0).value.0 == FindOption(second, 0).value.0
    ensures var key := FindOption(second, 0).value.0;
      ReadOptions([first, second], options)[key] == FindOption(second, 0).value.1
  {
    assert [first, second][..1] == [first];
    assert [first][..0] == [];
  }

  // -------------------------------------------------------------- fields

  /** The fields the `member` entries of a model's content give (lib/index.js:286-296). */
  function MemberFields(members: seq<Node>, pascalCase: string -> string): seq<Field> {
    if members == [] then []
    else
      var member := members[|members| - 1];
      MemberFields(members[..|members| - 1], pascalCase) +
        if member.element == "member" && member.content.Pair? then
          [Field(member.content.key, ClassNameOf(member.content.value, pascalCase))]
        else []
  }

  function OwnFields(m: Node, pascalCase: string -> string): seq<Field> {
    if m.content.Children? then MemberFields(m.content.nodes, pascalCase) else []
  }

  /** The positions of the `member` entries that carry a key and a value. */
  ghost function MemberPositions(members: seq<Node>): set<nat> {
    set k | 0 <= k < |members| && members[k].element == "member" && members[k].content.Pair?
  }

  lemma MemberPositionsSnoc(members: seq<Node>)
    ensures members == [] ==> MemberPositions(members) == {}
    ensures members != [] ==> var last := |members| - 1;
      last !in MemberPositions(members[..last]) &&
      MemberPositions(members) == MemberPositions(members[..last]) +
        if members[last].element == "member" && members[last].content.Pair? then {last} else {}
  {
    if members == [] {
      return;
    }
    var last := |members| - 1;
    if members[last].element == "member" && members[last].content.Pair? {
      assert MemberPositions(members) == MemberPositions(members[..last]) + {last};
    } else {
      assert MemberPositions(members) == MemberPositions(members[..last]);
    }
  }

  /** Each `member` entry with a key and value gives one field; other entries give none. */
  lemma {:induction false} MemberFieldsCount(members: seq<Node>, pascalCase: string -> string)
    ensures |MemberFields(members, pascalCase)| == |MemberPositions(members)|
  {
    hide ClassNameOf, MemberPositions;
    MemberPositionsSnoc(members);
    if members != [] {
      MemberFieldsCount(members[..|members| - 1], pascalCase);
    }
  }

  /** Field `i` is named by the key, and typed by the value, of some `member` entry. */
  lemma {:induction false} MemberFieldsFromMembers(members: seq<Node>, pascalCase: string -> string, i: nat)
    requires i < |MemberFields(members, pascalCase)|
    ensures exists k :: (0 <= k < |members| && members[k].element == "member" && members[k].content.Pair?
                         && MemberFields(members, pascalCase)[i] == Field(members[k].content.key, ClassNameOf(members[k].content.value, pascalCase)))
  {
    hide ClassNameOf;
    var init := members[..|members| - 1];
    var last := |members| - 1;
    if i < |MemberFields(init, pascalCase)| {
      MemberFieldsFromMembers(init, pascalCase, i);
      var k :| 0 <= k < |init| && init[k].element == "member" && init[k].content.Pair?
        && MemberFields(init, pascalCase)[i] == Field(init[k].content.key, ClassNameOf(init[k].content.value, pascalCase));
      assert members[k] == init[k];
    } else {
      assert MemberFields(members, pascalCase)[i] == Field(members[last].content.key, ClassNameOf(members[last].content.value, pascalCase));
    }
  }

  // ----------------------------------------------------------- addFields

  const FlattenKey := "flattenParentClasses"

  /** `modelOptions.flattenParentClasses === 'true'`. */
  predicate FlattenOn(options: map<string, string>) {
    FlattenKey in options && options[FlattenKey] == "true"
  }

  /**
   * What addFields works on: the fields array and option map it shares with
   * its caller, and the counter `idx` of parseModels, which its loop uses
   * without declaring its own.
   */
  datatype FieldState = FieldState(fields: seq<Field>, options: map<string, string>, idx: nat)

  /** How many iterations the scan of lib/index.js:301 has left. */
  function Remaining(models: seq<Node>, idx: nat): nat {
    if idx < |models| then |models| - idx else 0
  }

  /**
   * addFields (lib/index.js:268-310). `fuel` bounds the depth of the
   * recursion; a call with no fuel left does not descend into ancestors.
   */
  function AddFieldsSpec(m: Node, models: seq<Node>, st: FieldState, fuel: nat, pascalCase: string -> string): (r: FieldState)
    ensures st.fields + OwnFields(m, pascalCase) <= r.fields
    ensures r.idx == st.idx || r.idx >= |models|
    ensures FlattenOn(DescriptionOptions(m.meta.description, st.options)) ==> r.idx >= |models|
    decreases fuel, 1, 0
  {
    var options := DescriptionOptions(m.meta.description, st.options);
    var own := FieldState(st.fields + OwnFields(m, pascalCase), options, st.idx);
    if FlattenOn(options) then ScanSpec(m.element, models, own.(idx := 0), fuel, pascalCase) else own
  }

  /** The loop of lib/index.js:301-306 from `st.idx` on, merging the models named `parentClass` in order until a merge that flattens, which runs the shared counter to the end and so stops the scan. */
  function ScanSpec(parentClass: string, models: seq<Node>, st: FieldState, fuel: nat, pascalCase: string -> string): (r: FieldState)
    ensures st.fields <= r.fields
    ensures r.idx >= |models|
    decreases fuel, 0, Remaining(models, st.idx)
  {
    if st.idx >= |models| then st
    else
      var next :=
        if parentClass == models[st.idx].meta.id && fuel > 0 then AddFieldsSpec(models[st.idx], models, st, fuel - 1, pascalCase)
        else st;
      ScanSpec(parentClass, models, next.(idx := next.idx + 1), fuel, pascalCase)
  }

  /** With flattening off, a model gets its own fields only and the counter is left alone. */
  lemma FlattenOffOwnFieldsOnly(m: Node, models: seq<Node>, st: FieldState, fuel: nat, pascalCase: string -> string)
    requires !FlattenOn(DescriptionOptions(m.meta.description, st.options))
    ensures AddFieldsSpec(m, models, st, fuel, pascalCase) ==
      FieldState(st.fields + OwnFields(m, pascalCase), DescriptionOptions(m.meta.description, st.options), st.idx)
  {
  }

  /** Models whose id is not the parent's name are passed over. */
  lemma ScanSkips(parentClass: string, models: seq<Node>, st: FieldState, fuel: nat, pascalCase: string -> string)
    requires st.idx < |models| && models[st.idx].meta.id != parentClass
    ensures ScanSpec(parentClass, models, st, fuel, pascalCase) == ScanSpec(parentClass, models, st.(idx := st.idx + 1), fuel, pascalCase)
  {
  }

  /**
   * Once the scan merges an ancestor that flattens in turn, the shared counter
   * has run to the end, so no later model of the same name is merged: the
   * result is that ancestor's.
   */
  lemma ScanStopsAfterMerge(parentClass: string, models: seq<Node>, st: FieldState, fuel: nat, pascalCase: string -> string)
    requires st.idx < |models| && models[st.idx].meta.id == parentClass && fuel > 0
    requires FlattenOn(DescriptionOptions(models[st.idx].meta.description, st.options))
    ensures var merged := AddFieldsSpec(models[st.idx], models, st, fuel - 1, pascalCase);
      ScanSpec(parentClass, models, st, fuel, pascalCase) == merged.(idx := merged.idx + 1)
  {
  }

  /** The first index at or after `from` whose model is named `name`. */
  function FirstNamed(models: seq<Node>, name: string, from: nat): (k: nat)
    requires exists k :: from <= k < |models| && models[k].meta.id == name
    ensures from <= k < |models| && models[k].meta.id == name
    ensures forall j :: from <= j < k ==> models[j].meta.id != name
    decreases |models| - from
  {
    if models[from].meta.id == name then from else FirstNamed(models, name, from + 1)
  }

  /** From `from` to the first model named `parentClass`, nothing is merged. */
  lemma {:induction false} ScanToFirst(parentClass: string, models: seq<Node>, st: FieldState, k: nat, fuel: nat, pascalCase: string -> string)
    requires st.idx <= k < |models|
    requires forall j :: st.idx <= j < k ==> models[j].meta.id != parentClass
    ensures ScanSpec(parentClass, models, st, fuel, pascalCase) == ScanSpec(parentClass, models, st.(idx := k), fuel, pascalCase)
    decreases k - st.idx
  {
    if st.idx < k {
      ScanSkips(parentClass, models, st, fuel, pascalCase);
      ScanToFirst(parentClass, models, st.(idx := st.idx + 1), k, fuel, pascalCase);
    }
  }

  /**
   * Flattening merges the first model named by the element, and its fields
   * come AFTER the model's own: own fields, then the ancestor's own fields,
   * then whatever the ancestor merges in turn.
   */
  lemma AncestorFieldsFollowOwn(m: Node, models: seq<Node>, st: FieldState, fuel: nat, pascalCase: string -> string)
    requires FlattenOn(DescriptionOptions(m.meta.description, st.options)) && fuel > 0
    requires exists k :: 0 <= k < |models| && models[k].meta.id == m.element
    requires var k := FirstNamed(models, m.element, 0);
      FlattenOn(DescriptionOptions(models[k].meta.description, DescriptionOptions(m.meta.description, st.options)))
    ensures var k := FirstNamed(models, m.element, 0);
      var own := st.fields + OwnFields(m, pascalCase);
      var mine := FieldState(own, DescriptionOptions(m.meta.description, st.options), k);
      var r := AddFieldsSpec(m, models, st, fuel, pascalCase);
      && r.fields == AddFieldsSpec(models[k], models, mine, fuel - 1, pascalCase).fields
      && r.fields[..|own|] == own
      && r.fields[|own|..|own| + |OwnFields(models[k], pascalCase)|] == OwnFields(models[k], pascalCase)
  {
    hide ScanSpec, DescriptionOptions, OwnFields, FlattenOn;
    var k := FirstNamed(models, m.element, 0);
    var own := st.fields + OwnFields(m, pascalCase);
    var options := DescriptionOptions(m.meta.description, st.options);
    var start := FieldState(own, options, 0);
    var mine := start.(idx := k);
    ScanToFirst(m.element, models, start, k, fuel, pascalCase);
    ScanStopsAfterMerge(m.element, models, mine, fuel, pascalCase);
    var r := AddFieldsSpec(models[k], models, mine, fuel - 1, pascalCase);
    assert own + OwnFields(models[k], pascalCase) <= r.fields;
    assert r.fields[..|own|] == own;
    assert r.fields[|own|..|own| + |OwnFields(models[k], pascalCase)|] == OwnFields(models[k], pascalCase);
  }

  /** Only the counter's role as the scan position matters: where it starts does not change fields or options. */
  lemma AddFieldsIgnoresCounter(m: Node, models: seq<Node>, fields: seq<Field>, options: map<string, string>, i: nat, j: nat,
                                fuel: nat, pascalCase: string -> string)
    ensures var a := AddFieldsSpec(m, models, FieldState(fields, options, i), fuel, pascalCase);
      var b := AddFieldsSpec(m, models, FieldState(fields, options, j), fuel, pascalCase);
      a.fields == b.fields && a.options == b.options
  {
  }

  /** The description loop of addFields (lib/index.js:271-284): every matching line writes one option. */
  method ReadDescription(description: string, modelOptions: map<string, string>) returns (modelOptions': map<string, string>)
    ensures modelOptions' == DescriptionOptions(description, modelOptions)
  {
    modelOptions' := modelOptions;
    if description != "" {
      var lines := Split(description, '\n');
      for lineIdx := 0 to |lines|
        invariant modelOptions' == ReadOptions(lines[..lineIdx], modelOptions)
      {
        assert lines[..lineIdx + 1][..lineIdx] == lines[..lineIdx];
        var m := FindOption(lines[lineIdx], 0);
        if m.Some? {
          modelOptions' := modelOptions'[m.value.0 := m.value.1];
        }
      }
      assert lines[..|lines|] == lines;
    }
  }

  /** The member loop of addFields (lib/index.js:286-296): one field per `member` entry, in order. */
  method PushMemberFields(thisModel: Node, fields: seq<Field>, pascalCase: string -> string) returns (fields': seq<Field>)
    ensures fields' == fields + OwnFields(thisModel, pascalCase)
  {
    fields' := fields;
    if thisModel.content.Children? {
      var members := thisModel.content.nodes;
      for memberIdx := 0 to |members|
        invariant fields' == fields + MemberFields(members[..memberIdx], pascalCase)
      {
        assert members[..memberIdx + 1][..memberIdx] == members[..memberIdx];
        var member := members[memberIdx];
        if member.element == "member" && member.content.Pair? {
          fields' := fields' + [Field(member.content.key, ClassNameOf(member.content.value, pascalCase))];
        }
      }
      assert members[..|members|] == members;
    }
  }

  /** One turn of the ancestor scan: the ancestor merged (or not) and the counter advanced. */
  lemma ScanStep(parentClass: string, models: seq<Node>, st: FieldState, fuel: nat, pascalCase: string -> string)
    requires st.idx < |models|
    ensures var next :=
        if parentClass == models[st.idx].meta.id && fuel > 0 then AddFieldsSpec(models[st.idx], models, st, fuel - 1, pascalCase)
        else st;
      ScanSpec(parentClass, models, st, fuel, pascalCase) == ScanSpec(parentClass, models, next.(idx := next.idx + 1), fuel, pascalCase)
  {
    hide AddFieldsSpec, DescriptionOptions, OwnFields;
  }

  /**
   * addFields: its description loop, its member loop and its ancestor scan.
   * The fields array, option map and counter it shares with parseModels are
   * passed in and handed back.
   */
  method AddFields(thisModel: Node, models: seq<Node>, fields: seq<Field>, modelOptions: map<string, string>, idx: nat,
                   fuel: nat, pascalCase: string -> string)
    returns (fields': seq<Field>, modelOptions': map<string, string>, idx': nat)
    ensures FieldState(fields', modelOptions', idx') ==
      AddFieldsSpec(thisModel, models, FieldState(fields, modelOptions, idx), fuel, pascalCase)
    decreases fuel, 1
  {
    hide DescriptionOptions, OwnFields, MemberFields, ReadOptions, ScanSpec;
    modelOptions' := ReadDescription(thisModel.meta.description, modelOptions);
    fields' := PushMemberFields(thisModel, fields, pascalCase);
    idx' := idx;
    if FlattenKey in modelOptions' && modelOptions'[FlattenKey] == "true" {
      fields', modelOptions', idx' := ScanAncestors(thisModel.element, models, fields', modelOptions', fuel, pascalCase);
    }
  }

  /** The ancestor loop of addFields (lib/index.js:300-306), run with the shared counter from 0. */
  method ScanAncestors(parentClass: string, models: seq<Node>, fields: seq<Field>, modelOptions: map<string, string>,
                       fuel: nat, pascalCase: string -> string)
    returns (fields': seq<Field>, modelOptions': map<string, string>, idx': nat)
    ensures FieldState(fields', modelOptions', idx') == ScanSpec(parentClass, models, FieldState(fields, modelOptions, 0), fuel, pascalCase)
    decreases fuel, 0
  {
    hide AddFieldsSpec, DescriptionOptions, OwnFields, MemberFields, ReadOptions;
    ghost var target := ScanSpec(parentClass, models, FieldState(fields, modelOptions, 0), fuel, pascalCase);
    fields', modelOptions', idx' := fields, modelOptions, 0;
    while idx' < |models|
      invariant ScanSpec(parentClass, models, FieldState(fields', modelOptions', idx'), fuel, pascalCase) == target
      decreases Remaining(models, idx')
    {
      ScanStep(parentClass, models, FieldState(fields', modelOptions', idx'), fuel, pascalCase);
      var subSpecName := models[idx'].meta.id;
      if parentClass == subSpecName && fuel > 0 {
        fields', modelOptions', idx' := AddFields(models[idx'], models, fields', modelOptions', idx', fuel - 1, pascalCase);
      }
      idx' := idx' + 1;
    }
  }

  // ---------------------------------------------------------- parseModels

  /** The option map each model starts with. */
  function InitialOptions(flattenParentClasses: bool): map<string, string> {
    map[FlattenKey := if flattenParentClasses then "true" else "false"]
  }

  /** `parentClass` of lib/index.js:322-330: the element, when flattening is off and some model carries that name. */
  function ParentClass(m: Node, models: seq<Node>, options: map<string, string>): Option<string> {
    if FlattenKey in options && options[FlattenKey] == "false" && m.element != ""
       && exists k :: 0 <= k < |models| && models[k].meta.id == m.element
    then Some(m.element)
    else None
  }

  /** The definition parseModels builds for model `m` of `models`. */
  function DefinitionOf(m: Node, models: seq<Node>, flattenParentClasses: bool, pascalCase: string -> string): ModelDefinition {
    var st := AddFieldsSpec(m, models, FieldState([], InitialOptions(flattenParentClasses), 0), |models|, pascalCase);
    ModelDefinition(m.meta.id, st.fields, ParentClass(m, models, st.options), st.options)
  }

  /** The definitions for all collected models, in collection order. */
  function Definitions(api: seq<Node>, skipModels: set<string>, flattenParentClasses: bool, pascalCase: string -> string): (defs: seq<ModelDefinition>)
    ensures |defs| == |CollectFromList(api, skipModels).0|
  {
    var models := CollectFromList(api, skipModels).0;
    seq(|models|, i requires 0 <= i < |models| => DefinitionOf(models[i], models, flattenParentClasses, pascalCase))
  }

  /** The parent-class loop of lib/index.js:322-330; it runs the shared counter to the end when it runs. */
  method FindParentClass(thisModel: Node, models: seq<Node>, modelOptions: map<string, string>, idx: nat)
    returns (parentClass: Option<string>, idx': nat)
    ensures parentClass == ParentClass(thisModel, models, modelOptions)
  {
    parentClass, idx' := None, idx;
    if FlattenKey in modelOptions && modelOptions[FlattenKey] == "false" && thisModel.element != "" {
      idx' := 0;
      while idx' < |models|
        invariant idx' <= |models|
        invariant parentClass == if exists k :: 0 <= k < idx' && models[k].meta.id == thisModel.element
                                 then Some(thisModel.element) else None
      {
        var subSpecName := models[idx'].meta.id;
        if thisModel.element == subSpecName {
          parentClass := Some(subSpecName);
        }
        idx' := idx' + 1;
      }
    }
  }

  /** The collection loop of parseModels (lib/index.js:263-265): processContent on each top-level node. */
  method CollectModels(api: seq<Node>, skipModels: set<string>) returns (models: seq<Node>, warnings: seq<Warning>)
    ensures models == CollectFromList(api, skipModels).0
    ensures warnings == CollectFromList(api, skipModels).1
  {
    hide CollectNode;
    models, warnings := [], [];
    var idx: nat := 0;
    while idx < |api|
      invariant idx <= |api|
      invariant models == CollectFromList(api[..idx], skipModels).0
      invariant warnings == CollectFromList(api[..idx], skipModels).1
    {
      assert api[..idx + 1][..idx] == api[..idx];
      models, warnings := ProcessContent(api[idx], skipModels, models, warnings);
      idx := idx + 1;
    }
    assert api[..|api|] == api;
  }

  /** One turn of the definition loop (lib/index.js:312-337), with the shared counter handed in and back. */
  method BuildDefinition(thisModel: Node, models: seq<Node>, flattenParentClasses: bool, idx: nat, pascalCase: string -> string)
    returns (definition: ModelDefinition, idx': nat)
    ensures definition == DefinitionOf(thisModel, models, flattenParentClasses, pascalCase)
  {
    hide AddFieldsSpec, ParentClass, DescriptionOptions, OwnFields;
    var fields, modelOptions;
    AddFieldsIgnoresCounter(thisModel, models, [], InitialOptions(flattenParentClasses), idx, 0, |models|, pascalCase);
    fields, modelOptions, idx' := AddFields(thisModel, models, [], InitialOptions(flattenParentClasses), idx, |models|, pascalCase);
    var parentClass;
    parentClass, idx' := FindParentClass(thisModel, models, modelOptions, idx');
    definition := ModelDefinition(thisModel.meta.id, fields, parentClass, modelOptions);
  }

  /**
   * parseModels (lib/index.js:235-342): collect the models depth-first, then
   * build one definition per model. The recursion of addFields is given
   * `|models|` levels.
   */
  method ParseModels(api: seq<Node>, skipModels: set<string>, flattenParentClasses: bool, pascalCase: string -> string)
    returns (definitions: seq<ModelDefinition>, warnings: seq<Warning>)
    ensures definitions == Definitions(api, skipModels, flattenParentClasses, pascalCase)
    ensures warnings == CollectFromList(api, skipModels).1
  {
    hide CollectNode, CollectFromList, DefinitionOf;
    var models;
    models, warnings := CollectModels(api, skipModels);
    // The collection loop leaves the shared counter at the number of top-level nodes.
    var idx: nat := |api|;
    definitions := [];
    for modIdx := 0 to |models|
      invariant |definitions| == modIdx
      invariant forall i :: 0 <= i < modIdx ==> definitions[i] == DefinitionOf(models[i], models, flattenParentClasses, pascalCase)
    {
      var definition;
      definition, idx := BuildDefinition(models[modIdx], models, flattenParentClasses, idx, pascalCase);
      definitions := definitions + [definition];
    }
  }

  // ------------------------------------------------------------ properties

  /** A definition names a parent class exactly when flattening ended up `'false'` and a model carries the element's name. */
  lemma SubClassRule(m: Node, models: seq<Node>, flattenParentClasses: bool, pascalCase: string -> string)
    ensures var d := DefinitionOf(m, models, flattenParentClasses, pascalCase);
      && (d.subClass.Some? <==>
            FlattenKey in d.modelOptions && d.modelOptions[FlattenKey] == "false" && m.element != ""
            && exists k :: 0 <= k < |models| && models[k].meta.id == m.element)
      && (d.subClass.Some? ==> d.subClass.value == m.element)
  {
  }

  /** No model's description names the flattening option. */
  predicate KeepsFlattenOption(m: Node) {
    m.meta.description == "" || FlattenKey !in ReadOptions(Split(m.meta.description, '\n'), map[])
  }

  lemma DescriptionKeepsFlatten(m: Node, options: map<string, string>)
    requires KeepsFlattenOption(m)
    ensures FlattenKey in DescriptionOptions(m.meta.description, options) <==> FlattenKey in options
    ensures FlattenKey in options ==> DescriptionOptions(m.meta.description, options)[FlattenKey] == options[FlattenKey]
  {
    if m.meta.description != "" {
      ReadOptionsKeeps(Split(m.meta.description, '\n'), options, FlattenKey);
    }
  }

  /** When no description names the option, addFields leaves the flattening option as it found it. */
  lemma {:induction false} AddFieldsKeepsFlatten(m: Node, models: seq<Node>, st: FieldState, fuel: nat, pascalCase: string -> string)
    requires KeepsFlattenOption(m) && forall k :: 0 <= k < |models| ==> KeepsFlattenOption(models[k])
    ensures var r := AddFieldsSpec(m, models, st, fuel, pascalCase);
      (FlattenKey in r.options <==> FlattenKey in st.options)
      && (FlattenKey in st.options ==> r.options[FlattenKey] == st.options[FlattenKey])
    decreases fuel, 1, 0
  {
    hide ScanSpec, OwnFields, KeepsFlattenOption, ReadOptions;
    DescriptionKeepsFlatten(m, st.options);
    var options := DescriptionOptions(m.meta.description, st.options);
    if FlattenOn(options) {
      var own := FieldState(st.fields + OwnFields(m, pascalCase), options, 0);
      ScanKeepsFlatten(m.element, models, own, fuel, pascalCase);
    }
  }

  lemma {:induction false} ScanKeepsFlatten(parentClass: string, models: seq<Node>, st: FieldState, fuel: nat, pascalCase: string -> string)
    requires forall k :: 0 <= k < |models| ==> KeepsFlattenOption(models[k])
    ensures var r := ScanSpec(parentClass, models, st, fuel, pascalCase);
      (FlattenKey in r.options <==> FlattenKey in st.options)
      && (FlattenKey in st.options ==> r.options[FlattenKey] == st.options[FlattenKey])
    decreases fuel, 0, Remaining(models, st.idx)
  {
    hide AddFieldsSpec, DescriptionOptions, OwnFields, KeepsFlattenOption, ReadOptions;
    if st.idx < |models| {
      var next :=
        if parentClass == models[st.idx].meta.id && fuel > 0 then AddFieldsSpec(models[st.idx], models, st, fuel - 1, pascalCase)
        else st;
      if parentClass == models[st.idx].meta.id && fuel > 0 {
        AddFieldsKeepsFlatten(models[st.idx], models, st, fuel - 1, pascalCase);
      }
      ScanKeepsFlatten(parentClass, models, next.(idx := next.idx + 1), fuel, pascalCase);
    }
  }

  /**
   * When no description names the flattening option, a definition either
   * names a parent class or has merged ancestor fields, never both: with a
   * parent class its fields are its own.
   */
  lemma NeverBothWhenOptionKept(m: Node, models: seq<Node>, flattenParentClasses: bool, pascalCase: string -> string)
    requires KeepsFlattenOption(m) && forall k :: 0 <= k < |models| ==> KeepsFlattenOption(models[k])
    ensures var d := DefinitionOf(m, models, flattenParentClasses, pascalCase);
      d.subClass.Some? ==> d.fields == OwnFields(m, pascalCase)
  {
    var st := FieldState([], InitialOptions(flattenParentClasses), 0);
    AddFieldsKeepsFlatten(m, models, st, |models|, pascalCase);
    DescriptionKeepsFlatten(m, st.options);
    if !flattenParentClasses {
      FlattenOffOwnFieldsOnly(m, models, st, |models|, pascalCase);
    }
  }
}
