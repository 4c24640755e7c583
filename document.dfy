/**
 * The document objects the generator annotates in place: resources, their
 * actions and the URI parameter objects. Fields the source never writes are
 * `const`; the ones it writes (`__delim`, `uriTemplate`, ...) are `var`.
 */
module Document {
  import opened Wrappers
  import opened Ast

  /**
   * A URI parameter. Drafter creates these; resource modifiers add more. A
   * resource's parameter objects are shared by every action that inherits them.
   */
  class Parameter {
    const name: string
    const paramType: string
    /** The declared default value; "" when there is none. */
    const defaultText: string
    /** `__showParamAnno`: set (to false) only on parameters a modifier adds. */
    const showParamAnno: Option<bool>
    /** `__showCustomAnno`: set only on parameters a modifier adds. */
    const showCustomAnno: Option<bool>
    /** `__delim`: the separator rendered before this parameter. */
    var delim: string
    /** `__annotation`: `RequestParam`, `PathVariable`, or a modifier's custom annotation. */
    var annotation: string
    /** `__defaultValue`. */
    var defaultValue: string

    /** A parameter as the parser produces it, before any annotation. */
    constructor FromDocument(name: string, paramType: string, defaultText: string)
      ensures this.name == name && this.paramType == paramType && this.defaultText == defaultText
      ensures showParamAnno.None? && showCustomAnno.None?
      ensures delim == "" && annotation == "" && defaultValue == ""
    {
      this.name := name;
      this.paramType := paramType;
      this.defaultText := defaultText;
      showParamAnno := None;
      showCustomAnno := None;
      delim := "";
      annotation := "";
      defaultValue := "";
    }

    /** The object appendParameterDefinitions pushes for a modifier's parameter definition. */
    constructor FromDefinition(name: string, paramType: string, showCustomAnno: bool, annotation: string, delim: string)
      ensures this.name == name && this.paramType == paramType && defaultText == ""
      ensures showParamAnno == Some(false) && this.showCustomAnno == Some(showCustomAnno)
      ensures this.annotation == annotation && this.delim == delim && defaultValue == ""
    {
      this.name := name;
      this.paramType := paramType;
      defaultText := "";
      showParamAnno := Some(false);
      this.showCustomAnno := Some(showCustomAnno);
      this.annotation := annotation;
      this.delim := delim;
      defaultValue := "";
    }

    /** A copy of `p` with its own separator, so that an action can renumber it without touching other actions. */
    constructor Copy(p: Parameter, delim: string)
      ensures name == p.name && paramType == p.paramType && defaultText == p.defaultText
      ensures showParamAnno == p.showParamAnno && showCustomAnno == p.showCustomAnno
      ensures this.delim == delim && annotation == p.annotation && defaultValue == p.defaultValue
    {
      name := p.name;
      paramType := p.paramType;
      defaultText := p.defaultText;
      showParamAnno := p.showParamAnno;
      showCustomAnno := p.showCustomAnno;
      this.delim := delim;
      annotation := p.annotation;
      defaultValue := p.defaultValue;
    }
  }

  /** `bodyContent`: the request body argument of a generated method. */
  datatype BodyContent = BodyContent(name: string, className: string, delim: string)

  /** An action (one HTTP method of a resource). */
  class Action {
    const name: string
    const httpMethod: string
    const examples: seq<Example>
    const content: seq<Node>
    var parameters: seq<Parameter>
    /** `attributes.uriTemplate`; "" when absent. */
    var uriTemplate: string
    var description: string
    /** "" until the normalizer sets it. */
    var responseClassName: string
    var bodyContent: Option<BodyContent>
    /** `__extraAnnotations`. */
    var extraAnnotations: seq<string>

    constructor (name: string, httpMethod: string, examples: seq<Example>, content: seq<Node>,
                 parameters: seq<Parameter>, uriTemplate: string, description: string)
      ensures this.name == name && this.httpMethod == httpMethod && this.examples == examples && this.content == content
      ensures this.parameters == parameters && this.uriTemplate == uriTemplate && this.description == description
      ensures responseClassName == "" && bodyContent.None? && extraAnnotations == []
    {
      this.name := name;
      this.httpMethod := httpMethod;
      this.examples := examples;
      this.content := content;
      this.parameters := parameters;
      this.uriTemplate := uriTemplate;
      this.description := description;
      responseClassName := "";
      bodyContent := None;
      extraAnnotations := [];
    }
  }

  /** A resource: shared URI template and parameters, its actions and content. */
  class Resource {
    const name: string
    const uriTemplate: string
    const parameters: seq<Parameter>
    const actions: seq<Action>
    const content: seq<Node>
    /** `resourcename`: a copy of the name the templates read. */
    var resourceName: string

    constructor (name: string, uriTemplate: string, parameters: seq<Parameter>, actions: seq<Action>, content: seq<Node>)
      ensures this.name == name && this.uriTemplate == uriTemplate && this.parameters == parameters
      ensures this.actions == actions && this.content == content && resourceName == ""
    {
      this.name := name;
      this.uriTemplate := uriTemplate;
      this.parameters := parameters;
      this.actions := actions;
      this.content := content;
      resourceName := "";
    }
  }

  /** The mutable fields of an action, as a value. */
  datatype ActionState = ActionState(
    parameters: seq<Parameter>,
    uriTemplate: string,
    description: string,
    responseClassName: string,
    bodyContent: Option<BodyContent>,
    extraAnnotations: seq<string>)

  function State(a: Action): ActionState
    reads a
  {
    ActionState(a.parameters, a.uriTemplate, a.description, a.responseClassName, a.bodyContent, a.extraAnnotations)
  }

  /** The states of several actions, in order. */
  ghost function States(acts: seq<Action>): (r: seq<ActionState>)
    reads set a | a in acts
    ensures |r| == |acts| && forall i :: 0 <= i < |acts| ==> r[i] == State(acts[i])
  {
    if acts == [] then [] else States(acts[..|acts| - 1]) + [State(acts[|acts| - 1])]
  }

  /** The fields the normalizer writes on a parameter. */
  datatype Tags = Tags(delim: string, annotation: string, defaultValue: string)

  function TagsOf(p: Parameter): Tags
    reads p
  {
    Tags(p.delim, p.annotation, p.defaultValue)
  }

  /** Every parameter object carries the tags of `m`. */
  predicate TagsHold(m: map<Parameter, Tags>)
    reads m.Keys
  {
    forall p :: p in m ==> TagsOf(p) == m[p]
  }

  /** The separator before the parameter at `index` of a rendered list. */
  function Delim(index: int): string {
    if index > 0 then ", " else ""
  }
}
