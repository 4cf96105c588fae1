/** The configuration extractor and its advisory findings (backend/internal/parser).
    The HCL library's lexer and parser are not part of this model: what they hand
    back is the input datatype `HclFile`, and evaluating an attribute expression is
    the input datatype `Evaluation`. cty's `GoString` rendering is the parameter
    `goString`, about which nothing is assumed. */
module Parser {
  import opened Text

  datatype Option<T> = None | Some(value: T)

  /** A cty value obtained by evaluating an attribute expression. */
  datatype Value =
    | VString(s: string)
    | VBool(b: bool)
    | VNumber(n: real)            // cty numbers are arbitrary-precision; only GoString sees them
    | VList(elemType: string, elems: seq<Value>)   // all elements of the one type `elemType`
    | VTuple(elems: seq<Value>)
    | VOther(typeName: string)    // maps, sets, objects and the rest: rendered by GoString

  /** The outcome of `attr.Expr.Value(nil)`: a value, or diagnostics with errors
      (a reference to another declaration, a function call, ...). */
  datatype Evaluation = Evaluated(value: Value) | EvalFailed

  /** A native-syntax body: its attributes by name and its nested blocks. */
  datatype Body = Body(attributes: map<string, Evaluation>, blocks: seq<Block>)

  datatype Block = Block(typ: string, labels: seq<string>, body: Body)

  /** What `ParseHCL` and the cast to `*hclsyntax.Body` give back. */
  datatype HclFile =
    | DiagnosticErrors(diags: string)   // diags.HasErrors()
    | ForeignBody                       // the body is not a native-syntax body
    | SyntaxBody(body: Body)

  /** cty's `GoString`, left uninterpreted. */
  type GoStringer = Value -> string

  datatype Resource = Resource(typ: string, name: string, properties: map<string, string>)

  /** The `Type` field of an issue: "security" or "improvement". */
  datatype IssueKind = Security | Improvement

  datatype Issue = Issue(kind: IssueKind, message: string)

  datatype Config = Config(resources: seq<Resource>, variables: seq<string>, outputs: seq<string>, issues: seq<Issue>)

  datatype ParseError = HclDiagnostics(detail: string) | UnexpectedBodyType

  const EmptyConfig := Config([], [], [], [])

  const UnknownValue := "<unknown>"

  // ---------------------------------------------------------------------------
  // Value rendering (extractProperties)

  /** The GoString renderings of a list's elements, one per index. */
  function GoStrings(elems: seq<Value>, goString: GoStringer): (r: seq<string>)
    ensures |r| == |elems|
    ensures forall i :: 0 <= i < |elems| ==> r[i] == goString(elems[i])
  {
    seq(|elems|, i requires 0 <= i < |elems| => goString(elems[i]))
  }

  /** cty's friendly name of a value's type, the key extractProperties switches on.
      A list type is named after its element type ("list of string"). */
  function FriendlyName(v: Value): string
  {
    match v
    case VString(_) => "string"
    case VBool(_) => "bool"
    case VNumber(_) => "number"
    case VList(elemType, _) => "list of " + elemType
    case VTuple(_) => "tuple"
    case VOther(typeName) => typeName
  }

  /** The `"list"` case label never matches a list: a list's friendly name always
      has the "list of " prefix, so it is neither "list" nor "tuple", and such a
      value takes the default branch. */
  lemma ListTakesDefaultBranch(v: Value)
    requires v.VList?
    ensures FriendlyName(v) != "list" && FriendlyName(v) != "tuple"
    ensures FriendlyName(v) != "string" && FriendlyName(v) != "bool" && FriendlyName(v) != "number"
  {
  }

  /** The display string of an evaluated value, by the switch on its friendly
      name. Strings are kept verbatim, booleans become "true"/"false", tuples
      become their elements' GoString renderings in brackets, and everything else
      (numbers, lists, maps, ...) is left to GoString. */
  function RenderValue(v: Value, goString: GoStringer): (r: string)
    ensures v.VString? ==> r == v.s
    ensures v.VBool? ==> (r == "true" <==> v.b) && (r == "false" <==> !v.b)
    ensures v.VTuple? ==> 2 <= |r| && r[0] == '[' && r[|r| - 1] == ']'
    ensures (v.VNumber? || v.VList? || v.VOther?) ==> r == goString(v)
  {
    match v
    case VString(s) => s
    case VBool(b) => if b then "true" else "false"
    case VTuple(elems) => "[" + Join(GoStrings(elems, goString), ", ") + "]"
    case VNumber(_) => goString(v)
    case VList(_, _) => goString(v)
    case VOther(_) => goString(v)
  }

  /** The display string of an attribute: its value's, or the sentinel when it
      cannot be evaluated. */
  function RenderAttribute(e: Evaluation, goString: GoStringer): string
  {
    match e
    case EvalFailed => UnknownValue
    case Evaluated(v) => RenderValue(v, goString)
  }

  /** The property map of a body: one entry per attribute name. */
  function Properties(attributes: map<string, Evaluation>, goString: GoStringer): (props: map<string, string>)
    ensures props.Keys == attributes.Keys
  {
    map name | name in attributes :: RenderAttribute(attributes[name], goString)
  }

  /** Element `i` of a rendered tuple is the GoString of element `i`,
      between the renderings of the elements before and after it. */
  lemma RenderedElementAt(v: Value, goString: GoStringer, i: nat)
    requires v.VTuple?
    requires i < |v.elems|
    ensures var parts := GoStrings(v.elems, goString);
            RenderValue(v, goString) ==
            "[" + Join(parts[..i], ", ") + (if i > 0 then ", " else "") + goString(v.elems[i]) +
            (if i + 1 < |parts| then ", " else "") + Join(parts[i + 1..], ", ") + "]"
  {
    JoinAt(GoStrings(v.elems, goString), ", ", i);
  }

  /** The "list"/"tuple" branch, which only tuples reach: an index loop fills a slice of element renderings,
      which are then joined with ", " inside brackets. */
  method RenderElements(elems: seq<Value>, goString: GoStringer) returns (s: string)
    ensures s == "[" + Join(GoStrings(elems, goString), ", ") + "]"
  {
    var rendered := new string[|elems|];
    for i := 0 to |elems|
      invariant forall j :: 0 <= j < i ==> rendered[j] == goString(elems[j])
    {
      rendered[i] := goString(elems[i]);
    }
    assert rendered[..] == GoStrings(elems, goString);
    s := "[" + Join(rendered[..], ", ") + "]";
  }

  /** extractProperties: visits the attributes in an unspecified order (Go map
      iteration) and records one rendering per attribute name. */
  method ExtractProperties(body: Body, goString: GoStringer) returns (props: map<string, string>)
    ensures props.Keys == body.attributes.Keys
    ensures forall name :: name in props ==> props[name] == RenderAttribute(body.attributes[name], goString)
  {
    props := map[];
    var pending := body.attributes.Keys;
    while pending != {}
      invariant pending <= body.attributes.Keys
      invariant props.Keys == body.attributes.Keys - pending
      invariant forall name :: name in props ==> props[name] == RenderAttribute(body.attributes[name], goString)
      decreases pending
    {
      var name :| name in pending;
      pending := pending - {name};
      match body.attributes[name]
      case EvalFailed =>
        props := props[name := UnknownValue];
      case Evaluated(val) =>
        var rendered;
        match val {
        case VString(s) =>
          rendered := s;
        case VTuple(elems) =>
          rendered := RenderElements(elems, goString);
        case VBool(b) =>
          rendered := if b then "true" else "false";
        case VNumber(_) =>
          rendered := goString(val);
        case VList(_, _) =>
          rendered := goString(val);
        case VOther(_) =>
          rendered := goString(val);
        }
        props := props[name := rendered];
    }
  }

  // ---------------------------------------------------------------------------
  // The rule table (checkResourceSecurity)

  /** The issues one resource raises: at most one, chosen by its type. */
  function ResourceFindings(resType: string, resName: string, props: map<string, string>): seq<Issue>
  {
    if resType == "aws_security_group" then
      if "cidr_blocks" in props && Contains(props["cidr_blocks"], "0.0.0.0/0") then
        [Issue(Security, "Security group '" + resName + "' allows 0.0.0.0/0 ingress")]
      else []
    else if resType == "aws_iam_role" then
      if "assume_role_policy" in props && Contains(props["assume_role_policy"], "*") then
        [Issue(Security, "IAM role '" + resName + "' grants '*' permissions")]
      else []
    else if |props| == 0 then
      [Issue(Improvement, "Resource '" + resName + "' has no properties defined")]
    else []
  }

  /** A security group is flagged exactly when its `cidr_blocks` rendering contains
      the unrestricted range, with one security issue naming it. */
  lemma SecurityGroupRule(resName: string, props: map<string, string>)
    ensures var found := ResourceFindings("aws_security_group", resName, props);
            (found != [] <==> "cidr_blocks" in props && Contains(props["cidr_blocks"], "0.0.0.0/0")) &&
            (found != [] ==> |found| == 1 && found[0].kind == Security &&
                             Contains(found[0].message, resName) && Contains(found[0].message, "0.0.0.0/0"))
  {
    var msg := "Security group '" + resName + "' allows 0.0.0.0/0 ingress";
    ContainsInfix("Security group '", resName, "' allows 0.0.0.0/0 ingress");
    assert msg == "Security group '" + resName + "' allows " + "0.0.0.0/0" + " ingress";
    ContainsInfix("Security group '" + resName + "' allows ", "0.0.0.0/0", " ingress");
  }

  /** An IAM role is flagged exactly when its `assume_role_policy` rendering
      contains a wildcard, with one security issue naming it. */
  lemma IamRoleRule(resName: string, props: map<string, string>)
    ensures var found := ResourceFindings("aws_iam_role", resName, props);
            (found != [] <==> "assume_role_policy" in props && Contains(props["assume_role_policy"], "*")) &&
            (found != [] ==> |found| == 1 && found[0].kind == Security && Contains(found[0].message, resName))
  {
    ContainsInfix("IAM role '", resName, "' grants '*' permissions");
  }

  /** Every other resource type is flagged exactly when it has no properties, with
      one improvement issue naming it. */
  lemma DefaultRule(resType: string, resName: string, props: map<string, string>)
    requires resType != "aws_security_group" && resType != "aws_iam_role"
    ensures var found := ResourceFindings(resType, resName, props);
            (found != [] <==> |props| == 0) &&
            (found != [] ==> |found| == 1 && found[0].kind == Improvement && Contains(found[0].message, resName))
  {
    ContainsInfix("Resource '", resName, "' has no properties defined");
  }

  /** The two named types never get the empty-properties hint, and no resource
      gets more than one issue. */
  lemma RuleBucketsExclusive(resType: string, resName: string, props: map<string, string>)
    ensures |ResourceFindings(resType, resName, props)| <= 1
    ensures resType == "aws_security_group" || resType == "aws_iam_role" ==>
              forall issue :: issue in ResourceFindings(resType, resName, props) ==> issue.kind == Security
  {
  }

  /** checkResourceSecurity: appends the resource's issue, if any, to the caller's
      slice and leaves what was already there untouched. */
  method CheckResourceSecurity(resType: string, resName: string, props: map<string, string>, issues: seq<Issue>)
    returns (updated: seq<Issue>)
    ensures issues <= updated && |updated| <= |issues| + 1
    ensures updated == issues + ResourceFindings(resType, resName, props)
  {
    updated := issues;
    if resType == "aws_security_group" {
      if "cidr_blocks" in props {
        var cidr := props["cidr_blocks"];
        if Contains(cidr, "0.0.0.0/0") {
          updated := updated + [Issue(Security, "Security group '" + resName + "' allows 0.0.0.0/0 ingress")];
        }
      }
    } else if resType == "aws_iam_role" {
      if "assume_role_policy" in props && Contains(props["assume_role_policy"], "*") {
        updated := updated + [Issue(Security, "IAM role '" + resName + "' grants '*' permissions")];
      }
    } else {
      if |props| == 0 {
        updated := updated + [Issue(Improvement, "Resource '" + resName + "' has no properties defined")];
      }
    }
  }

  // ---------------------------------------------------------------------------
  // The block walk (ParseTerraform)

  /** Field-wise concatenation of two documents. */
  function Concat(c: Config, d: Config): Config
  {
    Config(c.resources + d.resources, c.variables + d.variables, c.outputs + d.outputs, c.issues + d.issues)
  }

  /** A resource block the walk accepts. */
  predicate IsResourceBlock(b: Block)
  {
    b.typ == "resource" && |b.labels| >= 2
  }

  /** The resource an accepted block declares. */
  function ResourceOf(b: Block, goString: GoStringer): Resource
    requires IsResourceBlock(b)
  {
    Resource(b.labels[0], b.labels[1], Properties(b.body.attributes, goString))
  }

  /** What one top-level block adds to the document. */
  function Contribution(b: Block, goString: GoStringer): Config
  {
    if IsResourceBlock(b) then
      var r := ResourceOf(b, goString);
      Config([r], [], [], ResourceFindings(r.typ, r.name, r.properties))
    else if b.typ == "variable" && |b.labels| >= 1 then Config([], [b.labels[0]], [], [])
    else if b.typ == "output" && |b.labels| >= 1 then Config([], [], [b.labels[0]], [])
    else EmptyConfig
  }

  /** The document built from a run of blocks when each block adds `contribute(b)`
      to it, in block order. */
  function Fold(blocks: seq<Block>, contribute: Block -> Config): Config
  {
    if blocks == [] then EmptyConfig
    else Concat(Fold(blocks[..|blocks| - 1], contribute), contribute(blocks[|blocks| - 1]))
  }

  /** Folding two runs of blocks concatenates their documents. */
  lemma {:induction false} FoldConcat(a: seq<Block>, b: seq<Block>, contribute: Block -> Config)
    ensures Fold(a + b, contribute) == Concat(Fold(a, contribute), Fold(b, contribute))
    decreases |b|
  {
    if b == [] {
      assert a + b == a;
    } else {
      var init := b[..|b| - 1];
      assert (a + b)[..|a + b| - 1] == a + init;
      FoldConcat(a, init, contribute);
    }
  }

  /** Folding `pre + [b] + post`: each list of the document is that of `pre`, then
      that of `b`'s contribution, then that of `post`. */
  lemma FoldAround(pre: seq<Block>, b: Block, post: seq<Block>, contribute: Block -> Config)
    ensures var c, before, mid, after := Fold(pre + [b] + post, contribute), Fold(pre, contribute),
                                         contribute(b), Fold(post, contribute);
            && c.resources == before.resources + mid.resources + after.resources
            && c.variables == before.variables + mid.variables + after.variables
            && c.outputs == before.outputs + mid.outputs + after.outputs
            && c.issues == before.issues + mid.issues + after.issues
  {
    FoldConcat(pre + [b], post, contribute);
    FoldConcat(pre, [b], contribute);
    assert [b][..0] == [];
  }

  /** Each block's contribution, for a fixed GoString rendering. */
  function Contributor(goString: GoStringer): Block -> Config
  {
    b => Contribution(b, goString)
  }

  /** The document the walk builds from a run of top-level blocks, in block order. */
  function Walk(blocks: seq<Block>, goString: GoStringer): Config
  {
    Fold(blocks, Contributor(goString))
  }

  /** One more block adds its contribution at the end of the walk. */
  lemma WalkSnoc(init: seq<Block>, b: Block, goString: GoStringer)
    ensures Walk(init + [b], goString) == Concat(Walk(init, goString), Contribution(b, goString))
  {
    assert (init + [b])[..|init + [b]| - 1] == init;
  }

  /** A block that contributes nothing can be dropped from the fold. */
  lemma FoldSkip(pre: seq<Block>, b: Block, post: seq<Block>, contribute: Block -> Config)
    requires contribute(b) == EmptyConfig
    ensures Fold(pre + [b] + post, contribute) == Fold(pre + post, contribute)
  {
    FoldAround(pre, b, post, contribute);
    FoldConcat(pre, post, contribute);
  }

  /** A block that contributes one resource and its issues adds them at its position. */
  lemma FoldResource(pre: seq<Block>, b: Block, post: seq<Block>, contribute: Block -> Config,
                     r: Resource, found: seq<Issue>)
    requires contribute(b) == Config([r], [], [], found)
    ensures var c, before, after := Fold(pre + [b] + post, contribute), Fold(pre, contribute), Fold(post, contribute);
            && c.resources == before.resources + [r] + after.resources
            && c.issues == before.issues + found + after.issues
            && c.variables == before.variables + after.variables
            && c.outputs == before.outputs + after.outputs
  {
    FoldAround(pre, b, post, contribute);
  }

  /** A block that contributes one variable name adds it at its position. */
  lemma FoldVariable(pre: seq<Block>, b: Block, post: seq<Block>, contribute: Block -> Config, name: string)
    requires contribute(b) == Config([], [name], [], [])
    ensures var c, before, after := Fold(pre + [b] + post, contribute), Fold(pre, contribute), Fold(post, contribute);
            && c.variables == before.variables + [name] + after.variables
            && c.resources == before.resources + after.resources
            && c.outputs == before.outputs + after.outputs
            && c.issues == before.issues + after.issues
  {
    FoldAround(pre, b, post, contribute);
  }

  /** A block that contributes one output name adds it at its position. */
  lemma FoldOutput(pre: seq<Block>, b: Block, post: seq<Block>, contribute: Block -> Config, name: string)
    requires contribute(b) == Config([], [], [name], [])
    ensures var c, before, after := Fold(pre + [b] + post, contribute), Fold(pre, contribute), Fold(post, contribute);
            && c.outputs == before.outputs + [name] + after.outputs
            && c.resources == before.resources + after.resources
            && c.variables == before.variables + after.variables
            && c.issues == before.issues + after.issues
  {
    FoldAround(pre, b, post, contribute);
  }

  /** A resource block with fewer than two labels, a label-less variable or output
      block, and a block of any other type change nothing: the walk goes on with the
      next block. */
  lemma IgnoredBlockChangesNothing(pre: seq<Block>, b: Block, post: seq<Block>, goString: GoStringer)
    requires (b.typ == "resource" && |b.labels| < 2)
          || ((b.typ == "variable" || b.typ == "output") && b.labels == [])
          || (b.typ != "resource" && b.typ != "variable" && b.typ != "output")
    ensures Walk(pre + [b] + post, goString) == Walk(pre + post, goString)
  {
    FoldSkip(pre, b, post, Contributor(goString));
  }

  /** An accepted resource block adds exactly one resource, with the first label as
      its type and the second as its name, at its block's position, together with
      the rule table's issues for it; variables and outputs are unchanged. */
  lemma ResourceBlockInOrder(pre: seq<Block>, b: Block, post: seq<Block>, goString: GoStringer)
    requires IsResourceBlock(b)
    ensures var c, before, after := Walk(pre + [b] + post, goString), Walk(pre, goString), Walk(post, goString);
            var props := Properties(b.body.attributes, goString);
            && c.resources == before.resources + [Resource(b.labels[0], b.labels[1], props)] + after.resources
            && c.issues == before.issues + ResourceFindings(b.labels[0], b.labels[1], props) + after.issues
            && c.variables == before.variables + after.variables
            && c.outputs == before.outputs + after.outputs
  {
    var props := Properties(b.body.attributes, goString);
    FoldResource(pre, b, post, Contributor(goString), Resource(b.labels[0], b.labels[1], props),
                 ResourceFindings(b.labels[0], b.labels[1], props));
  }

  /** A variable block with a label adds exactly its first label at its position. */
  lemma VariableBlockInOrder(pre: seq<Block>, b: Block, post: seq<Block>, goString: GoStringer)
    requires b.typ == "variable" && |b.labels| >= 1
    ensures var c, before, after := Walk(pre + [b] + post, goString), Walk(pre, goString), Walk(post, goString);
            && c.variables == before.variables + [b.labels[0]] + after.variables
            && c.resources == before.resources + after.resources
            && c.outputs == before.outputs + after.outputs
            && c.issues == before.issues + after.issues
  {
    FoldVariable(pre, b, post, Contributor(goString), b.labels[0]);
  }

  /** An output block with a label adds exactly its first label at its position. */
  lemma OutputBlockInOrder(pre: seq<Block>, b: Block, post: seq<Block>, goString: GoStringer)
    requires b.typ == "output" && |b.labels| >= 1
    ensures var c, before, after := Walk(pre + [b] + post, goString), Walk(pre, goString), Walk(post, goString);
            && c.outputs == before.outputs + [b.labels[0]] + after.outputs
            && c.resources == before.resources + after.resources
            && c.variables == before.variables + after.variables
            && c.issues == before.issues + after.issues
  {
    FoldOutput(pre, b, post, Contributor(goString), b.labels[0]);
  }

  /** The issues of a list of resources, resource by resource, in order. */
  function AllFindings(resources: seq<Resource>): seq<Issue>
  {
    if resources == [] then []
    else
      var r := resources[|resources| - 1];
      AllFindings(resources[..|resources| - 1]) + ResourceFindings(r.typ, r.name, r.properties)
  }

  /** Issues never outnumber the resources that raised them. */
  lemma {:induction false} AllFindingsBounded(resources: seq<Resource>)
    ensures |AllFindings(resources)| <= |resources|
    decreases |resources|
  {
    if resources != [] {
      var r := resources[|resources| - 1];
      AllFindingsBounded(resources[..|resources| - 1]);
      RuleBucketsExclusive(r.typ, r.name, r.properties);
    }
  }

  lemma {:induction false} AllFindingsConcat(a: seq<Resource>, b: seq<Resource>)
    ensures AllFindings(a + b) == AllFindings(a) + AllFindings(b)
    decreases |b|
  {
    if b != [] {
      assert (a + b)[..|a + b| - 1] == a + b[..|b| - 1];
      AllFindingsConcat(a, b[..|b| - 1]);
    } else {
      assert a + b == a;
    }
  }

  /** One block's issues are the findings of the resource it contributes, if any. */
  lemma ContributionFindings(b: Block, goString: GoStringer)
    ensures Contribution(b, goString).issues == AllFindings(Contribution(b, goString).resources)
  {
    if IsResourceBlock(b) {
      var r := ResourceOf(b, goString);
      assert [r][..0] == [];
    }
  }

  /** The document's issue list is determined by its resource list: it is the
      in-order concatenation of each resource's own findings, so there are never
      more issues than resources. */
  lemma {:induction false} IssuesFollowResources(blocks: seq<Block>, goString: GoStringer)
    ensures Walk(blocks, goString).issues == AllFindings(Walk(blocks, goString).resources)
    ensures |Walk(blocks, goString).issues| <= |Walk(blocks, goString).resources|
    decreases |blocks|
  {
    var c := Walk(blocks, goString);
    if blocks != [] {
      var init, last := blocks[..|blocks| - 1], blocks[|blocks| - 1];
      var before, step := Walk(init, goString), Contribution(last, goString);
      assert blocks == init + [last];
      WalkSnoc(init, last, goString);
      IssuesFollowResources(init, goString);
      ContributionFindings(last, goString);
      AllFindingsConcat(before.resources, step.resources);
    }
    AllFindingsBounded(c.resources);
  }

  /** ParseTerraform: an error, with an empty document, when the HCL library
      reports errors or does not hand back a native-syntax body; otherwise no error
      and the walk of the top-level blocks. Top-level attributes of the file are
      ignored, and nested blocks are never descended into. */
  method ParseTerraform(file: HclFile, goString: GoStringer) returns (config: Config, err: Option<ParseError>)
    ensures file.DiagnosticErrors? ==> config == EmptyConfig && err == Some(HclDiagnostics(file.diags))
    ensures file.ForeignBody? ==> config == EmptyConfig && err == Some(UnexpectedBodyType)
    ensures file.SyntaxBody? ==> err == None && config == Walk(file.body.blocks, goString)
  {
    config := EmptyConfig;
    if file.DiagnosticErrors? {
      return config, Some(HclDiagnostics(file.diags));
    }
    if !file.SyntaxBody? {
      return config, Some(UnexpectedBodyType);
    }
    var blocks := file.body.blocks;
    for i := 0 to |blocks|
      invariant config == Walk(blocks[..i], goString)
    {
      var block := blocks[i];
      assert blocks[..i + 1] == blocks[..i] + [block];
      WalkSnoc(blocks[..i], block, goString);
      if block.typ == "resource" {
        if |block.labels| < 2 {
          continue;
        }
        var resType := block.labels[0];
        var resName := block.labels[1];
        var props := ExtractProperties(block.body, goString);
        assert props == Properties(block.body.attributes, goString);
        config := config.(resources := config.resources + [Resource(resType, resName, props)]);
        var issues := CheckResourceSecurity(resType, resName, props, config.issues);
        config := config.(issues := issues);
      } else if block.typ == "variable" {
        if |block.labels| >= 1 {
          config := config.(variables := config.variables + [block.labels[0]]);
        }
      } else if block.typ == "output" {
        if |block.labels| >= 1 {
          config := config.(outputs := config.outputs + [block.labels[0]]);
        }
      }
    }
    assert blocks[..|blocks|] == blocks;
    return config, None;
  }
}
