/** The explanation step (backend/internal/explainer): a fixed-layout fallback text,
    the prompt sent to the language-model API, and the policy that chooses between
    them. The API call itself is the parameter `callApi`, and the API key read from
    the environment is the parameter `apiKey`. */
module Explainer {
  import opened Text
  import opened Parser

  // ---------------------------------------------------------------------------
  // generateSimpleExplanation

  const SimpleHeader := "This Terraform configuration defines the following:\n\n"
  const SimpleResourcesHeading := "**Resources:**\n"
  const PropertiesMark := " with configured properties"
  const VariablesLead := "**Variables:** "
  const VariablesTail := " input variable(s) that can be customized.\n\n"
  const OutputsLead := "**Outputs:** "
  const OutputsTail := " output value(s) that provide information about the infrastructure.\n"

  /** The fallback's line for one resource. */
  function SimpleResourceLine(r: Resource): string
  {
    "- A " + r.typ + " resource named '" + r.name + "'" +
    (if |r.properties| > 0 then PropertiesMark else "") + ".\n"
  }

  /** The fallback's resource lines, one per resource, in resource order. */
  function SimpleResourceLines(resources: seq<Resource>): string
  {
    Lines(resources, SimpleResourceLine)
  }

  function SimpleResourcesSection(resources: seq<Resource>): string
  {
    if |resources| > 0 then SimpleResourcesHeading + SimpleResourceLines(resources) + "\n" else ""
  }

  function VariablesSection(count: nat): string
  {
    if count > 0 then VariablesLead + Decimal(count) + VariablesTail else ""
  }

  function OutputsSection(count: nat): string
  {
    if count > 0 then OutputsLead + Decimal(count) + OutputsTail else ""
  }

  /** The fallback explanation of a document. */
  function SimpleExplanation(config: Config): string
  {
    SimpleHeader + SimpleResourcesSection(config.resources) +
    VariablesSection(|config.variables|) + OutputsSection(|config.outputs|)
  }

  /** The body of generateSimpleExplanation's resource loop. */
  method WriteSimpleResourceLine(resource: Resource) returns (line: string)
    ensures line == SimpleResourceLine(resource)
  {
    line := "- A " + resource.typ + " resource named '" + resource.name + "'";
    if |resource.properties| > 0 {
      line := line + PropertiesMark;
    }
    line := line + ".\n";
  }

  /** The resources part of generateSimpleExplanation: nothing for no resources,
      else a heading, one line per resource and a blank line. */
  method WriteSimpleResources(resources: seq<Resource>) returns (section: string)
    ensures section == SimpleResourcesSection(resources)
  {
    section := "";
    if |resources| > 0 {
      section := SimpleResourcesHeading;
      for i := 0 to |resources|
        invariant section == SimpleResourcesHeading + SimpleResourceLines(resources[..i])
      {
        var line := WriteSimpleResourceLine(resources[i]);
        section := section + line;
        assert resources[..i + 1] == resources[..i] + [resources[i]];
        LinesSnoc(resources[..i], resources[i], SimpleResourceLine);
      }
      assert resources[..|resources|] == resources;
      section := section + "\n";
    }
  }

  /** generateSimpleExplanation: writes the header, then one line per resource,
      then the variable and output counts. */
  method GenerateSimpleExplanation(config: Config) returns (text: string)
    ensures text == SimpleExplanation(config)
  {
    var resourcesPart := WriteSimpleResources(config.resources);
    text := SimpleHeader + resourcesPart;
    var variablesLine, outputsLine := "", "";
    if |config.variables| > 0 {
      variablesLine := VariablesLead + Decimal(|config.variables|) + VariablesTail;
      text := text + variablesLine;
    }
    if |config.outputs| > 0 {
      outputsLine := OutputsLead + Decimal(|config.outputs|) + OutputsTail;
      text := text + outputsLine;
    }
    assert text == SimpleHeader + resourcesPart + variablesLine + outputsLine;
  }

  /** The fallback always starts with the header, each section is present exactly
      when its list is non-empty, and an empty document is explained by the header
      alone. */
  lemma SimpleExplanationShape(config: Config)
    ensures SimpleHeader <= SimpleExplanation(config)
    ensures SimpleResourcesSection(config.resources) != "" <==> config.resources != []
    ensures VariablesSection(|config.variables|) != "" <==> config.variables != []
    ensures OutputsSection(|config.outputs|) != "" <==> config.outputs != []
    ensures SimpleExplanation(config) == SimpleHeader <==>
            config.resources == [] && config.variables == [] && config.outputs == []
  {
    HeadAlone(SimpleHeader, SimpleResourcesSection(config.resources),
              VariablesSection(|config.variables|), OutputsSection(|config.outputs|));
  }

  /** Each resource gets its own line, between the lines of the resources before it
      and those after it. */
  lemma SimpleLineInOrder(pre: seq<Resource>, r: Resource, post: seq<Resource>)
    ensures SimpleResourceLines(pre + [r] + post) ==
            SimpleResourceLines(pre) + SimpleResourceLine(r) + SimpleResourceLines(post)
  {
    LinesAround(pre, r, post, SimpleResourceLine);
  }

  /** A resource's line ends in " with configured properties." exactly when the
      resource has properties (whatever its type and name contain). */
  lemma SimpleLineMentionsProperties(r: Resource)
    ensures EndsWith(SimpleResourceLine(r), PropertiesMark + ".\n") <==> |r.properties| > 0
  {
    var line := SimpleResourceLine(r);
    var suffix := PropertiesMark + ".\n";
    var stem := "- A " + r.typ + " resource named '" + r.name + "'";
    if |r.properties| > 0 {
      assert line == stem + suffix;
      assert line[|line| - |suffix|..] == suffix;
    } else {
      assert line == stem + ".\n";
      assert line[|line| - 3] == '\'' && suffix[|suffix| - 3] == 's';
      assert |suffix| <= |line| ==> line[|line| - |suffix|..][|suffix| - 3] == line[|line| - 3];
    }
  }

  /** The variables section reports exactly the number of variables: the digits
      between its fixed lead and tail read back as that number. */
  lemma VariablesCountReported(config: Config)
    requires config.variables != []
    ensures var section, n := VariablesSection(|config.variables|), |config.variables|;
            |VariablesLead| + |VariablesTail| <= |section| &&
            ParseDecimal(section[|VariablesLead|..|section| - |VariablesTail|]) == n
  {
    var n := |config.variables|;
    var section := VariablesSection(n);
    assert section[|VariablesLead|..|section| - |VariablesTail|] == Decimal(n);
    DecimalRoundTrip(n);
  }

  /** The outputs section reports exactly the number of outputs. */
  lemma OutputsCountReported(config: Config)
    requires config.outputs != []
    ensures var section, n := OutputsSection(|config.outputs|), |config.outputs|;
            |OutputsLead| + |OutputsTail| <= |section| &&
            ParseDecimal(section[|OutputsLead|..|section| - |OutputsTail|]) == n
  {
    var n := |config.outputs|;
    var section := OutputsSection(n);
    assert section[|OutputsLead|..|section| - |OutputsTail|] == Decimal(n);
    DecimalRoundTrip(n);
  }

  // ---------------------------------------------------------------------------
  // buildPrompt

  const PromptIntro := "Explain this Terraform configuration in simple, beginner-friendly terms:\n\n"
  const PromptResourcesHeading := "Resources:\n"
  const PromptPropertiesLead := " with properties: "
  const PromptVariablesLead := "\nVariables: "
  const PromptOutputsLead := "\nOutputs: "
  const PromptClosing := "\nProvide a clear, concise explanation suitable for someone new to infrastructure as code."

  /** `order` lists every key of `keys` exactly once (in some order). */
  predicate IsEnumeration(order: seq<string>, keys: set<string>)
  {
    multiset(order) == multiset(keys)
  }

  /** A sequence in which nothing occurs twice has pairwise distinct entries. */
  lemma {:induction false} DistinctFromCounts(s: seq<string>)
    requires forall x :: multiset(s)[x] <= 1
    ensures forall i, j :: 0 <= i < j < |s| ==> s[i] != s[j]
    decreases |s|
  {
    if s != [] {
      var h, t := s[0], s[1..];
      assert s == [h] + t;
      assert multiset(s) == multiset{h} + multiset(t);
      assert forall x :: multiset(t)[x] <= multiset(s)[x];
      DistinctFromCounts(t);
      assert forall i :: 0 <= i < |t| ==> t[i] in multiset(t);
    }
  }

  /** An enumeration has one entry per key, holds nothing else, and repeats nothing. */
  lemma EnumerationExactlyOnce(order: seq<string>, keys: set<string>)
    requires IsEnumeration(order, keys)
    ensures |order| == |keys|
    ensures forall k :: k in order <==> k in keys
    ensures forall i, j :: 0 <= i < j < |order| ==> order[i] != order[j]
  {
    assert |order| == |multiset(order)| == |multiset(keys)| == |keys|;
    forall k
      ensures k in order <==> k in keys
    {
      assert k in order <==> k in multiset(order);
    }
    DistinctFromCounts(order);
  }

  /** The key orders chosen for a list of resources: one enumeration of each
      resource's property names. */
  predicate KeyOrdersFor(resources: seq<Resource>, keyOrders: seq<seq<string>>)
  {
    |keyOrders| == |resources| &&
    forall i :: 0 <= i < |resources| ==> IsEnumeration(keyOrders[i], resources[i].properties.Keys)
  }

  /** The prompt's line for one resource, its property names listed in `keys`. */
  function PromptResourceLine(r: Resource, keys: seq<string>): string
  {
    "- " + r.typ + "." + r.name +
    (if |r.properties| > 0 then PromptPropertiesLead + Join(keys, ", ") else "") + "\n"
  }

  /** The prompt's resource lines, one per resource, in resource order. */
  function PromptResourceLines(resources: seq<Resource>, keyOrders: seq<seq<string>>): string
    requires |keyOrders| == |resources|
  {
    PairedLines(resources, keyOrders, PromptResourceLine)
  }

  /** A comma-separated list of names after a lead, when there are any. */
  function NameListSection(lead: string, names: seq<string>): string
  {
    if |names| > 0 then lead + Join(names, ", ") + "\n" else ""
  }

  /** The prompt for a document, given the order its property names came out in. */
  function PromptText(config: Config, keyOrders: seq<seq<string>>): string
    requires |keyOrders| == |config.resources|
  {
    PromptIntro + PromptResourcesSection(config.resources, keyOrders) +
    NameListSection(PromptVariablesLead, config.variables) +
    NameListSection(PromptOutputsLead, config.outputs) +
    PromptClosing
  }

  /** The inner loop of buildPrompt: visits the property names in an unspecified
      order (Go map iteration), writing ", " before every name but the first. The
      ghost `order` records the order the names came out in. */
  method WritePropertyKeys(props: map<string, string>) returns (list: string, ghost order: seq<string>)
    ensures IsEnumeration(order, props.Keys)
    ensures list == Join(order, ", ")
    ensures forall key :: key in props ==> Contains(list, key)
  {
    list, order := "", [];
    var first := true;
    var pending := props.Keys;
    while pending != {}
      invariant pending <= props.Keys
      invariant multiset(order) + multiset(pending) == multiset(props.Keys)
      invariant first <==> order == []
      invariant list == Join(order, ", ")
      decreases pending
    {
      var key :| key in pending;
      if !first {
        list := list + ", ";
      }
      list := list + key;
      if !first {
        JoinSnoc(order, key, ", ");
      }
      first := false;
      assert multiset(pending) == multiset(pending - {key}) + multiset{key};
      order := order + [key];
      pending := pending - {key};
    }
    forall key | key in props
      ensures Contains(list, key)
    {
      assert key in multiset(props.Keys);
      assert key in multiset(order);
      var i :| 0 <= i < |order| && order[i] == key;
      JoinContainsPart(order, ", ", i);
    }
  }

  /** The variables and outputs loops of buildPrompt: the names in order, ", "
      between consecutive ones. */
  method WriteNames(names: seq<string>) returns (list: string)
    ensures list == Join(names, ", ")
  {
    list := "";
    for i := 0 to |names|
      invariant list == Join(names[..i], ", ")
    {
      if i > 0 {
        list := list + ", ";
        JoinSnoc(names[..i], names[i], ", ");
      }
      list := list + names[i];
      assert names[..i + 1] == names[..i] + [names[i]];
    }
    assert names[..|names|] == names;
  }

  /** The body of buildPrompt's resource loop: "- Type.Name", then the property
      names if there are any, then a newline. */
  method WritePromptResourceLine(resource: Resource) returns (line: string, ghost order: seq<string>)
    ensures IsEnumeration(order, resource.properties.Keys)
    ensures line == PromptResourceLine(resource, order)
  {
    line := "- " + resource.typ + "." + resource.name;
    order := [];
    if |resource.properties| > 0 {
      line := line + PromptPropertiesLead;
      var keys;
      keys, order := WritePropertyKeys(resource.properties);
      line := line + keys;
    }
    line := line + "\n";
  }

  /** The section of the prompt that the resources loop of buildPrompt writes:
      nothing for no resources, else a heading and one line per resource. */
  function PromptResourcesSection(resources: seq<Resource>, keyOrders: seq<seq<string>>): string
    requires |keyOrders| == |resources|
  {
    if |resources| > 0 then PromptResourcesHeading + PromptResourceLines(resources, keyOrders) else ""
  }

  /** The resources loop of buildPrompt. */
  method WritePromptResources(resources: seq<Resource>) returns (section: string, ghost keyOrders: seq<seq<string>>)
    ensures KeyOrdersFor(resources, keyOrders)
    ensures section == PromptResourcesSection(resources, keyOrders)
  {
    section, keyOrders := "", [];
    if |resources| > 0 {
      section := PromptResourcesHeading;
      for i := 0 to |resources|
        invariant KeyOrdersFor(resources[..i], keyOrders)
        invariant section == PromptResourcesHeading + PromptResourceLines(resources[..i], keyOrders)
      {
        var resource := resources[i];
        var line;
        ghost var order;
        line, order := WritePromptResourceLine(resource);
        section := section + line;
        PairedLinesSnoc(resources[..i], keyOrders, resource, order, PromptResourceLine);
        assert resources[..i + 1] == resources[..i] + [resource];
        keyOrders := keyOrders + [order];
      }
      assert resources[..|resources|] == resources;
    }
  }

  /** buildPrompt: the fixed intro, one line per resource naming its properties,
      the variable and output names, and the fixed closing sentence. The ghost
      `keyOrders` records, per resource, the order its property names came out in. */
  method BuildPrompt(config: Config) returns (prompt: string, ghost keyOrders: seq<seq<string>>)
    ensures KeyOrdersFor(config.resources, keyOrders)
    ensures prompt == PromptText(config, keyOrders)
    ensures PromptIntro <= prompt && EndsWith(prompt, PromptClosing)
    ensures config.variables != [] ==> Contains(prompt, PromptVariablesLead + Join(config.variables, ", ") + "\n")
    ensures config.outputs != [] ==> Contains(prompt, PromptOutputsLead + Join(config.outputs, ", ") + "\n")
  {
    prompt := PromptIntro;
    var resourcesPart;
    resourcesPart, keyOrders := WritePromptResources(config.resources);
    prompt := prompt + resourcesPart;
    var variablesPart, outputsPart := "", "";
    if |config.variables| > 0 {
      var names := WriteNames(config.variables);
      variablesPart := PromptVariablesLead + names + "\n";
      prompt := prompt + variablesPart;
    }
    assert prompt == PromptIntro + resourcesPart + variablesPart;
    if |config.outputs| > 0 {
      var names := WriteNames(config.outputs);
      outputsPart := PromptOutputsLead + names + "\n";
      prompt := prompt + outputsPart;
    }
    assert prompt == PromptIntro + resourcesPart + variablesPart + outputsPart;
    prompt := prompt + PromptClosing;
    PromptFraming(config, keyOrders);
    PromptListsNames(config, keyOrders);
  }

  /** The prompt always begins with the intro line and ends with the closing sentence. */
  lemma PromptFraming(config: Config, keyOrders: seq<seq<string>>)
    requires |keyOrders| == |config.resources|
    ensures PromptIntro <= PromptText(config, keyOrders)
    ensures EndsWith(PromptText(config, keyOrders), PromptClosing)
  {
    FramedByEnds(PromptIntro, PromptResourcesSection(config.resources, keyOrders),
                 NameListSection(PromptVariablesLead, config.variables),
                 NameListSection(PromptOutputsLead, config.outputs), PromptClosing);
  }

  /** Each resource gets its own "- Type.Name" line, between the lines of the
      resources before it and those after it; a resource with properties lists each
      property name exactly once, comma-separated. */
  lemma PromptLineInOrder(config: Config, keyOrders: seq<seq<string>>, i: nat)
    requires KeyOrdersFor(config.resources, keyOrders)
    requires i < |config.resources|
    ensures var rs, os := config.resources, keyOrders;
            PromptResourceLines(rs, os) ==
              PromptResourceLines(rs[..i], os[..i]) + PromptResourceLine(rs[i], os[i]) +
              PromptResourceLines(rs[i + 1..], os[i + 1..])
    ensures |keyOrders[i]| == |config.resources[i].properties|
    ensures forall k :: k in keyOrders[i] <==> k in config.resources[i].properties
    ensures forall j, l :: 0 <= j < l < |keyOrders[i]| ==> keyOrders[i][j] != keyOrders[i][l]
  {
    PairedLinesAt(config.resources, keyOrders, i, PromptResourceLine);
    EnumerationExactlyOnce(keyOrders[i], config.resources[i].properties.Keys);
  }

  /** The variables and outputs appear in the prompt as ", "-separated lists, in
      order, each after its own lead. */
  lemma PromptListsNames(config: Config, keyOrders: seq<seq<string>>)
    requires |keyOrders| == |config.resources|
    ensures config.variables != [] ==>
              Contains(PromptText(config, keyOrders), PromptVariablesLead + Join(config.variables, ", ") + "\n")
    ensures config.outputs != [] ==>
              Contains(PromptText(config, keyOrders), PromptOutputsLead + Join(config.outputs, ", ") + "\n")
  {
    ContainsInnerPieces(PromptIntro, PromptResourcesSection(config.resources, keyOrders),
                        NameListSection(PromptVariablesLead, config.variables),
                        NameListSection(PromptOutputsLead, config.outputs), PromptClosing);
  }

  // ---------------------------------------------------------------------------
  // ExplainTerraform

  /** What callOpenAI hands back: the reply's text, or an error. */
  datatype ApiReply = ApiText(content: string) | ApiError(reason: string)

  /** callOpenAI(apiKey, prompt), left uninterpreted. */
  type ApiCall = (string, string) -> ApiReply

  /** ExplainTerraform: with no API key the fallback; otherwise the API's reply to
      the prompt, or the fallback when the call fails. It never reports an error.
      The ghost `keyOrders` is the property-name order the prompt was built with. */
  method ExplainTerraform(config: Config, apiKey: string, callApi: ApiCall)
    returns (explanation: string, err: Option<string>, ghost keyOrders: seq<seq<string>>)
    ensures err == None
    ensures apiKey == "" ==> explanation == SimpleExplanation(config)
    ensures apiKey != "" ==>
              KeyOrdersFor(config.resources, keyOrders) &&
              explanation == match callApi(apiKey, PromptText(config, keyOrders))
                             case ApiText(content) => content
                             case ApiError(_) => SimpleExplanation(config)
  {
    keyOrders := [];
    if apiKey == "" {
      explanation := GenerateSimpleExplanation(config);
      return explanation, None, keyOrders;
    }
    var prompt;
    prompt, keyOrders := BuildPrompt(config);
    var reply := callApi(apiKey, prompt);
    if reply.ApiError? {
      explanation := GenerateSimpleExplanation(config);
      return explanation, None, keyOrders;
    }
    return reply.content, None, keyOrders;
  }
}
