# infraexplain back end: configuration extraction, findings and explanations

This project models in Dafny the back-end core of infraexplain, a service that reads
Terraform (HCL) source, extracts its resources, variables and outputs, flags a few
risky settings, and explains the result in plain text.

- `text.dfy`, module `Text`: the Go standard-library helpers the core relies on.
  They are `strings.Join`, `strings.Contains` and the `%d` verb. The module also has
  `Lines`/`PairedLines`, the text a `strings.Builder` loop writes one line per
  element.
- `parser.dfy`, module `Parser`: `backend/internal/parser/parser.go`.
  - `ParseTerraform` walks the top-level blocks. Resource blocks with two labels
    become resources, and their findings are appended to the issue list. Variable
    and output blocks contribute their first label. Everything else is skipped.
  - `ExtractProperties` renders attribute values to strings.
  - `CheckResourceSecurity` is the three-way rule table keyed on resource type.

  Each state-changing method (with loop invariants where the code loops) is
  proved against a specification function (`Walk`, `Properties`, `ResourceFindings`). The structural
  facts about the walk are then lemmas about `Walk`: skipping, order, and which
  block adds what.
- `explainer.dfy`, module `Explainer`: `backend/internal/explainer/explainer.go`.
  - `GenerateSimpleExplanation` and `BuildPrompt` build text with builder loops.
    They are proved equal to `SimpleExplanation` and `PromptText`.
  - `ExplainTerraform` is the fallback policy around the language-model call.

Inputs from outside the core are parameters:
- `HclFile`: what the HCL library's parser hands back. It is an error, a body of an
  unexpected type, or a native-syntax body.
- `Evaluation`: what `attr.Expr.Value(nil)` gives, a value or failure.
- `goString`: cty's `GoString`. Nothing is assumed about it.
- `apiKey`: the value of the `OPENAI_API_KEY` environment variable.
- `callApi`: `callOpenAI`, a function from key and prompt to reply text or error.

Go map iteration order is unspecified. Both `extractProperties` and the properties
loop of `buildPrompt` range over a map. The model visits the keys through a
nondeterministic choice (`:|`) from the set of keys not yet visited. `BuildPrompt`
returns a ghost `keyOrders` that records the order that came out. Its contract
holds for every order, and it says that each order lists every key exactly once.

Facts about the code that the model keeps:
- Names are not required to be non-empty, because `ParseTerraform` never checks
  them.
- Tuple elements are rendered with cty's `GoString`, so a string element keeps its
  cty quoting.
- `extractProperties` switches on the friendly name of the value's type (`FriendlyName`).
  cty names a list type after its element type ("list of string"), so the `"list"`
  case label never matches. A list value takes the default branch and is rendered
  by `GoString`; only tuples are bracketed (`ListTakesDefaultBranch`).

The fallback's " with configured properties" mark is stated as a suffix of the
resource's line, not as a substring. A resource type or name may itself contain the
phrase, and then the line contains it even without properties.

## Model

| member | source | states |
|---|---|---|
| Parser.GoStrings | backend/internal/parser/parser.go:104-108 | one rendering per element index, in order, each the element's GoString |
| Parser.RenderValue | backend/internal/parser/parser.go:99-116 | a string value renders as its raw contents; a bool renders as "true" exactly when true and "false" exactly when false; a tuple renders as a bracketed text; a number, a list and any other value are left to GoString (the default branch) |
| Parser.Properties | backend/internal/parser/parser.go:90-119 | the property map has exactly the attribute names of the body as keys |
| Parser.ListTakesDefaultBranch | backend/internal/parser/parser.go:100-115 | a list's friendly name matches none of the case labels "string", "list", "tuple", "bool" or "number", so a list value takes the default branch |
| Parser.RenderedElementAt | backend/internal/parser/parser.go:103-109 | element i of a tuple appears in its rendering as its GoString, after the joined earlier elements and ", ", and before ", " and the joined later ones, inside brackets |
| Parser.RenderElements | backend/internal/parser/parser.go:104-109 | the index loop that fills the element slice yields "[" + the GoStrings joined by ", " + "]" |
| Parser.ExtractProperties | backend/internal/parser/parser.go:90-119 | whatever order the attributes are visited in, the result's keys are the attribute names and each value is that attribute's rendering ("<unknown>" when evaluation fails) |
| Parser.SecurityGroupRule | backend/internal/parser/parser.go:124-132 | an aws_security_group is flagged if and only if cidr_blocks is present and contains "0.0.0.0/0"; the flag is one security issue whose message names the group and the range |
| Parser.IamRoleRule | backend/internal/parser/parser.go:133-139 | an aws_iam_role is flagged if and only if assume_role_policy is present and contains "*"; the flag is one security issue naming the role |
| Parser.DefaultRule | backend/internal/parser/parser.go:140-147 | any other type is flagged if and only if it has no properties; the flag is one improvement issue naming the resource |
| Parser.RuleBucketsExclusive | backend/internal/parser/parser.go:123-148 | at most one issue per resource, and the two named types never get the improvement issue |
| Parser.CheckResourceSecurity | backend/internal/parser/parser.go:122-149 | only appends: the old issues are a prefix of the new ones, at most one is added, and what is added is the rule table's result |
| Parser.FoldConcat | backend/internal/parser/parser.go:55-84 | walking two runs of blocks one after the other gives the field-wise concatenation of their documents |
| Parser.WalkSnoc | backend/internal/parser/parser.go:55-84 | one more block appends its contribution after everything before it |
| Parser.IgnoredBlockChangesNothing | backend/internal/parser/parser.go:55-84 | a resource block with fewer than two labels, a label-less variable or output block, or a block of any other type can be removed without changing the document |
| Parser.ResourceBlockInOrder | backend/internal/parser/parser.go:61-72 | an accepted resource block adds exactly one resource (type = first label, name = second, properties = the rendered attributes) at its block's position, adds that resource's rule-table issues at the same position, and changes neither variables nor outputs |
| Parser.VariableBlockInOrder | backend/internal/parser/parser.go:75-78 | a labelled variable block adds exactly its first label at its position and changes nothing else |
| Parser.OutputBlockInOrder | backend/internal/parser/parser.go:79-82 | a labelled output block adds exactly its first label at its position and changes nothing else |
| Parser.AllFindingsBounded | backend/internal/parser/parser.go:122-149 | a list of resources raises no more issues than it has resources |
| Parser.AllFindingsConcat | backend/internal/parser/parser.go:72 | the findings of two runs of resources are the findings of the first followed by those of the second |
| Parser.ContributionFindings | backend/internal/parser/parser.go:61-72 | one block's issues are exactly the findings of the resource it adds, if any |
| Parser.IssuesFollowResources | backend/internal/parser/parser.go:72 | the document's issue list is the in-order concatenation of each resource's findings, and never longer than the resource list |
| Parser.ParseTerraform | backend/internal/parser/parser.go:35-87 | a parse error or an unexpected body type gives an error together with a document whose four lists are empty; otherwise no error and the walk of the top-level blocks, in order |
| Text.JoinConcat | backend/internal/parser/parser.go:109 | joining two non-empty runs puts exactly one separator between their joins |
| Text.JoinSnoc | backend/internal/explainer/explainer.go:63-68 | appending one part to a non-empty join writes one separator and then the part |
| Text.JoinAt | backend/internal/parser/parser.go:109 | every part sits in the join at its own index, with separators exactly where it has neighbours |
| Text.JoinContainsPart | backend/internal/explainer/explainer.go:49-55 | every part of a join occurs in it |
| Text.ContainsAt | backend/internal/parser/parser.go:126 | an occurrence at any offset makes Contains true |
| Text.ContainsWitness | backend/internal/parser/parser.go:126 | Contains is true only where there is an occurrence, at an offset it returns |
| Text.Decimal | backend/internal/explainer/explainer.go:170 | the %d rendering is non-empty, all decimal digits, and has no leading zero |
| Text.DecimalRoundTrip | backend/internal/explainer/explainer.go:170 | reading the %d rendering of a count back gives the count |
| Explainer.WriteSimpleResourceLine | backend/internal/explainer/explainer.go:160-164 | the loop body writes exactly the resource's fallback line |
| Explainer.WriteSimpleResources | backend/internal/explainer/explainer.go:157-167 | nothing for no resources, else the heading, one line per resource in order, and a blank line |
| Explainer.GenerateSimpleExplanation | backend/internal/explainer/explainer.go:153-178 | the builder writes exactly the header, the resources section, the variables count line and the outputs count line |
| Explainer.SimpleExplanationShape | backend/internal/explainer/explainer.go:155-175 | the fallback starts with the header; each section is present if and only if its list is non-empty; the text is the header alone if and only if all three lists are empty |
| Explainer.SimpleLineInOrder | backend/internal/explainer/explainer.go:159-165 | each resource's line sits between the lines of the resources before it and after it |
| Explainer.SimpleLineMentionsProperties | backend/internal/explainer/explainer.go:160-164 | a resource's line ends in " with configured properties." if and only if the resource has properties |
| Explainer.VariablesCountReported | backend/internal/explainer/explainer.go:169-171 | the digits between the variables line's fixed lead and tail read back as the number of variables |
| Explainer.OutputsCountReported | backend/internal/explainer/explainer.go:173-175 | the digits between the outputs line's fixed lead and tail read back as the number of outputs |
| Explainer.EnumerationExactlyOnce | backend/internal/explainer/explainer.go:49-55 | an enumeration of a key set has one entry per key, holds no other key, and repeats none |
| Explainer.WritePropertyKeys | backend/internal/explainer/explainer.go:46-56 | the first-flag loop writes some enumeration of the property names joined by ", ", so every property name occurs in what it writes |
| Explainer.WriteNames | backend/internal/explainer/explainer.go:63-68 | the index loop writes the names in order joined by ", " |
| Explainer.WritePromptResourceLine | backend/internal/explainer/explainer.go:45-57 | "- Type.Name", the property names after " with properties: " when there are any, then a newline |
| Explainer.WritePromptResources | backend/internal/explainer/explainer.go:42-59 | nothing for no resources, else the heading and one line per resource in order, each with its own key enumeration |
| Explainer.BuildPrompt | backend/internal/explainer/explainer.go:38-85 | the prompt is the intro, the resource lines, the variable and output lists and the closing sentence, for an enumeration of each resource's keys; it begins with the intro, ends with the closing sentence, and contains each non-empty name list after its lead |
| Explainer.PromptFraming | backend/internal/explainer/explainer.go:40-84 | every prompt begins with the fixed intro and ends with the fixed closing sentence |
| Explainer.PromptLineInOrder | backend/internal/explainer/explainer.go:44-58 | resource i's "- Type.Name" line sits between the lines before and after it, and the key order it lists has one entry per property name, holds no other name, and repeats none |
| Explainer.PromptListsNames | backend/internal/explainer/explainer.go:61-81 | the prompt contains the variables and the outputs, each in order and joined by ", ", after its own lead |
| Explainer.ExplainTerraform | backend/internal/explainer/explainer.go:16-35 | never an error; with an empty key the fallback; otherwise the API's text for the prompt, or the fallback when the call fails |

## Left out

- HCL lexing and parsing (`hclparse`) and the cast to `*hclsyntax.Body`: foreign-library work. Their outcome is the input `HclFile`. The diagnostics text is carried as an opaque string, and the `fmt.Errorf` wording is not modelled.
- `attr.Expr.Value(nil)`: foreign evaluation. Its outcome is the input `Evaluation`. cty null and unknown values, on which `AsString` and `True` would panic, are not modelled.
- cty's `GoString` and number formatting: modelled as the uninterpreted parameter `goString`. cty numbers are arbitrary-precision floats, and the `real` in `VNumber` is never inspected.
- The model assumes `goString` is a deterministic function of the value.
- `log.Printf` in the walk: a diagnostic side effect with no effect on the result.
- `callOpenAI`, its HTTP request, JSON encoding, timeout and the float `temperature`: network and float concerns. The call is the parameter `callApi`, and its error value is reduced to "failed".
- `os.Getenv`: the environment is the parameter `apiKey`.
- The HTTP handlers, router, middleware and `main`: request plumbing outside the core.
- The React front end: a user interface outside the core.
- JSON struct tags of the data model: encoding-library behaviour. An issue's `Type` string is the enumeration `IssueKind`, where `Security` stands for "security" and `Improvement` for "improvement".
