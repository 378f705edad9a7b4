/**
 * The conjugation generator: for each verb on its command line it builds a prompt
 * from the verb, the worked example `hablar.yml` and the schema, makes one request
 * to a completion service, and writes `<output>/<verb>.yml` when the stripped reply
 * is non-empty and passes schema validation. In prompt-only mode it prints the
 * prompts instead.
 *
 * The completion service and the schema check are oracles: the service is the
 * reply to the k-th request of the run for a given prompt, and the check is the
 * verdict of loading and validating a candidate text. The process's observable
 * state (files, standard output and error, requests sent, how the run ended) is a
 * World; Execution is the specification of one run of `main` and Host.Run the
 * step-by-step program proved to carry it out.
 */
module Conjugate {
  import opened Wrappers
  import opened Text

  /** What one request yields: the reply's message content, or the exception raised while getting it. */
  datatype Reply = Content(text: string) | Failure(description: string)

  /** The completion service: the reply to the k-th request of the run (counted from 0) with a prompt. */
  type Service = (nat, string) -> Reply

  /**
   * Loading a candidate as YAML and validating it against the schema: it conforms,
   * fails with a schema ValidationError, or raises some other exception (a YAML
   * syntax error, for one).
   */
  datatype SchemaCheck = Conforms | ValidationError(message: string) | Unparseable(exception: string)

  type Checker = string -> SchemaCheck

  /** A Python call that returns a value or raises. */
  datatype Raise<T> = Returned(value: T) | Raised(exception: string)

  /** How a run ended: normally, by `sys.exit(status)`, or by an uncaught exception. */
  datatype Exit = Completed | Exited(status: int) | Crashed(exception: string)

  /**
   * The observable state of the process: the files by path and content, every write
   * to standard output and standard error in order (newlines included), the prompts
   * sent to the service in order, and how the run ended.
   */
  datatype World = World(
    files: map<string, string>, stdout: seq<string>, stderr: seq<string>,
    requests: seq<string>, exit: Exit)

  /** The parsed command line. */
  datatype Args = Args(verbs: seq<string>, output: string, promptOnly: bool)

  /**
   * The environment at start: the `OPENAI_API_KEY` variable, the loaded schema as the
   * prompt renders it (None when `verb-schema.yml` cannot be opened) and the files.
   */
  datatype Env = Env(apiKey: Option<string>, schema: Option<string>, files: map<string, string>)

  /**
   * The name the key is passed under to the completion call: as written, `api_key`,
   * which is bound nowhere; as intended, the value of `OPENAI_API_KEY`.
   */
  datatype KeyBinding = AsWritten | Intended

  /**
   * The fixed text of a prompt, in the order it appears around the variable parts:
   * before the verb, after the verb, after the example, after the schema (before
   * the verb's second mention) and after that.
   */
  datatype Template = Template(
    head: string, afterVerb: string, afterExample: string, afterSchema: string, tail: string)

  /** What the loop over the verbs works with, fixed before it starts. */
  datatype Setup = Setup(
    output: string, promptOnly: bool, template: Template, example: string, schema: string,
    service: Service, check: Checker, binding: KeyBinding)

  const MissingKeyMessage: string := "Error: OPENAI_API_KEY environment variable not set.\n"
  const MissingExampleMessage: string :=
    "Example file 'hablar.yml' not found. Please provide an example YAML file.\n"

  /** The fixed text of the prompt `main` builds for each verb. */
  const Instructions: Template := Template(
    "Conjugate the Spanish verb \"",
    "\" in all 14 tenses and moods, as well as the infinitive, "
    + "gerundio and past participle.\n\n",
    "\n\nHere is the schema that will be used to validate your "
    + "response via jsconschema.\n\n",
    "\n\nYour response should be in yaml. You must conform to all "
    + "of the field names you see in the example above."
    + "The only field that will differ is the name of the verb "
    + "which should match my query: ",
    "Make sure you provide ALL 17 top-level fields as specified "
    + "in the example yaml and the schema.")

  /** The path the worked example is read from. */
  function ExamplePath(output: string): string {
    output + "/hablar.yml"
  }

  /** The path a verb's conjugations are written to. */
  function OutputPath(output: string, verb: string): string {
    Join(output, verb + ".yml")
  }

  /** A prompt laid out by a template: the verb, the example, the schema and the verb again, in the fixed text. */
  function Fill(t: Template, verb: string, example: string, schema: string): string {
    t.head + verb + t.afterVerb + example + t.afterExample + schema + t.afterSchema + verb + t.tail
  }

  /** The length of a prompt apart from its two copies of the verb. */
  function FixedLength(t: Template, example: string, schema: string): nat {
    |t.head| + |t.afterVerb| + |t.afterExample| + |t.afterSchema| + |t.tail| + |example| + |schema|
  }

  /** Where the verb sits in a filled template, and how long the prompt is. */
  lemma FillVerbLayout(t: Template, verb: string, example: string, schema: string)
    ensures var p := Fill(t, verb, example, schema);
      && |p| == FixedLength(t, example, schema) + 2 * |verb|
      && p[|t.head|..|t.head| + |verb|] == verb
  {
    var p := Fill(t, verb, example, schema);
    assert p[|t.head|..][..|verb|] == verb;
  }

  /** Where the parts sit in a filled template. */
  lemma FillLayout(t: Template, verb: string, example: string, schema: string)
    ensures var p := Fill(t, verb, example, schema);
      && IsInfix(verb, p) && IsInfix(example, p) && IsInfix(schema, p)
      && |p| == FixedLength(t, example, schema) + 2 * |verb|
      && p[|t.head|..|t.head| + |verb|] == verb
  {
    var p := Fill(t, verb, example, schema);
    var b := t.head + verb + t.afterVerb + example;
    var c := b + t.afterExample + schema;
    FillVerbLayout(t, verb, example, schema);
    assert p[|t.head|..][..|verb|] == verb;
    assert p[|b| - |example|..][..|example|] == example;
    assert p[|c| - |schema|..][..|schema|] == schema;
  }

  /** The prompt `main` builds for a verb from the worked example and the loaded schema. */
  function Prompt(verb: string, example: string, schema: string): (r: string)
    ensures StartsWith(r, Instructions.head + verb)
  {
    Fill(Instructions, verb, example, schema)
  }

  /** The prompt names the verb and embeds the worked example and the schema whole. */
  lemma PromptMentions(verb: string, example: string, schema: string)
    ensures var p := Prompt(verb, example, schema);
      IsInfix(verb, p) && IsInfix(example, p) && IsInfix(schema, p)
  {
    FillLayout(Instructions, verb, example, schema);
  }

  /** Recovering the verb from a prompt built from a template, an example and a schema. */
  function VerbOf(t: Template, p: string, example: string, schema: string): Option<string> {
    var fixed := FixedLength(t, example, schema);
    if fixed <= |p| && (|p| - fixed) % 2 == 0 then
      var verb := p[|t.head|..|t.head| + (|p| - fixed) / 2];
      if Fill(t, verb, example, schema) == p then Some(verb) else None
    else None
  }

  /** VerbOf inverts Fill. */
  lemma VerbOfFill(t: Template, verb: string, example: string, schema: string)
    ensures VerbOf(t, Fill(t, verb, example, schema), example, schema) == Some(verb)
  {
    FillVerbLayout(t, verb, example, schema);
    var p := Fill(t, verb, example, schema);
    var fixed := FixedLength(t, example, schema);
    assert |p| - fixed == 2 * |verb|;
    assert (|p| - fixed) / 2 == |verb|;
  }

  /** The prompt determines its verb: different verbs get different prompts. */
  lemma PromptInjective(v1: string, v2: string, example: string, schema: string)
    requires Prompt(v1, example, schema) == Prompt(v2, example, schema)
    ensures v1 == v2
  {
    VerbOfFill(Instructions, v1, example, schema);
    VerbOfFill(Instructions, v2, example, schema);
  }

  /**
   * `get_conjugation` on what the request yielded: None when an exception occurred,
   * otherwise the content with its surrounding whitespace removed.
   */
  function GetConjugation(reply: Reply): (r: Option<string>)
    ensures r.None? <==> reply.Failure?
    ensures r.Some? ==> IsStripped(r.value)
  {
    match reply
    case Failure(_) => None
    case Content(text) => Some(Strip(text))
  }

  /** The text `get_conjugation` returns is the reply's content with exactly its surrounding whitespace removed. */
  lemma GetConjugationStrips(reply: Reply)
    requires reply.Content?
    ensures IsStrippingOf(GetConjugation(reply).value, reply.text)
    ensures forall m :: IsStrippingOf(m, reply.text) ==> GetConjugation(reply).value == m
  {
    StripIsStripping(reply.text);
    forall m | IsStrippingOf(m, reply.text)
      ensures Strip(reply.text) == m
    {
      StripUnique(reply.text, m);
    }
  }

  /** The line `get_conjugation` writes to standard error when the request fails. */
  function FetchErrorLine(description: string): string {
    "Error in getting or processing response: " + description + "\n"
  }

  /**
   * `validate_conjugation`: True when the candidate conforms, False exactly when the
   * schema check raises ValidationError; any other exception propagates.
   */
  function ValidateConjugation(check: SchemaCheck): (r: Raise<bool>)
    ensures r == Returned(true) <==> check.Conforms?
    ensures r == Returned(false) <==> check.ValidationError?
    ensures r.Raised? <==> check.Unparseable?
    ensures r.Raised? ==> r.exception == check.exception
  {
    match check
    case Conforms => Returned(true)
    case ValidationError(_) => Returned(false)
    case Unparseable(e) => Raised(e)
  }

  /** What `validate_conjugation` writes to standard error. */
  function ValidationErrorLines(check: SchemaCheck): seq<string> {
    if check.ValidationError? then ["Validation error: " + check.message + "\n"] else []
  }

  function SavedLine(verb: string, path: string): string {
    "Conjugations for '" + verb + "' successfully saved to " + path + "\n"
  }

  function FailedLine(verb: string): string {
    "Failed to get valid conjugations for '" + verb + "'\n"
  }

  /** The text the service's reply to the j-th request yields when that request is for `verb`. */
  function Answer(s: Setup, j: nat, verb: string): Option<string> {
    GetConjugation(s.service(j, Fill(s.template, verb, s.example, s.schema)))
  }

  /** The j-th request, for `verb`, is accepted: its text is non-empty and conforms to the schema. */
  predicate Accepted(s: Setup, j: nat, verb: string) {
    var a := Answer(s, j, verb);
    a.Some? && a.value != [] && s.check(a.value).Conforms?
  }

  /** The j-th request, for `verb`, yields a text whose loading raises, which ends the run. */
  predicate Crashes(s: Setup, j: nat, verb: string) {
    var a := Answer(s, j, verb);
    a.Some? && a.value != [] && s.check(a.value).Unparseable?
  }

  /** One iteration of the loop over the verbs, for a verb that gets a completion request. */
  function ProcessVerb(w: World, verb: string, s: Setup): World {
    var prompt := Fill(s.template, verb, s.example, s.schema);
    var reply := s.service(|w.requests|, prompt);
    var sent := w.(requests := w.requests + [prompt]);
    var w1 := if reply.Failure? then sent.(stderr := sent.stderr + [FetchErrorLine(reply.description)]) else sent;
    var conjugation := Answer(s, |w.requests|, verb);
    if conjugation.None? || conjugation.value == [] then
      w1.(stdout := w1.stdout + [FailedLine(verb)])
    else
      var check := s.check(conjugation.value);
      match ValidateConjugation(check)
      case Raised(e) => w1.(exit := Crashed(e))
      case Returned(valid) =>
        if valid then
          var path := OutputPath(s.output, verb);
          w1.(files := w1.files[path := conjugation.value], stdout := w1.stdout + [SavedLine(verb, path)])
        else
          w1.(stderr := w1.stderr + ValidationErrorLines(check), stdout := w1.stdout + [FailedLine(verb)])
  }

  /** One iteration of the loop over the verbs; nothing happens once the run has ended. */
  function Step(w: World, verb: string, s: Setup): World {
    if !w.exit.Completed? then w
    else if s.promptOnly then
      w.(stdout := w.stdout + [Fill(s.template, verb, s.example, s.schema) + "\n", "\n"])
    else if s.binding == AsWritten then
      w.(exit := Crashed("NameError"))
    else
      ProcessVerb(w, verb, s)
  }

  /** The loop over the verbs, in list order, from state `w`. */
  function Loop(w: World, verbs: seq<string>, s: Setup): World {
    if verbs == [] then w
    else Step(Loop(w, verbs[..|verbs| - 1], s), verbs[|verbs| - 1], s)
  }

  /** A fresh process over the given files. */
  function Start(files: map<string, string>): World {
    World(files, [], [], [], Completed)
  }

  /** The checks before the loop pass: the schema loads, the key is set and the worked example exists. */
  predicate Ready(env: Env, args: Args) {
    env.schema.Some? && env.apiKey.Some? && env.apiKey.value != [] && ExamplePath(args.output) in env.files
  }

  function SetupOf(env: Env, args: Args, service: Service, check: Checker, binding: KeyBinding): Setup
    requires Ready(env, args)
  {
    Setup(args.output, args.promptOnly, Instructions, env.files[ExamplePath(args.output)], env.schema.value, service, check, binding)
  }

  /** One execution of `main`: the schema is loaded, then the key is checked, then the example is read. */
  function Execution(env: Env, args: Args, service: Service, check: Checker, binding: KeyBinding): World {
    var w := Start(env.files);
    if env.schema.None? then
      w.(exit := Crashed("FileNotFoundError"))
    else if env.apiKey.None? || env.apiKey.value == [] then
      w.(stderr := [MissingKeyMessage], exit := Exited(1))
    else if ExamplePath(args.output) !in env.files then
      w.(stderr := [MissingExampleMessage])
    else
      Loop(w, args.verbs, SetupOf(env, args, service, check, binding))
  }

  /** The prompts of a list of verbs, in order. */
  function Prompts(t: Template, verbs: seq<string>, example: string, schema: string): (r: seq<string>)
    ensures |r| == |verbs|
    ensures forall j :: 0 <= j < |verbs| ==> r[j] == Fill(t, verbs[j], example, schema)
  {
    if verbs == [] then []
    else Prompts(t, verbs[..|verbs| - 1], example, schema) + [Fill(t, verbs[|verbs| - 1], example, schema)]
  }

  /** What prompt-only mode prints: each prompt followed by an empty line, in list order. */
  function PromptListing(t: Template, verbs: seq<string>, example: string, schema: string): (r: seq<string>)
    ensures |r| == 2 * |verbs|
    ensures forall j :: 0 <= j < |verbs| ==>
      r[2 * j] == Fill(t, verbs[j], example, schema) + "\n" && r[2 * j + 1] == "\n"
  {
    if verbs == [] then []
    else
      PromptListing(t, verbs[..|verbs| - 1], example, schema)
      + [Fill(t, verbs[|verbs| - 1], example, schema) + "\n", "\n"]
  }

  /** Without the key the run exits with status 1 before any verb: no request, no output, no file. */
  lemma MissingKeyStops(env: Env, args: Args, service: Service, check: Checker, binding: KeyBinding)
    requires env.schema.Some? && (env.apiKey.None? || env.apiKey == Some([]))
    ensures var r := Execution(env, args, service, check, binding);
      r.exit == Exited(1) && r.requests == [] && r.files == env.files
      && r.stdout == [] && r.stderr == [MissingKeyMessage]
  {
  }

  /** Without the worked example `main` returns before any verb: no request, no output, no file. */
  lemma MissingExampleStops(env: Env, args: Args, service: Service, check: Checker, binding: KeyBinding)
    requires env.schema.Some? && env.apiKey.Some? && env.apiKey.value != []
    requires ExamplePath(args.output) !in env.files
    ensures var r := Execution(env, args, service, check, binding);
      r.exit == Completed && r.requests == [] && r.files == env.files
      && r.stdout == [] && r.stderr == [MissingExampleMessage]
  {
  }

  lemma {:induction false} PromptOnlyLoop(w: World, verbs: seq<string>, s: Setup)
    requires s.promptOnly && w.exit.Completed?
    ensures Loop(w, verbs, s) == w.(stdout := w.stdout + PromptListing(s.template, verbs, s.example, s.schema))
  {
    if verbs != [] {
      PromptOnlyLoop(w, verbs[..|verbs| - 1], s);
      var init := PromptListing(s.template, verbs[..|verbs| - 1], s.example, s.schema);
      var last := [Fill(s.template, verbs[|verbs| - 1], s.example, s.schema) + "\n", "\n"];
      assert w.stdout + init + last == w.stdout + (init + last);
    }
  }

  /** In prompt-only mode every prompt is printed in list order, with no request and no file written. */
  lemma PromptOnlyPrints(env: Env, args: Args, service: Service, check: Checker, binding: KeyBinding)
    requires Ready(env, args) && args.promptOnly
    ensures var r := Execution(env, args, service, check, binding);
      && r.stdout == PromptListing(Instructions, args.verbs, env.files[ExamplePath(args.output)], env.schema.value)
      && r.requests == [] && r.files == env.files && r.stderr == [] && r.exit == Completed
  {
    var s := SetupOf(env, args, service, check, binding);
    PromptOnlyLoop(Start(env.files), args.verbs, s);
  }

  /** The j-th request, for verbs[j], was accepted and wrote `text` to path `p`. */
  ghost predicate WroteAt(s: Setup, verbs: seq<string>, j: int, p: string, text: string) {
    0 <= j < |verbs| && p == OutputPath(s.output, verbs[j])
    && Accepted(s, j, verbs[j]) && text == Answer(s, j, verbs[j]).value
  }

  /**
   * The files after the loop differ from those before only at the output paths of
   * accepted verbs, where they hold the accepted text.
   */
  ghost predicate WritesOnlyAccepted(before: map<string, string>, after: map<string, string>, verbs: seq<string>, s: Setup) {
    && before.Keys <= after.Keys
    && forall p :: p in after && (p !in before || after[p] != before[p]) ==>
         exists j :: WroteAt(s, verbs, j, p, after[p])
  }

  /** No later verb in the list is accepted and written to the same path as verb j. */
  ghost predicate LastWriter(verbs: seq<string>, j: nat, s: Setup)
    requires j < |verbs|
  {
    forall k :: j < k < |verbs| && OutputPath(s.output, verbs[k]) == OutputPath(s.output, verbs[j]) ==>
      !Accepted(s, k, verbs[k])
  }

  /** Every accepted verb that is the last to write its path leaves its text there. */
  ghost predicate AcceptedAreWritten(after: map<string, string>, verbs: seq<string>, s: Setup) {
    forall j :: 0 <= j < |verbs| && Accepted(s, j, verbs[j]) && LastWriter(verbs, j, s) ==>
      OutputPath(s.output, verbs[j]) in after && after[OutputPath(s.output, verbs[j])] == Answer(s, j, verbs[j]).value
  }

  /** One request for the verb of request j: the prompt is sent, and the run ends only when the reply cannot be loaded. */
  lemma ProcessVerbRequests(w: World, verb: string, s: Setup)
    ensures var r := ProcessVerb(w, verb, s); var j := |w.requests|;
      && r.requests == w.requests + [Fill(s.template, verb, s.example, s.schema)]
      && (r.exit != w.exit ==> r.exit.Crashed? && Crashes(s, j, verb))
      && (Crashes(s, j, verb) ==> r.exit.Crashed?)
  {
  }

  /** One request for the verb of request j: the files change only when the reply is accepted. */
  lemma ProcessVerbFiles(w: World, verb: string, s: Setup)
    ensures var r := ProcessVerb(w, verb, s); var j := |w.requests|;
      && (Accepted(s, j, verb) ==> r.files == w.files[OutputPath(s.output, verb) := Answer(s, j, verb).value])
      && (!Accepted(s, j, verb) ==> r.files == w.files)
  {
  }

  /**
   * What one verb reports. An accepted reply gives the "saved" line and no error; a
   * reply that cannot be loaded gives nothing (the run ends); any other outcome gives
   * the "failed" line. Standard error gets the fetch error when the request raised,
   * the validation message when a non-empty reply fails the schema, and nothing else.
   */
  lemma ProcessVerbReports(w: World, verb: string, s: Setup)
    ensures var r := ProcessVerb(w, verb, s); var j := |w.requests|;
      var reply := s.service(j, Fill(s.template, verb, s.example, s.schema));
      && (Accepted(s, j, verb) ==>
           r.stdout == w.stdout + [SavedLine(verb, OutputPath(s.output, verb))] && r.stderr == w.stderr)
      && (Crashes(s, j, verb) ==> r.stdout == w.stdout && r.stderr == w.stderr)
      && (!Accepted(s, j, verb) && !Crashes(s, j, verb) ==> r.stdout == w.stdout + [FailedLine(verb)])
      && (reply.Failure? ==> r.stderr == w.stderr + [FetchErrorLine(reply.description)])
      && (reply.Content? && Strip(reply.text) != [] && s.check(Strip(reply.text)).ValidationError? ==>
           r.stderr == w.stderr + ["Validation error: " + s.check(Strip(reply.text)).message + "\n"])
      && (reply.Content? && (Strip(reply.text) == [] || !s.check(Strip(reply.text)).ValidationError?) ==>
           r.stderr == w.stderr)
  {
  }

  /** The line a verb that is requested, and whose reply does not end the run, writes to standard output. */
  function Report(s: Setup, j: nat, verb: string): string {
    if Accepted(s, j, verb) then SavedLine(verb, OutputPath(s.output, verb)) else FailedLine(verb)
  }

  /** What the j-th request, for `verb`, writes to standard error. */
  function Complaints(s: Setup, j: nat, verb: string): seq<string> {
    var reply := s.service(j, Fill(s.template, verb, s.example, s.schema));
    if reply.Failure? then [FetchErrorLine(reply.description)]
    else if Strip(reply.text) == [] then []
    else ValidationErrorLines(s.check(Strip(reply.text)))
  }

  /**
   * One verb's pass from a running state: one more request; when its reply can be
   * loaded, its report line and its error lines are appended; otherwise the run crashes
   * with the streams unchanged.
   */
  lemma ProcessVerbLog(w: World, verb: string, s: Setup)
    requires w.exit.Completed?
    ensures var r := ProcessVerb(w, verb, s); var j := |w.requests|;
      && |r.requests| == j + 1
      && (r.exit.Completed? || r.exit.Crashed?)
      && (r.exit.Crashed? <==> Crashes(s, j, verb))
      && (!Crashes(s, j, verb) ==>
            r.stdout == w.stdout + [Report(s, j, verb)] && r.stderr == w.stderr + Complaints(s, j, verb))
      && (Crashes(s, j, verb) ==> r.stdout == w.stdout && r.stderr == w.stderr)
  {
    ProcessVerbReports(w, verb, s);
  }

  /** The report lines of a list of verbs, the j-th verb being the j-th request. */
  function Reports(s: Setup, verbs: seq<string>): (r: seq<string>)
    ensures |r| == |verbs|
  {
    if verbs == [] then []
    else Reports(s, verbs[..|verbs| - 1]) + [Report(s, |verbs| - 1, verbs[|verbs| - 1])]
  }

  /** The j-th report line is that of the j-th verb's request. */
  lemma {:induction false} ReportsAt(s: Setup, verbs: seq<string>, j: nat)
    requires j < |verbs|
    ensures Reports(s, verbs)[j] == Report(s, j, verbs[j])
  {
    var m := |verbs| - 1;
    if j < m {
      ReportsAt(s, verbs[..m], j);
      assert verbs[..m][j] == verbs[j];
    }
  }

  /** The error lines of a list of verbs, in list order. */
  function ComplaintLog(s: Setup, verbs: seq<string>): seq<string> {
    if verbs == [] then []
    else ComplaintLog(s, verbs[..|verbs| - 1]) + Complaints(s, |verbs| - 1, verbs[|verbs| - 1])
  }

  /** The output streams hold the reports and errors of the first k verbs. */
  ghost predicate ReportFacts(stdout: seq<string>, stderr: seq<string>, k: int, verbs: seq<string>, s: Setup) {
    0 <= k <= |verbs| && stdout == Reports(s, verbs[..k]) && stderr == ComplaintLog(s, verbs[..k])
  }

  /** The preconditions of the loop lemmas: a running process with no request yet, sending prompts for real. */
  predicate Sending(w: World, s: Setup) {
    w.exit.Completed? && w.requests == [] && !s.promptOnly && s.binding == Intended
  }

  /** The requests a run of the loop over `verbs` made, and how it ended. */
  ghost predicate RequestFacts(requests: seq<string>, exit: Exit, verbs: seq<string>, s: Setup) {
    var n := |requests|;
    && n <= |verbs|
    && requests == Prompts(s.template, verbs[..n], s.example, s.schema)
    && (exit.Completed? || exit.Crashed?)
    && (exit.Completed? ==> n == |verbs|)
    && (exit.Crashed? ==> 1 <= n && Crashes(s, n - 1, verbs[n - 1]))
  }

  /** The requests the loop makes and how it ends. */
  lemma {:induction false} LoopRequests(w: World, verbs: seq<string>, s: Setup)
    requires Sending(w, s)
    ensures var r := Loop(w, verbs, s); RequestFacts(r.requests, r.exit, verbs, s)
  {
    if verbs != [] {
      var m := |verbs| - 1;
      var init := verbs[..m];
      LoopRequests(w, init, s);
      var before := Loop(w, init, s);
      if before.exit.Completed? {
        ProcessVerbRequests(before, verbs[m], s);
        var r := ProcessVerb(before, verbs[m], s);
        RequestsAfterAttempt(before.requests, init, verbs, s, r.requests, r.exit);
      } else {
        RequestsAfterStop(before.requests, before.exit, init, verbs, s);
      }
    }
  }

  /** The last verb is requested when the loop was still running. */
  lemma RequestsAfterAttempt(before: seq<string>, init: seq<string>, verbs: seq<string>, s: Setup,
                             after: seq<string>, exit: Exit)
    requires |verbs| > 0 && init == verbs[..|verbs| - 1]
    requires RequestFacts(before, Completed, init, s)
    requires after == before + [Fill(s.template, verbs[|verbs| - 1], s.example, s.schema)]
    requires exit != Completed ==> exit.Crashed? && Crashes(s, |before|, verbs[|verbs| - 1])
    ensures RequestFacts(after, exit, verbs, s)
  {
    var m := |init|;
    assert verbs[..m + 1] == verbs;
    assert Prompts(s.template, verbs, s.example, s.schema)
      == Prompts(s.template, init, s.example, s.schema) + [Fill(s.template, verbs[m], s.example, s.schema)];
  }

  /** Nothing is requested once the loop has stopped. */
  lemma RequestsAfterStop(requests: seq<string>, exit: Exit, init: seq<string>, verbs: seq<string>, s: Setup)
    requires |verbs| > 0 && init == verbs[..|verbs| - 1]
    requires RequestFacts(requests, exit, init, s) && !exit.Completed?
    ensures RequestFacts(requests, exit, verbs, s)
  {
    var n := |requests|;
    assert verbs[..n] == init[..n];
    assert verbs[n - 1] == init[n - 1];
  }

  /**
   * The output of the loop: the reports and errors of every verb requested, except
   * for the verb whose reply could not be loaded when the run crashed.
   */
  lemma {:induction false} LoopReports(w: World, verbs: seq<string>, s: Setup)
    requires Sending(w, s) && w.stdout == [] && w.stderr == []
    ensures var r := Loop(w, verbs, s);
      ReportFacts(r.stdout, r.stderr, if r.exit.Completed? then |r.requests| else |r.requests| - 1, verbs, s)
  {
    if verbs != [] {
      var m := |verbs| - 1;
      var init := verbs[..m];
      LoopReports(w, init, s);
      LoopRequests(w, init, s);
      var before := Loop(w, init, s);
      if before.exit.Completed? {
        var r := ProcessVerb(before, verbs[m], s);
        ProcessVerbLog(before, verbs[m], s);
        ReportsAfterAttempt(before.stdout, before.stderr, init, verbs, s, r.stdout, r.stderr, r.exit.Crashed?);
      } else {
        ReportsAfterStop(before.stdout, before.stderr, |before.requests| - 1, init, verbs, s);
      }
    }
  }

  /** The last verb's pass extends the reports, or leaves them when its reply ends the run. */
  lemma ReportsAfterAttempt(stdout: seq<string>, stderr: seq<string>, init: seq<string>, verbs: seq<string>,
                            s: Setup, stdout': seq<string>, stderr': seq<string>, crashed: bool)
    requires |verbs| > 0 && init == verbs[..|verbs| - 1]
    requires ReportFacts(stdout, stderr, |init|, init, s)
    requires !crashed ==>
      stdout' == stdout + [Report(s, |init|, verbs[|init|])] && stderr' == stderr + Complaints(s, |init|, verbs[|init|])
    requires crashed ==> stdout' == stdout && stderr' == stderr
    ensures ReportFacts(stdout', stderr', if crashed then |init| else |verbs|, verbs, s)
  {
    assert init[..|init|] == init;
    assert verbs[..|verbs|] == verbs;
    assert verbs[..|init|] == init;
  }

  /** Once the loop has stopped, the reports stay those of the verbs before. */
  lemma ReportsAfterStop(stdout: seq<string>, stderr: seq<string>, k: int, init: seq<string>, verbs: seq<string>, s: Setup)
    requires |verbs| > 0 && init == verbs[..|verbs| - 1]
    requires ReportFacts(stdout, stderr, k, init, s)
    ensures ReportFacts(stdout, stderr, k, verbs, s)
  {
    assert verbs[..k] == init[..k];
  }

  /** A write recorded for a prefix of the verbs is a write for the whole list. */
  lemma WroteAtPrefix(s: Setup, verbs: seq<string>, m: nat, j: int, p: string, text: string)
    requires m <= |verbs| && WroteAt(s, verbs[..m], j, p, text)
    ensures WroteAt(s, verbs, j, p, text)
  {
    assert verbs[..m][j] == verbs[j];
  }

  /** How the files change when the last of `verbs` is requested: written if accepted, untouched otherwise. */
  ghost predicate StepFiles(before: map<string, string>, after: map<string, string>, verbs: seq<string>, s: Setup)
    requires |verbs| > 0
  {
    var m := |verbs| - 1;
    && (Accepted(s, m, verbs[m]) ==> after == before[OutputPath(s.output, verbs[m]) := Answer(s, m, verbs[m]).value])
    && (!Accepted(s, m, verbs[m]) ==> after == before)
  }

  /** The last pass of the loop: it changes the files as StepFiles says, or does nothing once the loop has stopped. */
  lemma LoopStep(w: World, verbs: seq<string>, s: Setup)
    requires Sending(w, s) && |verbs| > 0
    ensures var before := Loop(w, verbs[..|verbs| - 1], s); var r := Loop(w, verbs, s);
      && (before.exit.Completed? ==>
            StepFiles(before.files, r.files, verbs, s) && |before.requests| == |verbs| - 1 && |r.requests| == |verbs|)
      && (!before.exit.Completed? ==> r == before)
  {
    var m := |verbs| - 1;
    var before := Loop(w, verbs[..m], s);
    LoopRequests(w, verbs[..m], s);
    if before.exit.Completed? {
      ProcessVerbFiles(before, verbs[m], s);
      ProcessVerbLog(before, verbs[m], s);
    }
  }

  /** Writing the last verb's accepted text keeps WritesOnlyAccepted. */
  lemma WritesStep(start: map<string, string>, before: map<string, string>, after: map<string, string>,
                   verbs: seq<string>, s: Setup)
    requires |verbs| > 0
    requires WritesOnlyAccepted(start, before, verbs[..|verbs| - 1], s)
    requires StepFiles(before, after, verbs, s)
    ensures WritesOnlyAccepted(start, after, verbs, s)
  {
    var m := |verbs| - 1;
    forall p | p in after && (p !in start || after[p] != start[p])
      ensures exists j :: WroteAt(s, verbs, j, p, after[p])
    {
      if Accepted(s, m, verbs[m]) && p == OutputPath(s.output, verbs[m]) {
        assert WroteAt(s, verbs, m, p, after[p]);
      } else {
        assert after[p] == before[p];
        var j :| WroteAt(s, verbs[..m], j, p, before[p]);
        WroteAtPrefix(s, verbs, m, j, p, after[p]);
      }
    }
  }

  /** What a prefix of the verbs wrote, the whole list wrote. */
  lemma WritesExtend(start: map<string, string>, files: map<string, string>, verbs: seq<string>, s: Setup)
    requires |verbs| > 0
    requires WritesOnlyAccepted(start, files, verbs[..|verbs| - 1], s)
    ensures WritesOnlyAccepted(start, files, verbs, s)
  {
    var m := |verbs| - 1;
    forall p | p in files && (p !in start || files[p] != start[p])
      ensures exists j :: WroteAt(s, verbs, j, p, files[p])
    {
      var j :| WroteAt(s, verbs[..m], j, p, files[p]);
      WroteAtPrefix(s, verbs, m, j, p, files[p]);
    }
  }

  /** Writing the last verb's accepted text keeps AcceptedAreWritten. */
  lemma AcceptedStep(before: map<string, string>, after: map<string, string>, verbs: seq<string>, s: Setup)
    requires |verbs| > 0
    requires AcceptedAreWritten(before, verbs[..|verbs| - 1], s)
    requires StepFiles(before, after, verbs, s)
    ensures AcceptedAreWritten(after, verbs, s)
  {
    var m := |verbs| - 1;
    var init := verbs[..m];
    var path := OutputPath(s.output, verbs[m]);
    forall j | 0 <= j < |verbs| && Accepted(s, j, verbs[j]) && LastWriter(verbs, j, s)
      ensures OutputPath(s.output, verbs[j]) in after
        && after[OutputPath(s.output, verbs[j])] == Answer(s, j, verbs[j]).value
    {
      if j < m {
        assert init[j] == verbs[j];
        assert LastWriter(init, j, s);
        assert OutputPath(s.output, verbs[j]) != path || !Accepted(s, m, verbs[m]);
      }
    }
  }

  lemma {:induction false} LoopWrites(w: World, verbs: seq<string>, s: Setup)
    requires Sending(w, s)
    ensures WritesOnlyAccepted(w.files, Loop(w, verbs, s).files, verbs, s)
  {
    if verbs != [] {
      var init := verbs[..|verbs| - 1];
      LoopWrites(w, init, s);
      LoopStep(w, verbs, s);
      if Loop(w, init, s).exit.Completed? {
        WritesStep(w.files, Loop(w, init, s).files, Loop(w, verbs, s).files, verbs, s);
      } else {
        WritesExtend(w.files, Loop(w, init, s).files, verbs, s);
      }
    }
  }

  lemma {:induction false} LoopAcceptedWritten(w: World, verbs: seq<string>, s: Setup)
    requires Sending(w, s)
    ensures var r := Loop(w, verbs, s);
      |r.requests| <= |verbs| && AcceptedAreWritten(r.files, verbs[..|r.requests|], s)
  {
    if verbs != [] {
      var init := verbs[..|verbs| - 1];
      LoopAcceptedWritten(w, init, s);
      LoopStep(w, verbs, s);
      var before := Loop(w, init, s);
      var r := Loop(w, verbs, s);
      if before.exit.Completed? {
        AcceptedAfterAttempt(before.files, r.files, |before.requests|, |r.requests|, verbs, s);
      } else {
        AcceptedAfterStop(r.files, |r.requests|, init, verbs, s);
      }
    }
  }

  /** The last verb's pass, after all earlier verbs were requested, keeps AcceptedAreWritten for the requested verbs. */
  lemma AcceptedAfterAttempt(before: map<string, string>, after: map<string, string>, m: nat, n: nat,
                             verbs: seq<string>, s: Setup)
    requires |verbs| > 0 && m == |verbs| - 1 && n == |verbs|
    requires AcceptedAreWritten(before, verbs[..m][..m], s)
    requires StepFiles(before, after, verbs, s)
    ensures AcceptedAreWritten(after, verbs[..n], s)
  {
    assert verbs[..m][..m] == verbs[..m];
    AcceptedStep(before, after, verbs, s);
    assert verbs[..n] == verbs;
  }

  /** After the loop has stopped, the requested verbs are the same in a longer list. */
  lemma AcceptedAfterStop(files: map<string, string>, n: nat, init: seq<string>, verbs: seq<string>, s: Setup)
    requires |verbs| > 0 && init == verbs[..|verbs| - 1] && n <= |init|
    requires AcceptedAreWritten(files, init[..n], s)
    ensures AcceptedAreWritten(files, verbs[..n], s)
  {
    assert verbs[..n] == init[..n];
  }

  /**
   * With the preconditions met and prompts sent for real, each verb, in list order,
   * gets exactly one request and no other request is made; the loop stops only when
   * loading a reply raises, and that reply's verb is the last one requested.
   */
  lemma OneRequestPerVerb(env: Env, args: Args, service: Service, check: Checker)
    requires Ready(env, args) && !args.promptOnly
    ensures var s := SetupOf(env, args, service, check, Intended);
      var r := Execution(env, args, service, check, Intended);
      var n := |r.requests|;
      && n <= |args.verbs|
      && r.requests == Prompts(Instructions, args.verbs[..n], s.example, s.schema)
      && (r.exit.Completed? || r.exit.Crashed?)
      && (r.exit.Completed? ==> n == |args.verbs|)
      && (r.exit.Crashed? ==> 1 <= n && Crashes(s, n - 1, args.verbs[n - 1]))
      && ((forall j :: 0 <= j < |args.verbs| ==> !Crashes(s, j, args.verbs[j])) ==> r.exit.Completed?)
  {
    LoopRequests(Start(env.files), args.verbs, SetupOf(env, args, service, check, Intended));
  }

  /**
   * A file changes only at the output path of a verb whose reply was accepted, and
   * then holds exactly that reply's stripped text.
   */
  lemma WritesOnlyAcceptedReplies(env: Env, args: Args, service: Service, check: Checker)
    requires Ready(env, args) && !args.promptOnly
    ensures WritesOnlyAccepted(env.files, Execution(env, args, service, check, Intended).files, args.verbs,
      SetupOf(env, args, service, check, Intended))
  {
    LoopWrites(Start(env.files), args.verbs, SetupOf(env, args, service, check, Intended));
  }

  /**
   * Every reply accepted before the run ended is on disk unless a later accepted verb
   * wrote the same path; when the run completes, this holds for every verb.
   */
  lemma AcceptedRepliesWritten(env: Env, args: Args, service: Service, check: Checker)
    requires Ready(env, args) && !args.promptOnly
    ensures var r := Execution(env, args, service, check, Intended);
      var s := SetupOf(env, args, service, check, Intended);
      && |r.requests| <= |args.verbs|
      && AcceptedAreWritten(r.files, args.verbs[..|r.requests|], s)
      && (r.exit.Completed? ==> AcceptedAreWritten(r.files, args.verbs, s))
  {
    var s := SetupOf(env, args, service, check, Intended);
    var r := Loop(Start(env.files), args.verbs, s);
    assert Execution(env, args, service, check, Intended) == r;
    LoopRequests(Start(env.files), args.verbs, s);
    LoopAcceptedWritten(Start(env.files), args.verbs, s);
    AcceptedOfRun(r.files, |r.requests|, r.exit, args.verbs, s);
  }

  /** A run that completed requested every verb, so all accepted replies are covered. */
  lemma AcceptedOfRun(files: map<string, string>, n: nat, exit: Exit, verbs: seq<string>, s: Setup)
    requires n <= |verbs| && (exit.Completed? ==> n == |verbs|)
    requires AcceptedAreWritten(files, verbs[..n], s)
    ensures exit.Completed? ==> AcceptedAreWritten(files, verbs, s)
  {
    assert verbs[..|verbs|] == verbs;
  }

  /**
   * What the run reports: "saved" or "failed", one line per requested verb in list
   * order, except for the verb whose reply could not be loaded when the run crashed;
   * standard error holds the fetch and validation errors of the same verbs, in order.
   */
  lemma ReportsPerVerb(env: Env, args: Args, service: Service, check: Checker)
    requires Ready(env, args) && !args.promptOnly
    ensures var r := Execution(env, args, service, check, Intended);
      RunReports(r.stdout, r.stderr, r.requests, r.exit, args.verbs, SetupOf(env, args, service, check, Intended))
  {
    var s := SetupOf(env, args, service, check, Intended);
    var r := Loop(Start(env.files), args.verbs, s);
    assert Execution(env, args, service, check, Intended) == r;
    LoopRequests(Start(env.files), args.verbs, s);
    LoopReports(Start(env.files), args.verbs, s);
    ReportsOfRun(r.stdout, r.stderr, r.requests, r.exit, args.verbs, s);
  }

  /**
   * The reports of a run over `verbs`: when it completes, one line per verb and the
   * errors of all verbs; when it crashes, those of the verbs before the last one requested.
   */
  ghost predicate RunReports(stdout: seq<string>, stderr: seq<string>, requests: seq<string>, exit: Exit,
                             verbs: seq<string>, s: Setup) {
    var n := |requests|;
    && (exit.Completed? ==> stdout == Reports(s, verbs) && stderr == ComplaintLog(s, verbs))
    && (exit.Crashed? ==>
          (1 <= n <= |verbs| && stdout == Reports(s, verbs[..n - 1]) && stderr == ComplaintLog(s, verbs[..n - 1])))
  }

  /** The loop's request and report facts give the run's reports. */
  lemma ReportsOfRun(stdout: seq<string>, stderr: seq<string>, requests: seq<string>, exit: Exit,
                     verbs: seq<string>, s: Setup)
    requires RequestFacts(requests, exit, verbs, s)
    requires ReportFacts(stdout, stderr, if exit.Completed? then |requests| else |requests| - 1, verbs, s)
    ensures RunReports(stdout, stderr, requests, exit, verbs, s)
  {
    assert verbs[..|verbs|] == verbs;
  }

  /**
   * As written, the completion call names `api_key`, which is not defined: the first
   * verb outside prompt-only mode raises NameError before any request or file write.
   */
  lemma NameErrorAsWritten(env: Env, args: Args, service: Service, check: Checker)
    requires Ready(env, args) && !args.promptOnly && |args.verbs| > 0
    ensures var r := Execution(env, args, service, check, AsWritten);
      r.exit == Crashed("NameError") && r.requests == [] && r.files == env.files && r.stdout == []
  {
    var s := SetupOf(env, args, service, check, AsWritten);
    AsWrittenLoop(Start(env.files), args.verbs, s);
  }

  lemma {:induction false} AsWrittenLoop(w: World, verbs: seq<string>, s: Setup)
    requires w.exit.Completed? && !s.promptOnly && s.binding == AsWritten && |verbs| > 0
    ensures Loop(w, verbs, s) == w.(exit := Crashed("NameError"))
  {
    if |verbs| > 1 {
      AsWrittenLoop(w, verbs[..|verbs| - 1], s);
    } else {
      assert verbs[..0] == [];
    }
  }

  /** The process as the script drives it: files, output streams, requests sent, and how it ended. */
  class Host {
    var files: map<string, string>
    var stdout: seq<string>
    var stderr: seq<string>
    var requests: seq<string>
    var exit: Exit

    function State(): World
      reads this
    {
      World(files, stdout, stderr, requests, exit)
    }

    constructor (files: map<string, string>)
      ensures State() == Start(files)
    {
      this.files := files;
      stdout, stderr, requests := [], [], [];
      exit := Completed;
    }

    /**
     * `get_conjugation`: one network exchange for `prompt`, then the stripped content,
     * or None with an error line when the exchange raises.
     */
    method FetchConjugation(prompt: string, service: Service) returns (conjugation: Option<string>)
      modifies this
      ensures requests == old(requests) + [prompt]
      ensures var reply := service(|old(requests)|, prompt);
        && conjugation == GetConjugation(reply)
        && stderr == old(stderr) + (if reply.Failure? then [FetchErrorLine(reply.description)] else [])
      ensures files == old(files) && stdout == old(stdout) && exit == old(exit)
    {
      var reply := service(|requests|, prompt);
      requests := requests + [prompt];
      match reply {
        case Content(text) =>
          conjugation := Some(Strip(text));
        case Failure(description) =>
          stderr := stderr + [FetchErrorLine(description)];
          conjugation := None;
      }
    }

    /** `main` after argument parsing, with the intended key passed to the completion call. */
    method Run(args: Args, apiKey: Option<string>, schema: Option<string>, service: Service, check: Checker)
      requires State() == Start(files)
      modifies this
      ensures State() == Execution(Env(apiKey, schema, old(files)), args, service, check, Intended)
    {
      if schema.None? {
        exit := Crashed("FileNotFoundError");
        return;
      }
      if apiKey.None? || apiKey.value == [] {
        stderr := stderr + [MissingKeyMessage];
        exit := Exited(1);
        return;
      }
      if ExamplePath(args.output) !in files {
        stderr := stderr + [MissingExampleMessage];
        return;
      }
      var example := files[ExamplePath(args.output)];
      var s := Setup(args.output, args.promptOnly, Instructions, example, schema.value, service, check, Intended);
      ghost var w := State();
      var verbs := args.verbs;
      var i := 0;
      while i < |verbs| && exit.Completed?
        invariant i <= |verbs|
        invariant State() == Loop(w, verbs[..i], s)
      {
        assert verbs[..i + 1][..i] == verbs[..i];
        var verb := verbs[i];
        if s.promptOnly {
          stdout := stdout + [Fill(s.template, verb, s.example, s.schema) + "\n"];
          stdout := stdout + ["\n"];
        } else {
          Attempt(verb, s);
        }
        i := i + 1;
      }
      if i < |verbs| {
        StopsAfterCrash(w, verbs, i, s);
      } else {
        assert verbs[..i] == verbs;
      }
    }

    /** One pass of the loop body for a verb that gets a completion request. */
    method Attempt(verb: string, s: Setup)
      requires exit.Completed?
      modifies this
      ensures State() == ProcessVerb(old(State()), verb, s)
    {
      ghost var w := State();
      var conjugation := FetchConjugation(Fill(s.template, verb, s.example, s.schema), s.service);
      assert conjugation == Answer(s, |w.requests|, verb);
      if conjugation.Some? && conjugation.value != [] {
        var verdict := ValidateConjugation(s.check(conjugation.value));
        if verdict.Raised? {
          exit := Crashed(verdict.exception);
        } else if verdict.value {
          var path := OutputPath(s.output, verb);
          files := files[path := conjugation.value];
          stdout := stdout + [SavedLine(verb, path)];
        } else {
          stderr := stderr + ValidationErrorLines(s.check(conjugation.value));
          stdout := stdout + [FailedLine(verb)];
        }
      } else {
        stdout := stdout + [FailedLine(verb)];
      }
    }
  }

  /** Once the run has ended, the remaining verbs change nothing. */
  lemma {:induction false} StopsAfterCrash(w: World, verbs: seq<string>, i: nat, s: Setup)
    requires i <= |verbs|
    requires !Loop(w, verbs[..i], s).exit.Completed?
    ensures Loop(w, verbs, s) == Loop(w, verbs[..i], s)
  {
    if i < |verbs| {
      assert verbs[..|verbs| - 1][..i] == verbs[..i];
      StopsAfterCrash(w, verbs[..|verbs| - 1], i, s);
    } else {
      assert verbs[..i] == verbs;
    }
  }
}
