/**
 * The verb lookup command: it loads `verbs/<verb>.yml`, deserialises it into the
 * eighteen-field conjugation record and prints either one scalar field or one
 * tense table (the whole table, or the form of one pronoun).
 *
 * Printing is the command's only effect; each handler is modelled as the function
 * that returns what it prints. The debug formats of whole tables and of lists of
 * alternatives are abstracted to the printed value itself.
 */
module VerbLookup {
  import opened Wrappers

  /** One tense in which each of the seven pronouns has a single form. */
  datatype Conjugation = Conjugation(
    yo: string, tu: string, vos: string, ud: string,
    nosotros: string, vosotros: string, uds: string)

  /** One tense in which each pronoun has a list of alternative forms. */
  datatype ConjugationWithAlternatives = ConjugationWithAlternatives(
    yo: seq<string>, tu: seq<string>, vos: seq<string>, ud: seq<string>,
    nosotros: seq<string>, vosotros: seq<string>, uds: seq<string>)

  /** The imperative, which has no first person singular. */
  datatype ImperativeConjugation = ImperativeConjugation(
    tu: string, vos: string, ud: string,
    nosotros: string, vosotros: string, uds: string)

  /** The record stored in a verb file: four strings and fourteen tense tables. */
  datatype VerbConjugation = VerbConjugation(
    meaning: string,
    infinitivo: string,
    gerundio: string,
    participioPasado: string,
    presenteIndicativo: Conjugation,
    preteritoPerfectoSimple: Conjugation,
    preteritoImperfecto: Conjugation,
    futuroSimple: Conjugation,
    condicionalSimple: Conjugation,
    presentePerfecto: Conjugation,
    preteritoPluscuamperfecto: Conjugation,
    futuroPerfecto: Conjugation,
    condicionalPerfecto: Conjugation,
    presenteSubjuntivo: Conjugation,
    preteritoPerfectoSubjuntivo: Conjugation,
    imperfectoSubjuntivo: ConjugationWithAlternatives,
    pluscuamperfectoSubjuntivo: ConjugationWithAlternatives,
    imperativo: ImperativeConjugation)

  /** The fourteen tense subcommands. */
  datatype Tense =
    | PresenteIndicativo | PreteritoPerfectoSimple | PreteritoImperfecto
    | FuturoSimple | CondicionalSimple | PresentePerfecto
    | PreteritoPluscuamperfecto | FuturoPerfecto | CondicionalPerfecto
    | PresenteSubjuntivo | PreteritoPerfectoSubjuntivo | ImperfectoSubjuntivo
    | PluscuamperfectoSubjuntivo | Imperativo

  /** A tense subcommand with its optional pronoun argument. */
  datatype TenseCommand = TenseCommand(tense: Tense, pronoun: Option<string>)

  /** The parsed command line: the verb, an optional tense subcommand, an optional field. */
  datatype Cli = Cli(verb: string, tense: Option<TenseCommand>, field: Option<string>)

  /** The seven pronouns a tense table is indexed by. */
  datatype Pronoun = Yo | Tu | Vos | Ud | Nosotros | Vosotros | Uds

  /** A whole tense table, as printed when no pronoun is given. */
  datatype Table =
    | Simple(simple: Conjugation)
    | WithAlternatives(alternatives: ConjugationWithAlternatives)
    | Imperative(imperative: ImperativeConjugation)

  /** One printed line: a string, a list of alternatives, or a whole table. */
  datatype Output = Line(text: string) | FormList(forms: seq<string>) | WholeTable(table: Table)

  /** A top-level value of the verb file: a string or a tense table. */
  datatype Value = Scalar(text: string) | TableValue(table: Table)

  /** The result of one run: what was printed, and the error the run ended with, if any. */
  datatype Run = Run(stdout: seq<Output>, failure: Option<string>)

  const InvalidPronoun: string := "Invalid pronoun specified."
  const InvalidField: string := "Invalid field specified."
  const MissingVerbFile: string := "The specified verb file does not exist."
  /** The error a verb file that does not deserialise into the record ends the run with. */
  const MalformedVerbFile: string := "The verb file does not deserialise into a verb record."

  /** The command-line spelling of each pronoun. */
  function PronounName(p: Pronoun): string {
    match p
    case Yo => "yo"
    case Tu => "tu"
    case Vos => "vos"
    case Ud => "ud"
    case Nosotros => "nosotros"
    case Vosotros => "vosotros"
    case Uds => "uds"
  }

  /** Reading a pronoun from the command line: exactly the seven spellings are accepted. */
  function ParsePronoun(s: string): (r: Option<Pronoun>)
    ensures r.Some? ==> PronounName(r.value) == s
    ensures r.None? ==> forall p :: PronounName(p) != s
  {
    match s
    case "yo" => Some(Yo)
    case "tu" => Some(Tu)
    case "vos" => Some(Vos)
    case "ud" => Some(Ud)
    case "nosotros" => Some(Nosotros)
    case "vosotros" => Some(Vosotros)
    case "uds" => Some(Uds)
    case _ => None
  }

  /** The form of pronoun `p` in table `c`. */
  function Form(c: Conjugation, p: Pronoun): string {
    match p
    case Yo => c.yo
    case Tu => c.tu
    case Vos => c.vos
    case Ud => c.ud
    case Nosotros => c.nosotros
    case Vosotros => c.vosotros
    case Uds => c.uds
  }

  /** The alternative forms of pronoun `p` in table `c`. */
  function Forms(c: ConjugationWithAlternatives, p: Pronoun): seq<string> {
    match p
    case Yo => c.yo
    case Tu => c.tu
    case Vos => c.vos
    case Ud => c.ud
    case Nosotros => c.nosotros
    case Vosotros => c.vosotros
    case Uds => c.uds
  }

  /** The imperative form of pronoun `p`, where there is one. */
  function ImperativeForm(c: ImperativeConjugation, p: Pronoun): (r: Option<string>)
    ensures r.None? <==> p == Yo
  {
    match p
    case Yo => None
    case Tu => Some(c.tu)
    case Vos => Some(c.vos)
    case Ud => Some(c.ud)
    case Nosotros => Some(c.nosotros)
    case Vosotros => Some(c.vosotros)
    case Uds => Some(c.uds)
  }

  /** `handle_tense`: the whole table, the named pronoun's form, or the invalid-pronoun message. */
  function HandleTense(c: Conjugation, pronoun: Option<string>): (r: Output)
    ensures pronoun.None? ==> r == WholeTable(Simple(c))
    ensures forall p :: pronoun == Some(PronounName(p)) ==> r == Line(Form(c, p))
    ensures pronoun.Some? && ParsePronoun(pronoun.value).None? ==> r == Line(InvalidPronoun)
  {
    match pronoun
    case None => WholeTable(Simple(c))
    case Some(name) =>
      match name
      case "yo" => Line(c.yo)
      case "tu" => Line(c.tu)
      case "vos" => Line(c.vos)
      case "ud" => Line(c.ud)
      case "nosotros" => Line(c.nosotros)
      case "vosotros" => Line(c.vosotros)
      case "uds" => Line(c.uds)
      case _ => Line(InvalidPronoun)
  }

  /** `handle_tense_with_alternatives`: as HandleTense, but a pronoun selects its list of alternatives. */
  function HandleTenseWithAlternatives(c: ConjugationWithAlternatives, pronoun: Option<string>): (r: Output)
    ensures pronoun.None? ==> r == WholeTable(WithAlternatives(c))
    ensures forall p :: pronoun == Some(PronounName(p)) ==> r == FormList(Forms(c, p))
    ensures pronoun.Some? && ParsePronoun(pronoun.value).None? ==> r == Line(InvalidPronoun)
  {
    match pronoun
    case None => WholeTable(WithAlternatives(c))
    case Some(name) =>
      match name
      case "yo" => FormList(c.yo)
      case "tu" => FormList(c.tu)
      case "vos" => FormList(c.vos)
      case "ud" => FormList(c.ud)
      case "nosotros" => FormList(c.nosotros)
      case "vosotros" => FormList(c.vosotros)
      case "uds" => FormList(c.uds)
      case _ => Line(InvalidPronoun)
  }

  /** `handle_imperative_tense`: as HandleTense over six pronouns; "yo" is rejected like an unknown pronoun. */
  function HandleImperativeTense(c: ImperativeConjugation, pronoun: Option<string>): (r: Output)
    ensures pronoun.None? ==> r == WholeTable(Imperative(c))
    ensures forall p :: pronoun == Some(PronounName(p)) && ImperativeForm(c, p).Some? ==>
      r == Line(ImperativeForm(c, p).value)
    ensures pronoun == Some("yo") ==> r == Line(InvalidPronoun)
    ensures pronoun.Some? && ParsePronoun(pronoun.value).None? ==> r == Line(InvalidPronoun)
  {
    match pronoun
    case None => WholeTable(Imperative(c))
    case Some(name) =>
      match name
      case "tu" => Line(c.tu)
      case "vos" => Line(c.vos)
      case "ud" => Line(c.ud)
      case "nosotros" => Line(c.nosotros)
      case "vosotros" => Line(c.vosotros)
      case "uds" => Line(c.uds)
      case _ => Line(InvalidPronoun)
  }

  /** The tense dispatch of `main`: each subcommand hands its own table to its handler. */
  function HandleTenseCommand(v: VerbConjugation, cmd: TenseCommand): (r: Output)
    ensures r.WholeTable? <==> cmd.pronoun.None?
    ensures r.FormList? ==> cmd.tense in {ImperfectoSubjuntivo, PluscuamperfectoSubjuntivo}
  {
    var pronoun := cmd.pronoun;
    match cmd.tense
    case PresenteIndicativo => HandleTense(v.presenteIndicativo, pronoun)
    case PreteritoPerfectoSimple => HandleTense(v.preteritoPerfectoSimple, pronoun)
    case PreteritoImperfecto => HandleTense(v.preteritoImperfecto, pronoun)
    case FuturoSimple => HandleTense(v.futuroSimple, pronoun)
    case CondicionalSimple => HandleTense(v.condicionalSimple, pronoun)
    case PresentePerfecto => HandleTense(v.presentePerfecto, pronoun)
    case PreteritoPluscuamperfecto => HandleTense(v.preteritoPluscuamperfecto, pronoun)
    case FuturoPerfecto => HandleTense(v.futuroPerfecto, pronoun)
    case CondicionalPerfecto => HandleTense(v.condicionalPerfecto, pronoun)
    case PresenteSubjuntivo => HandleTense(v.presenteSubjuntivo, pronoun)
    case PreteritoPerfectoSubjuntivo => HandleTense(v.preteritoPerfectoSubjuntivo, pronoun)
    case ImperfectoSubjuntivo => HandleTenseWithAlternatives(v.imperfectoSubjuntivo, pronoun)
    case PluscuamperfectoSubjuntivo => HandleTenseWithAlternatives(v.pluscuamperfectoSubjuntivo, pronoun)
    case Imperativo => HandleImperativeTense(v.imperativo, pronoun)
  }

  /**
   * The field selection of `main`: three of the four scalar fields can be printed
   * (FieldSelectsItsValue); any other name prints the invalid-field message.
   */
  function SelectField(v: VerbConjugation, field: string): (r: Output)
    ensures r.Line?
    ensures field !in {"meaning", "gerundio", "participio-pasado"} ==> r == Line(InvalidField)
  {
    match field
    case "meaning" => Line(v.meaning)
    case "gerundio" => Line(v.gerundio)
    case "participio-pasado" => Line(v.participioPasado)
    case _ => Line(InvalidField)
  }

  /** The key under which each tense table is stored in a verb file. */
  function TableKey(t: Tense): string {
    match t
    case PresenteIndicativo => "presente-indicativo"
    case PreteritoPerfectoSimple => "preterito-perfecto-simple"
    case PreteritoImperfecto => "preterito-imperfecto"
    case FuturoSimple => "futuro-simple"
    case CondicionalSimple => "condicional-simple"
    case PresentePerfecto => "presente-perfecto"
    case PreteritoPluscuamperfecto => "preterito-pluscuamperfecto"
    case FuturoPerfecto => "futuro-perfecto"
    case CondicionalPerfecto => "condicional-perfecto"
    case PresenteSubjuntivo => "presente-subjuntivo"
    case PreteritoPerfectoSubjuntivo => "preterito-perfecto-subjuntivo"
    case ImperfectoSubjuntivo => "imperfecto-subjuntivo"
    case PluscuamperfectoSubjuntivo => "pluscuamperfecto-subjuntivo"
    case Imperativo => "imperativo"
  }

  /** The fourteen tenses in the order the record declares their tables. */
  const AllTenses: seq<Tense> := [
    PresenteIndicativo, PreteritoPerfectoSimple, PreteritoImperfecto, FuturoSimple,
    CondicionalSimple, PresentePerfecto, PreteritoPluscuamperfecto, FuturoPerfecto,
    CondicionalPerfecto, PresenteSubjuntivo, PreteritoPerfectoSubjuntivo,
    ImperfectoSubjuntivo, PluscuamperfectoSubjuntivo, Imperativo
  ]

  /** The position of each tense in AllTenses. */
  function TenseIndex(t: Tense): (i: nat)
    ensures i < |AllTenses| && AllTenses[i] == t
  {
    match t
    case PresenteIndicativo => 0
    case PreteritoPerfectoSimple => 1
    case PreteritoImperfecto => 2
    case FuturoSimple => 3
    case CondicionalSimple => 4
    case PresentePerfecto => 5
    case PreteritoPluscuamperfecto => 6
    case FuturoPerfecto => 7
    case CondicionalPerfecto => 8
    case PresenteSubjuntivo => 9
    case PreteritoPerfectoSubjuntivo => 10
    case ImperfectoSubjuntivo => 11
    case PluscuamperfectoSubjuntivo => 12
    case Imperativo => 13
  }

  /** The record as the verb file holds it: its top-level keys and values, in declaration order. */
  function Fields(v: VerbConjugation): seq<(string, Value)> {
    [ ("meaning", Scalar(v.meaning)),
      ("infinitivo", Scalar(v.infinitivo)),
      ("gerundio", Scalar(v.gerundio)),
      ("participio-pasado", Scalar(v.participioPasado)),
      ("presente-indicativo", TableValue(Simple(v.presenteIndicativo))),
      ("preterito-perfecto-simple", TableValue(Simple(v.preteritoPerfectoSimple))),
      ("preterito-imperfecto", TableValue(Simple(v.preteritoImperfecto))),
      ("futuro-simple", TableValue(Simple(v.futuroSimple))),
      ("condicional-simple", TableValue(Simple(v.condicionalSimple))),
      ("presente-perfecto", TableValue(Simple(v.presentePerfecto))),
      ("preterito-pluscuamperfecto", TableValue(Simple(v.preteritoPluscuamperfecto))),
      ("futuro-perfecto", TableValue(Simple(v.futuroPerfecto))),
      ("condicional-perfecto", TableValue(Simple(v.condicionalPerfecto))),
      ("presente-subjuntivo", TableValue(Simple(v.presenteSubjuntivo))),
      ("preterito-perfecto-subjuntivo", TableValue(Simple(v.preteritoPerfectoSubjuntivo))),
      ("imperfecto-subjuntivo", TableValue(WithAlternatives(v.imperfectoSubjuntivo))),
      ("pluscuamperfecto-subjuntivo", TableValue(WithAlternatives(v.pluscuamperfectoSubjuntivo))),
      ("imperativo", TableValue(Imperative(v.imperativo))) ]
  }

  /** The value stored under `key`: the first entry with that key. */
  function Lookup(fields: seq<(string, Value)>, key: string): Option<Value> {
    if fields == [] then None
    else if fields[0].0 == key then Some(fields[0].1)
    else Lookup(fields[1..], key)
  }

  /** Lookup finds the entry at `i` when no earlier entry has the same key. */
  lemma {:induction false} LookupAt(fields: seq<(string, Value)>, i: nat)
    requires i < |fields|
    requires forall j :: 0 <= j < i ==> fields[j].0 != fields[i].0
    ensures Lookup(fields, fields[i].0) == Some(fields[i].1)
  {
    if i > 0 {
      LookupAt(fields[1..], i - 1);
    }
  }

  /** Print one table for a pronoun argument, according to the kind of table. */
  function HandleTable(table: Table, pronoun: Option<string>): Output {
    match table
    case Simple(c) => HandleTense(c, pronoun)
    case WithAlternatives(c) => HandleTenseWithAlternatives(c, pronoun)
    case Imperative(c) => HandleImperativeTense(c, pronoun)
  }

  /** The path of the file a verb is loaded from. */
  function VerbPath(verb: string): string {
    "verbs/" + verb + ".yml"
  }

  /** What is printed once the record is loaded: a field takes precedence over a tense. */
  function Dispatch(v: VerbConjugation, field: Option<string>, tense: Option<TenseCommand>): (r: seq<Output>)
    ensures |r| <= 1
    ensures field.Some? ==> r == [SelectField(v, field.value)]
    ensures field.None? ==> (r != [] <==> tense.Some?)
  {
    if field.Some? then [SelectField(v, field.value)]
    else if tense.Some? then [HandleTenseCommand(v, tense.value)]
    else []
  }

  /**
   * `main` after argument parsing. `files` holds the readable files by path and
   * `parse` stands for YAML deserialisation (None when the text is not a record).
   */
  function RunCli(cli: Cli, files: map<string, string>, parse: string -> Option<VerbConjugation>): (r: Run)
    ensures |r.stdout| >= 1 && r.stdout[0] == Line("Loading verb file: " + VerbPath(cli.verb))
    ensures VerbPath(cli.verb) !in files ==> r.stdout == r.stdout[..1] && r.failure == Some(MissingVerbFile)
    ensures r.failure.None? <==> VerbPath(cli.verb) in files && parse(files[VerbPath(cli.verb)]).Some?
    ensures VerbPath(cli.verb) in files && parse(files[VerbPath(cli.verb)]).None? ==>
      r.stdout == r.stdout[..1] && r.failure == Some(MalformedVerbFile)
    ensures r.failure.None? ==>
      r.stdout[1..] == Dispatch(parse(files[VerbPath(cli.verb)]).value, cli.field, cli.tense)
  {
    var path := VerbPath(cli.verb);
    var loading := [Line("Loading verb file: " + path)];
    if path !in files then
      Run(loading, Some(MissingVerbFile))
    else
      match parse(files[path])
      case None => Run(loading, Some(MalformedVerbFile))
      case Some(v) => Run(loading + Dispatch(v, cli.field, cli.tense), None)
  }

  /** The top-level keys of the record, in the order it declares them. */
  const Keys: seq<string> := [
    "meaning", "infinitivo", "gerundio", "participio-pasado",
    "presente-indicativo", "preterito-perfecto-simple", "preterito-imperfecto", "futuro-simple",
    "condicional-simple", "presente-perfecto", "preterito-pluscuamperfecto", "futuro-perfecto",
    "condicional-perfecto", "presente-subjuntivo", "preterito-perfecto-subjuntivo",
    "imperfecto-subjuntivo", "pluscuamperfecto-subjuntivo", "imperativo"]

  /** No two top-level keys are the same. */
  lemma KeysDistinct()
    ensures forall i, j :: 0 <= i < j < |Keys| ==> Keys[i] != Keys[j]
  {
  }

  /**
   * The record has eighteen top-level keys, in the declared order: four strings,
   * then the fourteen tense tables in order.
   */
  lemma RecordShape(v: VerbConjugation)
    ensures |Fields(v)| == |Keys| == 18 && |AllTenses| == 14
    ensures forall i :: 0 <= i < 18 ==> Fields(v)[i].0 == Keys[i]
    ensures forall i :: 0 <= i < 4 ==> Fields(v)[i].1.Scalar?
    ensures forall i :: 0 <= i < 14 ==> Keys[4 + i] == TableKey(AllTenses[i]) && Fields(v)[4 + i].1.TableValue?
  {
  }

  /**
   * Each tense subcommand prints from the table stored under its own key, and only
   * the two subjunctive imperfect tenses hold lists of alternatives.
   */
  lemma {:induction false} TenseSelectsItsTable(v: VerbConjugation, cmd: TenseCommand)
    ensures Lookup(Fields(v), TableKey(cmd.tense)).Some?
    ensures var value := Lookup(Fields(v), TableKey(cmd.tense)).value;
      && value.TableValue?
      && HandleTenseCommand(v, cmd) == HandleTable(value.table, cmd.pronoun)
      && (value.table.WithAlternatives? <==> cmd.tense in {ImperfectoSubjuntivo, PluscuamperfectoSubjuntivo})
      && (value.table.Imperative? <==> cmd.tense == Imperativo)
  {
    TenseKeyFound(v, cmd.tense);
    match cmd.tense {
      case PresenteIndicativo =>
      case PreteritoPerfectoSimple =>
      case PreteritoImperfecto =>
      case FuturoSimple =>
      case CondicionalSimple =>
      case PresentePerfecto =>
      case PreteritoPluscuamperfecto =>
      case FuturoPerfecto =>
      case CondicionalPerfecto =>
      case PresenteSubjuntivo =>
      case PreteritoPerfectoSubjuntivo =>
      case ImperfectoSubjuntivo =>
      case PluscuamperfectoSubjuntivo =>
      case Imperativo =>
    }
  }

  /** The key of a tense finds the table stored in that tense's place in the record. */
  lemma TenseKeyFound(v: VerbConjugation, t: Tense)
    ensures Lookup(Fields(v), TableKey(t)) == Some(Fields(v)[4 + TenseIndex(t)].1)
  {
    RecordShape(v);
    KeysDistinct();
    LookupAt(Fields(v), 4 + TenseIndex(t));
  }

  /** A selectable field prints the string stored under that key. */
  lemma FieldSelectsItsValue(v: VerbConjugation, field: string)
    requires field in {"meaning", "gerundio", "participio-pasado"}
    ensures Lookup(Fields(v), field) == Some(Scalar(SelectField(v, field).text))
  {
    RecordShape(v);
    KeysDistinct();
    if field == "meaning" {
      LookupAt(Fields(v), 0);
    } else if field == "gerundio" {
      LookupAt(Fields(v), 2);
    } else {
      LookupAt(Fields(v), 3);
    }
  }

  /** When a field is given, the tense subcommand makes no difference. */
  lemma FieldTakesPrecedence(
    verb: string, field: string, t1: Option<TenseCommand>, t2: Option<TenseCommand>,
    files: map<string, string>, parse: string -> Option<VerbConjugation>)
    ensures RunCli(Cli(verb, t1, Some(field)), files, parse) == RunCli(Cli(verb, t2, Some(field)), files, parse)
  {
  }

  /** The infinitive is stored in the file but cannot be selected as a field. */
  lemma InfinitivoNotSelectable(v: VerbConjugation)
    ensures Lookup(Fields(v), "infinitivo") == Some(Scalar(v.infinitivo))
    ensures SelectField(v, "infinitivo") == Line(InvalidField)
  {
  }
}
