# spanish-verbs, modelled in Dafny

This project models the four scripts at the heart of the spanish-verbs
repository. It proves what each one does.

- **conjugate.py**, the conjugation generator (module `Conjugate`). For each
  verb on its command line it builds a prompt and sends one request to a
  completion service. The prompt embeds the verb, the worked example
  `{output}/hablar.yml` and the verb schema. The script writes
  `{output}/{verb}.yml` when the stripped reply is non-empty and passes schema
  validation; in prompt-only mode it prints the prompts instead. The run is a
  `World`: files, stdout and stderr writes, requests sent, and how the run
  ended. The specification function `Execution` says what one run does.
  `Host` is the class whose imperative `Run` method is proved to produce
  exactly that state. The service and the schema check are oracles passed in
  as functions: `Service` maps a request's index and prompt to a reply, and
  `Checker` gives the verdict of loading and validating a text.
- **src/main.rs**, the verb lookup tool (module `VerbLookup`). It loads
  `verbs/{verb}.yml` into the verb record. It then prints a field, one tense
  table, or one pronoun's form from a table. Each handler is a function that
  returns the selected output.
- **generate.py**, the flashcard builder (module `Cards`). It turns each verb
  file into one cloze note `infinitive ({{c1::meaning}})`. The `Deck` class is
  the deck the script fills in place; `BuildDeck` is the path loop of `main`.
- **accent-filter.py**, the accent filter (module `AccentFilter`). It strips
  each input item and prints those that contain an accented vowel, in input
  order.

Two shared modules support these: `Wrappers` (an `Option` type) and `Text`.
`Text` holds the Python string operations the scripts rely on: `str.strip()`
with Python's whitespace set, substring membership, `endswith` and POSIX
`os.path.join`.

Some behaviour of the scripts is easy to misread, and the model follows the code:

- **No correction pass.** conjugate.py makes one request per verb. It has no
  correction request, no skip-if-exists policy, no force flag and no progress
  indicator. `OneRequestPerVerb` proves there is no retry.
- **Load errors crash the run.** `validate_conjugation` catches only
  `ValidationError` (conjugate.py:24). A YAML error while loading a reply
  propagates and ends the run (`ValidateConjugation`, `Crashes`).
- **Missing schema crashes.** `load_schema` (conjugate.py:52) runs before the
  key is checked. A missing `verb-schema.yml` raises an uncaught
  `FileNotFoundError`, and `Execution` models it so.
- **Empty values count as missing.** The key check `if not OPENAI_API_KEY`
  rejects an empty key. The reply check `if conjugation_yaml and ...` rejects
  an empty stripped reply as well as `None`.
- **18 fields, not 17.** The verb record has 18 top-level fields (4 strings
  and 14 tables, `RecordShape`). The prompt text still asks for "17".

## Model

| member | source | states |
|---|---|---|
| Text.Strip | conjugate.py:40 | `str.strip()`: the result neither starts nor ends with whitespace |
| Text.StripIsStripping | accent-filter.py:14 | the stripped text is a slice of the input flanked only by whitespace |
| Text.StripUnique | accent-filter.py:14 | no other string is a stripping of the input, so `strip` is determined by that description |
| Text.StripIdempotent | accent-filter.py:14 | stripping twice is stripping once |
| Text.Join | conjugate.py:87 | `os.path.join`: the result ends with the second part, and starts with the first unless the second is absolute |
| AccentFilter.FilterAccent | accent-filter.py:6-8 | `filter_accent` as a scan over the characters; its meaning is stated by FilterAccentMeans |
| AccentFilter.FilterAccentMeans | accent-filter.py:6-8 | `filter_accent` holds exactly when some character is one of the ten accented vowels, so the empty string and ü/ñ-only strings fail |
| AccentFilter.FilterAccentConcat | accent-filter.py:8 | `filter_accent` of a concatenation is the `or` of the parts |
| AccentFilter.Selected | accent-filter.py:13-16 | what is printed: at most one line per item, each stripped and containing an accent |
| AccentFilter.SelectedConcat | accent-filter.py:13-16 | filtering keeps input order: the output for a concatenation is the outputs of the parts in turn |
| AccentFilter.SelectedMembers | accent-filter.py:13-16 | a line is printed exactly when it is the stripped form of some item and contains an accent |
| AccentFilter.Run | accent-filter.py:10-18 | arguments win over stdin; stdin is read only when not a terminal; with neither, stdout is empty and stderr holds only the error message |
| VerbLookup.ParsePronoun | src/main.rs:137-145 | exactly the seven spellings yo, tu, vos, ud, nosotros, vosotros, uds name a pronoun |
| VerbLookup.ImperativeForm | src/main.rs:126-133 | the imperative table has a form for every pronoun except yo |
| VerbLookup.HandleTense | src/main.rs:135-150 | no pronoun gives the whole table; each of the seven pronouns gives its own form; any other string gives "Invalid pronoun specified." |
| VerbLookup.HandleTenseWithAlternatives | src/main.rs:152-167 | as HandleTense, except that a pronoun gives its list of alternative forms |
| VerbLookup.HandleImperativeTense | src/main.rs:169-183 | no pronoun gives the whole table; the six imperative pronouns give their forms; "yo" and any unknown string give the invalid-pronoun message |
| VerbLookup.SelectField | src/main.rs:197-203 | always prints one line; any name other than meaning, gerundio or participio-pasado gives "Invalid field specified." |
| VerbLookup.FieldSelectsItsValue | src/main.rs:197-203 | a selectable field name prints the string stored under that key in the record |
| VerbLookup.InfinitivoNotSelectable | src/main.rs:197-203 | infinitivo is stored in the record but asking for it gives the invalid-field message |
| VerbLookup.FieldTakesPrecedence | src/main.rs:197-204 | when a field is given, the tense subcommand makes no difference to the run |
| VerbLookup.KeysDistinct | src/main.rs:67-101 | the record's top-level keys are pairwise distinct |
| VerbLookup.RecordShape | src/main.rs:67-101 | the record has 18 top-level keys in declared order: four strings, then the fourteen tense tables in subcommand order |
| VerbLookup.TenseKeyFound | src/main.rs:74-100 | each tense's key finds the table stored at that tense's place in the record |
| VerbLookup.HandleTenseCommand | src/main.rs:205-220 | the whole table is printed exactly when no pronoun is given; a list of alternatives only for the two subjunctive imperfects |
| VerbLookup.TenseSelectsItsTable | src/main.rs:205-220 | each subcommand prints from the table stored under its own key; only the two subjunctive imperfects use list tables, and only imperativo the imperative table |
| VerbLookup.Dispatch | src/main.rs:197-221 | at most one output; a given field decides it alone; otherwise something is printed exactly when a tense is given |
| VerbLookup.RunCli | src/main.rs:188-204 | the loading line always comes first; a missing `verbs/{verb}.yml` fails before parsing; a file that does not parse fails with the malformed-file error after the loading line; the run succeeds exactly when the file exists and parses, and then prints what the field/tense dispatch selects |
| Cards.ClozeText | generate.py:29 | the note text is the infinitive, then ` ({{c1::`, the meaning and `}})` |
| Cards.ClozeRoundTrip | generate.py:29 | the note text gives back infinitive and meaning when the infinitive has no parenthesis |
| Cards.DecimalString | generate.py:17 | `str(n)` is a non-empty string of decimal digits |
| Cards.DecimalStringValue | generate.py:17 | the digits of `str(n)` spell `n`, with no leading zero |
| Cards.CreateClozeCard | generate.py:14-18 | the note has two fields: the text, then a digit string spelling the cloze number |
| Cards.ClozeCardFields | generate.py:14-18 | the note made with cloze number 1 has fields [text, "1"] |
| Cards.Get | generate.py:22-23 | `data.get(key)` is None exactly when the key is absent or null, and otherwise the stored value |
| Cards.FileOutcome | generate.py:20-30 | each file gives exactly one note or one error; the note exists exactly when meaning and infinitivo are present and not null, and its fields are the cloze text and "1"; otherwise the error names the file |
| Cards.FileNotesAreClozeCards | generate.py:29-30 | every note a file adds is a cloze note with cloze number "1" |
| Cards.YamlEntries | generate.py:36 | only names ending in `.yml` are kept |
| Cards.EntryOutcome | generate.py:35-37 | one walk entry gives one note or error when its name ends in `.yml`, and nothing otherwise |
| Cards.DirectoryOutcome | generate.py:33-37 | a directory gives one note or error per `.yml` file, in walk order |
| Cards.DirectoryIgnoresNonYaml | generate.py:33-37 | a walk gives the same notes and errors as its `.yml` entries alone |
| Cards.DirectoryNotesAreClozeCards | generate.py:33-37 | every note a directory adds is a cloze note |
| Cards.PathOutcome | generate.py:60-64 | one path gives one note or error when it is a file, one per `.yml` file when it is a directory, and nothing otherwise |
| Cards.PathsOutcome | generate.py:60-64 | when none of the paths exists, nothing is added and nothing is reported |
| Cards.PathsConcat | generate.py:60-64 | notes accumulate in path order: a concatenated path list gives the notes of the first list, then those of the second |
| Cards.UnknownPathIgnored | generate.py:60-64 | a path that is neither a directory nor a file adds no note and no error |
| Cards.NotesAreClozeCards | generate.py:60-64 | every note of the deck is `infinitive ({{c1::meaning}})` with cloze number "1" |
| Cards.Deck.constructor | generate.py:41 | a new deck has its name and no notes |
| Cards.Deck.AddNote | generate.py:30 | the note is appended to the deck |
| Cards.Deck.ProcessYamlFile | generate.py:20-30 | the deck gains exactly the file's notes, and the file's errors are returned |
| Cards.Deck.ProcessDirectory | generate.py:33-37 | the deck gains exactly the directory's notes, in walk order, and its errors are returned |
| Cards.BuildDeck | generate.py:39-64 | a fresh deck with the given name holds the notes of all paths in order, and the errors are those of all paths |
| Conjugate.FillVerbLayout | conjugate.py:70-78 | the verb follows the opening instructions, and the prompt is the fixed text plus two copies of the verb |
| Conjugate.FillLayout | conjugate.py:70-78 | a prompt contains the verb, the example and the schema whole; its length is the fixed text plus two copies of the verb; the verb follows the head |
| Conjugate.Prompt | conjugate.py:70-78 | the prompt opens by naming the verb; PromptMentions and PromptInjective state the rest |
| Conjugate.PromptMentions | conjugate.py:70-78 | the prompt for a verb contains the verb, the full example text and the schema text |
| Conjugate.VerbOfFill | conjugate.py:70-78 | the verb can be read back from its prompt |
| Conjugate.PromptInjective | conjugate.py:70-78 | different verbs get different prompts |
| Conjugate.GetConjugation | conjugate.py:28-43 | None exactly when the request raised; otherwise a text with no surrounding whitespace |
| Conjugate.GetConjugationStrips | conjugate.py:39-40 | the returned text is the reply content with exactly its surrounding whitespace removed, and no other text is |
| Conjugate.ValidateConjugation | conjugate.py:19-26 | True exactly when the text conforms, False exactly when ValidationError is raised, and any other exception propagates unchanged |
| Conjugate.Prompts | conjugate.py:69-78 | the j-th prompt of a list of verbs is the prompt of the j-th verb |
| Conjugate.PromptListing | conjugate.py:81-83 | prompt-only output is, for each verb in order, its prompt followed by a newline, then an empty line |
| Conjugate.MissingKeyStops | conjugate.py:54-56 | without a non-empty key the run exits with status 1; stderr holds only the message; no request, no stdout, no file change |
| Conjugate.MissingExampleStops | conjugate.py:58-63 | without `{output}/hablar.yml`, `main` returns normally after the message; no request, no stdout, no file change |
| Conjugate.PromptOnlyLoop | conjugate.py:81-83 | in prompt-only mode the loop only appends each prompt and an empty line to stdout, in list order |
| Conjugate.PromptOnlyPrints | conjugate.py:81-83 | in prompt-only mode every prompt is printed in list order, with no request, no file write and no error |
| Conjugate.ProcessVerb | conjugate.py:85-92 | the specification of one verb's pass; ProcessVerbRequests, ProcessVerbFiles and ProcessVerbReports state its effects |
| Conjugate.Step | conjugate.py:69-92 | one iteration: nothing once the run has ended, the prompt in prompt-only mode, NameError as written, otherwise ProcessVerb |
| Conjugate.Loop | conjugate.py:69-92 | the iterations over the verbs in list order; LoopRequests, LoopWrites, LoopAcceptedWritten and LoopReports state what they do |
| Conjugate.Execution | conjugate.py:45-92 | one run of `main`: schema load, key check, example read, then the loop; its lemmas are those citing conjugate.py:45-92 |
| Conjugate.ProcessVerbRequests | conjugate.py:85-86 | one verb sends exactly its prompt once; the run ends there exactly when loading the reply raises |
| Conjugate.ProcessVerbFiles | conjugate.py:86-92 | one verb writes its output path with the reply text when the reply is accepted, and changes no file otherwise |
| Conjugate.ProcessVerbReports | conjugate.py:85-92 | an accepted reply prints the "saved" line and no error; a reply that cannot be loaded prints nothing; any other outcome prints the "failed" line; stderr gets the fetch error when the request raised (conjugate.py:42), the validation message when a non-empty reply fails the schema (conjugate.py:25), and nothing otherwise |
| Conjugate.Report | conjugate.py:86-92 | the report line of a verb whose reply can be loaded: "saved" when accepted, "failed" otherwise |
| Conjugate.Complaints | conjugate.py:25-42 | the error lines of one verb's request: the fetch error, or the validation message of a non-empty reply |
| Conjugate.ProcessVerbLog | conjugate.py:85-92 | from a running state one verb makes one request; it crashes exactly when its reply cannot be loaded, and otherwise appends its report line and its error lines |
| Conjugate.ReportsAt | conjugate.py:69-92 | the j-th report line is that of the j-th verb |
| Conjugate.LoopReports | conjugate.py:69-92 | the loop's stdout and stderr are the report lines and error lines of the verbs requested, except the one whose reply ended the run |
| Conjugate.LoopRequests | conjugate.py:69-92 | the requests are the prompts of a prefix of the verbs in order; the prefix is all verbs unless the last requested verb's reply could not be loaded |
| Conjugate.LoopStep | conjugate.py:85-92 | a loop pass while running makes one more request and changes the files only as ProcessVerbFiles says; after a crash it changes nothing |
| Conjugate.WritesStep | conjugate.py:86-89 | one more pass keeps "every changed file holds an accepted reply" |
| Conjugate.WritesExtend | conjugate.py:86-89 | a change caused by some of the verbs is a change caused by the whole list |
| Conjugate.AcceptedStep | conjugate.py:86-89 | one more pass keeps "every accepted reply is on disk unless overwritten later" |
| Conjugate.LoopWrites | conjugate.py:69-92 | every file the loop changes is the output path of an accepted verb and holds that verb's stripped reply |
| Conjugate.LoopAcceptedWritten | conjugate.py:69-92 | every reply accepted by the loop, completed or crashed, is on disk unless a later requested verb's accepted reply wrote the same path |
| Conjugate.OneRequestPerVerb | conjugate.py:69-92 | each verb, in list order, gets exactly one request and there are no others; the run stops early only on a reply that cannot be loaded, and completes when none is such |
| Conjugate.WritesOnlyAcceptedReplies | conjugate.py:85-90 | a file changes only at the output path of a verb whose reply was non-empty and valid, and then holds exactly that reply |
| Conjugate.AcceptedRepliesWritten | conjugate.py:85-90 | every reply accepted before the run ended stays at its path unless a later accepted verb wrote the same path; when the run completes this covers every verb |
| Conjugate.ReportsPerVerb | conjugate.py:69-92 | a completed run prints one report line per verb in list order and the error lines of every verb; a crashed run prints those of the verbs before the one whose reply could not be loaded |
| Conjugate.NameErrorAsWritten | conjugate.py:85 | as written, the first verb outside prompt-only mode raises NameError before any request, output or write |
| Conjugate.AsWrittenLoop | conjugate.py:85 | as written, the loop ends at its first verb with NameError and nothing else changes |
| Conjugate.StopsAfterCrash | conjugate.py:69-92 | once the run has ended, the remaining verbs change nothing |
| Conjugate.Host.constructor | conjugate.py:45 | the process starts over its files with empty streams, no requests and a normal exit state |
| Conjugate.Host.FetchConjugation | conjugate.py:28-43 | one request with the prompt; the stripped content, or None with one error line when the request raised; nothing else changes |
| Conjugate.Host.Attempt | conjugate.py:85-92 | one verb's pass changes the process state exactly as the specification `ProcessVerb` says |
| Conjugate.Host.Run | conjugate.py:45-92 | the whole of `main` after argument parsing leaves the process in the state `Execution` describes, with the key passed as intended |

## Left out

- The OpenAI call (conjugate.py:32-38) is the `Service` oracle, indexed by the request's position in the run. Model choice, message list and `openai.api_key` are not modelled.
- `jsonschema.validate` and ruamel YAML loading (conjugate.py:16-22) are the `Checker` oracle. It can give conformance, a schema ValidationError or another exception.
- `load_schema` (conjugate.py:15-17) is the environment's `schema`. It holds the text the loaded schema renders as inside the prompt, or None when the file cannot be opened. Other load failures are not distinguished.
- The prompt's fixed text is taken verbatim into `Instructions`; the loop reads it through the `Setup` record's template.
- Directory creation (conjugate.py:65-67) is not modelled, and neither are failures to write an output file (conjugate.py:88-89).
- An uncaught exception is recorded by its exception name only. Neither the traceback nor the interpreter's exit status is modelled.
- stdout and stderr are kept as separate sequences; how they interleave on a terminal is not modelled.
- argparse (conjugate.py:46-50, generate.py:69-87) and clap (src/main.rs:185-186) parsing are left out. The models start from the parsed arguments.
- serde_yaml deserialisation (src/main.rs:195) is the `parse` parameter of `RunCli`. A text that does not deserialise ends the run with `MalformedVerbFile`; the error's text is not modelled.
- VerbLookup.RunCli: a `verbs/{verb}.yml` that exists but cannot be read is not modelled. Such a file passes the existence check (src/main.rs:190) and then fails `read_to_string` (src/main.rs:194). The model's `files` holds only readable files, so it reports such a file as missing.
- Conjugate.Execution: an `{output}/hablar.yml` that exists but cannot be read is not modelled. Examples are a directory, a file without read permission, or text that is not valid UTF-8. The source catches only `FileNotFoundError` (conjugate.py:61), so such a file crashes it with an uncaught exception. The model's `files` holds only readable files, so it takes the missing-example path instead; `Host.Run` inherits this.
- Rust's debug print formats, pretty and plain (src/main.rs:148, 155-161, 165, 181) are not modelled. A whole table or a list of alternatives is output as a value, not as text.
- genanki packaging, `write_to_file`, the note model, and the deck and model identifiers taken from the clock are not modelled (generate.py:40-58, 66).
- YAML loading in generate.py (generate.py:10-12) is left out; each file's top-level mapping is given. A file that fails to load, or whose top level is not a mapping, is not modelled.
- `os.walk` traversal order: a directory is given as the sequence of files its walk yields.
- `os.isatty` is the `stdinIsTty` parameter of `AccentFilter.Run`.
- validate.py (a dictionary-API client and file renames) is not part of this model.
- The correction request, the skip-if-exists policy, the force flag and the progress indicator are absent from conjugate.py and are not modelled.
- Conjugate.Host.Run: it takes the key binding as intended (`Intended`). The behaviour as written is stated by `NameErrorAsWritten` on the specification only; see Findings.

## Findings

| source | as written | input that shows it | evidently intended | confidence | as-written member | corrected member |
|---|---|---|---|---|---|---|
| conjugate.py:85 | the completion call passes `api_key`, a name bound nowhere in the module, so the first verb outside prompt-only mode raises NameError before any request | a set `OPENAI_API_KEY`, an existing `{output}/hablar.yml`, and one verb without `-p` | pass `OPENAI_API_KEY`, so that every verb gets its one request | high (not executed) | Conjugate.NameErrorAsWritten | Conjugate.OneRequestPerVerb |
