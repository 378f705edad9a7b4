/**
 * The flashcard deck builder: for every verb file named on the command line (or
 * found under a named directory) it adds one cloze note `infinitive ({{c1::meaning}})`
 * to a deck, in the order the paths are given.
 *
 * The deck is the object the script mutates; packaging it to a file, and the deck
 * and model identifiers taken from the clock, are outside this model.
 */
module Cards {
  import opened Wrappers
  import opened Text

  /** A top-level YAML value: null, or a value rendered as the f-string would render it. */
  datatype Value = Null | Scalar(text: string)

  /** A loaded verb file: its top-level mapping. */
  type Document = map<string, Value>

  /** One note of the deck: its field values. */
  datatype Note = Note(fields: seq<string>)

  /** A file reported by the directory walk: the directory it was found in, its name and its contents. */
  datatype WalkEntry = WalkEntry(root: string, name: string, doc: Document)

  /** What a command-line path names: a directory (with the files its walk yields, in walk order) or a file. */
  datatype Entry = Directory(walk: seq<WalkEntry>) | RegularFile(doc: Document)

  /** The paths that exist; a path absent from the map is neither a directory nor a file. */
  type FileSystem = map<string, Entry>

  /** The notes added to the deck and the lines written to standard error. */
  datatype Outcome = Outcome(notes: seq<Note>, errors: seq<string>)

  function Combine(a: Outcome, b: Outcome): Outcome {
    Outcome(a.notes + b.notes, a.errors + b.errors)
  }

  lemma AppendAssoc<T>(a: seq<T>, b: seq<T>, c: seq<T>)
    ensures (a + b) + c == a + (b + c)
  {
  }

  /** `data.get(key)` when it is not None: the key is present with a non-null value. */
  function Get(doc: Document, key: string): (r: Option<string>)
    ensures r.None? <==> key !in doc || doc[key] == Null
    ensures r.Some? ==> doc[key] == Scalar(r.value)
  {
    if key in doc && doc[key].Scalar? then Some(doc[key].text) else None
  }

  const ClozeOpen: string := " ({{c1::"
  const ClozeClose: string := "}})"

  /** The note text of a verb: the infinitive followed by its meaning as cloze deletion 1. */
  function ClozeText(infinitive: string, meaning: string): (r: string)
    ensures StartsWith(r, infinitive) && EndsWith(r, meaning + ClozeClose)
    ensures |r| == |infinitive| + |ClozeOpen| + |meaning| + |ClozeClose|
  {
    infinitive + ClozeOpen + meaning + ClozeClose
  }

  /** The position of the first `(` in `t`, or `|t|` when there is none. */
  function FirstParen(t: string): (k: nat)
    ensures k <= |t|
    ensures k < |t| ==> t[k] == '('
    ensures forall j :: 0 <= j < k ==> t[j] != '('
  {
    if t == [] || t[0] == '(' then 0 else 1 + FirstParen(t[1..])
  }

  /** Reading a note text back into infinitive and meaning, splitting at the first parenthesis. */
  function ParseCloze(t: string): Option<(string, string)> {
    var k := FirstParen(t);
    if 1 <= k && t[k - 1] == ' ' && k + 7 + |ClozeClose| <= |t|
       && t[k - 1..k + 7] == ClozeOpen && EndsWith(t, ClozeClose)
    then Some((t[..k - 1], t[k + 7..|t| - |ClozeClose|]))
    else None
  }

  lemma {:induction false} FirstParenAfter(p: string, rest: string)
    requires '(' !in p && rest != [] && rest[0] == '('
    ensures FirstParen(p + rest) == |p|
  {
    if p == [] {
      assert p + rest == rest;
    } else {
      assert (p + rest)[0] == p[0];
      assert (p + rest)[1..] == p[1..] + rest;
      FirstParenAfter(p[1..], rest);
    }
  }

  /** The note text determines infinitive and meaning when the infinitive has no parenthesis. */
  lemma ClozeRoundTrip(infinitive: string, meaning: string)
    requires '(' !in infinitive
    ensures ParseCloze(ClozeText(infinitive, meaning)) == Some((infinitive, meaning))
  {
    var t := ClozeText(infinitive, meaning);
    var k := |infinitive| + 1;
    assert t == (infinitive + [' ']) + (ClozeOpen[1..] + meaning + ClozeClose);
    assert '(' !in infinitive + [' '];
    FirstParenAfter(infinitive + [' '], ClozeOpen[1..] + meaning + ClozeClose);
    assert t[k - 1..k + 7] == ClozeOpen;
    assert t[..k - 1] == infinitive;
    assert t[k + 7..|t| - |ClozeClose|] == meaning;
  }

  /** `str(n)` for a natural number. */
  function DecimalString(n: nat): (r: string)
    ensures |r| >= 1 && forall k :: 0 <= k < |r| ==> '0' <= r[k] <= '9'
  {
    var digit := ['0' + ((n % 10) as char)];
    if n < 10 then digit else DecimalString(n / 10) + digit
  }

  /** The number a string of decimal digits spells, most significant digit first. */
  function DigitsValue(r: string): nat
    requires forall k :: 0 <= k < |r| ==> '0' <= r[k] <= '9'
  {
    if r == [] then 0 else 10 * DigitsValue(r[..|r| - 1]) + ((r[|r| - 1] - '0') as nat)
  }

  /** `str(n)` spells `n`, with no leading zero. */
  lemma {:induction false} DecimalStringValue(n: nat)
    ensures DigitsValue(DecimalString(n)) == n
    ensures |DecimalString(n)| > 1 ==> DecimalString(n)[0] != '0'
  {
    var r := DecimalString(n);
    if n >= 10 {
      var q := DecimalString(n / 10);
      DecimalStringValue(n / 10);
      assert r[..|r| - 1] == q;
      assert r[0] == q[0];
    }
  }

  /** `create_anki_cloze_card`: a note whose fields are the text and the cloze number. */
  function CreateClozeCard(text: string, clozeNumber: nat): (r: Note)
    ensures |r.fields| == 2 && r.fields[0] == text
    ensures forall k :: 0 <= k < |r.fields[1]| ==> '0' <= r.fields[1][k] <= '9'
    ensures DigitsValue(r.fields[1]) == clozeNumber
  {
    DecimalStringValue(clozeNumber);
    Note([text, DecimalString(clozeNumber)])
  }

  /** A note as the builder makes it: the cloze text of some verb, and cloze number 1. */
  ghost predicate IsClozeNote(n: Note) {
    |n.fields| == 2 && n.fields[1] == "1"
    && exists infinitive, meaning :: n.fields[0] == ClozeText(infinitive, meaning)
  }

  function MissingFieldError(path: string): string {
    "Error in file " + path + ": Missing 'meaning' or 'infinitivo'"
  }

  /**
   * `process_yaml_file`: one note when both `meaning` and `infinitivo` are present and
   * not null, otherwise one error line and no note.
   */
  function FileOutcome(path: string, doc: Document): (r: Outcome)
    ensures |r.notes| + |r.errors| == 1
    ensures r.notes != [] <==> Get(doc, "meaning").Some? && Get(doc, "infinitivo").Some?
    ensures r.notes != [] ==>
      r.notes[0].fields == [ClozeText(Get(doc, "infinitivo").value, Get(doc, "meaning").value), "1"]
    ensures r.notes == [] ==> r.errors == [MissingFieldError(path)]
  {
    var meaning := Get(doc, "meaning");
    var infinitive := Get(doc, "infinitivo");
    if meaning.None? || infinitive.None? then
      Outcome([], [MissingFieldError(path)])
    else
      Outcome([CreateClozeCard(ClozeText(infinitive.value, meaning.value), 1)], [])
  }

  predicate IsYamlName(name: string) {
    EndsWith(name, ".yml")
  }

  /** The entries of a walk whose names end in `.yml`, in walk order. */
  function YamlEntries(walk: seq<WalkEntry>): (r: seq<WalkEntry>)
    ensures forall k :: 0 <= k < |r| ==> IsYamlName(r[k].name)
  {
    if walk == [] then []
    else
      var rest := YamlEntries(walk[..|walk| - 1]);
      var e := walk[|walk| - 1];
      if IsYamlName(e.name) then rest + [e] else rest
  }

  /** `process_directory`: every `.yml` file of the walk, in walk order, gives one note or one error. */
  function DirectoryOutcome(walk: seq<WalkEntry>): (r: Outcome)
    ensures |r.notes| + |r.errors| == |YamlEntries(walk)|
  {
    if walk == [] then Outcome([], [])
    else
      Combine(DirectoryOutcome(walk[..|walk| - 1]), EntryOutcome(walk[|walk| - 1]))
  }

  /** One file of a directory walk: processed when its name ends in `.yml`, skipped otherwise. */
  function EntryOutcome(e: WalkEntry): (r: Outcome)
    ensures |r.notes| + |r.errors| == if IsYamlName(e.name) then 1 else 0
  {
    if IsYamlName(e.name) then FileOutcome(Join(e.root, e.name), e.doc) else Outcome([], [])
  }

  /** The path dispatch of `main` for one command-line path. */
  function PathOutcome(fs: FileSystem, path: string): (r: Outcome)
    ensures |r.notes| + |r.errors| ==
      if path !in fs then 0 else if fs[path].RegularFile? then 1 else |YamlEntries(fs[path].walk)|
  {
    if path !in fs then Outcome([], [])
    else
      match fs[path]
      case Directory(walk) => DirectoryOutcome(walk)
      case RegularFile(doc) => FileOutcome(path, doc)
  }

  /** What `main` adds for its list of paths, in the order the paths are given. */
  function PathsOutcome(fs: FileSystem, paths: seq<string>): (r: Outcome)
    ensures (forall k :: 0 <= k < |paths| ==> paths[k] !in fs) ==> r == Outcome([], [])
  {
    if paths == [] then Outcome([], [])
    else
      var init := paths[..|paths| - 1];
      assert forall k :: 0 <= k < |init| ==> init[k] == paths[k];
      Combine(PathsOutcome(fs, init), PathOutcome(fs, paths[|paths| - 1]))
  }

  /** The card for a verb file carries the cloze text and the cloze number "1". */
  lemma ClozeCardFields(text: string)
    ensures CreateClozeCard(text, 1).fields == [text, "1"]
  {
  }

  /** A directory walk gives the same notes and errors as its `.yml` entries alone. */
  lemma {:induction false} DirectoryIgnoresNonYaml(walk: seq<WalkEntry>)
    ensures DirectoryOutcome(walk) == DirectoryOutcome(YamlEntries(walk))
  {
    if walk != [] {
      var init := walk[..|walk| - 1];
      var e := walk[|walk| - 1];
      DirectoryIgnoresNonYaml(init);
      if IsYamlName(e.name) {
        var ys := YamlEntries(init) + [e];
        assert ys[..|ys| - 1] == YamlEntries(init);
      }
    }
  }

  /** Processing a concatenation of path lists processes each list in turn. */
  lemma {:induction false} PathsConcat(fs: FileSystem, a: seq<string>, b: seq<string>)
    ensures PathsOutcome(fs, a + b) == Combine(PathsOutcome(fs, a), PathsOutcome(fs, b))
  {
    if b == [] {
      assert a + b == a;
    } else {
      var b' := b[..|b| - 1];
      var last := PathOutcome(fs, b[|b| - 1]);
      assert (a + b)[..|a + b| - 1] == a + b';
      assert (a + b)[|a + b| - 1] == b[|b| - 1];
      PathsConcat(fs, a, b');
      var pa, pb := PathsOutcome(fs, a), PathsOutcome(fs, b');
      assert PathsOutcome(fs, a + b) == Combine(Combine(pa, pb), last);
      AppendAssoc(pa.notes, pb.notes, last.notes);
      AppendAssoc(pa.errors, pb.errors, last.errors);
    }
  }

  /** Every note a file adds is a cloze note. */
  lemma FileNotesAreClozeCards(path: string, doc: Document)
    ensures forall k :: 0 <= k < |FileOutcome(path, doc).notes| ==> IsClozeNote(FileOutcome(path, doc).notes[k])
  {
    var o := FileOutcome(path, doc);
    if o.notes != [] {
      var infinitive, meaning := Get(doc, "infinitivo").value, Get(doc, "meaning").value;
      assert o.notes[0].fields[0] == ClozeText(infinitive, meaning);
    }
  }

  /** Every note a directory adds is a cloze note. */
  lemma {:induction false} DirectoryNotesAreClozeCards(walk: seq<WalkEntry>)
    ensures forall k :: 0 <= k < |DirectoryOutcome(walk).notes| ==> IsClozeNote(DirectoryOutcome(walk).notes[k])
  {
    if walk != [] {
      var e := walk[|walk| - 1];
      DirectoryNotesAreClozeCards(walk[..|walk| - 1]);
      FileNotesAreClozeCards(Join(e.root, e.name), e.doc);
    }
  }

  /** Every note of the deck is `infinitive ({{c1::meaning}})` with cloze number "1". */
  lemma {:induction false} NotesAreClozeCards(fs: FileSystem, paths: seq<string>)
    ensures forall k :: 0 <= k < |PathsOutcome(fs, paths).notes| ==> IsClozeNote(PathsOutcome(fs, paths).notes[k])
  {
    if paths != [] {
      var p := paths[|paths| - 1];
      NotesAreClozeCards(fs, paths[..|paths| - 1]);
      if p in fs {
        match fs[p]
        case Directory(walk) => DirectoryNotesAreClozeCards(walk);
        case RegularFile(doc) => FileNotesAreClozeCards(p, doc);
      }
    }
  }

  /** A path that is neither a directory nor a file adds nothing and reports nothing. */
  lemma UnknownPathIgnored(fs: FileSystem, a: seq<string>, p: string, b: seq<string>)
    requires p !in fs
    ensures PathsOutcome(fs, a + [p] + b) == PathsOutcome(fs, a + b)
  {
    PathsConcat(fs, a + [p], b);
    PathsConcat(fs, a, [p]);
    var single := PathsOutcome(fs, [p]);
    assert single == Outcome([], []);
    var pa := PathsOutcome(fs, a);
    assert Combine(pa, single) == pa by {
      assert pa.notes + [] == pa.notes;
      assert pa.errors + [] == pa.errors;
    }
    PathsConcat(fs, a, b);
  }

  /** The deck the script fills: its name and the notes added so far. */
  class Deck {
    const name: string
    var notes: seq<Note>

    constructor (name: string)
      ensures this.name == name && notes == []
    {
      this.name := name;
      notes := [];
    }

    /** `deck.add_note`. */
    method AddNote(n: Note)
      modifies this
      ensures notes == old(notes) + [n]
    {
      notes := notes + [n];
    }

    /** `process_yaml_file` applied to this deck. */
    method ProcessYamlFile(path: string, doc: Document) returns (errors: seq<string>)
      modifies this
      ensures notes == old(notes) + FileOutcome(path, doc).notes
      ensures errors == FileOutcome(path, doc).errors
    {
      var meaning := Get(doc, "meaning");
      var infinitive := Get(doc, "infinitivo");
      if meaning.None? || infinitive.None? {
        errors := [MissingFieldError(path)];
        return;
      }
      var clozeText := ClozeText(infinitive.value, meaning.value);
      AddNote(CreateClozeCard(clozeText, 1));
      errors := [];
    }

    /** `process_directory` applied to this deck: the walk's `.yml` files, in walk order. */
    method ProcessDirectory(walk: seq<WalkEntry>) returns (errors: seq<string>)
      modifies this
      ensures notes == old(notes) + DirectoryOutcome(walk).notes
      ensures errors == DirectoryOutcome(walk).errors
    {
      errors := [];
      var i := 0;
      while i < |walk|
        invariant i <= |walk|
        invariant notes == old(notes) + DirectoryOutcome(walk[..i]).notes
        invariant errors == DirectoryOutcome(walk[..i]).errors
      {
        ghost var before := DirectoryOutcome(walk[..i]);
        assert walk[..i + 1][..i] == walk[..i];
        var e := walk[i];
        ghost var entry := EntryOutcome(e);
        assert DirectoryOutcome(walk[..i + 1]) == Combine(before, entry);
        if IsYamlName(e.name) {
          var more := ProcessYamlFile(Join(e.root, e.name), e.doc);
          errors := errors + more;
          AppendAssoc(old(notes), before.notes, entry.notes);
        } else {
          assert entry.notes == [] && entry.errors == [];
          assert before.notes + entry.notes == before.notes;
          assert before.errors + entry.errors == before.errors;
        }
        i := i + 1;
      }
      assert walk[..|walk|] == walk;
    }
  }

  /** `main` up to writing the package: a fresh deck filled from the paths in order. */
  method BuildDeck(fs: FileSystem, paths: seq<string>, deckName: string)
    returns (deck: Deck, errors: seq<string>)
    ensures fresh(deck) && deck.name == deckName
    ensures deck.notes == PathsOutcome(fs, paths).notes
    ensures errors == PathsOutcome(fs, paths).errors
  {
    deck := new Deck(deckName);
    errors := [];
    var i := 0;
    while i < |paths|
      invariant i <= |paths|
      invariant deck.name == deckName
      invariant deck.notes == PathsOutcome(fs, paths[..i]).notes
      invariant errors == PathsOutcome(fs, paths[..i]).errors
    {
      assert paths[..i + 1][..i] == paths[..i];
      var item := paths[i];
      if item in fs && fs[item].Directory? {
        var more := deck.ProcessDirectory(fs[item].walk);
        errors := errors + more;
      } else if item in fs && fs[item].RegularFile? {
        var more := deck.ProcessYamlFile(item, fs[item].doc);
        errors := errors + more;
      }
      i := i + 1;
    }
    assert paths[..|paths|] == paths;
  }
}
