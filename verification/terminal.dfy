/**
 * The in-page terminal (components/ui/terminal.jsx): a command line that
 * echoes what was typed into its history and answers from a fixed table of
 * commands, a project search and a per-category skill search; and the
 * profile card that drops in when the terminal is opened.
 *
 * The portfolio's static content (projects, skill categories and the
 * canned texts of the command table) is passed in as one Content value.
 */
module Terminal {

  datatype Option<T> = None | Some(value: T)

  /**
   * The kinds of history entries the terminal renders. `Untyped` is the
   * empty object `{}` that the as-written lookup can append (see
   * TableAsWritten); the corrected model never produces it.
   */
  datatype Kind = System | Command | Output | Error | Untyped

  datatype Entry = Entry(kind: Kind, text: string)

  datatype Skill = Skill(name: string, level: string)
  datatype Category = Category(title: string, skills: seq<Skill>)
  datatype Project = Project(title: string, description: string, technologies: seq<string>)

  // ---------------------------------------------------------------------
  // String primitives: trim, ASCII lower-casing, split on " " and join.
  // ---------------------------------------------------------------------

  /** The white space and line terminators that `String.prototype.trim` strips. */
  predicate IsSpace(c: char) {
    c == ' ' || c == '\t' || c == '\n' || c == '\r' || c == '\U{B}' || c == '\U{C}'
    || c == '\U{A0}' || c == '\U{1680}' || ('\U{2000}' <= c <= '\U{200A}')
    || c == '\U{2028}' || c == '\U{2029}' || c == '\U{202F}' || c == '\U{205F}'
    || c == '\U{3000}' || c == '\U{FEFF}'
  }

  /** Drops leading white space. */
  function TrimStart(s: string): (r: string)
    ensures |r| <= |s| && r == s[|s| - |r|..]
    ensures r == [] || !IsSpace(r[0])
    ensures forall i :: 0 <= i < |s| - |r| ==> IsSpace(s[i])
    decreases |s|
  {
    if s != [] && IsSpace(s[0]) then TrimStart(s[1..]) else s
  }

  /** Drops trailing white space. */
  function TrimEnd(s: string): (r: string)
    ensures |r| <= |s| && r == s[..|r|]
    ensures r == [] || !IsSpace(r[|r| - 1])
    ensures forall i :: |r| <= i < |s| ==> IsSpace(s[i])
    decreases |s|
  {
    if s != [] && IsSpace(s[|s| - 1]) then TrimEnd(s[..|s| - 1]) else s
  }

  /** `String.prototype.trim`. */
  function Trim(s: string): string {
    TrimEnd(TrimStart(s))
  }

  /** The input field counts as blank when it holds white space only. */
  predicate Blank(s: string) {
    forall i :: 0 <= i < |s| ==> IsSpace(s[i])
  }

  /** Trimming yields the empty string exactly for blank input, and otherwise a string with no white space at either end. */
  lemma TrimEmptyIffBlank(s: string)
    ensures Trim(s) == [] <==> Blank(s)
    ensures Trim(s) != [] ==> !IsSpace(Trim(s)[0]) && !IsSpace(Trim(s)[|Trim(s)| - 1])
  {
    var a := TrimStart(s);
    if Trim(s) == [] {
      // TrimEnd strips only white space and TrimStart leaves none in front,
      // so nothing survived TrimStart.
      assert a == [];
    }
  }

  function LowerChar(c: char): char {
    if 'A' <= c <= 'Z' then (c as int + 32) as char else c
  }

  /** `String.prototype.toLowerCase`, on the ASCII letters. */
  function Lower(s: string): (r: string)
    ensures |r| == |s|
  {
    seq(|s|, i requires 0 <= i < |s| => LowerChar(s[i]))
  }

  /** Lower-casing touches no white space, so it commutes with trimming; and it is idempotent. */
  lemma {:induction false} TrimLowerCommute(s: string)
    ensures Trim(Lower(s)) == Lower(Trim(s))
    ensures Lower(Lower(s)) == Lower(s)
  {
    TrimStartLower(s);
    TrimEndLower(TrimStart(s));
  }

  /** Lower-casing maps white space to itself and nothing else to white space. */
  lemma LowerSpace(c: char)
    ensures IsSpace(LowerChar(c)) <==> IsSpace(c)
    ensures IsSpace(c) ==> LowerChar(c) == c
  {
  }

  lemma {:induction false} TrimStartLower(s: string)
    ensures TrimStart(Lower(s)) == Lower(TrimStart(s))
    decreases |s|
  {
    if s != [] {
      LowerSpace(s[0]);
      assert Lower(s)[0] == LowerChar(s[0]);
      if IsSpace(s[0]) {
        assert Lower(s)[1..] == Lower(s[1..]);
        TrimStartLower(s[1..]);
      }
    }
  }

  lemma {:induction false} TrimEndLower(s: string)
    ensures TrimEnd(Lower(s)) == Lower(TrimEnd(s))
    decreases |s|
  {
    if s != [] {
      LowerSpace(s[|s| - 1]);
      assert Lower(s)[|s| - 1] == LowerChar(s[|s| - 1]);
      if IsSpace(s[|s| - 1]) {
        assert Lower(s)[..|s| - 1] == Lower(s[..|s| - 1]);
        TrimEndLower(s[..|s| - 1]);
      }
    }
  }

  /** `String.prototype.split(" ")`: the pieces between single spaces, empty pieces included. */
  function Split(s: string): (parts: seq<string>)
    ensures |parts| >= 1
    ensures forall k :: 0 <= k < |parts| ==> ' ' !in parts[k]
    decreases |s|
  {
    if s == [] then [""]
    else if s[0] == ' ' then [""] + Split(s[1..])
    else
      var rest := Split(s[1..]);
      [[s[0]] + rest[0]] + rest[1..]
  }

  /** `Array.prototype.join(sep)`. */
  function JoinWith(parts: seq<string>, sep: string): string
    decreases |parts|
  {
    if parts == [] then ""
    else if |parts| == 1 then parts[0]
    else parts[0] + sep + JoinWith(parts[1..], sep)
  }

  /** Splitting on " " and joining with " " gives back the original string. */
  lemma {:induction false} JoinSplit(s: string)
    ensures JoinWith(Split(s), " ") == s
    decreases |s|
  {
    if s != [] {
      JoinSplit(s[1..]);
      var rest := Split(s[1..]);
      if s[0] != ' ' && |rest| > 1 {
        assert ([s[0]] + rest[0]) + " " + JoinWith(rest[1..], " ") == [s[0]] + (rest[0] + " " + JoinWith(rest[1..], " "));
      }
    }
  }

  /** Splitting a string that starts with a space opens an empty first piece. */
  lemma SplitSpace(s: string)
    ensures Split([' '] + s) == [""] + Split(s)
  {
    assert ([' '] + s)[1..] == s;
  }

  /** Splitting a string that starts with another character puts it in front of the first piece. */
  lemma SplitCons(c: char, s: string)
    requires c != ' '
    ensures Split([c] + s) == [[c] + Split(s)[0]] + Split(s)[1..]
  {
    assert ([c] + s)[1..] == s;
  }

  /** Joining space-free pieces with " " and splitting again gives back the pieces. */
  lemma {:induction false} SplitJoin(parts: seq<string>)
    requires |parts| >= 1
    requires forall k :: 0 <= k < |parts| ==> ' ' !in parts[k]
    ensures Split(JoinWith(parts, " ")) == parts
    decreases |parts|, |parts[0]|
  {
    var p := parts[0];
    if p == [] {
      if |parts| > 1 {
        var rest := JoinWith(parts[1..], " ");
        assert JoinWith(parts, " ") == [' '] + rest;
        SplitJoin(parts[1..]);
        SplitSpace(rest);
        assert [""] + parts[1..] == parts;
      }
    } else {
      var tail := [p[1..]] + parts[1..];
      assert tail[1..] == parts[1..];
      assert forall k :: 0 <= k < |tail| ==> ' ' !in tail[k] by {
        assert ' ' !in p;
      }
      SplitJoin(tail);
      assert [p[0]] + p[1..] == p;
      assert JoinWith(parts, " ") == [p[0]] + JoinWith(tail, " ");
      SplitCons(p[0], JoinWith(tail, " "));
      assert [[p[0]] + p[1..]] + parts[1..] == parts;
    }
  }

  /**
   * With `const [command, ...args] = line.split(" ")`, the search term
   * `args.join(" ")` is everything after the first space, verbatim.
   */
  lemma SearchTermIsRest(line: string)
    requires |Split(line)| > 1
    ensures line == Split(line)[0] + " " + JoinWith(Split(line)[1..], " ")
  {
    JoinSplit(line);
  }

  // ---------------------------------------------------------------------
  // Substring search and `Array.prototype.find`.
  // ---------------------------------------------------------------------

  ghost predicate OccursAt(t: string, s: string, i: int) {
    0 <= i && i + |t| <= |s| && s[i..i + |t|] == t
  }

  ghost predicate Occurs(t: string, s: string) {
    exists i :: OccursAt(t, s, i)
  }

  lemma OccursShift(t: string, s: string)
    requires |t| <= |s| && s[..|t|] != t
    ensures Occurs(t, s) <==> Occurs(t, s[1..])
  {
    if Occurs(t, s) {
      var i :| OccursAt(t, s, i);
      assert i != 0;
      assert s[1..][i - 1..i - 1 + |t|] == s[i..i + |t|];
      assert OccursAt(t, s[1..], i - 1);
    }
    if Occurs(t, s[1..]) {
      var j :| OccursAt(t, s[1..], j);
      SliceOfTail(s, j, |t|);
      assert OccursAt(t, s, j + 1);
    }
  }

  /** A slice of s[1..] is the slice of s one further on. */
  lemma SliceOfTail(s: string, j: nat, n: nat)
    requires 1 + j + n <= |s|
    ensures s[1..][j..j + n] == s[j + 1..j + 1 + n]
  {
  }

  /** `String.prototype.includes`: whether t occurs in s as a contiguous piece. */
  function Includes(s: string, t: string): (b: bool)
    ensures b <==> Occurs(t, s)
    decreases |s|
  {
    if |t| > |s| then
      assert forall i :: !OccursAt(t, s, i);
      false
    else if s[..|t|] == t then
      assert OccursAt(t, s, 0);
      true
    else
      OccursShift(t, s);
      Includes(s[1..], t)
  }

  /** The search callback `name.toLowerCase().includes(term)`. */
  predicate Matches(name: string, term: string) {
    Includes(Lower(name), term)
  }

  /** `Array.prototype.find` with that callback: the index of the first matching name. */
  function FindIndex(names: seq<string>, term: string): (r: Option<nat>)
    ensures r.Some? ==> r.value < |names| && Matches(names[r.value], term)
    ensures r.Some? ==> forall j :: 0 <= j < r.value ==> !Matches(names[j], term)
    ensures r.None? <==> forall j :: 0 <= j < |names| ==> !Matches(names[j], term)
    decreases |names|
  {
    if names == [] then None
    else if Matches(names[0], term) then Some(0)
    else
      match FindIndex(names[1..], term)
      case None => None
      case Some(i) => Some(i + 1)
  }

  function Titles(projects: seq<Project>): (r: seq<string>)
    ensures |r| == |projects|
    ensures forall j :: 0 <= j < |r| ==> r[j] == projects[j].title
  {
    seq(|projects|, i requires 0 <= i < |projects| => projects[i].title)
  }

  function SkillNames(skills: seq<Skill>): (r: seq<string>)
    ensures |r| == |skills|
    ensures forall j :: 0 <= j < |r| ==> r[j] == skills[j].name
  {
    seq(|skills|, i requires 0 <= i < |skills| => skills[i].name)
  }

  // ---------------------------------------------------------------------
  // Replies.
  // ---------------------------------------------------------------------

  function ProjectEntry(p: Project): Entry {
    Entry(Output, "Project: " + p.title + "\n" + p.description + "\nTechnologies: " + JoinWith(p.technologies, ", "))
  }

  function SkillEntry(s: Skill, c: Category): Entry {
    Entry(Output, "Skill: " + s.name + "\nCategory: " + c.title + "\nLevel: " + s.level)
  }

  /** What the skill search appends for one category: its first matching skill, if any. */
  function CategoryHit(c: Category, term: string): (r: seq<Entry>)
    ensures |r| <= 1
    ensures r == [] <==> forall i :: 0 <= i < |c.skills| ==> !Matches(c.skills[i].name, term)
  {
    match FindIndex(SkillNames(c.skills), term)
    case None => []
    case Some(i) => [SkillEntry(c.skills[i], c)]
  }

  /** When a category contributes an entry, it is the one for its first matching skill. */
  lemma CategoryHitFirst(c: Category, term: string)
    ensures CategoryHit(c, term) != [] ==>
      exists i :: 0 <= i < |c.skills| && Matches(c.skills[i].name, term)
        && (forall j :: 0 <= j < i ==> !Matches(c.skills[j].name, term))
        && CategoryHit(c, term) == [SkillEntry(c.skills[i], c)]
  {
    var found := FindIndex(SkillNames(c.skills), term);
    if found.Some? {
      var i := found.value;
      assert SkillNames(c.skills)[i] == c.skills[i].name;
      assert forall j :: 0 <= j < i ==> SkillNames(c.skills)[j] == c.skills[j].name;
    }
  }

  /** The outputs of the skill search over the categories, in order. */
  function SkillHits(cats: seq<Category>, term: string): (hits: seq<Entry>)
    ensures |hits| <= |cats|
    ensures forall k :: 0 <= k < |hits| ==> hits[k].kind == Output
    decreases |cats|
  {
    if cats == [] then []
    else SkillHits(cats[..|cats| - 1], term) + CategoryHit(cats[|cats| - 1], term)
  }

  /** The search over one more category appends that category's hit. */
  lemma SkillHitsStep(cats: seq<Category>, k: nat, term: string)
    requires k < |cats|
    ensures SkillHits(cats[..k + 1], term) == SkillHits(cats[..k], term) + CategoryHit(cats[k], term)
  {
    assert cats[..k + 1][..k] == cats[..k];
  }

  /** The skill search finds nothing exactly when no category has a skill that includes the term. */
  lemma {:induction false} SkillHitsEmpty(cats: seq<Category>, term: string)
    ensures SkillHits(cats, term) == [] <==>
      forall k, i :: 0 <= k < |cats| && 0 <= i < |cats[k].skills| ==> !Matches(cats[k].skills[i].name, term)
    decreases |cats|
  {
    if cats != [] {
      var init := cats[..|cats| - 1];
      SkillHitsEmpty(init, term);
      assert forall k :: 0 <= k < |init| ==> init[k] == cats[k];
    }
  }

  /** `n` in decimal, as a template literal prints it. */
  function NatToString(n: nat): (s: string)
    ensures |s| >= 1
    decreases n
  {
    var d := ['0' + (n % 10) as char];
    if n < 10 then d else NatToString(n / 10) + d
  }

  /** The lines `  1. a`, `  2. b`, ... that `skills` and `projects` print. */
  function Numbered(items: seq<string>): (r: seq<string>)
    ensures |r| == |items|
  {
    seq(|items|, i requires 0 <= i < |items| => "  " + NatToString(i + 1) + ". " + items[i])
  }

  /** Every skill name, category by category (`flatMap`). */
  function AllSkillNames(cats: seq<Category>): seq<string>
    decreases |cats|
  {
    if cats == [] then []
    else AllSkillNames(cats[..|cats| - 1]) + seq(|cats[|cats| - 1].skills|, i requires 0 <= i < |cats[|cats| - 1].skills| => cats[|cats| - 1].skills[i].name)
  }

  /**
   * Everything static the terminal prints: the projects and skill
   * categories of the site's configuration, and the canned texts of the
   * `help`, `about`, `education` and `contact` commands.
   */
  datatype Content = Content(
    projects: seq<Project>, skills: seq<Category>,
    help: string, about: string, education: string, contact: string)

  /** The text shown by each command of the table other than `clear`. */
  function CommandText(word: string, c: Content): string {
    match word
    case "help" => c.help
    case "about" => c.about
    case "skills" => "Skills:\n" + JoinWith(Numbered(AllSkillNames(c.skills)), "\n")
    case "projects" => "Projects:\n" + JoinWith(Numbered(Titles(c.projects)), "\n")
    case "education" => c.education
    case "contact" => c.contact
    case "github" => "Opening GitHub profile..."
    case "linkedin" => "Opening LinkedIn profile..."
    case _ => ""
  }

  /** What a command of the table does: show an entry, or wipe the history and return null. */
  datatype Reply = Show(entry: Entry) | Wipe

  const CommandNames: set<string> :=
    {"help", "about", "skills", "projects", "education", "contact", "clear", "github", "linkedin"}

  /** The `commands` table, looked up by the command word (own entries only). */
  function Table(word: string, c: Content): Option<Reply> {
    if word !in CommandNames then None
    else if word == "clear" then Some(Wipe)
    else Some(Show(Entry(Output, CommandText(word, c))))
  }

  /**
   * The table as the source indexes it, `commands[command]` on a plain
   * object: the inherited `Object.prototype.constructor` is found too, and
   * calling it (`Object()`) returns `{}`, a truthy value that is appended
   * as an entry with neither a type nor a text.
   */
  function TableAsWritten(word: string, c: Content): Option<Reply> {
    if word == "constructor" then Some(Show(Entry(Untyped, "")))
    else Table(word, c)
  }

  function NotFound(command: string): Entry {
    Entry(Error, "Command not found: " + command + ". Type 'help' for available commands.")
  }

  /**
   * The reply to `project <term>`: the first project whose lower-cased
   * title includes the term, or one error naming the term when none does.
   */
  function ProjectAnswer(term: string, projects: seq<Project>): (e: Entry)
    ensures e.kind == Error <==> forall j :: 0 <= j < |projects| ==> !Matches(projects[j].title, term)
    ensures e.kind == Error ==> e.text == "Project not found: " + term
    ensures e.kind != Error ==>
      exists j :: 0 <= j < |projects| && Matches(projects[j].title, term) && e == ProjectEntry(projects[j])
        && forall i :: 0 <= i < j ==> !Matches(projects[i].title, term)
  {
    match FindIndex(Titles(projects), term)
    case Some(j) => ProjectEntry(projects[j])
    case None => Entry(Error, "Project not found: " + term)
  }

  /**
   * The reply to `skill <term>`: one output per category with a matching
   * skill, or one error naming the term when no category has one.
   */
  function SkillAnswer(term: string, cats: seq<Category>): (r: seq<Entry>)
    ensures |r| >= 1
    ensures r == [Entry(Error, "Skill not found: " + term)] <==>
      forall k, i :: 0 <= k < |cats| && 0 <= i < |cats[k].skills| ==> !Matches(cats[k].skills[i].name, term)
    ensures r != [Entry(Error, "Skill not found: " + term)] ==> r == SkillHits(cats, term)
  {
    var hits := SkillHits(cats, term);
    SkillHitsEmpty(cats, term);
    assert hits != [] ==> hits[0].kind == Output;
    if hits == [] then [Entry(Error, "Skill not found: " + term)] else hits
  }

  /** What the table part of the dispatch answers for a command word. */
  function TableAnswer(command: string, c: Content): Effect {
    match Table(command, c)
    case Some(Wipe) => Reset
    case Some(Show(e)) => Append([e])
    case None => Append([NotFound(command)])
  }

  /** The effect of one command on the history. */
  datatype Effect = Append(entries: seq<Entry>) | Reset

  function Apply(history: seq<Entry>, e: Effect): seq<Entry> {
    match e
    case Append(es) => history + es
    case Reset => []
  }

  /** The trimmed, lower-cased line that dispatch works on. */
  function Normalize(cmd: string): string {
    Lower(Trim(cmd))
  }

  /** What follows the echo, as a function of the normalized line. */
  function Answer(line: string, c: Content): Effect {
    var parts := Split(line);
    var command := parts[0];
    if command == "" then Append([])
    else if command == "project" && |parts| > 1 then Append([ProjectAnswer(JoinWith(parts[1..], " "), c.projects)])
    else if command == "skill" && |parts| > 1 then Append(SkillAnswer(JoinWith(parts[1..], " "), c.skills))
    else TableAnswer(command, c)
  }

  function Echo(cmd: string): Entry {
    Entry(Command, "$ " + cmd)
  }

  /** `handleCommand`: the echo of the raw line, then the answer; `clear` discards both. */
  function Respond(cmd: string, c: Content): Effect {
    match Answer(Normalize(cmd), c)
    case Reset => Reset
    case Append(es) => Append([Echo(cmd)] + es)
  }

  /**
   * Responding to a line is echoing it and then applying the answer to the
   * normalized line: the echo survives unless the answer wipes the history.
   */
  lemma RespondIsEchoThenAnswer(h: seq<Entry>, cmd: string, c: Content)
    ensures Apply(h, Respond(cmd, c)) == Apply(h + [Echo(cmd)], Answer(Normalize(cmd), c))
  {
    var a := Answer(Normalize(cmd), c);
    if a.Append? {
      assert h + ([Echo(cmd)] + a.entries) == (h + [Echo(cmd)]) + a.entries;
    }
  }

  /**
   * Every command appends the echo `$ <raw line>` first, unless its command
   * word is `clear`, which leaves the history empty.
   */
  lemma EchoFirst(cmd: string, c: Content)
    ensures Respond(cmd, c).Reset? <==> Split(Normalize(cmd))[0] == "clear"
    ensures Respond(cmd, c).Append? ==>
      |Respond(cmd, c).entries| >= 1 && Respond(cmd, c).entries[0] == Echo(cmd)
  {
    ResetOnlyOnClear(Normalize(cmd), c);
  }

  /** The answer wipes the history exactly when the command word is `clear`. */
  lemma ResetOnlyOnClear(line: string, c: Content)
    ensures Answer(line, c).Reset? <==> Split(line)[0] == "clear"
  {
    var command := Split(line)[0];
    if command == "clear" {
      assert Table(command, c) == Some(Wipe);
    } else if command in CommandNames {
      assert Table(command, c).value.Show?;
    }
  }

  /** Dispatch ignores case: two lines that agree once lower-cased get the same answer. */
  lemma CaseInsensitive(a: string, b: string, c: Content)
    requires Lower(a) == Lower(b)
    ensures Normalize(a) == Normalize(b)
    ensures Answer(Normalize(a), c) == Answer(Normalize(b), c)
  {
    TrimLowerCommute(a);
    TrimLowerCommute(b);
    TrimLowerCommute(Trim(a));
    TrimLowerCommute(Trim(b));
    assert Normalize(a) == Lower(Lower(Trim(a))) == Lower(Trim(Lower(a)));
    assert Normalize(b) == Lower(Lower(Trim(b))) == Lower(Trim(Lower(b)));
  }

  /**
   * A command word outside the table answers exactly one "Command not
   * found" error; this includes `project` and `skill` with no argument.
   */
  lemma UnknownCommand(line: string, c: Content)
    requires Split(line)[0] != "" && Split(line)[0] !in CommandNames
    requires Split(line)[0] in {"project", "skill"} ==> |Split(line)| == 1
    ensures Answer(line, c) == Append([NotFound(Split(line)[0])])
  {
  }

  /** A blank line gets the echo alone. */
  lemma EmptyLineEchoOnly(cmd: string, c: Content)
    requires Blank(cmd)
    ensures Respond(cmd, c) == Append([Echo(cmd)])
  {
    TrimEmptyIffBlank(cmd);
  }

  /**
   * A line whose command word is `constructor` gets an untyped, empty entry
   * from the as-written lookup, where the corrected table gives the
   * "Command not found" error.
   */
  lemma ConstructorWordAsWritten(line: string, c: Content)
    requires Split(line)[0] == "constructor"
    ensures TableAsWritten(Split(line)[0], c) == Some(Show(Entry(Untyped, "")))
    ensures Table(Split(line)[0], c) == None
    ensures Answer(line, c) == Append([NotFound("constructor")])
  {
  }

  // ---------------------------------------------------------------------
  // The card that drops in when the terminal opens.
  // ---------------------------------------------------------------------

  /** Where the card stops, to meet the hook. */
  const CardTargetY: int := 20

  datatype CardState = CardState(y: int, landed: bool)

  /** The per-frame `setCardY` updater while the terminal is open. */
  function CardStep(c: CardState): CardState {
    if c.y < CardTargetY && !c.landed then CardState(c.y + 3, false)
    else if c.y >= CardTargetY && !c.landed then CardState(CardTargetY, true)
    else c
  }

  function CardRun(c: CardState, n: nat): CardState
    decreases n
  {
    if n == 0 then c else CardRun(CardStep(c), n - 1)
  }

  lemma {:induction false} CardRises(y: int, k: nat)
    requires k == 0 || y + 3 * (k - 1) < CardTargetY
    ensures CardRun(CardState(y, false), k) == CardState(y + 3 * k, false)
    decreases k
  {
    if k > 0 {
      CardRises(y + 3, k - 1);
    }
  }

  lemma {:induction false} CardPinned(y: int, n: nat)
    requires n >= 1 && y + 3 * (n - 1) >= CardTargetY
    ensures CardRun(CardState(y, false), n) == CardState(CardTargetY, true)
    decreases n
  {
    if y >= CardTargetY {
      CardLandedStays(n - 1);
    } else {
      CardPinned(y + 3, n - 1);
    }
  }

  lemma {:induction false} CardLandedStays(n: nat)
    ensures CardRun(CardState(CardTargetY, true), n) == CardState(CardTargetY, true)
    decreases n
  {
    if n > 0 {
      CardLandedStays(n - 1);
    }
  }

  /**
   * From the closed position -300 the card rises by 3 a frame, is at 21
   * and unlanded after 107 frames, and is pinned at 20 and landed from the
   * 108th frame on.
   */
  lemma CardLandsAfterOpening(n: nat)
    ensures CardRun(CardState(-300, false), 107) == CardState(21, false)
    ensures n >= 108 ==> CardRun(CardState(-300, false), n) == CardState(CardTargetY, true)
  {
    CardRises(-300, 107);
    if n >= 108 {
      CardPinned(-300, n);
    }
  }

  /**
   * After the terminal opens, the card (drawn with opacity 0 while its y is
   * negative) stays transparent for exactly the first 100 frames, and the
   * hook (drawn while y is positive) appears from frame 101 on and stays.
   */
  lemma CardFadesIn(k: nat)
    ensures CardRun(CardState(-300, false), k).y < 0 <==> k < 100
    ensures CardRun(CardState(-300, false), k).y > 0 <==> k > 100
  {
    if k <= 107 {
      CardRises(-300, k);
    } else {
      CardPinned(-300, k);
    }
  }

  /** The welcome lines the history starts with. */
  const Welcome: seq<Entry> := [
    Entry(System, "Welcome to Muhammad Adil's Portfolio Terminal v1.0"),
    Entry(System, "Type 'help' to see available commands")
  ]

  /** The component's state. */
  class Console {
    /** The static content the commands print; fixed for the component's lifetime. */
    const content: Content
    var isOpen: bool
    var input: string
    var history: seq<Entry>
    var cardY: int
    var cardLanded: bool

    /** The component mounted with the site's content. */
    constructor (content: Content)
      ensures this.content == content
      ensures !isOpen && input == "" && history == Welcome
      ensures cardY == -300 && !cardLanded
    {
      this.content := content;
      isOpen, input, history := false, "", Welcome;
      cardY, cardLanded := -300, false;
    }

    /**
     * `handleCommand`: the raw line is echoed, then the trimmed,
     * lower-cased line is split on " " and dispatched on its first word.
     */
    method HandleCommand(cmd: string)
      modifies this
      ensures history == Apply(old(history), Respond(cmd, content))
      ensures isOpen == old(isOpen) && input == old(input)
      ensures cardY == old(cardY) && cardLanded == old(cardLanded)
    {
      ghost var before := history;
      history := history + [Echo(cmd)];
      Dispatch(Normalize(cmd));
      RespondIsEchoThenAnswer(before, cmd, content);
    }

    /** The `switch` of `handleCommand` on the first word of the normalized line. */
    method Dispatch(line: string)
      modifies this
      ensures history == Apply(old(history), Answer(line, content))
      ensures isOpen == old(isOpen) && input == old(input)
      ensures cardY == old(cardY) && cardLanded == old(cardLanded)
    {
      var parts := Split(line);
      var command, args := parts[0], parts[1..];
      ghost var answer := Answer(line, content);
      if command == "" {
        assert answer == Append([]);
      } else if command == "project" && |args| > 0 {
        ProjectSearch(JoinWith(args, " "));
        assert answer == Append([ProjectAnswer(JoinWith(args, " "), content.projects)]);
      } else if command == "skill" && |args| > 0 {
        SkillSearch(JoinWith(args, " "));
        assert answer == Append(SkillAnswer(JoinWith(args, " "), content.skills));
      } else {
        RunTable(command);
        assert answer == TableAnswer(command, content);
      }
    }

    /** `project <term>`: the first project whose title includes the term, or an error. */
    method ProjectSearch(term: string)
      modifies this
      ensures history == old(history) + [ProjectAnswer(term, content.projects)]
      ensures isOpen == old(isOpen) && input == old(input)
      ensures cardY == old(cardY) && cardLanded == old(cardLanded)
    {
      var found := FindIndex(Titles(content.projects), term);
      if found.Some? {
        history := history + [ProjectEntry(content.projects[found.value])];
      } else {
        history := history + [Entry(Error, "Project not found: " + term)];
      }
    }

    /**
     * `skill <term>`: each category contributes its first skill that
     * includes the term, in order; an error follows if none did. The
     * source queues one functional history update per hit, which React
     * applies in order; the loop gathers the same entries and appends them.
     */
    method SkillSearch(term: string)
      modifies this
      ensures history == old(history) + SkillAnswer(term, content.skills)
      ensures isOpen == old(isOpen) && input == old(input)
      ensures cardY == old(cardY) && cardLanded == old(cardLanded)
    {
      var hits, found := SearchSkills(content.skills, term);
      if !found {
        hits := hits + [Entry(Error, "Skill not found: " + term)];
      }
      history := history + hits;
    }

    /** The loop over the skill categories: the first matching skill of each one, and whether there was any. */
    static method SearchSkills(cats: seq<Category>, term: string) returns (hits: seq<Entry>, found: bool)
      ensures hits == SkillHits(cats, term)
      ensures found <==> hits != []
    {
      hits := [];
      found := false;
      var k := 0;
      while k < |cats|
        invariant 0 <= k <= |cats|
        invariant hits == SkillHits(cats[..k], term)
        invariant found <==> hits != []
      {
        SkillHitsStep(cats, k, term);
        var i := FindIndex(SkillNames(cats[k].skills), term);
        if i.Some? {
          hits := hits + [SkillEntry(cats[k].skills[i.value], cats[k])];
          found := true;
        }
        k := k + 1;
      }
      assert cats[..k] == cats;
    }

    /** Any other command word: run its table entry, or report it unknown. */
    method RunTable(command: string)
      modifies this
      ensures history == Apply(old(history), TableAnswer(command, content))
      ensures isOpen == old(isOpen) && input == old(input)
      ensures cardY == old(cardY) && cardLanded == old(cardLanded)
    {
      var result := Table(command, content);
      if result.Some? {
        match result.value
        case Wipe =>
          history := [];
        case Show(e) =>
          history := history + [e];
      } else {
        history := history + [NotFound(command)];
      }
    }

    /** The input field's onChange. */
    method Edit(text: string)
      modifies this
      ensures input == text
      ensures history == old(history) && isOpen == old(isOpen)
      ensures cardY == old(cardY) && cardLanded == old(cardLanded)
    {
      input := text;
    }

    /** `handleSubmit`: blank input is ignored; otherwise the raw input runs and the field is cleared. */
    method Submit()
      modifies this
      ensures Blank(old(input)) ==> history == old(history) && input == old(input)
      ensures !Blank(old(input)) ==>
        history == Apply(old(history), Respond(old(input), content)) && input == ""
      ensures isOpen == old(isOpen) && cardY == old(cardY) && cardLanded == old(cardLanded)
    {
      TrimEmptyIffBlank(input);
      if Trim(input) != [] {
        HandleCommand(input);
        input := "";
      }
    }

    /** The floating button opens the terminal. */
    method Open()
      modifies this
      ensures isOpen
      ensures history == old(history) && input == old(input)
      ensures cardY == old(cardY) && cardLanded == old(cardLanded)
    {
      isOpen := true;
    }

    /** Closing the terminal puts the card back above the view. */
    method Close()
      modifies this
      ensures !isOpen && cardY == -300 && !cardLanded
      ensures history == old(history) && input == old(input)
    {
      isOpen := false;
      cardY, cardLanded := -300, false;
    }

    /** One animation frame of the card while the terminal is open. */
    method CardFrame()
      requires isOpen
      modifies this
      ensures CardState(cardY, cardLanded) == CardStep(CardState(old(cardY), old(cardLanded)))
      ensures old(cardLanded) ==> cardY == old(cardY) && cardLanded
      ensures isOpen && history == old(history) && input == old(input)
    {
      if cardY < CardTargetY && !cardLanded {
        cardY := cardY + 3;
      } else if cardY >= CardTargetY && !cardLanded {
        cardLanded := true;
        cardY := CardTargetY;
      }
    }

    /**
     * The dotted line, the icon and the hook are drawn only once the card is
     * below 0, so never while the card itself is transparent.
     */
    function HookShown(): (b: bool)
      reads this
      ensures b <==> cardY > 0
      ensures b ==> CardOpacity() == 1
    {
      cardY > 0
    }

    /** The card's opacity. */
    function CardOpacity(): (o: int)
      reads this
      ensures o == 0 <==> cardY < 0
      ensures o == 0 || o == 1
    {
      if cardY < 0 then 0 else 1
    }
  }
}
