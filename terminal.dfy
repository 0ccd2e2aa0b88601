/**
 * The Terminal page: a line-oriented pseudo-terminal. A typed line is parsed
 * into a lower-cased command token, looked up in a fixed table of outputs, and
 * the pair (line, output) is appended to a transcript; `clear` empties it.
 */
module Terminal {
  import opened Js
  import opened Text

  /** The commands that have an output of their own. */
  datatype Reply = Help | About | Projects | Skills | Contact

  /** The fixed output text of each command, as `runHelp` … `runContact` return it. */
  function ReplyText(reply: Reply): string {
    match reply
    case Help =>
      "Available commands:\n"
      + "  help     - Show this list\n"
      + "  about   - About me\n"
      + "  projects - My projects\n"
      + "  skills   - My skills\n"
      + "  contact  - How to reach me\n"
      + "  clear    - Clear terminal history"
    case About => "I'm a developer building web apps. More about me on the Home page."
    case Projects => "Check the Projects page for my work. (API data can be shown here in v2.)"
    case Skills => "React, Node.js, MongoDB, and more. See the Skills page."
    case Contact => "Reach me via the Contact page \U{2014} email, GitHub, LinkedIn."
  }

  const CommandNotFound: string := "Command not found. Type 'help'."

  /** The command table: every token that has an output of its own. `clear` is not in it. */
  function Registry(): map<string, Reply> {
    map[
      "help" := Help,
      "about" := About,
      "projects" := Projects,
      "skills" := Skills,
      "contact" := Contact
    ]
  }

  /**
   * `parseCommand`: the first whitespace-delimited word of the trimmed line,
   * lower-cased; the empty token exactly for an empty or whitespace-only line.
   */
  function ParseCommand(input: string): (token: string)
    ensures token == "" <==> AllWhitespace(input)
    ensures NoWhitespace(token)
    ensures HasNoUpper(token)
  {
    var trimmed := Trim(input);
    if trimmed == "" then "" else ToLower(Split(trimmed)[0])
  }

  /**
   * The `switch` of `executeCommand`: a token selects an output exactly when
   * it is in the command table, and then it selects that token's entry.
   */
  function CommandReply(command: string): (reply: Option<Reply>)
    ensures reply.Some? <==> command in Registry()
    ensures reply.Some? ==> reply.value == Registry()[command]
  {
    if command == "help" then Some(Help)
    else if command == "about" then Some(About)
    else if command == "projects" then Some(Projects)
    else if command == "skills" then Some(Skills)
    else if command == "contact" then Some(Contact)
    else None
  }

  /** No two commands share an output, and none of them prints the not-found text. */
  lemma ReplyTextsDistinct(a: Reply, b: Reply)
    ensures a != b ==> ReplyText(a) != ReplyText(b)
    ensures ReplyText(a) != CommandNotFound
  {
    var help, about, projects, skills, contact :=
      ReplyText(Help), ReplyText(About), ReplyText(Projects), ReplyText(Skills), ReplyText(Contact);
    assert |help| == 181 && |about| == 66 && |projects| == 72;
    assert |skills| == 55 && |contact| == 56 && |CommandNotFound| == 31;
  }

  /**
   * `executeCommand`: the selected command's output, or the not-found text,
   * which it prints exactly when the `switch` selects nothing.
   */
  function ExecuteCommand(command: string): (output: string)
    ensures output == CommandNotFound <==> CommandReply(command).None?
  {
    match CommandReply(command)
    case Some(reply) => ReplyTextsDistinct(reply, reply); ReplyText(reply)
    case None => CommandNotFound
  }

  /**
   * `executeCommand` is a total lookup in the command table: a token in the
   * table gives its own output, and exactly the other tokens (`clear`
   * included) give the not-found text.
   */
  lemma ExecuteCommandLooksUp(command: string)
    ensures command in Registry() ==> ExecuteCommand(command) == ReplyText(Registry()[command])
    ensures ExecuteCommand(command) == CommandNotFound <==> command !in Registry()
  {
  }

  /**
   * Trimming a line made of whitespace, a word and a remainder that starts
   * with whitespace leaves the word at the front, followed by whitespace or
   * nothing.
   */
  lemma TrimKeepsLeadingWord(p: string, w: string, rest: string)
    requires AllWhitespace(p)
    requires w != [] && NoWhitespace(w)
    requires rest == [] || IsWhitespace(rest[0])
    ensures var t := Trim(p + w + rest);
      && |t| >= |w| && t[..|w|] == w
      && (|t| > |w| ==> IsWhitespace(t[|w|]))
  {
    var s := p + w + rest;
    var e := |p| + |w|;
    assert forall k :: 0 <= k < |p| ==> s[k] == p[k];
    assert s[|p|] == w[0];
    SkipForwardAt(s, 0, |p|);
    assert s[e - 1] == w[|w| - 1];
    assert TrimEndIndex(s) >= e;
    assert s[|p|..e] == w;
    assert TrimEndIndex(s) > e ==> s[e] == rest[0];
  }

  /** A string that starts with a word followed by whitespace or nothing splits first into that word. */
  lemma FirstPieceIsLeadingWord(t: string, w: string)
    requires NoWhitespace(w) && |t| >= |w| && t[..|w|] == w
    requires |t| > |w| ==> IsWhitespace(t[|w|])
    ensures Split(t)[0] == w
  {
    assert forall k :: 0 <= k < |w| ==> t[k] == w[k];
    WordEndAt(t, 0, |w|);
  }

  /**
   * Whatever whitespace precedes the first word, and whatever follows it
   * after a whitespace character, the token is that word lower-cased.
   */
  lemma ParseCommandFirstWord(p: string, w: string, rest: string)
    requires AllWhitespace(p)
    requires w != [] && NoWhitespace(w)
    requires rest == [] || IsWhitespace(rest[0])
    ensures ParseCommand(p + w + rest) == ToLower(w)
  {
    TrimKeepsLeadingWord(p, w, rest);
    FirstPieceIsLeadingWord(Trim(p + w + rest), w);
  }

  /** One transcript line: the trimmed input and the text the command produced. */
  datatype Entry = Entry(command: string, output: string)

  /** The console's two pieces of state: the transcript and the input buffer. */
  datatype ConsoleState = ConsoleState(history: seq<Entry>, currentInput: string)

  /**
   * The Enter key: `clear` empties the transcript and the buffer; a blank line
   * changes nothing; any other line appends exactly one entry after all the
   * earlier ones and empties the buffer.
   */
  function Enter(s: ConsoleState): (r: ConsoleState)
    ensures ParseCommand(s.currentInput) == "clear" ==> r == ConsoleState([], "")
    ensures AllWhitespace(s.currentInput) ==> r == s
    ensures ParseCommand(s.currentInput) != "clear" && !AllWhitespace(s.currentInput) ==>
      && |r.history| == |s.history| + 1
      && r.history[..|s.history|] == s.history
      && r.history[|s.history|] == Entry(Trim(s.currentInput), ExecuteCommand(ParseCommand(s.currentInput)))
      && r.currentInput == ""
  {
    var command := ParseCommand(s.currentInput);
    if command == "clear" then ConsoleState([], "")
    else if command == "" then s
    else ConsoleState(s.history + [Entry(Trim(s.currentInput), ExecuteCommand(command))], "")
  }

  /**
   * What every transcript entry satisfies: a non-empty trimmed line that is
   * not a `clear`, paired with the output its own token gives.
   */
  predicate WellFormedEntry(e: Entry) {
    && e.command != ""
    && IsTrimmed(e.command)
    && ParseCommand(e.command) != "clear"
    && e.output == ExecuteCommand(ParseCommand(e.command))
  }

  predicate WellFormed(history: seq<Entry>) {
    forall i :: 0 <= i < |history| ==> WellFormedEntry(history[i])
  }

  /** Parsing the trimmed line gives the same token as parsing the line. */
  lemma ParseCommandOfTrimmed(input: string)
    ensures ParseCommand(Trim(input)) == ParseCommand(input)
  {
    TrimIdempotent(input);
  }

  /** The Enter key keeps every transcript entry well formed. */
  lemma EnterPreservesWellFormed(s: ConsoleState)
    requires WellFormed(s.history)
    ensures WellFormed(Enter(s).history)
  {
    var command := ParseCommand(s.currentInput);
    if command != "clear" && command != "" {
      var e := Entry(Trim(s.currentInput), ExecuteCommand(command));
      ParseCommandOfTrimmed(s.currentInput);
      assert WellFormedEntry(e);
      assert Enter(s).history == s.history + [e];
      AppendWellFormed(s.history, e);
    }
  }

  lemma AppendWellFormed(history: seq<Entry>, e: Entry)
    requires WellFormed(history) && WellFormedEntry(e)
    ensures WellFormed(history + [e])
  {
    assert forall i :: 0 <= i < |history| ==> (history + [e])[i] == history[i];
  }

  /** `toLowerCase()` of a word, spelled out for the examples below. */
  lemma LowerCaseOf(w: string, lower: string)
    requires |w| == |lower|
    requires forall i :: 0 <= i < |w| ==> LowerChar(w[i]) == lower[i]
    ensures ToLower(w) == lower
  {
  }

  /** A `clear` line with odd case and trailing arguments still clears. */
  lemma ClearWithArguments(history: seq<Entry>)
    ensures Enter(ConsoleState(history, "  CLEAR x")) == ConsoleState([], "")
  {
    assert ParseCommand("  CLEAR x") == "clear" by {
      var p, w, rest := "  ", "CLEAR", " x";
      assert p + w + rest == "  CLEAR x";
      assert AllWhitespace(p) && NoWhitespace(w) && IsWhitespace(rest[0]);
      LowerCaseOf(w, "clear");
      ParseCommandFirstWord(p, w, rest);
    }
  }

  /** A trimmed line with an ordinary token is appended verbatim with that token's output. */
  lemma EnterAppendsLine(history: seq<Entry>, line: string, token: string)
    requires ParseCommand(line) == token && token != "" && token != "clear"
    requires Trim(line) == line
    ensures Enter(ConsoleState(history, line))
         == ConsoleState(history + [Entry(line, ExecuteCommand(token))], "")
  {
  }

  lemma AboutMePleaseParses()
    ensures ParseCommand("About me please") == "about"
  {
    var w, rest := "About", " me please";
    assert [] + w + rest == "About me please";
    assert NoWhitespace(w) && IsWhitespace(rest[0]);
    LowerCaseOf(w, "about");
    ParseCommandFirstWord([], w, rest);
  }

  lemma AboutMePleaseIsTrimmed()
    ensures Trim("About me please") == "About me please"
  {
    var line := "About me please";
    assert IsTrimmed(line);
    assert [] + line + [] == line;
    TrimOfPadded([], line, []);
  }

  /** Matching is case-insensitive on the first word only. */
  lemma AboutMePlease(history: seq<Entry>, line: string)
    requires line == "About me please"
    ensures Enter(ConsoleState(history, line)) == ConsoleState(history + [Entry(line, ReplyText(About))], "")
  {
    AboutMePleaseParses();
    AboutMePleaseIsTrimmed();
    EnterAppendsLine(history, line, "about");
  }

  /** `help` followed by `clear` leaves an empty transcript and an empty buffer. */
  lemma HelpThenClear(history: seq<Entry>)
    ensures Enter(ConsoleState(Enter(ConsoleState(history, "help")).history, "clear"))
         == ConsoleState([], "")
  {
    assert ParseCommand("clear") == "clear" by {
      var w := "clear";
      assert [] + w + [] == "clear";
      assert NoWhitespace(w);
      LowerCaseOf(w, "clear");
      ParseCommandFirstWord([], w, []);
    }
  }

  /** The mounted Terminal component: its two `useState` variables. */
  class Console {
    var history: seq<Entry>
    var currentInput: string

    function State(): ConsoleState
      reads this
    {
      ConsoleState(history, currentInput)
    }

    ghost predicate Valid()
      reads this
    {
      WellFormed(history)
    }

    constructor ()
      ensures Valid()
      ensures history == [] && currentInput == ""
    {
      history := [];
      currentInput := "";
    }

    /** The input's `onChange`: the buffer takes the typed text, whatever it is. */
    method OnInputChange(value: string)
      requires Valid()
      modifies this
      ensures Valid()
      ensures history == old(history) && currentInput == value
    {
      currentInput := value;
    }

    /** `handleKeyDown`: only Enter does anything. */
    method HandleKeyDown(key: string)
      requires Valid()
      modifies this
      ensures Valid()
      ensures key != "Enter" ==> history == old(history) && currentInput == old(currentInput)
      ensures key == "Enter" ==> State() == Enter(old(State()))
    {
      if key != "Enter" {
        return;
      }
      EnterPreservesWellFormed(State());
      var command := ParseCommand(currentInput);
      if command == "clear" {
        history := [];
        currentInput := "";
        return;
      }
      if command == "" {
        return;
      }
      var output := ExecuteCommand(command);
      history := history + [Entry(Trim(currentInput), output)];
      currentInput := "";
    }
  }
}
