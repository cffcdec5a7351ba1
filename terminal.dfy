/**
 * The interactive terminal: a case-insensitive command dispatcher, the
 * submit handler that appends to the output and history buffers, and the
 * arrow-key walk through the command history.
 */
module Terminal {
  import opened Text

  /** One line of terminal output. */
  datatype Response = Response(text: string, isError: bool, isHtml: bool)

  function Line(text: string): Response { Response(text, false, false) }

  function ErrorLine(text: string): Response { Response(text, true, false) }

  /** What a command does beside printing: the React state writes and the DOM scroll it asks for. */
  datatype Effect =
    | Stay                       // no state write beyond the printed lines
    | ClearScreen                // `setResponses([])`
    | ScrollTo(selector: string) // `document.querySelector(selector)?.scrollIntoView(...)`
    | CloseTerminal              // `setIsOpen(false)`

  /** The lines a command prints and its effect. */
  datatype Outcome = Outcome(lines: seq<Response>, effect: Effect)

  const Greeting: seq<Response> := [
    Line("Welcome to Cyberpunk Portfolio Terminal v1.0.0"),
    Line("Type \"help\" to see available commands.")
  ]

  const HelpLines: seq<Response> := [
    Line("Available commands:"),
    Line("help - Show this help message"),
    Line("about - Show information about me"),
    Line("skills - List my technical skills"),
    Line("projects - Show my recent projects"),
    Line("contact - Show contact information"),
    Line("clear - Clear terminal"),
    Line("navigate [section] - Navigate to a section (e.g. navigate projects)"),
    Line("theme [color] - Change terminal color (blue/green/pink/yellow)"),
    Line("echo [text] - Print text to terminal"),
    Line("date - Show current date"),
    Line("exit - Close terminal")
  ]

  const AboutLines: seq<Response> := [
    Line("=== ABOUT ME ==="),
    Line("Full-Stack Developer based in Phnom Penh, Cambodia."),
    Line("Currently pursuing Bachelor's in IT Engineering at Royal University of Phnom Penh."),
    Line("Passionate about creating innovative digital solutions with cutting-edge technologies.")
  ]

  const SkillsLines: seq<Response> := [
    Line("=== TECHNICAL SKILLS ==="),
    Line("- Frontend: React, TypeScript, Next.js"),
    Line("- Backend: Node.js, Python, Java"),
    Line("- Database: MongoDB, MySQL"),
    Line("- DevOps: Docker, CI/CD"),
    Line("- Other: Cyberpunk UI Design, Animation")
  ]

  const ProjectsLines: seq<Response> := [
    Line("=== RECENT PROJECTS ==="),
    Line("1. Cyberpunk Portfolio - A stylish cyberpunk-themed developer portfolio"),
    Line("2. Project Matrix - Fullstack application with real-time data visualization"),
    Line("3. Neural Network - AI-powered image recognition system"),
    Line("Type \"navigate projects\" to see more details.")
  ]

  const ContactLines: seq<Response> := [
    Line("=== CONTACT INFORMATION ==="),
    Line("Email: your@email.com"),
    Line("GitHub: github.com/yourusername"),
    Line("LinkedIn: linkedin.com/in/yourusername"),
    Line("Type \"navigate contact\" to open contact form.")
  ]

  /** The commands matched by exact comparison with the normalised input. */
  const Keywords: seq<string> := ["help", "about", "skills", "projects", "contact", "clear", "date", "exit"]

  /** The sections `navigate` knows. */
  const Sections: seq<string> := ["home", "about", "skills", "projects", "experience", "contact"]

  /** The colours `theme` accepts. */
  const Themes: seq<string> := ["blue", "green", "pink", "yellow"]

  /** The text of the error line for an unrecognised command; it embeds the raw command. */
  function UnknownMessage(cmd: string): (m: string)
    ensures 24 + |cmd| <= |m| && m[24..24 + |cmd|] == cmd
  {
    "Command not recognized: " + cmd + ". Type \"help\" for available commands."
  }

  /** `lower.split(' ')[1]` for a normalised command that holds a space. */
  function SecondToken(lower: string): string
    requires Contains(lower, " ")
  {
    Split(lower, " ")[1]
  }

  /** A string that starts with `w + " "` contains a space. */
  lemma PrefixedHasSpace(s: string, w: string)
    requires StartsWith(s, w + " ")
    ensures Contains(s, " ")
  {
    assert s[|w|..|w| + 1] == (w + " ")[|w|..|w| + 1] == " ";
    assert OccursAt(s, " ", |w|);
  }

  /** The `navigate [section]` branch. */
  function Navigate(lower: string): Outcome
    requires StartsWith(lower, "navigate ")
  {
    PrefixedHasSpace(lower, "navigate");
    var section := SecondToken(lower);
    if section in Sections then
      Outcome([Line("Navigating to " + section + " section...")], ScrollTo("#" + section))
    else
      Outcome([ErrorLine("Unknown section: " + section)], Stay)
  }

  /** The `theme [color]` branch; it prints a message and changes nothing. */
  function Theme(lower: string): Outcome
    requires StartsWith(lower, "theme ")
  {
    PrefixedHasSpace(lower, "theme");
    var color := SecondToken(lower);
    if color in Themes then
      Outcome([Response("Terminal theme changed to " + color + ".", false, true)], Stay)
    else
      Outcome([ErrorLine("Available themes: blue, green, pink, yellow")], Stay)
  }

  /**
   * The body of `processCommand` once `lower`, the normalised command, is
   * computed: exact keywords first, then the `navigate `, `theme ` and `echo `
   * prefixes, then `date` and `exit`, in the source's order.
   */
  function Dispatch(lower: string, cmd: string, now: string): (o: Outcome)
    requires |lower| <= |cmd|
    ensures o.effect == ClearScreen <==> lower == "clear"
    ensures o.effect == CloseTerminal <==> lower == "exit"
    ensures o.lines == [] <==> lower == "clear"
  {
    if lower == "help" then Outcome(HelpLines, Stay)
    else if lower == "about" then Outcome(AboutLines, Stay)
    else if lower == "skills" then Outcome(SkillsLines, Stay)
    else if lower == "projects" then Outcome(ProjectsLines, Stay)
    else if lower == "contact" then Outcome(ContactLines, Stay)
    else if lower == "clear" then Outcome([], ClearScreen)
    else if StartsWith(lower, "navigate ") then Navigate(lower)
    else if StartsWith(lower, "theme ") then Theme(lower)
    else if StartsWith(lower, "echo ") then Outcome([Line(cmd[5..])], Stay)
    else if lower == "date" then Outcome([Line(now)], Stay)
    else if lower == "exit" then Outcome([Line("Closing terminal...")], CloseTerminal)
    else Outcome([ErrorLine(UnknownMessage(cmd))], Stay)
  }

  /**
   * `processCommand(cmd)`: dispatch on `cmd.toLowerCase().trim()`. The text
   * `date` prints (`new Date().toLocaleString()`) is the parameter `now`.
   */
  function ProcessCommand(cmd: string, now: string): (o: Outcome)
    ensures o.effect == ClearScreen <==> Normalize(cmd) == "clear"
    ensures o.effect == CloseTerminal <==> Normalize(cmd) == "exit"
    ensures o.lines == [] <==> Normalize(cmd) == "clear"
  {
    Dispatch(Normalize(cmd), cmd, now)
  }

  /** A normalised command with the `navigate ` prefix reaches the navigate branch. */
  lemma NavigateBranch(lower: string, cmd: string, now: string)
    requires StartsWith(lower, "navigate ") && |lower| <= |cmd|
    ensures Dispatch(lower, cmd, now) == Navigate(lower)
  {
    assert lower[0] == 'n';
    assert lower !in Keywords;
  }

  /** A normalised command with the `theme ` prefix reaches the theme branch. */
  lemma ThemeBranch(lower: string, cmd: string, now: string)
    requires StartsWith(lower, "theme ") && |lower| <= |cmd|
    ensures Dispatch(lower, cmd, now) == Theme(lower)
  {
    assert lower[0] == 't';
    assert lower !in Keywords;
    assert !StartsWith(lower, "navigate ");
  }

  /** A normalised command with the `echo ` prefix reaches the echo branch. */
  lemma EchoBranch(lower: string, cmd: string, now: string)
    requires StartsWith(lower, "echo ") && |lower| <= |cmd|
    ensures Dispatch(lower, cmd, now) == Outcome([Line(cmd[5..])], Stay)
  {
    assert lower[0] == 'e' && lower[1] == 'c';
    assert lower !in Keywords;
    assert !StartsWith(lower, "navigate ");
    assert !StartsWith(lower, "theme ");
  }

  /** On an exact keyword the raw command text plays no part in the answer. */
  lemma KeywordIgnoresRaw(lower: string, a: string, b: string, now: string)
    requires lower in Keywords && |lower| <= |a| && |lower| <= |b|
    ensures Dispatch(lower, a, now) == Dispatch(lower, b, now)
  {
  }

  /** The exact keywords match regardless of letter case and surrounding white space. */
  lemma KeywordsIgnoreCaseAndSpace(a: string, b: string, now: string)
    requires Normalize(a) == Normalize(b) && Normalize(a) in Keywords
    ensures ProcessCommand(a, now) == ProcessCommand(b, now)
  {
    KeywordIgnoresRaw(Normalize(a), a, b, now);
  }

  /** The help text is twelve lines, none of them an error. */
  lemma HelpLinesArePlain()
    ensures |HelpLines| == 12 && forall r :: r in HelpLines ==> !r.isError
  {
  }

  /** `help`, in any case and with any padding, prints exactly twelve non-error lines. */
  lemma HelpPrintsTwelveLines(cmd: string, now: string)
    requires Normalize(cmd) == "help"
    ensures |ProcessCommand(cmd, now).lines| == 12
    ensures forall r :: r in ProcessCommand(cmd, now).lines ==> !r.isError
  {
    HelpLinesArePlain();
  }

  /**
   * The navigate branch reads X, the text after `navigate ` up to the next
   * space; only the six known sections navigate, anything else prints exactly
   * one error line naming X.
   */
  lemma NavigateOutcome(lower: string)
    requires StartsWith(lower, "navigate ")
    ensures var section := Split(lower[9..], " ")[0];
            var o := Navigate(lower);
            && |o.lines| == 1
            && (o.lines[0].isError <==> section !in Sections)
            && (section in Sections ==>
                  o.lines[0].text == "Navigating to " + section + " section..."
                  && o.effect == ScrollTo("#" + section))
            && (section !in Sections ==>
                  o.lines[0].text == "Unknown section: " + section && o.effect == Stay)
  {
    SecondPieceAfterWord(lower, "navigate");
  }

  /** `navigate X` takes X as the second space-separated token of the normalised command. */
  lemma NavigateTakesSecondToken(cmd: string, now: string)
    requires StartsWith(Normalize(cmd), "navigate ")
    ensures ProcessCommand(cmd, now) == Navigate(Normalize(cmd))
    ensures var section := Split(Normalize(cmd)[9..], " ")[0];
            |ProcessCommand(cmd, now).lines| == 1
            && (ProcessCommand(cmd, now).lines[0].isError <==> section !in Sections)
  {
    NavigateBranch(Normalize(cmd), cmd, now);
    NavigateOutcome(Normalize(cmd));
  }

  /** A double space after `navigate` yields the empty token and so the error line. */
  lemma EmptySection(lower: string)
    requires StartsWith(lower, "navigate  ")
    ensures StartsWith(lower, "navigate ")
    ensures Navigate(lower) == Outcome([ErrorLine("Unknown section: ")], Stay)
  {
    assert lower[..9] == "navigate ";
    SecondPieceAfterWord(lower, "navigate");
    var rest := lower[9..];
    assert rest[..1] == lower[9..10] == " ";
    FirstPieceEmpty(rest, " ");
    assert SecondToken(lower) == "";
    assert "" !in Sections;
    assert "Unknown section: " + "" == "Unknown section: ";
  }

  /** `navigate` followed by two spaces, in any case and with any padding, is an unknown section. */
  lemma NavigateDoubleSpace(cmd: string, now: string)
    requires StartsWith(Normalize(cmd), "navigate  ")
    ensures ProcessCommand(cmd, now) == Outcome([ErrorLine("Unknown section: ")], Stay)
  {
    EmptySection(Normalize(cmd));
    NavigateBranch(Normalize(cmd), cmd, now);
  }

  /** The theme branch succeeds exactly for the four colours; anything else prints one error line. */
  lemma ThemeOutcome(lower: string)
    requires StartsWith(lower, "theme ")
    ensures var color := Split(lower[6..], " ")[0];
            var o := Theme(lower);
            && |o.lines| == 1 && o.effect == Stay
            && (o.lines[0].isError <==> color !in Themes)
            && (color in Themes ==> o.lines[0] == Response("Terminal theme changed to " + color + ".", false, true))
            && (color !in Themes ==> o.lines[0].text == "Available themes: blue, green, pink, yellow")
  {
    SecondPieceAfterWord(lower, "theme");
  }

  /** `theme X` changes nothing and prints one line, an error exactly when X is not one of the four colours. */
  lemma ThemeAcceptsFourColours(cmd: string, now: string)
    requires StartsWith(Normalize(cmd), "theme ")
    ensures ProcessCommand(cmd, now) == Theme(Normalize(cmd))
    ensures var color := Split(Normalize(cmd)[6..], " ")[0];
            && |ProcessCommand(cmd, now).lines| == 1 && ProcessCommand(cmd, now).effect == Stay
            && (ProcessCommand(cmd, now).lines[0].isError <==> color !in Themes)
  {
    ThemeBranch(Normalize(cmd), cmd, now);
    ThemeOutcome(Normalize(cmd));
  }

  /**
   * `echo` prints `cmd.substring(5)` of the RAW command: neither lowercased nor
   * trimmed, so leading white space shifts the echoed text.
   */
  lemma EchoPrintsRawSuffix(cmd: string, now: string)
    requires StartsWith(Normalize(cmd), "echo ")
    ensures |cmd| >= 5
    ensures ProcessCommand(cmd, now) == Outcome([Line(cmd[5..])], Stay)
  {
    EchoBranch(Normalize(cmd), cmd, now);
  }

  /** With one leading space, `echo hi` echoes " hi": the offset 5 is taken in the raw command. */
  lemma EchoWithLeadingSpace(now: string)
    ensures ProcessCommand(" echo hi", now) == Outcome([Line(" hi")], Stay)
  {
    var cmd := " echo hi";
    EchoHiNormalizes();
    EchoBranch("echo hi", cmd, now);
    assert cmd[5..] == " hi";
  }

  /** ` echo hi` normalises to `echo hi`. */
  lemma EchoHiNormalizes()
    ensures Normalize(" echo hi") == "echo hi"
  {
    var cmd := " echo hi";
    forall i | 0 <= i < |cmd| ensures LowerChar(cmd[i]) == cmd[i] {
    }
    assert Lower(cmd) == cmd;
    var tail := cmd[1..];
    assert tail == "echo hi";
    assert !IsSpace(tail[0]);
    assert Lead(tail) == 0;
    assert Lead(cmd) == 1;
    assert !IsSpace(tail[|tail| - 1]);
    assert Trail(tail) == 0;
  }

  /** A bare `echo` does not match `echo ` after trimming and is unrecognised. */
  lemma BareEchoIsUnknown(cmd: string, now: string)
    requires Normalize(cmd) == "echo"
    ensures ProcessCommand(cmd, now) == Outcome([ErrorLine(UnknownMessage(cmd))], Stay)
  {
  }

  /** An unrecognised command prints exactly one error line that embeds the raw command. */
  lemma UnknownCommandIsOneError(cmd: string, now: string)
    requires Normalize(cmd) !in Keywords
    requires !StartsWith(Normalize(cmd), "navigate ")
    requires !StartsWith(Normalize(cmd), "theme ")
    requires !StartsWith(Normalize(cmd), "echo ")
    ensures var o := ProcessCommand(cmd, now);
            && |o.lines| == 1 && o.lines[0].isError && o.effect == Stay
            && o.lines[0].text[24..24 + |cmd|] == cmd
  {
  }

  /** One queued `setResponses` update, applied by React in order. */
  datatype Update = Append(items: seq<Response>) | Replace(items: seq<Response>)

  /** The output buffer after applying `queue` to `prev` in order. */
  function Apply(prev: seq<Response>, queue: seq<Update>): (r: seq<Response>)
    decreases |queue|
  {
    if queue == [] then prev
    else
      var next := match queue[0]
        case Append(items) => prev + items
        case Replace(items) => items;
      Apply(next, queue[1..])
  }

  /** The `setResponses` updates `handleSubmit` queues for `cmd` with outcome `o`, in order. */
  function SubmitQueue(cmd: string, o: Outcome): seq<Update>
  {
    [Append([Line("> " + cmd)])]
    + (if o.effect == ClearScreen then [Replace([])] else [])
    + (if |o.lines| > 0 then [Append(o.lines)] else [])
  }

  /**
   * A submitted command adds its `> cmd` echo and then its output lines; for
   * `clear` the replacement is queued after the echo, so the echo is discarded too.
   */
  lemma SubmitAppendsOrClears(prev: seq<Response>, cmd: string, now: string)
    ensures var o := ProcessCommand(cmd, now);
            Apply(prev, SubmitQueue(cmd, o))
            == if Normalize(cmd) == "clear" then [] else prev + [Line("> " + cmd)] + o.lines
  {
    var o := ProcessCommand(cmd, now);
    var q := SubmitQueue(cmd, o);
    if Normalize(cmd) == "clear" {
      assert q == [Append([Line("> " + cmd)]), Replace([])];
      assert Apply(prev, q) == Apply(prev + [Line("> " + cmd)], [Replace([])]);
      assert Apply(prev + [Line("> " + cmd)], [Replace([])]) == Apply([], []);
    } else {
      var echoed := prev + [Line("> " + cmd)];
      assert q == [Append([Line("> " + cmd)]), Append(o.lines)];
      assert Apply(prev, q) == Apply(echoed, [Append(o.lines)]);
      assert Apply(echoed, [Append(o.lines)]) == Apply(echoed + o.lines, []);
    }
  }

  /** The keys `handleKeyDown` distinguishes. */
  datatype Key = ArrowUp | ArrowDown | OtherKey

  /** The history cursor and the input line it loads. */
  datatype Recall = Recall(index: int, command: string)

  /**
   * One `handleKeyDown`: ArrowUp moves towards older entries while one is left,
   * ArrowDown towards newer ones and past the newest back to an empty input.
   */
  function KeyStep(history: seq<string>, r: Recall, key: Key): (r': Recall)
    requires -1 <= r.index < |history|
    ensures -1 <= r'.index < |history|
    ensures key == ArrowUp && r.index == |history| - 1 ==> r' == r
    ensures key == ArrowDown && r.index == -1 ==> r' == r
    ensures key == OtherKey ==> r' == r
  {
    match key
    case ArrowUp =>
      if r.index < |history| - 1 then
        var i := r.index + 1;
        Recall(i, history[|history| - 1 - i])
      else r
    case ArrowDown =>
      if r.index > 0 then
        var i := r.index - 1;
        Recall(i, history[|history| - 1 - i])
      else if r.index == 0 then Recall(-1, "")
      else r
    case OtherKey => r
  }

  /** The cursor after pressing `keys` in order. */
  function Presses(history: seq<string>, r: Recall, keys: seq<Key>): (r': Recall)
    requires -1 <= r.index < |history|
    ensures -1 <= r'.index < |history|
    decreases |keys|
  {
    if keys == [] then r
    else KeyStep(history, Presses(history, r, keys[..|keys| - 1]), keys[|keys| - 1])
  }

  /** `k` copies of `key`. */
  function Repeat(key: Key, k: nat): (keys: seq<Key>)
    ensures |keys| == k && forall i :: 0 <= i < k ==> keys[i] == key
  {
    if k == 0 then [] else Repeat(key, k - 1) + [key]
  }

  /**
   * From a fresh cursor, `k` ArrowUp presses load the `k`-th most recent
   * command: the history is walked most-recent-first.
   */
  lemma {:induction false} ArrowUpWalksNewestFirst(history: seq<string>, input: string, k: nat)
    requires 1 <= k <= |history|
    ensures Presses(history, Recall(-1, input), Repeat(ArrowUp, k)) == Recall(k - 1, history[|history| - k])
  {
    var keys := Repeat(ArrowUp, k);
    assert keys[..k - 1] == Repeat(ArrowUp, k - 1);
    if k > 1 {
      ArrowUpWalksNewestFirst(history, input, k - 1);
    }
  }

  /** ArrowDown from the newest entry empties the input and leaves the history. */
  lemma ArrowDownFromNewest(history: seq<string>, input: string)
    requires |history| > 0
    ensures KeyStep(history, Recall(0, input), ArrowDown) == Recall(-1, "")
  {
  }

  /** ArrowDown undoes ArrowUp whenever ArrowUp moved. */
  lemma ArrowDownUndoesArrowUp(history: seq<string>, r: Recall)
    requires 0 <= r.index < |history| - 1
    ensures KeyStep(history, KeyStep(history, r, ArrowUp), ArrowDown)
            == Recall(r.index, history[|history| - 1 - r.index])
  {
  }

  /** The terminal's React state. */
  class Console {
    var isOpen: bool
    var isMinimized: bool
    var command: string
    var history: seq<string>
    var historyIndex: int
    var responses: seq<Response>

    /** The history cursor is -1 (no entry loaded) or an index into the history. */
    ghost predicate Valid()
      reads this
    {
      -1 <= historyIndex < |history|
    }

    constructor ()
      ensures Valid()
      ensures !isOpen && !isMinimized && command == "" && history == [] && historyIndex == -1
      ensures responses == Greeting
    {
      isOpen := false;
      isMinimized := false;
      command := "";
      history := [];
      historyIndex := -1;
      responses := Greeting;
    }

    /** The floating button: `setIsOpen(true)`. */
    method Open()
      modifies this`isOpen
      ensures isOpen
    {
      isOpen := true;
    }

    /** The window's close button: `setIsOpen(false)`. */
    method Close()
      modifies this`isOpen
      ensures !isOpen
    {
      isOpen := false;
    }

    /** The window's minimise button: `setIsMinimized(!isMinimized)`. */
    method ToggleMinimize()
      modifies this`isMinimized
      ensures isMinimized == !old(isMinimized)
    {
      isMinimized := !isMinimized;
    }

    /** The input's `onChange`: `setCommand(value)`; the history cursor stays. */
    method Input(value: string)
      modifies this`command
      ensures command == value
    {
      command := value;
    }

    /** `handleSubmit`, with `now` the text the `date` command prints. */
    method Submit(now: string)
      requires Valid()
      modifies this
      ensures Valid()
      ensures Trim(old(command)) == "" ==>
                command == old(command) && history == old(history) && historyIndex == old(historyIndex)
                && responses == old(responses) && isOpen == old(isOpen) && isMinimized == old(isMinimized)
      ensures Trim(old(command)) != "" ==>
                var o := ProcessCommand(old(command), now);
                && history == old(history) + [old(command)]
                && historyIndex == -1
                && command == ""
                && responses == (if o.effect == ClearScreen then []
                                 else old(responses) + [Line("> " + old(command))] + o.lines)
                && isOpen == (old(isOpen) && o.effect != CloseTerminal)
                && isMinimized == old(isMinimized)
    {
      if Trim(command) == "" {
        return;
      }
      var cmd := command;
      responses := responses + [Line("> " + cmd)];
      history := history + [cmd];
      historyIndex := -1;
      var o := ProcessCommand(cmd, now);
      if o.effect == ClearScreen {
        responses := [];
      } else if o.effect == CloseTerminal {
        isOpen := false;
      }
      if |o.lines| > 0 {
        responses := responses + o.lines;
      }
      command := "";
    }

    /** `handleKeyDown`. */
    method KeyDown(key: Key)
      requires Valid()
      modifies this`historyIndex, this`command
      ensures Valid()
      ensures Recall(historyIndex, command) == KeyStep(history, Recall(old(historyIndex), old(command)), key)
    {
      if key == ArrowUp {
        if historyIndex < |history| - 1 {
          var newIndex := historyIndex + 1;
          historyIndex := newIndex;
          command := history[|history| - 1 - newIndex];
        }
      } else if key == ArrowDown {
        if historyIndex > 0 {
          var newIndex := historyIndex - 1;
          historyIndex := newIndex;
          command := history[|history| - 1 - newIndex];
        } else if historyIndex == 0 {
          historyIndex := -1;
          command := "";
        }
      }
    }
  }
}
