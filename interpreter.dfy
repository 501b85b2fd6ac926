/** The terminal interpreter: a line buffer and a current view, changed one
    command at a time by an exact, case-sensitive dispatcher. */
module Interpreter {
  import opened Types

  /** The screen shown under the line buffer. */
  datatype View = Terminal | Projects | About | Contact

  /** A snapshot of the interpreter's two state cells. */
  datatype Screen = Screen(lines: seq<Line>, view: View)

  const InitialLines: seq<Line> := [
    Line("Bienvenido a mi Portafolio Terminal 🚀", Info),
    Line("Escribe 'help' para ver los comandos disponibles", Info),
    Line("Para comenzar, escribe 'home' o navega con los comandos", Info)
  ]

  const HelpLines: seq<Line> := [
    Line("Comandos disponibles:", Output),
    Line("  home     - Volver al inicio", Output),
    Line("  projects - Ver mis proyectos", Output),
    Line("  about    - Información sobre mí", Output),
    Line("  contact  - Cómo contactarme", Output),
    Line("  clear    - Limpiar la terminal", Output),
    Line("  help     - Mostrar esta ayuda", Output)
  ]

  const LoadingProjects: Line := Line("Cargando proyectos...", Info)

  const AboutLines: seq<Line> := [
    Line("¡Hola! Soy un desarrollador full-stack apasionado por la tecnología.", Output),
    Line("Me especializo en crear aplicaciones web modernas y eficientes.", Output),
    Line("Tecnologías que uso frecuentemente:", Output),
    Line("  • Frontend: React, TypeScript, Tailwind CSS", Output),
    Line("  • Backend: Node.js, Python, PostgreSQL", Output),
    Line("  • Herramientas: Git, Docker, AWS", Output)
  ]

  const ContactLines: seq<Line> := [
    Line("Puedes contactarme através de:", Output),
    Line("  ✉️ Email: tu.email@ejemplo.com", Output),
    Line("  💼 LinkedIn: linkedin.com/in/tu-perfil", Output),
    Line("  🐙 GitHub: github.com/tu-usuario", Output),
    Line("  🐦 Twitter: @tu-usuario", Output)
  ]

  const GoingHome: Line := Line("Volviendo al inicio...", Info)

  /** The hint printed after an unrecognised command (same text as the second
      welcome line). */
  const Hint: Line := Line("Escribe 'help' para ver los comandos disponibles", Info)

  /** The commands the dispatcher recognises, matched exactly. */
  predicate IsBuiltin(command: Command) {
    command == "help" || command == "projects" || command == "about" ||
    command == "contact" || command == "clear" || command == "home"
  }

  /** The commands that select a view. */
  predicate SelectsView(command: Command) {
    IsBuiltin(command) && command != "clear"
  }

  /** The echo of a command, the first line every command but `clear` appends. */
  function Echo(command: Command): Line {
    Line("$ " + command, LineType.Command)
  }

  function Unrecognised(command: Command): Line {
    Line("Comando no reconocido: " + command, Error)
  }

  /** The lines a command other than `clear` prints after its echo. */
  function Response(command: Command): (r: seq<Line>)
    ensures IsBuiltin(command) ==> forall i :: 0 <= i < |r| ==> r[i].kind == Output || r[i].kind == Info
    ensures !IsBuiltin(command) ==> |r| == 2 && r[0].kind == Error && r[1].kind == Info
  {
    match command
    case "help" => HelpLines
    case "projects" => [LoadingProjects]
    case "about" => AboutLines
    case "contact" => ContactLines
    case "clear" => []
    case "home" => [GoingHome]
    case _ => [Unrecognised(command), Hint]
  }

  /** The view a command leaves behind, starting from `v`. */
  function NextView(command: Command, v: View): (w: View)
    ensures !SelectsView(command) ==> w == v
  {
    match command
    case "help" => Terminal
    case "projects" => Projects
    case "about" => About
    case "contact" => Contact
    case "home" => Terminal
    case _ => v
  }

  /** The state after one command: the specification of `Session.HandleCommand`. */
  function Handle(s: Screen, command: Command): (r: Screen)
    ensures command == "clear" ==> r == Screen([], s.view)
    ensures command != "clear" ==>
      |s.lines| < |r.lines| && r.lines[..|s.lines|] == s.lines && r.lines[|s.lines|] == Echo(command)
    ensures r.view != s.view ==> SelectsView(command)
  {
    if command == "clear" then Screen([], s.view)
    else Screen(s.lines + [Echo(command)] + Response(command), NextView(command, s.view))
  }

  /** The state the interpreter starts in. */
  function Start(): (r: Screen)
    ensures |r.lines| == 3 && r.view == Terminal
    ensures forall i :: 0 <= i < |r.lines| ==> r.lines[i].kind == Info
  {
    Screen(InitialLines, Terminal)
  }

  /** The interpreter as the terminal component holds it: two state cells that
      each command overwrites. */
  class Session {
    var lines: seq<Line>
    var view: View

    function Snapshot(): Screen
      reads this
    {
      Screen(lines, view)
    }

    constructor ()
      ensures Snapshot() == Start()
    {
      lines := InitialLines;
      view := Terminal;
    }

    /** Echoes the command, appends its response and sets its view; `clear`
        instead empties the buffer without an echo. */
    method HandleCommand(command: Command)
      modifies this
      ensures Snapshot() == Handle(old(Snapshot()), command)
      ensures command != "clear" ==> |old(lines)| < |lines| && lines[..|old(lines)|] == old(lines)
      ensures command == "clear" ==> lines == [] && view == old(view)
    {
      var newLines := lines + [Echo(command)];
      match command {
        case "help" =>
          newLines := newLines + HelpLines;
          view := Terminal;
        case "projects" =>
          newLines := newLines + [LoadingProjects];
          view := Projects;
        case "about" =>
          newLines := newLines + AboutLines;
          view := About;
        case "contact" =>
          newLines := newLines + ContactLines;
          view := Contact;
        case "clear" =>
          lines := [];
          return;
        case "home" =>
          newLines := newLines + [GoingHome];
          view := Terminal;
        case _ =>
          newLines := newLines + [Unrecognised(command), Hint];
      }
      lines := newLines;
    }

    /** Empties the buffer; the view is kept. */
    method ClearTerminal()
      modifies this
      ensures lines == [] && view == old(view)
    {
      lines := [];
    }
  }

  /** `help` prints the echo and the seven lines of the command list, and
      returns to the terminal view. */
  lemma HelpCommand(s: Screen)
    ensures var r := Handle(s, "help");
      |r.lines| == |s.lines| + 8 && r.view == Terminal &&
      forall i :: |s.lines| < i < |r.lines| ==> r.lines[i].kind == Output
  {
  }

  /** `projects` prints the echo and one info line and selects the projects view. */
  lemma ProjectsCommand(s: Screen)
    ensures var r := Handle(s, "projects");
      |r.lines| == |s.lines| + 2 && r.view == Projects && r.lines[|s.lines| + 1] == LoadingProjects
  {
  }

  /** `about` prints the echo and six output lines and selects the about view. */
  lemma AboutCommand(s: Screen)
    ensures var r := Handle(s, "about");
      |r.lines| == |s.lines| + 7 && r.view == About &&
      forall i :: |s.lines| < i < |r.lines| ==> r.lines[i].kind == Output
  {
  }

  /** `contact` prints the echo and five output lines and selects the contact view. */
  lemma ContactCommand(s: Screen)
    ensures var r := Handle(s, "contact");
      |r.lines| == |s.lines| + 6 && r.view == Contact &&
      forall i :: |s.lines| < i < |r.lines| ==> r.lines[i].kind == Output
  {
  }

  /** `home` prints the echo and one info line and returns to the terminal view. */
  lemma HomeCommand(s: Screen)
    ensures var r := Handle(s, "home");
      |r.lines| == |s.lines| + 2 && r.view == Terminal && r.lines[|s.lines| + 1] == GoingHome
  {
  }

  /** Any other string is echoed and reported, and the view stays. */
  lemma UnknownCommand(s: Screen, command: Command)
    requires !IsBuiltin(command)
    ensures Handle(s, command) == Screen(s.lines + [Echo(command), Unrecognised(command), Hint], s.view)
  {
  }

  /** The match is exact: the empty string and an upper-case name are not commands. */
  lemma ExactMatch(s: Screen)
    ensures |Handle(s, "").lines| == |s.lines| + 3 && Handle(s, "").view == s.view
    ensures |Handle(s, "HELP").lines| == |s.lines| + 3 && Handle(s, "HELP").view == s.view
    ensures Handle(s, "HELP").lines[|s.lines| + 1] == Line("Comando no reconocido: HELP", Error)
  {
    UnknownCommand(s, "");
    UnknownCommand(s, "HELP");
  }

  /** The state after a series of commands, applied in order. */
  function Replay(s: Screen, commands: seq<Command>): Screen
    decreases |commands|
  {
    if commands == [] then s else Replay(Handle(s, commands[0]), commands[1..])
  }

  /** Everything a series of commands prints when none of them is `clear`. */
  function Transcript(commands: seq<Command>): seq<Line>
    decreases |commands|
  {
    if commands == [] then [] else [Echo(commands[0])] + Response(commands[0]) + Transcript(commands[1..])
  }

  lemma {:induction false} ReplayAppend(s: Screen, a: seq<Command>, b: seq<Command>)
    ensures Replay(s, a + b) == Replay(Replay(s, a), b)
    decreases |a|
  {
    if a == [] {
      assert a + b == b;
    } else {
      assert (a + b)[1..] == a[1..] + b;
      ReplayAppend(Handle(s, a[0]), a[1..], b);
    }
  }

  /** Sequence concatenation re-bracketed, proved apart from the command texts
      so that `AppendOnly` does not pay for them. */
  lemma Associative(a: seq<Line>, b: seq<Line>, c: seq<Line>)
    ensures a + b + c == a + (b + c)
  {
  }

  /** One command other than `clear` appends its echo and its response. */
  lemma HandleLines(s: Screen, command: Command)
    requires command != "clear"
    ensures Handle(s, command).lines == s.lines + ([Echo(command)] + Response(command))
  {
  }

  /** Without `clear`, the buffer only grows: the old lines stay in front and
      what follows is exactly what the commands printed. */
  lemma {:induction false} AppendOnly(s: Screen, commands: seq<Command>)
    requires "clear" !in commands
    ensures Replay(s, commands).lines == s.lines + Transcript(commands)
    decreases |commands|
  {
    if commands != [] {
      var c, rest := commands[0], commands[1..];
      var next := Handle(s, c);
      calc {
        Replay(s, commands).lines;
        Replay(next, rest).lines;
        { AppendOnly(next, rest); }
        next.lines + Transcript(rest);
        { HandleLines(s, c); }
        s.lines + ([Echo(c)] + Response(c)) + Transcript(rest);
        { Associative(s.lines, [Echo(c)] + Response(c), Transcript(rest)); }
        s.lines + ([Echo(c)] + Response(c) + Transcript(rest));
        s.lines + Transcript(commands);
      }
    }
  }

  /** After any series of commands that contains `clear`, the buffer holds
      exactly what was printed after the last `clear`. */
  lemma AfterLastClear(s: Screen, before: seq<Command>, after: seq<Command>)
    requires "clear" !in after
    ensures Replay(s, before + ["clear"] + after).lines == Transcript(after)
  {
    ReplayAppend(s, before + ["clear"], after);
    ReplayAppend(s, before, ["clear"]);
    AppendOnly(Replay(s, before + ["clear"]), after);
  }

  /** Commands that select no view leave the view as it was. */
  lemma {:induction false} ViewStable(s: Screen, commands: seq<Command>)
    requires forall i :: 0 <= i < |commands| ==> !SelectsView(commands[i])
    ensures Replay(s, commands).view == s.view
    decreases |commands|
  {
    if commands != [] {
      ViewStable(Handle(s, commands[0]), commands[1..]);
    }
  }
}
