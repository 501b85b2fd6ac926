/** The terminal component: it turns key presses and button clicks into calls
    of the interpreter. Case-insensitivity and the empty-input check live here;
    the interpreter itself matches exactly. */
module Portfolio {
  import opened Types
  import opened Text
  import Interpreter

  /** The quick-command buttons, in the order they are shown. Each dispatches
      its name as it is, without normalisation. */
  const QuickCommands: seq<Command> := ["help", "projects", "about", "contact", "clear", "home"]

  /** The command a key press submits, if any: only Enter submits, and only
      when the trimmed, lower-cased input is not empty. */
  function Submission(key: string, input: string): (r: Option<Command>)
    ensures r.Some? <==> key == "Enter" && !AllSpace(input)
    ensures r.Some? ==> r.value != [] && Normalised(r.value)
    ensures r.Some? ==> |r.value| <= |input|
  {
    if key != "Enter" then None
    else
      var command := Normalise(input);
      if command != [] then Some(command) else None
  }

  /** The terminal component: the text of its input field and the interpreter
      it drives. Typing sets `input` from outside. */
  class Console {
    var input: string
    const session: Interpreter.Session

    constructor ()
      ensures fresh(session) && input == ""
      ensures session.Snapshot() == Interpreter.Start()
    {
      input := "";
      session := new Interpreter.Session();
    }

    /** The key-down handler of the input field. */
    method KeyDown(key: string)
      modifies this, session
      ensures Submission(key, old(input)).None? ==>
        input == old(input) && session.Snapshot() == old(session.Snapshot())
      ensures Submission(key, old(input)).Some? ==>
        input == "" &&
        session.Snapshot() == Interpreter.Handle(old(session.Snapshot()), Submission(key, old(input)).value)
    {
      if key == "Enter" {
        var command := Normalise(input);
        if command != [] {
          session.HandleCommand(command);
          input := "";
        }
      }
    }

    /** The click handler of a quick-command button. */
    method Click(command: Command)
      requires command in QuickCommands
      modifies session
      ensures session.Snapshot() == Interpreter.Handle(old(session.Snapshot()), command)
    {
      session.HandleCommand(command);
    }
  }

  /** The six command names are already trimmed and lower-case. */
  lemma BuiltinNormalised(command: Command)
    requires Interpreter.IsBuiltin(command)
    ensures command != [] && Normalised(command)
  {
  }

  /** Typing an already trimmed, lower-case command and pressing Enter submits
      it unchanged. */
  lemma TypedNormalised(command: Command)
    requires command != [] && Normalised(command)
    ensures Submission("Enter", command) == Some(command)
  {
    NormaliseFixes(command);
  }

  /** Every button names a recognised command, and one that typing it would
      reach as well. */
  lemma QuickCommandsRecognised()
    ensures forall i :: 0 <= i < |QuickCommands| ==>
      Interpreter.IsBuiltin(QuickCommands[i]) && Submission("Enter", QuickCommands[i]) == Some(QuickCommands[i])
  {
    forall i | 0 <= i < |QuickCommands|
      ensures Interpreter.IsBuiltin(QuickCommands[i]) && Submission("Enter", QuickCommands[i]) == Some(QuickCommands[i])
    {
      BuiltinNormalised(QuickCommands[i]);
      TypedNormalised(QuickCommands[i]);
    }
  }

  /** Keyboard input ignores case: inputs that lower-case alike submit alike. */
  lemma KeyboardIgnoresCase(key: string, a: string, b: string)
    requires ToLower(a) == ToLower(b)
    ensures Submission(key, a) == Submission(key, b)
  {
    CaseInsensitive(a, b);
  }

  /** Submitting what was submitted before submits it again. */
  lemma ResubmitStable(key: string, input: string)
    requires Submission(key, input).Some?
    ensures Submission(key, Submission(key, input).value) == Submission(key, input)
  {
    NormaliseIdempotent(input);
  }

  /** Whitespace around a typed word never matters: the word, lower-cased, is submitted. */
  lemma PaddedWord(pre: string, word: string, post: string)
    requires AllSpace(pre) && AllSpace(post)
    requires word != [] && !IsSpace(word[0]) && !IsSpace(word[|word| - 1])
    ensures Submission("Enter", pre + word + post) == Some(ToLower(word))
  {
    TrimPadded(pre, word, post);
  }

  /** Typing "  HeLp " and pressing Enter reaches the `help` branch. */
  lemma MixedCaseHelp()
    ensures Submission("Enter", "  HeLp ") == Some("help")
  {
    HeLpIsAWord();
    PaddedWord("  ", "HeLp", " ");
    HeLpLowered();
  }

  lemma HeLpIsAWord()
    ensures "  " + "HeLp" + " " == "  HeLp "
    ensures AllSpace("  ") && AllSpace(" ") && !IsSpace('H') && !IsSpace('p')
  {
  }

  lemma HeLpLowered()
    ensures ToLower("HeLp") == "help"
  {
    var lower := ToLower("HeLp");
    assert lower[0] == 'h' && lower[1] == 'e' && lower[2] == 'l' && lower[3] == 'p';
  }
}
