/**
 * Classification of an inbound text message (already stripped) into one of
 * the bot's commands: an ordered chain of prefix tests where the first match
 * wins, and the argument cut out of the text at a fixed offset.
 */
module Commands {
  import opened PyText

  datatype Command =
    | Register(token: string)
    | Help
    | Cosplay(persona: string)
    | Clear
    | Image(prompt: string)
    | Content(text: string)

  /** The command prefixes, in the order they are tested. */
  const CommandPrefixes: seq<string> := ["/register", "/help", "/cosplay", "/clear", "/image"]

  /** The argument of a command: the text from `offset` on, stripped. */
  function Arg(text: string, offset: nat): string {
    Strip(Slice(text, offset))
  }

  /**
   * The command a stripped message stands for. `/register` and `/cosplay`
   * take their argument from offset 9, `/image` from offset 7; anything that
   * matches no prefix is content for the model.
   */
  function Classify(text: string): Command {
    if StartsWith(text, "/register") then Register(Arg(text, 9))
    else if StartsWith(text, "/help") then Help
    else if StartsWith(text, "/cosplay") then Cosplay(Arg(text, 9))
    else if StartsWith(text, "/clear") then Clear
    else if StartsWith(text, "/image") then Image(Arg(text, 7))
    else Content(text)
  }

  /** The position of a command's prefix in CommandPrefixes; content comes after all of them. */
  function Rank(c: Command): nat {
    match c
    case Register(_) => 0
    case Help => 1
    case Cosplay(_) => 2
    case Clear => 3
    case Image(_) => 4
    case Content(_) => 5
  }

  /** The index of the first prefix `text` starts with, or `|prefixes|` when there is none. */
  function FirstMatch(text: string, prefixes: seq<string>): (i: nat)
    ensures i <= |prefixes|
    ensures i < |prefixes| ==> StartsWith(text, prefixes[i])
    ensures forall j :: 0 <= j < i ==> !StartsWith(text, prefixes[j])
  {
    if prefixes == [] then 0
    else if StartsWith(text, prefixes[0]) then 0
    else 1 + FirstMatch(text, prefixes[1..])
  }

  /** Classification is first-match-wins over CommandPrefixes, in that order. */
  lemma ClassifyIsFirstMatch(text: string)
    ensures Rank(Classify(text)) == FirstMatch(text, CommandPrefixes)
  {
    var i := FirstMatch(text, CommandPrefixes);
    var ps := CommandPrefixes;
    assert ps[0] == "/register" && ps[1] == "/help" && ps[2] == "/cosplay";
    assert ps[3] == "/clear" && ps[4] == "/image";
    if i < 5 {
      assert StartsWith(text, ps[i]);
    }
    assert 0 < i ==> !StartsWith(text, ps[0]);
    assert 1 < i ==> !StartsWith(text, ps[1]);
    assert 2 < i ==> !StartsWith(text, ps[2]);
    assert 3 < i ==> !StartsWith(text, ps[3]);
    assert 4 < i ==> !StartsWith(text, ps[4]);
  }

  /** A string starts with itself followed by anything. */
  lemma StartsWithPrefix(p: string, rest: string)
    ensures StartsWith(p + rest, p)
  {
    assert (p + rest)[..|p|] == p;
  }

  /** One differing character is enough to rule a prefix out. */
  lemma DiffersAt(text: string, p: string, i: nat)
    requires i < |p| && i < |text| && text[i] != p[i]
    ensures !StartsWith(text, p)
  {
    if |p| <= |text| {
      assert text[..|p|][i] == text[i];
    }
  }

  /** Text that starts with `/help`, such as `/helpme`, is the help command. */
  lemma ClassifyHelp(text: string)
    requires StartsWith(text, "/help")
    ensures Classify(text) == Help
  {
    assert text[1] == "/help"[1];
    DiffersAt(text, "/register", 1);
  }

  /** Text that starts with `/clear` is the clear command, whatever follows. */
  lemma ClassifyClear(text: string)
    requires StartsWith(text, "/clear")
    ensures Classify(text) == Clear
  {
    assert text[1] == "/clear"[1] && text[2] == "/clear"[2];
    DiffersAt(text, "/register", 1);
    DiffersAt(text, "/help", 1);
    DiffersAt(text, "/cosplay", 2);
  }

  /** Text that starts with `/cosplay` is the cosplay command, its argument cut at offset 9. */
  lemma ClassifyCosplay(text: string)
    requires StartsWith(text, "/cosplay")
    ensures Classify(text) == Cosplay(Arg(text, 9))
  {
    assert text[1] == "/cosplay"[1];
    DiffersAt(text, "/register", 1);
    DiffersAt(text, "/help", 1);
  }

  /** Text that starts with `/image` is the image command, its argument cut at offset 7. */
  lemma ClassifyImage(text: string)
    requires StartsWith(text, "/image")
    ensures Classify(text) == Image(Arg(text, 7))
  {
    assert text[1] == "/image"[1];
    DiffersAt(text, "/register", 1);
    DiffersAt(text, "/help", 1);
    DiffersAt(text, "/cosplay", 1);
    DiffersAt(text, "/clear", 1);
  }

  /**
   * A command word, a space and a stripped argument, stripped as a whole the
   * way every message is: the result still starts with the command word, and
   * the argument comes back whole whether it is cut right after the word or
   * after the space.
   */
  lemma SpacedArgument(command: string, arg: string)
    requires command != [] && !IsSpace(command[0]) && !IsSpace(command[|command| - 1])
    requires NoOuterSpace(arg)
    ensures StartsWith(Strip(command + " " + arg), command)
    ensures Arg(Strip(command + " " + arg), |command|) == arg
    ensures Arg(Strip(command + " " + arg), |command| + 1) == arg
  {
    if arg == [] {
      TrailingSpace(command);
    } else {
      SpaceBeforeArgument(command, arg);
    }
  }

  /** A command word and a space, with nothing after: the space is stripped and both cuts are empty. */
  lemma TrailingSpace(command: string)
    requires NoOuterSpace(command) && command != []
    ensures StartsWith(Strip(command + " " + []), command)
    ensures Arg(Strip(command + " " + []), |command|) == []
    ensures Arg(Strip(command + " " + []), |command| + 1) == []
  {
    var text := command + " " + [];
    assert text == [] + command + " ";
    assert command[..|command|] == command;
    assert Slice(command, |command|) == [];
    assert Slice(command, |command| + 1) == [];
    StripPadded([], command, " ");
    StripKeeps([]);
  }

  /** A command word, a space and a non-empty argument: the whole survives stripping. */
  lemma SpaceBeforeArgument(command: string, arg: string)
    requires command != [] && !IsSpace(command[0])
    requires NoOuterSpace(arg) && arg != []
    ensures StartsWith(Strip(command + " " + arg), command)
    ensures Arg(Strip(command + " " + arg), |command|) == arg
    ensures Arg(Strip(command + " " + arg), |command| + 1) == arg
  {
    SpacedText(command, arg);
    StripPadded(" ", arg, []);
    StripKeeps(arg);
    StripKeeps(command + " " + arg);
  }

  /** The plain sequence facts about a command word, a space and a non-empty argument. */
  lemma SpacedText(command: string, arg: string)
    requires command != [] && !IsSpace(command[0])
    requires NoOuterSpace(arg) && arg != []
    ensures NoOuterSpace(command + " " + arg)
    ensures StartsWith(command + " " + arg, command)
    ensures Slice(command + " " + arg, |command|) == " " + arg + []
    ensures Slice(command + " " + arg, |command| + 1) == arg
  {
    var text := command + " " + arg;
    assert text[0] == command[0] && text[|text| - 1] == arg[|arg| - 1];
    assert text[..|command|] == command;
    assert text[|command|..] == " " + arg + [];
    assert text[|command| + 1..] == arg;
  }

  /**
   * `/help` and anything after it, such as `/help me` or `/helpme`, is still
   * the help command once stripped: stripping cannot reach into `/help`.
   */
  lemma HelpArgument(rest: string)
    ensures Classify(Strip("/help" + rest)) == Help
  {
    var text := "/help" + rest;
    var r := Strip(text);
    StripCutsOutWhitespace(text);
    var k :| StrippedAt(text, r, k);
    assert !IsSpace(text[0]) && !IsSpace(text[4]);
    assert k == 0;
    assert |r| >= 5;
    assert r[..5] == text[..5] == "/help";
    ClassifyHelp(r);
  }

  /** `/register <token>`: the token is recovered whole. */
  lemma RegisterArgument(token: string)
    requires NoOuterSpace(token)
    ensures Classify(Strip("/register " + token)) == Register(token)
  {
    assert "/register " + token == "/register" + " " + token;
    SpacedArgument("/register", token);
  }

  /** `/cosplay <persona>`: the persona is recovered whole. */
  lemma CosplayArgument(persona: string)
    requires NoOuterSpace(persona)
    ensures Classify(Strip("/cosplay " + persona)) == Cosplay(persona)
  {
    assert "/cosplay " + persona == "/cosplay" + " " + persona;
    SpacedArgument("/cosplay", persona);
    ClassifyCosplay(Strip("/cosplay " + persona));
  }

  /** `/image <prompt>`: the prompt is recovered whole. */
  lemma ImageArgument(prompt: string)
    requires NoOuterSpace(prompt)
    ensures Classify(Strip("/image " + prompt)) == Image(prompt)
  {
    assert "/image " + prompt == "/image" + " " + prompt;
    SpacedArgument("/image", prompt);
    ClassifyImage(Strip("/image " + prompt));
  }

  /**
   * Without the separating space the fixed offset cuts into the persona:
   * `/cosplayteacher` sets the persona `eacher`.
   */
  lemma CosplayWithoutSpaceDropsFirstChar(persona: string)
    requires NoOuterSpace(persona) && persona != []
    ensures Classify(Strip("/cosplay" + persona)) == Cosplay(Strip(persona[1..]))
  {
    GluedArgument("/cosplay", persona);
    ClassifyCosplay("/cosplay" + persona);
  }

  /** A command word with its argument glued on: stripping keeps it, and one character past the word starts inside the argument. */
  lemma GluedArgument(command: string, arg: string)
    requires command != [] && !IsSpace(command[0])
    requires NoOuterSpace(arg) && arg != []
    ensures StartsWith(command + arg, command)
    ensures Slice(command + arg, |command| + 1) == arg[1..]
    ensures Strip(command + arg) == command + arg
  {
    var text := command + arg;
    assert text[0] == command[0] && text[|text| - 1] == arg[|arg| - 1];
    StripKeeps(text);
    StartsWithPrefix(command, arg);
    assert text[|command| + 1..] == arg[1..];
  }

  /** Anything that starts with no command prefix is passed on whole as content. */
  lemma ContentIsWholeText(text: string)
    requires forall i :: 0 <= i < |CommandPrefixes| ==> !StartsWith(text, CommandPrefixes[i])
    ensures Classify(text) == Content(text)
  {
    assert !StartsWith(text, CommandPrefixes[0]) && !StartsWith(text, CommandPrefixes[1]);
    assert !StartsWith(text, CommandPrefixes[2]) && !StartsWith(text, CommandPrefixes[3]);
    assert !StartsWith(text, CommandPrefixes[4]);
  }

  /**
   * A command word with nothing after it has an empty argument; for `/image`
   * the offset lies past the end of the text, where slicing yields nothing.
   */
  lemma BareCommandsHaveEmptyArgument()
    ensures Classify("/register") == Register("")
    ensures Classify("/cosplay") == Cosplay("")
    ensures Classify("/image") == Image("")
  {
    StartsWithPrefix("/register", "");
    assert "/register" + "" == "/register";
    StartsWithPrefix("/cosplay", "");
    assert "/cosplay" + "" == "/cosplay";
    ClassifyCosplay("/cosplay");
    StartsWithPrefix("/image", "");
    assert "/image" + "" == "/image";
    ClassifyImage("/image");
    StripKeeps([]);
  }
}
