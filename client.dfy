/** The client's side of the command layer: its command descriptors and
    registry, the check of an input line before anything is sent, the
    pre-flight search for recursive scripts, and the yes/no question asked
    before logging in. */
module Client {
  import opened Base
  import opened JavaText
  import opened Network
  import opened Builders

  // ---------------------------------------------------------------- commands

  /** A client command: which class it is, its name, its help line and
      whether it takes an argument. */
  datatype ClientCommand = ClientCommand(kind: Kind, name: string, description: string, hasArgs: bool)

  /** `Command.equals`: the same class with equal `hasArgs`, name and
      description. Every field takes part, so this is equality of the
      descriptors; `o == None` stands for null. */
  function CommandEquals(c: ClientCommand, o: Option<ClientCommand>): (r: bool)
    ensures r <==> o == Some(c)
  {
    o.Some? && c.kind == o.value.kind && c.hasArgs == o.value.hasArgs
    && c.name == o.value.name && c.description == o.value.description
  }

  /** The client registry. */
  class ClientRegistry {
    var commands: map<string, ClientCommand>

    constructor ()
      ensures commands == map[]
    {
      commands := map[];
    }

    /** `putCommand`: registers the command under its name, replacing any
        command of that name and leaving the other names alone. */
    method PutCommand(c: ClientCommand)
      modifies this`commands
      ensures c.name in commands && commands[c.name] == c
      ensures commands.Keys == old(commands).Keys + {c.name}
      ensures forall n :: n in old(commands) && n != c.name ==> commands[n] == old(commands)[n]
    {
      commands := commands[c.name := c];
    }
  }

  // ---------------------------------------------------------------- an input line

  /** What the command loop does with one line of input. */
  datatype LineAction =
    | Exit                                      // "exit": the client stops
    | UnknownCommand                            // "команды нет!", nothing sent
    | NoArgumentsExpected                       // a command without arguments got some
    | OneArgumentExpected                       // a command with arguments got none or several
    | SendBand(command: ClientCommand)          // `add`: a band is built and sent
    | Send(command: ClientCommand)              // any other command without arguments
    | BadNumber                                 // `Long.parseLong` fails: the exception ends the client
    | SendBandWithId(command: ClientCommand, id: int)  // `update id`: a band is built and sent with the id
    | SendId(command: ClientCommand, id: int)   // `remove_at` / `remove_by_id`
    | SendNothing(command: ClientCommand)       // any other command with an argument: the id is parsed, nothing sent
    | CheckScript(command: ClientCommand, script: string)  // `execute_script`: the script is checked for recursion first
    | RecursionFound(script: string)            // the check found recursion: nothing sent
    | SendScript(command: ClientCommand, script: string)  // the check found none: the script's name is sent

  /** The tokens of an input line: `(line + " ").trim().split(" ")`. */
  function Tokens(line: string): (r: seq<string>)
    ensures |r| >= 1
  {
    var parts := JavaSplit(Trim(line + " "), ' ');
    if parts == [] then [""] else parts
  }

  /** The command loop's decision for one line, given the registry, before
      any script is looked at. */
  function Classify(line: string, commands: map<string, ClientCommand>): (r: LineAction)
    ensures var t := Tokens(line);
      (r == Exit <==> t[0] == "exit")
      && (r == UnknownCommand <==> t[0] != "exit" && t[0] !in commands)
    ensures r.SendBand? || r.Send? ==>
      var t := Tokens(line); |t| == 1 && t[0] in commands && !commands[t[0]].hasArgs && r.command == commands[t[0]]
    ensures r.SendBandWithId? || r.SendId? || r.SendNothing? || r.CheckScript? || r.BadNumber? ==>
      var t := Tokens(line); |t| == 2 && t[0] in commands && commands[t[0]].hasArgs
    ensures r.SendBandWithId? || r.SendId? ==>
      var t := Tokens(line); r.command == commands[t[0]] && ParseLong(t[1]) == Some(r.id)
    ensures r.CheckScript? ==>
      var t := Tokens(line); t[0] == "execute_script" && r.command == commands[t[0]] && r.script == t[1]
    ensures !r.RecursionFound? && !r.SendScript?
  {
    var t := Tokens(line);
    var name := t[0];
    if name == "exit" then Exit
    else if name !in commands then UnknownCommand
    else
      var command := commands[name];
      if !command.hasArgs then
        if |t| != 1 then NoArgumentsExpected
        else if name == "add" then SendBand(command)
        else Send(command)
      else if |t| != 2 then OneArgumentExpected
      else if name == "execute_script" then CheckScript(command, t[1])
      else match ParseLong(t[1])
        case None => BadNumber
        case Some(id) =>
          if name == "update" then SendBandWithId(command, id)
          else if name == "remove_at" || name == "remove_by_id" then SendId(command, id)
          else SendNothing(command)
  }

  // ---------------------------------------------------------------- recursive scripts

  /** The script a line calls: after trimming it starts with
      "execute_script" and splits on runs of white space into exactly two
      tokens, the second of which is the script. */
  function CalledScript(line: string): (r: Option<string>)
    ensures r.Some? ==> StartsWith(Trim(line), "execute_script") && |SplitWords(Trim(line))| == 2
  {
    var t := Trim(line);
    if !StartsWith(t, "execute_script") then None
    else
      var parts := SplitWords(t);
      if |parts| == 2 then Some(parts[1]) else None
  }

  /** The scripts called by the lines, in order. */
  function Calls(lines: seq<string>): (r: seq<string>)
    ensures |r| <= |lines|
  {
    if lines == [] then []
    else match CalledScript(lines[0])
      case Some(s) => [s] + Calls(lines[1..])
      case None => Calls(lines[1..])
  }

  /** The script `name`, reached with the scripts of `path` open above it,
      leads back to a script already on the path: it is on the path itself,
      or it exists and one of the scripts it calls leads back to a script on
      the path extended by it. A missing script calls nothing. */
  predicate Recurses(files: map<string, seq<string>>, name: string, path: set<string>)
    decreases files.Keys - path, 0, 0
  {
    name in path || (name in files && AnyRecurses(files, Calls(files[name]), path + {name}))
  }

  predicate AnyRecurses(files: map<string, seq<string>>, names: seq<string>, path: set<string>)
    decreases files.Keys - path, 1, |names|
  {
    names != [] && (Recurses(files, names[0], path) || AnyRecurses(files, names[1..], path))
  }

  /** Scanning the lines from `i` on finds a recursive call exactly when
      the line at `i` calls a recursive script or the rest of the lines
      do. */
  lemma {:induction false} RecursesFrom(files: map<string, seq<string>>, lines: seq<string>, i: nat, path: set<string>)
    requires i < |lines|
    ensures AnyRecurses(files, Calls(lines[i..]), path) <==>
      (CalledScript(lines[i]).Some? && Recurses(files, CalledScript(lines[i]).value, path))
      || AnyRecurses(files, Calls(lines[i + 1..]), path)
  {
    assert lines[i..][1..] == lines[i + 1..];
    var rest := Calls(lines[i + 1..]);
    match CalledScript(lines[i])
    case Some(s) =>
      assert Calls(lines[i..]) == [s] + rest;
      assert ([s] + rest)[1..] == rest;
    case None =>
  }

  /** The pre-flight check of `execute_script`: a depth-first walk through
      the scripts, with the set of scripts on the current path. */
  class RecursionCheck {
    /** The files the walk can open, each as its lines. */
    const files: map<string, seq<string>>
    /** The scripts on the current path. */
    var visited: set<string>

    constructor (files: map<string, seq<string>>)
      ensures this.files == files && visited == {}
    {
      this.files := files;
      visited := {};
    }

    /** `hasRecursion`: true at once for a script on the path; otherwise
        the script is put on the path, each line calling a script is
        followed in turn, and on finding no recursion the script is taken
        off the path again. A missing script calls nothing. */
    method HasRecursion(name: string) returns (r: bool)
      modifies this`visited
      decreases files.Keys - visited
      ensures r == Recurses(files, name, old(visited))
      ensures !r ==> visited == old(visited)
    {
      if name in visited {
        return true;
      }
      ghost var path := visited + {name};
      visited := visited + {name};
      if name !in files {
        visited := visited - {name};
        return false;
      }
      var lines := files[name];
      assert lines[0..] == lines;
      var i := 0;
      while i < |lines|
        invariant i <= |lines|
        invariant visited == path
        invariant Recurses(files, name, old(visited)) == AnyRecurses(files, Calls(lines[i..]), path)
      {
        RecursesFrom(files, lines, i, path);
        var nested := CalledScript(lines[i]);
        if nested.Some? {
          var found := HasRecursion(nested.value);
          if found {
            assert AnyRecurses(files, Calls(lines[i..]), path);
            return true;
          }
        }
        i := i + 1;
      }
      assert Calls(lines[i..]) == [];
      visited := visited - {name};
      r := false;
      assert visited == old(visited);
    }
  }

  /** One line of the command loop: `Classify`, and for `execute_script`
      the recursion check with no script open yet. A script is sent only
      when the check finds no recursion; otherwise the recursion is
      reported and nothing is sent. */
  method HandleLine(line: string, commands: map<string, ClientCommand>, files: map<string, seq<string>>)
    returns (r: LineAction)
    ensures !Classify(line, commands).CheckScript? ==> r == Classify(line, commands)
    ensures Classify(line, commands).CheckScript? ==>
      var script := Classify(line, commands).script;
      (r == RecursionFound(script) <==> Recurses(files, script, {}))
      && (r == SendScript(Classify(line, commands).command, script) <==> !Recurses(files, script, {}))
    ensures r.SendScript? ==> !Recurses(files, r.script, {})
  {
    r := Classify(line, commands);
    if r.CheckScript? {
      var check := new RecursionCheck(files);
      var found := check.HasRecursion(r.script);
      if found {
        r := RecursionFound(r.script);
      } else {
        r := SendScript(r.command, r.script);
      }
    }
  }

  /** A script that calls itself is recursive, whatever else it holds. */
  lemma SelfCallRecurses(files: map<string, seq<string>>, name: string, line: string)
    requires name in files && |files[name]| > 0 && files[name][0] == line
    requires CalledScript(line) == Some(name)
    ensures Recurses(files, name, {})
  {
    assert Calls(files[name])[0] == name;
    assert Recurses(files, name, {name});
  }

  /** A script that calls nothing is not recursive. */
  lemma NoCallsNoRecursion(files: map<string, seq<string>>, name: string, path: set<string>)
    requires name !in path
    requires name !in files || Calls(files[name]) == []
    ensures !Recurses(files, name, path)
  {
  }

  // ---------------------------------------------------------------- the login question

  /** The answers `isLogin` understands. */
  function LoginAnswer(line: string): (r: Option<bool>)
    ensures r == Some(true) <==> line in {"y", "yes", "Y", "YES", "ДА", "да"}
    ensures r == Some(false) <==> line in {"n", "N", "no", "NO", "нет", "НЕТ"}
  {
    if line in {"y", "yes", "Y", "YES", "ДА", "да"} then Some(true)
    else if line in {"n", "N", "no", "NO", "нет", "НЕТ"} then Some(false)
    else None
  }

  /** The console the client reads its answers from. */
  class Console {
    /** The lines still to be typed. */
    var input: seq<string>

    constructor (input: seq<string>)
      ensures this.input == input
    {
      this.input := input;
    }

    /** `isLogin`: asks until an answer is understood ("Неверный ввод"
        otherwise); `None` once the console has run out. */
    method IsLogin() returns (r: Option<bool>)
      modifies this`input
      ensures FirstAccepted(old(input), LoginAnswer).None? ==> r.None? && input == []
      ensures FirstAccepted(old(input), LoginAnswer).Some? ==>
        var found := FirstAccepted(old(input), LoginAnswer).value;
        r == Some(found.0) && input == old(input)[found.1..]
    {
      ghost var consumed := 0;
      while input != []
        invariant consumed <= |old(input)| && input == old(input)[consumed..]
        invariant forall j :: 0 <= j < consumed ==> LoginAnswer(old(input)[j]).None?
        decreases |input|
      {
        var line := input[0];
        input := input[1..];
        consumed := consumed + 1;
        assert old(input)[consumed..] == input;
        var answer := LoginAnswer(line);
        if answer.Some? {
          FirstAcceptedAfter(old(input), LoginAnswer, consumed - 1);
          return answer;
        }
      }
      FirstAcceptedAfter(old(input), LoginAnswer, consumed);
      return None;
    }
  }
}
