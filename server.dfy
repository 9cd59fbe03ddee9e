/** The server's command registry and dispatcher, with the two commands that
    need the registry: `help`, which lists it, and `execute_script`, which
    reads commands from script files and dispatches each of them again. */
module Server {
  import opened Base
  import opened JavaText
  import opened Bands
  import opened Collection
  import opened Network
  import opened Persistence
  import opened Scripts
  import opened Commands

  const NoCommandReply: string := "Команды нет"
  const HelpHeader: string := "Список команд: "
  const RecursionNotice: string := "Обнаружена рекурсия"
  const FileNotFoundReply: string := "Файл не найден"
  const BadNumberReply: string := "Неверный формат числа в аргументе команды"

  // ---------------------------------------------------------------- help text

  /** The commands' help lines in the given key order. */
  function Descriptions(commands: map<string, Command>, order: seq<string>): (r: seq<string>)
    requires forall i :: 0 <= i < |order| ==> order[i] in commands
    ensures |r| == |order|
  {
    if order == [] then [] else [commands[order[0]].Description()] + Descriptions(commands, order[1..])
  }

  /** The i-th help line is the description of the i-th listed command. */
  lemma {:induction false} DescriptionsAt(commands: map<string, Command>, order: seq<string>)
    requires forall i :: 0 <= i < |order| ==> order[i] in commands
    ensures forall i :: 0 <= i < |order| ==> Descriptions(commands, order)[i] == commands[order[i]].Description()
  {
    if order != [] {
      DescriptionsAt(commands, order[1..]);
    }
  }

  /** `help`'s answer: the header line, then every help line followed by a
      line break. */
  function HelpText(descriptions: seq<string>): string
  {
    HelpHeader + "\n" + Appended(descriptions, "\n")
  }

  /** Listing one more command adds its help line at the end. */
  lemma DescriptionsSnoc(commands: map<string, Command>, order: seq<string>, k: string)
    requires forall i :: 0 <= i < |order| ==> order[i] in commands
    requires k in commands
    ensures Descriptions(commands, order + [k]) == Descriptions(commands, order) + [commands[k].Description()]
  {
    DescriptionsAt(commands, order + [k]);
    DescriptionsAt(commands, order);
  }

  /** One more help line adds that line and a line break to the text. */
  lemma HelpTextAppend(descriptions: seq<string>, line: string)
    ensures HelpText(descriptions + [line]) == HelpText(descriptions) + line + "\n"
  {
    assert (descriptions + [line])[..|descriptions|] == descriptions;
  }

  /** Listing one more command adds its help line and a line break. */
  lemma HelpTextSnoc(commands: map<string, Command>, order: seq<string>, k: string)
    requires forall i :: 0 <= i < |order| ==> order[i] in commands
    requires k in commands
    ensures HelpText(Descriptions(commands, order + [k]))
         == HelpText(Descriptions(commands, order)) + commands[k].Description() + "\n"
  {
    DescriptionsSnoc(commands, order, k);
    HelpTextAppend(Descriptions(commands, order), commands[k].Description());
  }

  /** `order` lists every key of the registry exactly once. */
  ghost predicate Enumerates(order: seq<string>, keys: set<string>)
  {
    (forall i, j :: 0 <= i < j < |order| ==> order[i] != order[j])
    && (forall k :: k in keys <==> k in order)
  }

  lemma {:induction false} DistinctCardinality(order: seq<string>)
    requires forall i, j :: 0 <= i < j < |order| ==> order[i] != order[j]
    ensures |set k | k in order| == |order|
  {
    if order != [] {
      var init := order[..|order| - 1];
      DistinctCardinality(init);
      assert (set k | k in order) == (set k | k in init) + {order[|order| - 1]};
    }
  }

  /** The help text splits into the header, one line per help line, and the
      empty rest after the final line break, so it has one line per
      registered command besides the header. */
  lemma HelpLines(descriptions: seq<string>)
    requires forall i :: 0 <= i < |descriptions| ==> '\n' !in descriptions[i]
    ensures SplitOn(HelpText(descriptions), '\n') == [HelpHeader] + descriptions + [""]
  {
    var parts := [HelpHeader] + descriptions + [""];
    assert parts[1..] == descriptions + [""];
    if descriptions == [] {
      assert parts[1..][1..] == [];
    } else {
      AppendedIsJoinPlusSep(descriptions, "\n");
      JoinSnoc(descriptions, "", "\n");
    }
    assert Join(parts, "\n") == HelpText(descriptions);
    assert '\n' !in HelpHeader;
    SplitJoin(parts, '\n');
  }

  /** With no line break inside a help line, `help` answers with exactly as
      many help lines as there are registered commands. */
  lemma HelpLineCount(commands: map<string, Command>, order: seq<string>)
    requires Enumerates(order, commands.Keys)
    requires forall k :: k in commands ==> '\n' !in commands[k].Description()
    ensures |SplitOn(HelpText(Descriptions(commands, order)), '\n')| == |commands| + 2
  {
    var descriptions := Descriptions(commands, order);
    DescriptionsAt(commands, order);
    HelpLines(descriptions);
    DistinctCardinality(order);
    assert (set k | k in order) == commands.Keys;
  }

  // ---------------------------------------------------------------- the registry

  /** A command is one of the sixteen classes: its name is the one that
      class carries. */
  predicate IsCommandClass(c: Command)
  {
    c.name == NameOf(c.kind)
  }

  /** Every entry is a command class registered under its own name. */
  predicate Consistent(commands: map<string, Command>)
  {
    forall name :: name in commands ==> IsCommandClass(commands[name]) && commands[name].name == name
  }

  /** The order in which `init` registers the classes. */
  const InitOrder: seq<Kind> := [
    AddKind, ClearKind, ExecuteScriptKind, GroupCountingByLabelKind, HelpKind, InfoKind,
    PrintDescendingKind, PrintFieldAscendingLabelKind, RemoveAtKind, RemoveByIdKind,
    RemoveFirstKind, ShowKind, ShuffleKind, UpdateIdKind, LoginKind, RegisterKind]

  /** The registry after `addCommand` of each class of `kinds` in turn. */
  function Registering(commands: map<string, Command>, kinds: seq<Kind>): map<string, Command>
  {
    if kinds == [] then commands
    else
      var k := kinds[|kinds| - 1];
      Registering(commands, kinds[..|kinds| - 1])[NameOf(k) := CommandOf(k)]
  }

  lemma RegisteringSnoc(commands: map<string, Command>, kinds: seq<Kind>, k: Kind)
    ensures Registering(commands, kinds + [k]) == Registering(commands, kinds)[NameOf(k) := CommandOf(k)]
  {
    assert (kinds + [k])[..|kinds|] == kinds;
  }

  /** Registering classes keeps a registry consistent. */
  lemma {:induction false} RegisteringConsistent(commands: map<string, Command>, kinds: seq<Kind>)
    requires Consistent(commands)
    ensures Consistent(Registering(commands, kinds))
    decreases |kinds|
  {
    if kinds != [] {
      RegisteringConsistent(commands, kinds[..|kinds| - 1]);
    }
  }

  /** `k` is one of `kinds`, and not the last one: then it is one of the
      others. */
  lemma InInit(kinds: seq<Kind>, k: Kind)
    requires k in kinds && kinds[|kinds| - 1] != k
    ensures k in kinds[..|kinds| - 1]
  {
    var i :| 0 <= i < |kinds| && kinds[i] == k;
    assert kinds[..|kinds| - 1][i] == k;
  }

  /** After registering, every registered class is found under its name. */
  lemma {:induction false} RegisteringFinds(commands: map<string, Command>, kinds: seq<Kind>, k: Kind)
    requires k in kinds
    ensures NameOf(k) in Registering(commands, kinds) && Registering(commands, kinds)[NameOf(k)] == CommandOf(k)
    decreases |kinds|
  {
    var last := kinds[|kinds| - 1];
    if k != last {
      NamesDistinct(k, last);
      InInit(kinds, k);
      RegisteringFinds(commands, kinds[..|kinds| - 1], k);
    }
  }

  /** Registering adds no name other than the registered classes' names. */
  lemma {:induction false} RegisteringKeys(commands: map<string, Command>, kinds: seq<Kind>, name: string)
    requires name in Registering(commands, kinds)
    ensures name in commands || exists k :: k in kinds && NameOf(k) == name
    decreases |kinds|
  {
    if kinds != [] {
      var init, last := kinds[..|kinds| - 1], kinds[|kinds| - 1];
      if name != NameOf(last) {
        RegisteringKeys(commands, init, name);
        if name !in commands {
          var k :| k in init && NameOf(k) == name;
          var i :| 0 <= i < |init| && init[i] == k;
          assert kinds[i] == k;
        }
      }
    }
  }

  /** Every class is in `init`'s order. */
  lemma InitOrderComplete(k: Kind)
    ensures k in InitOrder
  {
    match k
    case AddKind => assert InitOrder[0] == k;
    case ClearKind => assert InitOrder[1] == k;
    case ExecuteScriptKind => assert InitOrder[2] == k;
    case GroupCountingByLabelKind => assert InitOrder[3] == k;
    case HelpKind => assert InitOrder[4] == k;
    case InfoKind => assert InitOrder[5] == k;
    case PrintDescendingKind => assert InitOrder[6] == k;
    case PrintFieldAscendingLabelKind => assert InitOrder[7] == k;
    case RemoveAtKind => assert InitOrder[8] == k;
    case RemoveByIdKind => assert InitOrder[9] == k;
    case RemoveFirstKind => assert InitOrder[10] == k;
    case ShowKind => assert InitOrder[11] == k;
    case ShuffleKind => assert InitOrder[12] == k;
    case UpdateIdKind => assert InitOrder[13] == k;
    case LoginKind => assert InitOrder[14] == k;
    case RegisterKind => assert InitOrder[15] == k;
  }

  /** After `init` on a consistent registry, every class is found under its
      own name. */
  lemma InitRegistersAll(commands: map<string, Command>)
    requires Consistent(commands)
    ensures Consistent(Registering(commands, InitOrder))
    ensures forall k: Kind ::
      NameOf(k) in Registering(commands, InitOrder) && Registering(commands, InitOrder)[NameOf(k)] == CommandOf(k)
  {
    RegisteringConsistent(commands, InitOrder);
    forall k: Kind
      ensures NameOf(k) in Registering(commands, InitOrder)
        && Registering(commands, InitOrder)[NameOf(k)] == CommandOf(k)
    {
      InitOrderComplete(k);
      RegisteringFinds(commands, InitOrder, k);
    }
  }

  /** In a consistent registry, a class's name looks up that class. */
  lemma {:induction false} ConsistentLookup(commands: map<string, Command>, k: Kind)
    requires Consistent(commands) && NameOf(k) in commands
    ensures commands[NameOf(k)] == CommandOf(k)
  {
    var c := commands[NameOf(k)];
    if c.kind != k {
      NamesDistinct(c.kind, k);
    }
  }

  /** The commands that never change the collection. */
  predicate IsQuery(k: Kind)
  {
    k in {ShowKind, InfoKind, HelpKind, GroupCountingByLabelKind, PrintDescendingKind,
          PrintFieldAscendingLabelKind, LoginKind, RegisterKind}
  }

  // ---------------------------------------------------------------- dispatch

  /** What a command reads besides the world: the band class's behaviour,
      the collection's creation date, the password hash and the script
      files. */
  datatype Context = Context(api: BandApi, date: string, hash: string -> string, files: map<string, seq<string>>)

  /** `help`'s reply for some iteration order of the registry. */
  ghost predicate HelpReply(commands: map<string, Command>, reply: Reply)
  {
    exists order :: (forall i :: 0 <= i < |order| ==> order[i] in commands)
      && Enumerates(order, commands.Keys)
      && reply == Plain(HelpText(Descriptions(commands, order)))
  }

  /** What running a registered command of class `kind` other than
      `execute_script` on `request` does: the world goes from `w0` to `w1`
      and the command answers `reply`. */
  ghost predicate Effect(kind: Kind, request: Request, caller: Caller, context: Context,
                         commands: map<string, Command>, w0: World, w1: World, reply: Reply)
  {
    match kind
    case AddKind => AddEffect(context.api, request, caller, w0, w1, reply)
    case ClearKind => ClearEffect(caller, w0, w1, reply)
    case RemoveAtKind => RemoveAtEffect(request.args, caller, w0, w1, reply)
    case RemoveByIdKind => RemoveByIdEffect(request.args, caller, w0, w1, reply)
    case RemoveFirstKind => RemoveFirstEffect(caller, w0, w1, reply)
    case UpdateIdKind => UpdateIdEffect(context.api, request, w0, w1, reply)
    case ShuffleKind => w1 == w0.(bands := w1.bands) && ShuffleEffect(w0.bands, w1.bands, reply)
    case ShowKind => w1 == w0 && reply == Plain(TextOr(Show(w0.bands, context.api)))
    case InfoKind => w1 == w0 && reply == Plain(InfoHeader + Info(w0.bands, context.date))
    case PrintDescendingKind => w1 == w0 && reply == Plain(TextOr(PrintAscend(w0.bands, context.api)))
    case PrintFieldAscendingLabelKind => w1 == w0 && reply == Plain(PrintLabelField(w0.bands))
    case GroupCountingByLabelKind => w1 == w0 && GroupCountingReply(w0.bands, context.api, reply)
    case HelpKind => w1 == w0 && HelpReply(commands, reply)
    case LoginKind => w1 == w0 && LoginReply(context.hash, caller, w0.users, reply)
    case RegisterKind => w1 == w0.(users := w1.users) && RegisterEffect(context.hash, caller, w0.users, w1.users, reply)
    case ExecuteScriptKind => false
  }

  /** What running a registered command of class `kind` on `request` does,
      `depth` nested scripts deep at most: the world goes from `w0` to `w1`,
      the script reader from `r0` to `r1`, and the command answers `reply`.
      Only `execute_script` touches the reader; `trace` is the lines it
      ran. */
  ghost predicate Dispatched(kind: Kind, request: Request, caller: Caller, context: Context,
                             commands: map<string, Command>, depth: nat, r0: Reader, r1: Reader,
                             w0: World, w1: World, reply: Reply, trace: seq<Executed>)
    decreases trace, 4
  {
    if kind == ExecuteScriptKind then
      ScriptRun(request, Env(context, commands, request.user, caller), depth, r0, r1, w0, w1, reply, trace)
    else
      r1 == r0 && trace == [] && Effect(kind, request, caller, context, commands, w0, w1, reply)
  }

  // ---------------------------------------------------------------- script traces

  /** The state of the script reader: the open scripts, top last, and the
      file-mode flag. */
  datatype Reader = Reader(frames: seq<Frame>, fileMode: bool)

  /** What stays fixed while a script runs: what the commands read, the
      registry, and the user who ran the script, as an object and as the
      commands see it. */
  datatype Env = Env(context: Context, commands: map<string, Command>, user: User?, caller: Caller)

  /** What the script loop makes of a line: a blank line, a nested script
      that is already open, a name that is not registered, or a registered
      command with its argument. */
  datatype LineStep = Blank | Recursion | Unknown | Run(name: string, argument: string)

  /** The reading of a script line: it is trimmed, split at its first space
      into a name and an argument that is trimmed again; `execute_script`
      of a script that is open is a recursion. */
  function ScriptStep(line: string, commands: map<string, Command>, frames: seq<Frame>): (r: LineStep)
    ensures r.Run? ==> r.name in commands
  {
    var text := Trim(line);
    if text == [] then Blank
    else
      var split := SplitAtFirstSpace(text);
      var argument := Trim(split.1);
      if split.0 == "execute_script" && IsOpen(frames, argument) then Recursion
      else if split.0 !in commands then Unknown
      else Run(split.0, argument)
  }

  /** A line is blank exactly when it trims to nothing; a command line
      names a registered one-word command with a trimmed argument; a
      recursion names a script that is open. */
  lemma ScriptStepShape(line: string, commands: map<string, Command>, frames: seq<Frame>)
    ensures ScriptStep(line, commands, frames).Blank? <==> Trim(line) == []
    ensures ScriptStep(line, commands, frames).Run? ==>
      var r := ScriptStep(line, commands, frames);
      r.name in commands && ' ' !in r.name && Trim(r.argument) == r.argument
    ensures ScriptStep(line, commands, frames).Recursion? ==>
      IsOpen(frames, Trim(SplitAtFirstSpace(Trim(line)).1))
  {
    var text := Trim(line);
    if text != [] {
      TrimIdempotent(SplitAtFirstSpace(text).1);
    }
  }

  /** The request the script loop sends for a registered command: an
      Integer id for `remove_by_id`, a band built from the following lines
      for `add`, both for `update`, the argument text otherwise. */
  predicate ScriptRequest(request: Request, name: string, argument: string, command: Command, user: User?)
  {
    if name == "remove_by_id" then
      ParseInt(argument).Some? && request == WithArgs(command, IntValue(ParseInt(argument).value), user)
    else if name == "add" then
      request.band.Some? && request == WithBand(command, request.band.value, user)
    else if name == "update" then
      request.band.Some? && ParseInt(argument).Some?
      && request == WithBandAndArgs(command, request.band.value, IntValue(ParseInt(argument).value), user)
    else
      request == WithArgs(command, Text(argument), user)
  }

  /** A script line that names `remove_by_id` or `update` with an argument
      that is not an Integer: the script ends with `BadNumberReply`. */
  predicate BadNumber(name: string, argument: string)
  {
    (name == "remove_by_id" || name == "update") && ParseInt(argument).None?
  }

  /** `add` and `update` build a band before they are sent. */
  predicate BuildsBand(name: string)
  {
    name == "add" || name == "update"
  }

  /** The open scripts once the request for a command line is built from
      `read`, the scripts after the line itself was read: in file mode the
      band builder reads the lines of its band from the top script. */
  function AfterBuild(name: string, fileMode: bool, read: seq<Frame>, api: BandApi): seq<Frame>
  {
    if BuildsBand(name) && fileMode then DropTop(read, api.build(TopLines(read)).1) else read
  }

  /** A command line's reply once a nested script has been closed, and the
      open scripts then: after `execute_script` answers, the top script is
      closed, and with no script open that is a NoSuchElementException. */
  function AfterRun(name: string, reply: Reply, done: seq<Frame>): (Reply, seq<Frame>)
  {
    if name == "execute_script" && reply.Replied? then
      if done == [] then (Raised(NoSuchElement), done) else (reply, done[..|done| - 1])
    else (reply, done)
  }

  /** One line the script loop read: the open scripts and the file mode
      before it was read, the line and what the loop made of it, the
      request sent, the open scripts when the command was done and when the
      line was done, the file mode after it, the world before and after,
      the command's reply and, for a nested script, the lines that script
      ran. */
  datatype Executed = Executed(
    frames: seq<Frame>, fileMode: bool, line: string, step: LineStep,
    request: Option<Request>, done: seq<Frame>, rest: seq<Frame>, modeAfter: bool,
    before: World, after: World, reply: Reply, nested: seq<Executed>)

  /** What a line comes to for the script: for a command line, the
      command's reply, or the exception from closing a nested script. */
  function LineReply(e: Executed): Reply
  {
    if e.step.Run? then AfterRun(e.step.name, e.reply, e.done).0 else e.reply
  }

  /** The line ends the script: a malformed number, or an exception. */
  predicate Stops(e: Executed)
  {
    e.step.Run? && (BadNumber(e.step.name, e.step.argument) || LineReply(e).Raised?)
  }

  /** The last line of the trace ended the script. */
  predicate Stopped(trace: seq<Executed>)
  {
    trace != [] && Stops(trace[|trace| - 1])
  }

  /** The text a line adds to the script's answer: the recursion notice, or
      a command's reply followed by a blank line. */
  function Piece(e: Executed): string
  {
    match e.step
    case Recursion => RecursionNotice
    case Run(_, _) => (match e.reply case Replied(text, _) => text case Raised(_) => []) + "\n\n"
    case _ => []
  }

  /** The script's answer: the pieces of its lines in the order read. */
  function Render(trace: seq<Executed>): string
  {
    if trace == [] then [] else Render(trace[..|trace| - 1]) + Piece(trace[|trace| - 1])
  }

  /** The reader once the lines of the trace ran from `start`. */
  function EndReader(start: Reader, trace: seq<Executed>): Reader
  {
    if trace == [] then start else Reader(trace[|trace| - 1].rest, trace[|trace| - 1].modeAfter)
  }

  /** The world once the lines of the trace ran from `w0`. */
  function EndWorld(w0: World, trace: seq<Executed>): World
  {
    if trace == [] then w0 else trace[|trace| - 1].after
  }

  /** `execute_script` run `depth` nested scripts deep at most: a
      non-String argument is a ClassCastException and null a
      NullPointerException; past the depth the stack overflows; otherwise
      the trimmed argument is the script. */
  ghost predicate ScriptRun(request: Request, env: Env, depth: nat, r0: Reader, r1: Reader,
                            w0: World, w1: World, reply: Reply, trace: seq<Executed>)
    decreases trace, 3
  {
    var arg := AsNullableString(request.args);
    if arg.Err? || arg.value.None? || depth == 0 then
      reply == Raised(if arg.Err? then ClassCast else if arg.value.None? then NullPointer else StackOverflow)
      && r1 == r0 && w1 == w0 && trace == []
    else
      ScriptFile(Trim(arg.value.value), env, depth - 1, r0, r1, w0, w1, reply, trace)
  }

  /** The script at `path` run from reader `r0`: file mode goes on and the
      script is opened on top; a missing file is answered and nothing runs.
      Otherwise its lines ran, one after the other, until one ended the
      script, whose reply is then the script's, or until the top script
      ran out: then file mode goes off and the answer is the pieces of the
      lines. */
  ghost predicate ScriptFile(path: string, env: Env, depth: nat, r0: Reader, r1: Reader,
                             w0: World, w1: World, reply: Reply, trace: seq<Executed>)
    decreases trace, 2
  {
    if path !in env.context.files then
      reply == Plain(FileNotFoundReply) && r1 == r0.(fileMode := true) && w1 == w0 && trace == []
    else
      var start := Reader(r0.frames + [Frame(path, env.context.files[path])], true);
      var end := EndReader(start, trace);
      Lines(trace, start, w0, env, depth) && w1 == EndWorld(w0, trace)
      && (Stopped(trace) ==> reply == LineReply(trace[|trace| - 1]) && r1 == end)
      && (!Stopped(trace) ==> reply == Plain(Render(trace)) && TopLines(end.frames) == [] && r1 == end.(fileMode := false))
  }

  /** The lines of the trace ran one after the other from reader `start`
      and world `w0`: each line starts where the one before left the
      reader and the world, and only the last line may end the script. */
  ghost predicate Lines(trace: seq<Executed>, start: Reader, w0: World, env: Env, depth: nat)
    decreases trace, 1
  {
    trace == []
    || (var init := trace[..|trace| - 1];
        var e := trace[|trace| - 1];
        Lines(init, start, w0, env, depth) && !Stopped(init)
        && Reader(e.frames, e.fileMode) == EndReader(start, init) && e.before == EndWorld(w0, init)
        && Ran(e, env, depth))
  }

  /** The line was the next line of the top script and the loop did with it
      what `ExecuteScript.execute` does. A blank line, a recursion or an
      unknown name changes nothing. For a registered command the request is
      built (in file mode `add` and `update` read their band from the lines
      that follow); a malformed number ends the script; otherwise the
      request is sent as the user who ran the script and the command does
      what `Dispatched` says, `depth` scripts deep at most; after a nested
      script the top script is closed. */
  ghost predicate Ran(e: Executed, env: Env, depth: nat)
    decreases e, 1
  {
    TopLines(e.frames) != [] && e.line == TopLines(e.frames)[0]
    && e.step == ScriptStep(e.line, env.commands, e.frames)
    && var read := DropTop(e.frames, 1);
    if !e.step.Run? then
      e.request == None && e.nested == [] && e.after == e.before && e.rest == read && e.modeAfter == e.fileMode
    else
      var name := e.step.name;
      var sent := AfterBuild(name, e.fileMode, read, env.context.api);
      if BadNumber(name, e.step.argument) then
        e.request == None && e.nested == [] && e.after == e.before && e.rest == sent && e.modeAfter == e.fileMode
        && e.reply == Plain(BadNumberReply)
      else
        CommandSent(e, env, depth)
  }

  /** A command line with a well-formed number was sent: the request was
      built as the loop builds it (in file mode `add` and `update` read their
      band from the lines that follow) and sent as the user who ran the
      script; the command did what `Dispatched` says, `depth` scripts deep
      at most; after a nested script the top script is closed. */
  ghost predicate CommandSent(e: Executed, env: Env, depth: nat)
    requires e.step.Run? && e.step.name in env.commands
    decreases e, 0
  {
    var name := e.step.name;
    var read := DropTop(e.frames, 1);
    e.request.Some?
    && ScriptRequest(e.request.value, name, e.step.argument, env.commands[name], env.user)
    && (BuildsBand(name) && e.fileMode ==> e.request.value.band == Some(env.context.api.build(TopLines(read)).0))
    && CommandRan(name, e.request.value, env, depth,
                  Reader(AfterBuild(name, e.fileMode, read, env.context.api), e.fileMode),
                  Reader(e.done, e.modeAfter), e.before, e.after, e.reply, e.nested)
    && e.rest == AfterRun(name, e.reply, e.done).1
  }

  /** The registered command `name` ran on `request` as the user who ran
      the script: it did what `Dispatched` says for its class. */
  ghost predicate CommandRan(name: string, request: Request, env: Env, depth: nat, r0: Reader, r1: Reader,
                             w0: World, w1: World, reply: Reply, trace: seq<Executed>)
    requires name in env.commands
    decreases trace, 5
  {
    Dispatched(env.commands[name].kind, request, env.caller, env.context, env.commands, depth, r0, r1, w0, w1, reply, trace)
  }

  /** One more line extends the trace: it continues from where the trace
      left the reader and the world, its piece is appended to the text,
      and the trace has stopped exactly when that line ended the script. */
  lemma ExtendLines(start: Reader, w0: World, trace: seq<Executed>, e: Executed, env: Env, depth: nat)
    requires !Stopped(trace)
    requires Reader(e.frames, e.fileMode) == EndReader(start, trace) && e.before == EndWorld(w0, trace)
    ensures Lines(trace, start, w0, env, depth) && Ran(e, env, depth) ==> Lines(trace + [e], start, w0, env, depth)
    ensures EndReader(start, trace + [e]) == Reader(e.rest, e.modeAfter)
    ensures EndWorld(w0, trace + [e]) == e.after
    ensures Render(trace + [e]) == Render(trace) + Piece(e)
    ensures Stopped(trace + [e]) <==> Stops(e)
  {
    assert (trace + [e])[..|trace|] == trace;
  }

  /** A command line's piece of the answer is its reply followed by a
      blank line. */
  lemma PieceOfRun(e: Executed)
    requires e.step.Run? && e.reply.Replied?
    ensures Piece(e) == e.reply.text + "\n\n"
  {
  }

  // ---------------------------------------------------------------- the manager

  class CommandManager {
    /** The registry, from name to command. */
    var commands: map<string, Command>
    /** The objects the commands were constructed with. */
    const store: CollectionManager
    const db: Gateway
    const files: ScriptFiles
    const mode: FileMode

    constructor (store: CollectionManager, db: Gateway, files: ScriptFiles, mode: FileMode)
      ensures commands == map[] && Registry()
      ensures this.store == store && this.db == db && this.files == files && this.mode == mode
    {
      commands := map[];
      this.store := store;
      this.db := db;
      this.files := files;
      this.mode := mode;
    }

    predicate Registry()
      reads this
    {
      Consistent(commands)
    }

    /** The request names a registered command of class `k`. */
    predicate Runs(request: Request, k: Kind)
      reads this
    {
      request.command.Some? && request.command.value.name in commands
      && commands[request.command.value.name].kind == k
    }

    /** `addCommand`: registers the command under its name, replacing any
        command of that name. */
    method AddCommand(c: Command)
      modifies this`commands
      ensures commands == old(commands)[c.name := c]
    {
      commands := commands[c.name := c];
    }

    /** `init`, called with the manager itself: registers the sixteen
        classes, so that each is found under its own name. */
    method Init()
      modifies this`commands
      ensures commands == Registering(old(commands), InitOrder)
      ensures old(Registry()) ==> Registry()
      ensures old(Registry()) ==> forall k: Kind :: NameOf(k) in commands && commands[NameOf(k)] == CommandOf(k)
    {
      ghost var done: seq<Kind> := [];
      AddCommand(CommandOf(AddKind));
      RegisteringSnoc(old(commands), done, AddKind);
      done := done + [AddKind];
      AddCommand(CommandOf(ClearKind));
      RegisteringSnoc(old(commands), done, ClearKind);
      done := done + [ClearKind];
      AddCommand(CommandOf(ExecuteScriptKind));
      RegisteringSnoc(old(commands), done, ExecuteScriptKind);
      done := done + [ExecuteScriptKind];
      AddCommand(CommandOf(GroupCountingByLabelKind));
      RegisteringSnoc(old(commands), done, GroupCountingByLabelKind);
      done := done + [GroupCountingByLabelKind];
      AddCommand(CommandOf(HelpKind));
      RegisteringSnoc(old(commands), done, HelpKind);
      done := done + [HelpKind];
      AddCommand(CommandOf(InfoKind));
      RegisteringSnoc(old(commands), done, InfoKind);
      done := done + [InfoKind];
      AddCommand(CommandOf(PrintDescendingKind));
      RegisteringSnoc(old(commands), done, PrintDescendingKind);
      done := done + [PrintDescendingKind];
      AddCommand(CommandOf(PrintFieldAscendingLabelKind));
      RegisteringSnoc(old(commands), done, PrintFieldAscendingLabelKind);
      done := done + [PrintFieldAscendingLabelKind];
      AddCommand(CommandOf(RemoveAtKind));
      RegisteringSnoc(old(commands), done, RemoveAtKind);
      done := done + [RemoveAtKind];
      AddCommand(CommandOf(RemoveByIdKind));
      RegisteringSnoc(old(commands), done, RemoveByIdKind);
      done := done + [RemoveByIdKind];
      AddCommand(CommandOf(RemoveFirstKind));
      RegisteringSnoc(old(commands), done, RemoveFirstKind);
      done := done + [RemoveFirstKind];
      AddCommand(CommandOf(ShowKind));
      RegisteringSnoc(old(commands), done, ShowKind);
      done := done + [ShowKind];
      AddCommand(CommandOf(ShuffleKind));
      RegisteringSnoc(old(commands), done, ShuffleKind);
      done := done + [ShuffleKind];
      AddCommand(CommandOf(UpdateIdKind));
      RegisteringSnoc(old(commands), done, UpdateIdKind);
      done := done + [UpdateIdKind];
      AddCommand(CommandOf(LoginKind));
      RegisteringSnoc(old(commands), done, LoginKind);
      done := done + [LoginKind];
      AddCommand(CommandOf(RegisterKind));
      RegisteringSnoc(old(commands), done, RegisterKind);
      done := done + [RegisterKind];
      assert done == InitOrder;
      if old(Registry()) {
        InitRegistersAll(old(commands));
      }
    }

    /** `Help.execute`: the header, then the help line of every registered
        command in the map's iteration order, which is left open. */
    method Help() returns (o: Outcome, ghost order: seq<string>)
      ensures o.Answer? && fresh(o.response)
      ensures Enumerates(order, commands.Keys)
      ensures Says(o, HelpText(Descriptions(commands, order)))
      ensures HelpReply(commands, ReplyOf(o))
    {
      var text := HelpHeader + "\n";
      var left := commands.Keys;
      order := [];
      while left != {}
        invariant forall i :: 0 <= i < |order| ==> order[i] in commands && order[i] !in left
        invariant forall i, j :: 0 <= i < j < |order| ==> order[i] != order[j]
        invariant forall k :: k in commands.Keys <==> k in left || k in order
        invariant text == HelpText(Descriptions(commands, order))
        decreases |left|
      {
        var k :| k in left;
        HelpTextSnoc(commands, order, k);
        order := order + [k];
        text := text + commands[k].Description() + "\n";
        left := left - {k};
      }
      var r := new Response(text);
      o := Answer(r);
      assert ReplyOf(o) == Plain(HelpText(Descriptions(commands, order)));
    }

    /** What the commands read besides the world. */
    function ContextOf(): Context
      reads store`date
    {
      Context(store.api, store.date, db.hash, files.files)
    }

    /** The script reader's state. */
    function ReaderOf(): Reader
      reads files, mode
    {
      Reader(files.frames, mode.isFileMode)
    }

    /** What stays fixed while `user` runs a script. */
    function EnvOf(user: User?): Env
      reads `commands, store`date, user
    {
      Env(ContextOf(), commands, user, CallerOf(user))
    }

    /** `execute`: looks the request's command up by name (a request without
        a command is a NullPointerException) and runs the registered
        command on the request, or answers that there is no such command.
        `depth` bounds the nesting of scripts, standing for the JVM stack.
        For `execute_script`, `trace` is the lines the script ran. */
    method Execute(request: Request, depth: nat) returns (o: Outcome, ghost trace: seq<Executed>)
      requires Registry()
      modifies store`bands, store`idCounter, db`log, db`users, files`frames, mode`isFileMode
      decreases depth, 10
      ensures o.Answer? ==> fresh(o.response)
      ensures request.command.None? ==> o == Thrown(NullPointer) && unchanged(store, db, files, mode)
      ensures request.command.Some? && request.command.value.name !in commands ==>
        Says(o, NoCommandReply) && unchanged(store, db, files, mode)
      ensures request.command.Some? && request.command.value.name in commands ==>
        Dispatched(commands[request.command.value.name].kind, request, CallerOf(request.user), ContextOf(),
                   commands, depth, old(ReaderOf()), ReaderOf(), old(WorldOf(store, db)), WorldOf(store, db),
                   ReplyOf(o), trace)
      ensures !Runs(request, ExecuteScriptKind) ==> trace == [] && files.frames == old(files.frames)
      ensures DistinctIds(old(store.bands)) ==> DistinctIds(store.bands)
      ensures o.Answer? ==> Descends(old(files.frames), files.frames)
    {
      trace := [];
      if request.command.None? {
        return Thrown(NullPointer), trace;
      }
      var name := request.command.value.name;
      if name !in commands {
        var r := new Response(NoCommandReply);
        return Answer(r), trace;
      }
      var kind := commands[name].kind;
      if kind == ExecuteScriptKind {
        o, trace := ExecuteScript(request, depth);
      } else {
        ConsumedReflexive(files.frames);
        if IsQuery(kind) {
          o := RunQuery(kind, request);
        } else {
          o := RunUpdate(kind, request);
        }
      }
    }

    /** The `execute` of a command that leaves the collection alone. */
    method RunQuery(kind: Kind, request: Request) returns (o: Outcome)
      requires IsQuery(kind)
      modifies db`users
      ensures o.Answer? ==> fresh(o.response)
      ensures Effect(kind, request, CallerOf(request.user), ContextOf(), commands,
                     old(WorldOf(store, db)), WorldOf(store, db), ReplyOf(o))
    {
      if kind == LoginKind || kind == RegisterKind {
        o := RunAccount(kind, request);
      } else {
        o := RunReport(kind, request);
      }
    }

    /** The `execute` of `login` and `register`, which answer from the users. */
    method RunAccount(kind: Kind, request: Request) returns (o: Outcome)
      requires kind == LoginKind || kind == RegisterKind
      modifies db`users
      ensures o.Answer? ==> fresh(o.response)
      ensures Effect(kind, request, CallerOf(request.user), ContextOf(), commands,
                     old(WorldOf(store, db)), WorldOf(store, db), ReplyOf(o))
    {
      if kind == LoginKind {
        o := ExecuteLogin(db, request);
      } else {
        o := ExecuteRegister(db, request);
      }
    }

    /** The `execute` of a command that only reports on the collection or
        the registry. */
    method RunReport(kind: Kind, request: Request) returns (o: Outcome)
      requires IsQuery(kind) && kind != LoginKind && kind != RegisterKind
      ensures o.Answer? ==> fresh(o.response)
      ensures Effect(kind, request, CallerOf(request.user), ContextOf(), commands,
                     WorldOf(store, db), WorldOf(store, db), ReplyOf(o))
    {
      if kind == GroupCountingByLabelKind || kind == HelpKind {
        o := RunSummary(kind, request);
      } else {
        o := RunListing(kind, request);
      }
    }

    /** `group_counting_by_label` and `help`, which answer with a summary. */
    method RunSummary(kind: Kind, request: Request) returns (o: Outcome)
      requires kind == GroupCountingByLabelKind || kind == HelpKind
      ensures o.Answer? ==> fresh(o.response)
      ensures Effect(kind, request, CallerOf(request.user), ContextOf(), commands,
                     WorldOf(store, db), WorldOf(store, db), ReplyOf(o))
    {
      if kind == GroupCountingByLabelKind {
        ghost var labels;
        o, labels := ExecuteGroupCountingByLabel(store);
      } else {
        ghost var names;
        o, names := Help();
      }
    }

    /** `show`, `info`, `print_descending` and `print_field_ascending_label`,
        which answer with the collection's text. */
    method RunListing(kind: Kind, request: Request) returns (o: Outcome)
      requires kind in {ShowKind, InfoKind, PrintDescendingKind, PrintFieldAscendingLabelKind}
      ensures o.Answer? ==> fresh(o.response)
      ensures Effect(kind, request, CallerOf(request.user), ContextOf(), commands,
                     WorldOf(store, db), WorldOf(store, db), ReplyOf(o))
    {
      match kind
      case InfoKind => o := ExecuteInfo(store);
      case PrintDescendingKind => o := ExecutePrintDescending(store);
      case PrintFieldAscendingLabelKind => o := ExecutePrintFieldAscendingLabel(store);
      case ShowKind => o := ExecuteShow(store);
    }

    /** The `execute` of a command that may change the collection. */
    method RunUpdate(kind: Kind, request: Request) returns (o: Outcome)
      requires !IsQuery(kind) && kind != ExecuteScriptKind
      modifies store`bands, store`idCounter, db`log
      ensures o.Answer? ==> fresh(o.response)
      ensures DistinctIds(old(store.bands)) ==> DistinctIds(store.bands)
      ensures Effect(kind, request, CallerOf(request.user), ContextOf(), commands,
                     old(WorldOf(store, db)), WorldOf(store, db), ReplyOf(o))
    {
      if kind in {AddKind, UpdateIdKind, ShuffleKind} {
        o := RunPlacing(kind, request);
      } else {
        o := RunRemoval(kind, request);
      }
    }

    /** `add`, `update` and `shuffle`, which place bands in the collection. */
    method RunPlacing(kind: Kind, request: Request) returns (o: Outcome)
      requires kind in {AddKind, UpdateIdKind, ShuffleKind}
      modifies store`bands, store`idCounter, db`log
      ensures o.Answer? ==> fresh(o.response)
      ensures DistinctIds(old(store.bands)) ==> DistinctIds(store.bands)
      ensures Effect(kind, request, CallerOf(request.user), ContextOf(), commands,
                     old(WorldOf(store, db)), WorldOf(store, db), ReplyOf(o))
    {
      match kind
      case AddKind => o := ExecuteAdd(store, db, request);
      case ShuffleKind => o := ExecuteShuffle(store);
      case UpdateIdKind => o := ExecuteUpdateId(store, db, request);
    }

    /** `clear`, `remove_at`, `remove_by_id` and `remove_first`, which take
        bands out of the collection. */
    method RunRemoval(kind: Kind, request: Request) returns (o: Outcome)
      requires kind in {ClearKind, RemoveAtKind, RemoveByIdKind, RemoveFirstKind}
      modifies store`bands, db`log
      ensures o.Answer? ==> fresh(o.response)
      ensures DistinctIds(old(store.bands)) ==> DistinctIds(store.bands)
      ensures Effect(kind, request, CallerOf(request.user), ContextOf(), commands,
                     old(WorldOf(store, db)), WorldOf(store, db), ReplyOf(o))
    {
      match kind
      case ClearKind => o := ExecuteClear(store, db, request);
      case RemoveAtKind => o := ExecuteRemoveAt(store, db, request);
      case RemoveByIdKind => o := ExecuteRemoveById(store, db, request);
      case RemoveFirstKind => o := ExecuteRemoveFirst(store, db, request);
    }

    /** `ExecuteScript.execute`: the argument must be a String (null is a
        NullPointerException); its trimmed text is the script to run. */
    method ExecuteScript(request: Request, depth: nat) returns (o: Outcome, ghost trace: seq<Executed>)
      requires Registry()
      modifies store`bands, store`idCounter, db`log, db`users, files`frames, mode`isFileMode
      decreases depth, 9
      ensures o.Answer? ==> fresh(o.response)
      ensures DistinctIds(old(store.bands)) ==> DistinctIds(store.bands)
      ensures o.Answer? ==> Descends(old(files.frames), files.frames)
      ensures AsNullableString(request.args).Err? ==> o == Thrown(ClassCast) && unchanged(store, db, files, mode)
      ensures AsNullableString(request.args) == Ok(None) ==> o == Thrown(NullPointer) && unchanged(store, db, files, mode)
      ensures ScriptRun(request, old(EnvOf(request.user)), depth, old(ReaderOf()), ReaderOf(),
                        old(WorldOf(store, db)), WorldOf(store, db), ReplyOf(o), trace)
    {
      trace := [];
      var arg := AsNullableString(request.args);
      if arg.Err? {
        return Thrown(ClassCast), trace;
      }
      if arg.value.None? {
        return Thrown(NullPointer), trace;
      }
      if depth == 0 {
        return Thrown(StackOverflow), trace;
      }
      o, trace := RunFile(Trim(arg.value.value), request.user, depth);
    }

    /** The body of `ExecuteScript.execute` once the path is known: file
        mode is switched on, the script opened (a missing file is answered)
        and run. File mode is switched off only when the script runs out; a
        script cut short by a malformed number or an exception leaves it
        as the last line left it, and a missing file leaves it on. */
    method RunFile(path: string, user: User?, depth: nat) returns (o: Outcome, ghost trace: seq<Executed>)
      requires Registry() && depth > 0
      modifies store`bands, store`idCounter, db`log, db`users, files`frames, mode`isFileMode
      decreases depth, 8
      ensures o.Answer? ==> fresh(o.response)
      ensures DistinctIds(old(store.bands)) ==> DistinctIds(store.bands)
      ensures o.Answer? ==> Descends(old(files.frames), files.frames)
      ensures ScriptFile(path, old(EnvOf(user)), depth - 1, old(ReaderOf()), ReaderOf(),
                         old(WorldOf(store, db)), WorldOf(store, db), ReplyOf(o), trace)
    {
      ghost var env := EnvOf(user);
      trace := [];
      mode.isFileMode := true;
      var found := files.PushFile(path);
      if !found {
        var r := new Response(FileNotFoundReply);
        return Answer(r), trace;
      }
      ghost var pushed := files.frames;
      assert ReaderOf() == Reader(old(ReaderOf()).frames + [Frame(path, env.context.files[path])], true);
      var ran;
      ran, trace := RunScript(user, depth, env);
      if ran.Err? {
        if ran.error.Answer? {
          PushedThenConsumed(old(files.frames), pushed[|pushed| - 1], files.frames);
        }
        o := ran.error;
      } else {
        PushedThenConsumed(old(files.frames), pushed[|pushed| - 1], files.frames);
        mode.isFileMode := false;
        var r := new Response(ran.value);
        o := Answer(r);
      }
    }

    /** The loop of `ExecuteScript.execute` over the top script, line by
        line until it runs out or a line ends the script. The result is the
        collected text of the lines read, or the outcome of the line that
        ended the script. */
    method RunScript(user: User?, depth: nat, ghost env: Env) returns (r: Result<string, Outcome>, ghost trace: seq<Executed>)
      requires Registry() && depth > 0 && env == EnvOf(user)
      modifies store`bands, store`idCounter, db`log, db`users, files`frames, mode`isFileMode
      decreases depth, 7
      ensures Lines(trace, old(ReaderOf()), old(WorldOf(store, db)), env, depth - 1)
      ensures ReaderOf() == EndReader(old(ReaderOf()), trace)
      ensures WorldOf(store, db) == EndWorld(old(WorldOf(store, db)), trace)
      ensures r.Ok? <==> !Stopped(trace)
      ensures r.Ok? ==> r.value == Render(trace) && TopLines(files.frames) == []
      ensures r.Err? ==> trace != [] && ReplyOf(r.error) == LineReply(trace[|trace| - 1])
      ensures r.Err? && r.error.Answer? ==> fresh(r.error.response)
      ensures !(r.Err? && r.error.Thrown?) ==> Consumed(old(files.frames), files.frames)
      ensures DistinctIds(old(store.bands)) ==> DistinctIds(store.bands)
    {
      ConsumedReflexive(files.frames);
      ghost var start := ReaderOf();
      ghost var w0 := WorldOf(store, db);
      var out := "";
      trace := [];
      while true
        invariant Consumed(old(files.frames), files.frames)
        invariant Lines(trace, start, w0, env, depth - 1) && !Stopped(trace)
        invariant ReaderOf() == EndReader(start, trace) && WorldOf(store, db) == EndWorld(w0, trace)
        invariant out == Render(trace)
        invariant DistinctIds(old(store.bands)) ==> DistinctIds(store.bands)
        decreases Pending(files.frames)
      {
        var stop;
        stop, trace, out := RunNextLine(user, depth, env, start, w0, trace, old(files.frames), out);
        if stop.Some? {
          r := stop.value;
          break;
        }
      }
    }

    /** One turn of `ExecuteScript.execute`'s loop: the next line of the
        top script is read and run, and `out`, the text of `trace`, grows by
        its piece. The loop stops, with the script's result, when no line
        is left or the line ends the script; `trace'` is `trace` with the
        line read, if any. */
    method RunNextLine(user: User?, depth: nat, ghost env: Env, ghost start: Reader, ghost w0: World,
                       ghost trace: seq<Executed>, ghost origin: seq<Frame>, out: string)
      returns (stop: Option<Result<string, Outcome>>, ghost trace': seq<Executed>, out': string)
      requires Registry() && depth > 0 && env == EnvOf(user)
      requires ReaderOf() == EndReader(start, trace) && WorldOf(store, db) == EndWorld(w0, trace)
      requires !Stopped(trace) && out == Render(trace) && Consumed(origin, files.frames)
      modifies store`bands, store`idCounter, db`log, db`users, files`frames, mode`isFileMode
      decreases depth, 6
      ensures Lines(trace, start, w0, env, depth - 1) ==> Lines(trace', start, w0, env, depth - 1)
      ensures ReaderOf() == EndReader(start, trace') && WorldOf(store, db) == EndWorld(w0, trace')
      ensures stop.None? ==> !Stopped(trace') && out' == Render(trace') && Pending(files.frames) < Pending(old(files.frames))
      ensures stop.Some? ==> (stop.value.Ok? <==> !Stopped(trace'))
      ensures stop.Some? && stop.value.Ok? ==> stop.value.value == Render(trace') && TopLines(files.frames) == []
      ensures stop.Some? && stop.value.Err? ==> trace' != [] && ReplyOf(stop.value.error) == LineReply(trace'[|trace'| - 1])
      ensures stop.Some? && stop.value.Err? && stop.value.error.Answer? ==> fresh(stop.value.error.response)
      ensures !(stop.Some? && stop.value.Err? && stop.value.error.Thrown?) ==> Consumed(origin, files.frames)
      ensures DistinctIds(old(store.bands)) ==> DistinctIds(store.bands)
    {
      ghost var before := files.frames;
      var line := files.ReadLine();
      if line.None? {
        return Some(Ok(out)), trace, out;
      }
      ConsumedTransitive(origin, before, files.frames);
      var piece;
      ghost var e;
      piece, e := RunReadLine(before, line.value, user, depth, env, start, w0, trace, origin);
      trace' := trace + [e];
      out' := out;
      if piece.Err? {
        stop := Some(piece);
      } else {
        out' := out + piece.value;
        stop := None;
      }
    }

    /** One turn of `ExecuteScript.execute`'s loop after a line was read
        from the top of `frames`: the line is run, extending `trace`. */
    method RunReadLine(ghost frames: seq<Frame>, line: string, user: User?, depth: nat, ghost env: Env,
                       ghost start: Reader, ghost w0: World, ghost trace: seq<Executed>, ghost origin: seq<Frame>)
      returns (r: Result<string, Outcome>, ghost e: Executed)
      requires Registry() && depth > 0 && env == EnvOf(user)
      requires TopLines(frames) != [] && line == TopLines(frames)[0] && files.frames == DropTop(frames, 1)
      requires Reader(frames, mode.isFileMode) == EndReader(start, trace) && WorldOf(store, db) == EndWorld(w0, trace)
      requires !Stopped(trace) && Consumed(origin, files.frames)
      modifies store`bands, store`idCounter, db`log, db`users, files`frames, mode`isFileMode
      decreases depth, 5
      ensures Lines(trace, start, w0, env, depth - 1) ==> Lines(trace + [e], start, w0, env, depth - 1)
      ensures ReaderOf() == EndReader(start, trace + [e]) && WorldOf(store, db) == EndWorld(w0, trace + [e])
      ensures r.Ok? <==> !Stopped(trace + [e])
      ensures r.Ok? ==> Render(trace) + r.value == Render(trace + [e])
      ensures r.Ok? ==> Pending(files.frames) <= Pending(old(files.frames))
      ensures r.Err? ==> ReplyOf(r.error) == LineReply(e)
      ensures r.Err? && r.error.Answer? ==> fresh(r.error.response)
      ensures !(r.Err? && r.error.Thrown?) ==> Consumed(origin, files.frames)
      ensures DistinctIds(old(store.bands)) ==> DistinctIds(store.bands)
    {
      ghost var afterRead := files.frames;
      r, e := RunScriptLine(frames, line, user, depth, env);
      ExtendLines(start, w0, trace, e, env, depth - 1);
      if !(r.Err? && r.error.Thrown?) {
        ConsumedTransitive(origin, afterRead, files.frames);
        ConsumedPending(afterRead, files.frames);
      }
    }

    /** One line of `ExecuteScript.execute`'s loop, already read from the
        top of `frames`: blank lines are skipped; a line is split at its
        first space into a command name and a trimmed argument; a script
        that is already open is not opened again but noted; an unknown name
        is skipped; any other line is run and its answer given with a blank
        line after it. */
    method RunScriptLine(ghost frames: seq<Frame>, line: string, user: User?, depth: nat, ghost env: Env)
      returns (r: Result<string, Outcome>, ghost e: Executed)
      requires Registry() && depth > 0 && env == EnvOf(user)
      requires TopLines(frames) != [] && line == TopLines(frames)[0]
      requires files.frames == DropTop(frames, 1)
      modifies store`bands, store`idCounter, db`log, db`users, files`frames, mode`isFileMode
      decreases depth, 4
      ensures Ran(e, env, depth - 1)
      ensures e.frames == frames && e.fileMode == old(mode.isFileMode) && e.before == old(WorldOf(store, db))
      ensures e.rest == files.frames && e.modeAfter == mode.isFileMode && e.after == WorldOf(store, db)
      ensures r.Ok? <==> !Stops(e)
      ensures r.Ok? ==> r.value == Piece(e)
      ensures r.Err? ==> ReplyOf(r.error) == LineReply(e)
      ensures r.Err? && r.error.Answer? ==> fresh(r.error.response)
      ensures !(r.Err? && r.error.Thrown?) ==> Consumed(old(files.frames), files.frames)
      ensures DistinctIds(old(store.bands)) ==> DistinctIds(store.bands)
    {
      ConsumedReflexive(files.frames);
      ghost var w := WorldOf(store, db);
      ghost var m := mode.isFileMode;
      var step := ScriptStep(line, commands, frames);
      e := Executed(frames, m, line, step, None, files.frames, files.frames, m, w, w, Plain([]), []);
      var text := Trim(line);
      if text == [] {
        return Ok([]), e;
      }
      var split := SplitAtFirstSpace(text);
      var name := split.0;
      var argument := Trim(split.1);
      if name == "execute_script" && files.IsRepeat(argument) {
        return Ok(RecursionNotice), e;
      }
      if name !in commands {
        return Ok([]), e;
      }
      assert step == Run(name, argument);
      r, e := RunCommandLine(frames, line, name, argument, user, depth, env);
    }

    /** A line of the top script that names a registered command: it is run
        and its answer given with a blank line after it. */
    method RunCommandLine(ghost frames: seq<Frame>, line: string, name: string, argument: string, user: User?,
                          depth: nat, ghost env: Env)
      returns (r: Result<string, Outcome>, ghost e: Executed)
      requires Registry() && depth > 0 && env == EnvOf(user)
      requires TopLines(frames) != [] && line == TopLines(frames)[0]
      requires files.frames == DropTop(frames, 1)
      requires ScriptStep(line, commands, frames) == Run(name, argument)
      modifies store`bands, store`idCounter, db`log, db`users, files`frames, mode`isFileMode
      decreases depth, 3
      ensures Ran(e, env, depth - 1)
      ensures e.frames == frames && e.fileMode == old(mode.isFileMode) && e.before == old(WorldOf(store, db))
      ensures e.rest == files.frames && e.modeAfter == mode.isFileMode && e.after == WorldOf(store, db)
      ensures r.Ok? <==> !Stops(e)
      ensures r.Ok? ==> r.value == Piece(e)
      ensures r.Err? ==> ReplyOf(r.error) == LineReply(e)
      ensures r.Err? && r.error.Answer? ==> fresh(r.error.response)
      ensures !(r.Err? && r.error.Thrown?) ==> Consumed(old(files.frames), files.frames)
      ensures DistinctIds(old(store.bands)) ==> DistinctIds(store.bands)
    {
      var answer;
      answer, e := RunLine(frames, line, name, argument, user, depth, env);
      if answer.Err? {
        return Err(answer.error), e;
      }
      r := Ok(answer.value.text + "\n\n");
      PieceOfRun(e);
    }

    /** A script line naming a registered command: the request is built
        (a malformed number ends the script), then sent. The result is the
        command's reply, or the outcome that ends the script. */
    method RunLine(ghost frames: seq<Frame>, line: string, name: string, argument: string, user: User?,
                   depth: nat, ghost env: Env)
      returns (r: Result<Reply, Outcome>, ghost e: Executed)
      requires Registry() && depth > 0 && env == EnvOf(user)
      requires TopLines(frames) != [] && line == TopLines(frames)[0]
      requires files.frames == DropTop(frames, 1)
      requires ScriptStep(line, commands, frames) == Run(name, argument)
      modifies store`bands, store`idCounter, db`log, db`users, files`frames, mode`isFileMode
      decreases depth, 2
      ensures Ran(e, env, depth - 1) && e.step == Run(name, argument)
      ensures e.frames == frames && e.fileMode == old(mode.isFileMode) && e.before == old(WorldOf(store, db))
      ensures e.rest == files.frames && e.modeAfter == mode.isFileMode && e.after == WorldOf(store, db)
      ensures r.Ok? <==> !Stops(e)
      ensures r.Ok? ==> r.value == e.reply && r.value.Replied?
      ensures r.Err? ==> ReplyOf(r.error) == LineReply(e)
      ensures r.Err? && r.error.Answer? ==> fresh(r.error.response)
      ensures !(r.Err? && r.error.Thrown?) ==> Consumed(old(files.frames), files.frames)
      ensures DistinctIds(old(store.bands)) ==> DistinctIds(store.bands)
    {
      var built := ScriptRequestFor(name, argument, user);
      if built.None? {
        ghost var w := WorldOf(store, db);
        ghost var m := mode.isFileMode;
        e := Executed(frames, m, line, Run(name, argument), None, files.frames, files.frames, m, w, w,
                      Plain(BadNumberReply), []);
        var reply := new Response(BadNumberReply);
        return Err(Answer(reply)), e;
      }
      ghost var sent := files.frames;
      r, e := SendLine(frames, line, name, argument, built.value, user, depth, env);
      if r.Ok? {
        ConsumedTransitive(old(files.frames), sent, files.frames);
      }
    }

    /** The request built for a script line is sent: the command does what
        `Dispatched` says and, after a nested script, the top script is
        closed. The result is the command's reply, or the exception that
        ends the script. */
    method SendLine(ghost frames: seq<Frame>, ghost line: string, name: string, ghost argument: string,
                    request: Request, user: User?, depth: nat, ghost env: Env)
      returns (r: Result<Reply, Outcome>, ghost e: Executed)
      requires Registry() && depth > 0 && env == EnvOf(user)
      requires TopLines(frames) != [] && line == TopLines(frames)[0]
      requires ScriptStep(line, commands, frames) == Run(name, argument) && !BadNumber(name, argument)
      requires ScriptRequest(request, name, argument, commands[name], user)
      requires files.frames == AfterBuild(name, mode.isFileMode, DropTop(frames, 1), store.api)
      requires BuildsBand(name) && mode.isFileMode ==>
        request.band == Some(store.api.build(TopLines(DropTop(frames, 1))).0)
      modifies store`bands, store`idCounter, db`log, db`users, files`frames, mode`isFileMode
      decreases depth, 1
      ensures e.step == Run(name, argument) && e.line == line && CommandSent(e, env, depth - 1)
      ensures e.frames == frames && e.fileMode == old(mode.isFileMode) && e.before == old(WorldOf(store, db))
      ensures e.rest == files.frames && e.modeAfter == mode.isFileMode && e.after == WorldOf(store, db)
      ensures r.Ok? <==> !Stops(e)
      ensures r.Ok? ==> r.value == e.reply && r.value.Replied?
      ensures r.Err? ==> r.error.Thrown? && ReplyOf(r.error) == LineReply(e)
      ensures r.Ok? ==> Consumed(old(files.frames), files.frames)
      ensures DistinctIds(old(store.bands)) ==> DistinctIds(store.bands)
    {
      ghost var w := WorldOf(store, db);
      ghost var m := mode.isFileMode;
      assert request.user == user;
      var reply;
      ghost var commandReply, nested, done;
      reply, commandReply, nested, done :=
        RunRequest(name, request, depth, env, Reader(AfterBuild(name, m, DropTop(frames, 1), env.context.api), m), w);
      e := Executed(frames, m, line, Run(name, argument), Some(request), done, files.frames, mode.isFileMode,
                    w, WorldOf(store, db), commandReply, nested);
      r := if reply.Raised? then Err(Thrown(reply.escape)) else Ok(reply);
    }

    /** The request a script line built is executed and, after a nested
        script, the top script is closed (with no script left to close this
        is a NoSuchElementException). `reply` is the command's own reply and
        `done` the open scripts before the closing. */
    method RunRequest(name: string, request: Request, depth: nat, ghost env: Env, ghost r0: Reader, ghost w0: World)
      returns (r: Reply, ghost reply: Reply, ghost nested: seq<Executed>, ghost done: seq<Frame>)
      requires Registry() && depth > 0 && name in commands && request.command == Some(commands[name])
      requires env == EnvOf(request.user) && r0 == ReaderOf() && w0 == WorldOf(store, db)
      modifies store`bands, store`idCounter, db`log, db`users, files`frames, mode`isFileMode
      decreases depth, 0
      ensures CommandRan(name, request, env, depth - 1, r0, Reader(done, mode.isFileMode), w0, WorldOf(store, db), reply, nested)
      ensures (r, files.frames) == AfterRun(name, reply, done)
      ensures r.Replied? ==> Consumed(old(files.frames), files.frames)
      ensures DistinctIds(old(store.bands)) ==> DistinctIds(store.bands)
    {
      ghost var beforeRun := files.frames;
      var response;
      response, nested := Execute(request, depth - 1);
      assert env.caller == CallerOf(request.user) && env.context == ContextOf() && env.commands == commands;
      r := ReplyOf(response);
      reply := r;
      done := files.frames;
      if response.Answer? {
        if name == "execute_script" {
          var closed := files.PopFile();
          if closed {
            DescendsThenPop(beforeRun, done);
          } else {
            r := Raised(NoSuchElement);
          }
        } else {
          ConsumedReflexive(beforeRun);
        }
      }
    }

    /** The request `ExecuteScript.execute` builds for a registered command;
        none when `remove_by_id` or `update` has an argument that is not an
        Integer. `update` builds its band before parsing the id. */
    method ScriptRequestFor(name: string, argument: string, user: User?) returns (request: Option<Request>)
      requires name in commands
      modifies files`frames
      ensures request.None? <==> BadNumber(name, argument)
      ensures request.Some? ==> ScriptRequest(request.value, name, argument, commands[name], user)
      ensures files.frames == AfterBuild(name, mode.isFileMode, old(files.frames), store.api)
      ensures request.Some? && BuildsBand(name) && mode.isFileMode ==>
        request.value.band == Some(store.api.build(TopLines(old(files.frames))).0)
      ensures Consumed(old(files.frames), files.frames)
    {
      var command := commands[name];
      ConsumedReflexive(files.frames);
      if name == "remove_by_id" {
        var id := ParseInt(argument);
        if id.None? {
          return None;
        }
        request := Some(WithArgs(command, IntValue(id.value), user));
      } else if name == "add" {
        var band := BuildBand();
        request := Some(WithBand(command, band, user));
      } else if name == "update" {
        var band := BuildBand();
        var id := ParseInt(argument);
        if id.None? {
          return None;
        }
        request := Some(WithBandAndArgs(command, band, IntValue(id.value), user));
      } else {
        request := Some(WithArgs(command, Text(argument), user));
      }
    }

    /** The band builder: in file mode it reads a band from the lines that
        follow in the top script; otherwise it reads the server's console,
        which is not part of this model, so the band is any band and no
        script line is used. */
    method BuildBand() returns (band: MusicBand)
      modifies files`frames
      ensures mode.isFileMode ==>
        var built := store.api.build(TopLines(old(files.frames)));
        band == built.0 && files.frames == DropTop(old(files.frames), built.1)
      ensures !mode.isFileMode ==> files.frames == old(files.frames)
      ensures Consumed(old(files.frames), files.frames)
    {
      if mode.isFileMode {
        var built := store.api.build(TopLines(files.frames));
        files.Skip(built.1);
        band := built.0;
      } else {
        ConsumedReflexive(files.frames);
        band :| true;
      }
    }
  }
}
