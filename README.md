# Laba7 music-band collection — a Dafny model

Laba7 is a client–server application that keeps a collection of music bands.
The collection is a `Stack<MusicBand>` in the server's memory, mirrored in a
database table reached through JDBC, and each band belongs to the user who added it. A client
reads commands from the console, checks their arity, builds bands from
prompts, and sends serialised `Request` objects. The server looks up each
request's command by name in its `CommandManager` and answers with a
`Response`. `execute_script` makes the server read commands from script
files, where the band builder reads its answers from the script instead of
the console.

This project models the core of that program:

- **`base.dfy`, `text.dfy`, `sorting.dfy`**: the Java library behaviour the
  core relies on. This covers `Option`/`Result`, `trim`, `isBlank`,
  `split(" ")`, `split("\\s+")`, `Collectors.joining`,
  `Integer.parseInt`/`Long.parseLong`, decimal printing, `String.hashCode` and
  `String.compareTo` over UTF-16 code units,
  and a stable sort.
- **`bands.dfy`** (module `Bands`): `MusicGenre` and its `names()`.
  `MusicBand` and `Label` are values here, whose validation, text and
  natural order are given as a parameter (`BandApi`).
- **`collection.dfy`** (module `Collection`): `CollectionManager`, as a
  class over a sequence of bands whose last element is the top of the
  stack. The functions give the meaning of each operation, and lemmas cover
  distinct ids, removal, grouping and sorting.
- **`network.dfy`** (module `Network`): `User`, `Response`, the command
  classes as `Kind`s, the dynamically typed `Request.args` (`Arg`), the
  request constructors, and `Outcome`. An outcome is a response or an
  unchecked exception that escapes a command.
- **`gateway.dfy`** (module `Persistence`): the database calls the commands
  make, as a class. It keeps a log of the changes it was asked for, and its
  results are arbitrary where the database decides.
- **`commands.dfy`** (module `Commands`): the `execute` method of each of
  the fourteen collection and account commands.
- **`scripts.dfy`** (module `Scripts`): the stack of open script files and
  the file-mode flag.
- **`server.dfy`** (module `Server`): the server `CommandManager`. It covers
  `addCommand`, `init`, `execute`, `help` and `execute_script`, which
  re-enters `execute` for each script line. A script run is described by
  its trace: one `Executed` record per line read. `Lines` chains each
  record to the reader and the world the previous line left, and `Ran`
  says what the loop did with that line, down to what its command did
  (`Dispatched`).
- **`builder.dfy`** (module `Builders`): the read-until-valid prompts of
  `Builder`.
- **`client.dfy`** (module `Client`): the client `Command` and
  `CommandManager`, the command loop's classification of an input line,
  `hasRecursion`, and `User.isLogin`.

The client's `User` class has the same fields, `equals` and `hashCode` as
the server's (including the same `serialVersionUID`). Both are modelled by
`Network.User`.

Behaviour the model keeps as the code has it:

- `getFirstId` returns the bottom of the stack, while `removeFirst` removes
  the top. `remove_first` therefore deletes one band from the database and
  another from memory (`Collection.FirstIdOutlivesRemoveFirst`).
- `clear` asks the database to delete only the first of the user's ids
  (`deleteUserObjects` returns inside the first pass of its loop over the ids, so only the first id is deleted). On success, all of the
  user's bands leave memory.
- `register` refuses only when both login and password already match a
  stored row. It answers success even when the insert fails.
- `print_descending` prints in ascending natural order.
- In a script, `remove_by_id` and `update` send an `Integer` argument,
  which the commands cast to `long`/`Long`. The cast throws
  `ClassCastException`, which escapes the server's command
  (`Thrown(ClassCast)`). The number-format handlers of `RemoveAt` and
  `UpdateId` can never run.
- A nested `execute_script` line whose file is missing still pops the
  stack, and closes the calling script. An exception in a nested command
  leaves scripts open and file mode on. File mode is switched off only
  when the script finishes normally, even a nested one: an `add` after a
  nested `execute_script` builds its band from the server's console, and
  the band's lines in the calling script are then read as commands.
- For a command that takes an argument, other than `execute_script`, the
  client parses the argument with `Long.parseLong`. A failure stops the
  client (`Client.LineAction.BadNumber`). Only `update`, `remove_at` and
  `remove_by_id` are then sent. Any other such command is dropped without
  a reply. `execute_script` is sent only when `hasRecursion` finds no cycle
  (`Client.HandleLine`).

Inputs the code takes from the environment become parameters:

- the date of creation;
- the script files (a map from path to lines);
- the console's remaining lines;
- the database's answers;
- the hash function and salts;
- the shuffle permutation;
- the iteration order of `HashMap`s.

`execute` and `execute_script` call each other, and the JVM's stack bounds
that recursion. The model bounds it with a `depth` argument and reports
`StackOverflow` at zero.

## Model

| member | source | states |
|---|---|---|
| Bands.Ordinal | server/src/main/java/org/example/mainClasses/MusicGenre.java:8-13 | each genre's ordinal is its position in the declaration order |
| Bands.GenresEnumerateAll | server/src/main/java/org/example/mainClasses/MusicGenre.java:8-13 | `values()` lists every genre exactly once, and its i-th entry has ordinal i |
| Bands.AppendedIsJoinPlusSep | server/src/main/java/org/example/mainClasses/MusicGenre.java:21-26 | appending each name followed by ", " gives the joined names plus one trailing separator, so dropping the last two characters leaves the join |
| Bands.Names | server/src/main/java/org/example/mainClasses/MusicGenre.java:20-27 | `names()` is the genre names in declaration order joined by ", " |
| Bands.NamesOfGenres | server/src/main/java/org/example/mainClasses/MusicGenre.java:9-13 | the names are PSYCHEDELIC_ROCK, HIP_HOP, SOUL, BLUES, MATH_ROCK in that order |
| Bands.NamesLength | server/src/main/java/org/example/mainClasses/MusicGenre.java:26 | the result's length is the sum of the names' lengths plus two per separator |
| Collection.IndexOfId | server/src/main/java/org/example/managers/CollectionManager.java:160-165 | the position of the first band with the id; none exactly when no band has it |
| Collection.GetById | server/src/main/java/org/example/managers/CollectionManager.java:160-165 | `getById`: a band of the collection with that id, null exactly when there is none, and under distinct ids the only such band |
| Collection.CheckId | server/src/main/java/org/example/managers/CollectionManager.java:104-111 | `checkId` is true exactly when no band of the collection has the band's id |
| Collection.FirstId | server/src/main/java/org/example/managers/CollectionManager.java:52-57 | `getFirstId` of a non-empty collection is the id of one of its bands |
| Collection.RemoveAtIndex | server/src/main/java/org/example/managers/CollectionManager.java:326-331 | removing at an index keeps the bands before it and shifts those after it down by one |
| Collection.FirstIndexOf | server/src/main/java/org/example/managers/CollectionManager.java:177 | `Stack.remove(Object)` finds the first equal element, and none exactly when the element is absent |
| Collection.RemoveFirstOf | server/src/main/java/org/example/managers/CollectionManager.java:177 | removing an element takes out exactly one copy of it, and changes nothing when it is absent |
| Collection.RemoveFoundBand | server/src/main/java/org/example/managers/CollectionManager.java:172-178 | removing the band `getById` found is removing at the index of the first band with that id |
| Collection.RemoveTop | server/src/main/java/org/example/managers/CollectionManager.java:314-319 | under distinct ids, removing the last element removes the top of the stack |
| Collection.RemoveAtIndexDistinct | server/src/main/java/org/example/managers/CollectionManager.java:326-331 | removal keeps ids distinct, drops the removed id and keeps every other id |
| Collection.Without | server/src/main/java/org/example/managers/CollectionManager.java:352-354 | filtering by a list of ids never grows the collection and no band with a listed id survives |
| Collection.WithoutMembers | server/src/main/java/org/example/managers/CollectionManager.java:352-354 | a band is left after the filter exactly when it was in the collection and its id is not listed |
| Collection.WithoutIds | server/src/main/java/org/example/managers/CollectionManager.java:352-354 | every id left after the filter was present and unlisted, and every unlisted id present before is still present |
| Collection.WithoutDistinct | server/src/main/java/org/example/managers/CollectionManager.java:352-354 | removing listed ids keeps ids distinct |
| Collection.RemoveIdIsWithout | server/src/main/java/org/example/managers/CollectionManager.java:353 | under distinct ids, removing the band `getById` finds is the same as filtering out that id (a missing id removes nothing) |
| Collection.WithoutNone | server/src/main/java/org/example/managers/CollectionManager.java:352-354 | removing ids no band has changes nothing |
| Collection.WithoutTwice | server/src/main/java/org/example/managers/CollectionManager.java:352-354 | removing two lists of ids one after the other is removing their concatenation |
| Collection.RemoveIdsIsWithout | server/src/main/java/org/example/managers/CollectionManager.java:352-354 | under distinct ids, `removeElements` (one `remove(getById(id))` per id) is the filter by the listed ids |
| Collection.Swap | server/src/main/java/org/example/managers/CollectionManager.java:242-245 | a swap keeps the length and the multiset of bands |
| Collection.SwapDistinct | server/src/main/java/org/example/managers/CollectionManager.java:242-245 | a swap keeps ids distinct |
| Collection.Show | server/src/main/java/org/example/managers/CollectionManager.java:300-308 | `show`: EmptyCollection exactly on an empty stack; otherwise its lines are the bands' texts in stack order |
| Collection.Ascending | server/src/main/java/org/example/managers/CollectionManager.java:289-290 | the bands sorted by natural order: a permutation of the collection that is sorted |
| Collection.PrintAscend | server/src/main/java/org/example/managers/CollectionManager.java:285-293 | `printAscend`: EmptyCollection exactly on an empty stack; otherwise the texts of a sorted permutation joined by newlines, whose lines are the bands' texts |
| Collection.NullsLastDescendingTotal | server/src/main/java/org/example/managers/CollectionManager.java:276 | `nullsLast(reverseOrder())` compares any two label names, so the sort is defined on every collection |
| Collection.PrintLabelField | server/src/main/java/org/example/managers/CollectionManager.java:273-278 | `printLabelField`: the label names sorted descending by `String.compareTo` on UTF-16 units, nulls last, joined by newlines; empty for an empty stack |
| Collection.Members | server/src/main/java/org/example/managers/CollectionManager.java:70 | a label's group holds only bands of that label |
| Collection.LabelsOf | server/src/main/java/org/example/managers/CollectionManager.java:70 | the labels in first-seen order are a valid group order: distinct, present and covering every band |
| Collection.GroupByLabel | server/src/main/java/org/example/managers/CollectionManager.java:64-81 | `groupByLabel`: EmptyCollection exactly on an empty stack; otherwise at least one group |
| Collection.MembersSnoc | server/src/main/java/org/example/managers/CollectionManager.java:70 | one more band adds one to its own label's group and nothing to the others |
| Collection.CountsSumToSize | server/src/main/java/org/example/managers/CollectionManager.java:70-75 | when every band's label is listed once, the group counts add up to the collection's size |
| Collection.GroupCounts | server/src/main/java/org/example/managers/CollectionManager.java:64-81 | every reported group has at least one member and the counts add up to the size |
| Collection.OwnedIds | server/src/main/java/org/example/commands/Clear.java:48-64 | the ids of exactly the bands owned by the login |
| Collection.NotOwned | server/src/main/java/org/example/commands/Clear.java:48-64 | no remaining band is owned by the login |
| Collection.WithoutOwned | server/src/main/java/org/example/commands/Clear.java:48-64 | filtering out the ids of exactly the owned bands leaves the bands of other owners |
| Collection.ClearKeepsOthers | server/src/main/java/org/example/commands/Clear.java:48-64 | under distinct ids, removing the user's ids leaves exactly the other owners' bands |
| Collection.FirstIdOutlivesRemoveFirst | server/src/main/java/org/example/commands/RemoveFirst.java:47-61 | with two or more bands, the id deleted from the database (bottom of the stack) is still in memory after the top is removed |
| Collection.Info | server/src/main/java/org/example/managers/CollectionManager.java:228-232 | `info` has three lines: the type "Stack", the creation date and the size |
| Collection.InfoSize | server/src/main/java/org/example/managers/CollectionManager.java:228-232 | the size printed at the end of `info` parses back to the number of bands |
| Collection.CollectionManager.constructor | server/src/main/java/org/example/managers/CollectionManager.java:36-38 | a new manager holds no bands and today's date |
| Collection.CollectionManager.Add | server/src/main/java/org/example/managers/CollectionManager.java:144-153 | `add`: an invalid band is refused with nothing changed; a valid one is pushed, with its id raised through the counter until it is unused; ids stay distinct |
| Collection.CollectionManager.CheckSameId | server/src/main/java/org/example/managers/CollectionManager.java:117-125 | `checkSameId` is true exactly when the ids are distinct |
| Collection.CollectionManager.RemoveById | server/src/main/java/org/example/managers/CollectionManager.java:172-178 | `removeById`: NoElement with nothing changed when the id is absent; otherwise the first band with it is removed and the id is gone |
| Collection.CollectionManager.RemoveAt | server/src/main/java/org/example/managers/CollectionManager.java:326-331 | `removeAt`: NoElement outside 0..size-1; otherwise the band at that index is removed |
| Collection.CollectionManager.RemoveFirst | server/src/main/java/org/example/managers/CollectionManager.java:314-319 | `removeFirst`: EmptyCollection on an empty stack; otherwise the top is removed |
| Collection.CollectionManager.UpdateId | server/src/main/java/org/example/managers/CollectionManager.java:256-267 | `updateId`: NoElement, then InvalidData, with nothing changed; otherwise the old band is removed and the new one pushed with the old id |
| Collection.CollectionManager.RemoveElements | server/src/main/java/org/example/managers/CollectionManager.java:352-354 | `removeElements` removes each listed id's band in turn, and under distinct ids is the filter by the ids |
| Collection.CollectionManager.Clear | server/src/main/java/org/example/managers/CollectionManager.java:193-198 | `clear`: AlreadyEmpty on an empty stack; otherwise no band is left |
| Collection.CollectionManager.Shuffle | server/src/main/java/org/example/managers/CollectionManager.java:238-247 | `shuffle`: EmptyCollection on an empty stack; otherwise a permutation of the bands |
| Network.User.constructor | server/src/main/java/org/example/network/User.java:37-40 | the user has the given login and password |
| Network.User.SetLogin | server/src/main/java/org/example/network/User.java:65-67 | sets the login |
| Network.User.SetPassword | server/src/main/java/org/example/network/User.java:74-76 | sets the password |
| Network.User.Equals | server/src/main/java/org/example/network/User.java:85-91 | equal exactly when the other user is not null with the same login and password; equal users have equal hash codes |
| Network.User.HashCode | server/src/main/java/org/example/network/User.java:99-101 | `Objects.hash(login, password)`: 31·(31 + h(login)) + h(password) wrapped to a 32-bit int, h being `String.hashCode` over the UTF-16 units (0 for null) |
| Network.EqualsSymmetric | server/src/main/java/org/example/network/User.java:85-91 | `equals` is reflexive and symmetric |
| Network.Response.Default | server/src/main/java/org/example/network/Response.java:77 | a default response says "Успешно" and carries no login error |
| Network.Response.constructor | server/src/main/java/org/example/network/Response.java:35-37 | a response with the text and no login error |
| Network.Response.Tagged | server/src/main/java/org/example/network/Response.java:60-63 | a response with the text and the login error |
| Network.Response.SetResult | server/src/main/java/org/example/network/Response.java:43-45 | replaces the text |
| Network.NamesDistinct | server/src/main/java/org/example/managers/CommandManager.java:40-57 | the sixteen command classes have sixteen different names |
| Network.NameShape | server/src/main/java/org/example/commands/ExecuteScript.java:26 | each name a class passes to `super` is one non-empty word, and only the script command's name is `execute_script` |
| Network.CommandOfUnique | server/src/main/java/org/example/managers/CommandManager.java:40-57 | the descriptor a class constructs has that class's kind and name, and no other class's descriptor has the same name |
| Network.ForRegister | server/src/main/java/org/example/network/Request.java:43-46 | a request with only the register flag and the user |
| Network.ForCommand | server/src/main/java/org/example/network/Request.java:53-56 | a request with only the command and the user |
| Network.WithArgs | server/src/main/java/org/example/network/Request.java:64-68 | a request with the command, the argument and the user |
| Network.WithBandAndArgs | server/src/main/java/org/example/network/Request.java:77-82 | a request with the command, the band, the argument and the user |
| Network.ForBand | server/src/main/java/org/example/network/Request.java:89-92 | a request with only the band and the user |
| Network.WithBand | server/src/main/java/org/example/network/Request.java:100-104 | a request with the command, the band and the user |
| Network.ForText | server/src/main/java/org/example/network/Request.java:110-112 | a request whose only field is the text argument |
| Persistence.Gateway.ExistUser | server/src/main/java/org/example/managers/DataBaseManager.java:63-84 | true exactly when a stored row has the login and the salted hash of the password |
| Persistence.Gateway.AddUser | server/src/main/java/org/example/managers/DataBaseManager.java:90-105 | appends at most one row, holding the login and the salted hash of the password; earlier rows are kept |
| Persistence.Gateway.AddBand | server/src/main/java/org/example/managers/DataBaseManager.java:113-142 | records the insert and returns a 32-bit id (-1 on failure) |
| Persistence.Gateway.UpdateObject | server/src/main/java/org/example/managers/DataBaseManager.java:151-172 | records the update and its outcome |
| Persistence.Gateway.DeleteObject | server/src/main/java/org/example/managers/DataBaseManager.java:204-216 | records the delete and its outcome |
| Persistence.Gateway.DeleteUserObjects | server/src/main/java/org/example/managers/DataBaseManager.java:180-196 | no ids: nothing deleted; otherwise only the first id is deleted and recorded |
| Persistence.AddedUserKnown | server/src/main/java/org/example/managers/DataBaseManager.java:63-105 | after `addUser` stored its row, `existUser` with the same login and password answers true; with a null login it answers false (`login = null` selects no row); users known before stay known |
| Commands.ExecuteAdd | server/src/main/java/org/example/commands/Add.java:49-62 | `add`: NPE without band or user; otherwise the database insert is recorded, and the band is added with the issued id, unless the insert failed or the band is invalid |
| Commands.ExecuteClear | server/src/main/java/org/example/commands/Clear.java:48-64 | `clear`: deletes the user's first band in the database; on success the memory loses all the user's bands and keeps the others |
| Commands.ExecuteRemoveAt | server/src/main/java/org/example/commands/RemoveAt.java:64-80 | `remove_at`: a non-Long argument escapes; the index wraps to an int; out of range escapes IndexOutOfBounds; otherwise the database delete decides whether the band at the index is removed |
| Commands.ExecuteRemoveById | server/src/main/java/org/example/commands/RemoveById.java:47-61 | `remove_by_id`: the database delete decides; then the band is removed, or the reply says the id is unknown |
| Commands.ExecuteRemoveFirst | server/src/main/java/org/example/commands/RemoveFirst.java:47-61 | `remove_first`: deletes `getFirstId` in the database; on success the top of the stack is removed, or an empty collection is reported |
| Commands.ExecuteUpdateId | server/src/main/java/org/example/commands/UpdateId.java:48-68 | `update`: a non-Long argument escapes ClassCast; the database update decides; then unknown id, invalid data or replacement with the id kept |
| Commands.ExecuteShuffle | server/src/main/java/org/example/commands/Shuffle.java:36-43 | `shuffle`: replies empty or shuffled; the bands are a permutation of the old ones |
| Commands.ExecuteShow | server/src/main/java/org/example/commands/Show.java:34-40 | `show`: replies `show()`, or the empty-collection text |
| Commands.ExecuteInfo | server/src/main/java/org/example/commands/Info.java:40-44 | `info`: the header followed by `info()` |
| Commands.ExecutePrintDescending | server/src/main/java/org/example/commands/PrintDescending.java:41-49 | `print_descending`: replies `printAscend()` (ascending order), or the empty-collection text |
| Commands.ExecutePrintFieldAscendingLabel | server/src/main/java/org/example/commands/PrintFieldAscendingLabel.java:42-50 | `print_field_ascending_label`: replies `printLabelField()` |
| Commands.ExecuteGroupCountingByLabel | server/src/main/java/org/example/commands/GroupCountingByLabel.java:41-47 | `group_counting_by_label`: replies `groupByLabel()` in some valid group order, or the empty-collection text |
| Commands.ExecuteLogin | server/src/main/java/org/example/commands/Login.java:42-48 | `login`: success exactly when the user's login and password match a stored row; otherwise a reply tagged LOGIN_ERROR |
| Commands.ExecuteRegister | server/src/main/java/org/example/commands/Register.java:51-57 | `register`: a tagged refusal with nothing stored when login and password already match; otherwise success and at most one new row for the user |
| Scripts.ConsumedTransitive | server/src/main/java/org/example/commands/ExecuteScript.java:38-99 | reading twice is reading |
| Scripts.ConsumedPending | server/src/main/java/org/example/commands/ExecuteScript.java:38-99 | reading never adds lines still to read, which bounds the script loop |
| Scripts.DescendsThenPop | server/src/main/java/org/example/commands/ExecuteScript.java:96-98 | closing the nested script after it ran leaves what reading alone could leave |
| Scripts.PushedThenConsumed | server/src/main/java/org/example/commands/ExecuteScript.java:36-99 | reading a script just opened leaves the caller's stack plus at most that script |
| Scripts.ScriptFiles.PushFile | server/src/main/java/org/example/commands/ExecuteScript.java:36 | opens the script on top of the stack; a missing file opens nothing |
| Scripts.ScriptFiles.ReadLine | server/src/main/java/org/example/commands/ExecuteScript.java:41-45 | the next line of the top script, or null when it is exhausted or no script is open |
| Scripts.ScriptFiles.Skip | server/src/main/java/org/example/commands/ExecuteScript.java:72 | the band builder takes up to n lines of the top script |
| Scripts.ScriptFiles.IsRepeat | server/src/main/java/org/example/commands/ExecuteScript.java:53-57 | true exactly when a script with that path is open on the stack |
| Scripts.DropTop | server/src/main/java/org/example/commands/ExecuteScript.java:72 | reading n lines of the top script keeps every script open and leaves the top script's lines after the first n |
| Scripts.ScriptFiles.PopFile | server/src/main/java/org/example/commands/ExecuteScript.java:96-98 | closes the top script; NoSuchElement on an empty stack |
| Scripts.FileMode.constructor | server/src/main/java/org/example/commands/ExecuteScript.java:35 | file mode starts off |
| Server.Descriptions | server/src/main/java/org/example/commands/Help.java:47 | one help line per listed command |
| Server.DescriptionsAt | server/src/main/java/org/example/commands/Help.java:47 | the i-th help line is the description of the i-th command in the map's iteration order |
| Server.DescriptionsSnoc | server/src/main/java/org/example/commands/Help.java:47 | one more command in the iteration order adds its description as the last help line |
| Server.HelpTextAppend | server/src/main/java/org/example/commands/Help.java:47 | one more help line adds that line and a newline at the end of the text |
| Server.HelpTextSnoc | server/src/main/java/org/example/commands/Help.java:47 | each further command adds its description and a newline |
| Server.HelpLines | server/src/main/java/org/example/commands/Help.java:46-48 | the help text's lines are the header, one description per command and a final empty line |
| Server.HelpLineCount | server/src/main/java/org/example/commands/Help.java:46-48 | the help text has exactly two more lines than there are commands |
| Server.RegisteringSnoc | server/src/main/java/org/example/managers/CommandManager.java:40-57 | each `addCommand` during `init` puts one class under its own name |
| Server.RegisteringConsistent | server/src/main/java/org/example/managers/CommandManager.java:40-57 | registering command classes keeps every entry registered under its own name |
| Server.RegisteringFinds | server/src/main/java/org/example/managers/CommandManager.java:40-57 | every class registered is found under its name afterwards |
| Server.RegisteringKeys | server/src/main/java/org/example/managers/CommandManager.java:40-57 | registering adds no names besides the registered classes' names |
| Server.InitOrderComplete | server/src/main/java/org/example/managers/CommandManager.java:41-56 | `init` registers every one of the sixteen command classes |
| Server.InitRegistersAll | server/src/main/java/org/example/managers/CommandManager.java:40-57 | after `init` every command class is found under its own name |
| Server.ConsistentLookup | server/src/main/java/org/example/managers/CommandManager.java:64-71 | looking up a command's name finds that command's class |
| Server.CommandManager.constructor | server/src/main/java/org/example/managers/CommandManager.java:16 | the registry starts empty |
| Server.CommandManager.AddCommand | server/src/main/java/org/example/managers/CommandManager.java:22-24 | puts the command under its name, replacing any other |
| Server.CommandManager.Init | server/src/main/java/org/example/managers/CommandManager.java:40-57 | the registry after adding the sixteen classes in source order; from a consistent registry every class is found under its name |
| Server.CommandManager.Help | server/src/main/java/org/example/commands/Help.java:45-49 | the header then every registered description, in some iteration order of the keys |
| Server.CommandManager.Execute | server/src/main/java/org/example/managers/CommandManager.java:64-71 | NPE without a command; "Команды нет" with nothing changed for an unknown name; otherwise `Dispatched`: the registered class's `execute` on the request, as the Commands methods state it; only `execute_script` moves the script stack; ids stay distinct |
| Server.CommandManager.RunQuery | server/src/main/java/org/example/managers/CommandManager.java:67 | for a command that does not change the collection, what it replies is `Dispatched` for its class |
| Server.CommandManager.RunAccount | server/src/main/java/org/example/managers/CommandManager.java:67 | `login` and `register`: the reply and the users are `Dispatched` for the class |
| Server.CommandManager.RunReport | server/src/main/java/org/example/managers/CommandManager.java:67 | the reporting commands change nothing and reply as `Dispatched` says |
| Server.CommandManager.RunSummary | server/src/main/java/org/example/managers/CommandManager.java:67 | `group_counting_by_label` and `help` change nothing and reply as `Dispatched` says |
| Server.CommandManager.RunListing | server/src/main/java/org/example/managers/CommandManager.java:67 | `show`, `info`, `print_descending` and `print_field_ascending_label` change nothing and reply as `Dispatched` says |
| Server.CommandManager.RunUpdate | server/src/main/java/org/example/managers/CommandManager.java:67 | a command that may change the collection does what `Dispatched` says for its class; ids stay distinct |
| Server.CommandManager.RunPlacing | server/src/main/java/org/example/managers/CommandManager.java:67 | `add`, `update` and `shuffle` do what `Dispatched` says; ids stay distinct |
| Server.CommandManager.RunRemoval | server/src/main/java/org/example/managers/CommandManager.java:67 | `clear`, `remove_at`, `remove_by_id` and `remove_first` do what `Dispatched` says; ids stay distinct |
| Server.ScriptStep | server/src/main/java/org/example/commands/ExecuteScript.java:47-61 | the reading of a line never names a command that is not registered |
| Server.ScriptStepShape | server/src/main/java/org/example/commands/ExecuteScript.java:47-61 | a line is blank exactly when it trims to nothing; a run names a registered one-word command with a trimmed argument; a recursion names a script that is open |
| Server.ExtendLines | server/src/main/java/org/example/commands/ExecuteScript.java:46-98 | one more line that ran where the trace left off keeps the trace chained; the reader and world end where that line left them, its piece is appended to the answer, and the trace has stopped exactly when that line ended the script |
| Server.PieceOfRun | server/src/main/java/org/example/commands/ExecuteScript.java:94 | a command line adds its reply followed by a blank line to the answer |
| Server.CommandManager.ExecuteScript | server/src/main/java/org/example/commands/ExecuteScript.java:30-111 | `execute_script`: a non-String argument escapes ClassCast and null escapes NPE, with nothing changed; otherwise `ScriptRun` for the trimmed argument as the user who sent it: a missing file answers "Файл не найден" with file mode left on, and an existing one runs its lines as `ScriptFile` says |
| Server.CommandManager.RunFile | server/src/main/java/org/example/commands/ExecuteScript.java:34-105 | `ScriptFile`: file mode goes on and the script is opened on top; a missing file answers "Файл не найден"; otherwise the lines run from the frames after the push, each where the one before left off, until one ends the script (its reply is the answer) or the script runs out (the answer is the pieces in order and file mode goes off) |
| Server.CommandManager.RunScript | server/src/main/java/org/example/commands/ExecuteScript.java:38-99 | the loop over the top script: every line read has an entry in the trace, chained by `Lines` from the reader and world at the start; the result is the pieces in order when the script ran out (its top has no line left), or the reply of the last entry when that line ended the script |
| Server.CommandManager.RunNextLine | server/src/main/java/org/example/commands/ExecuteScript.java:46-98 | one turn of the loop: with no line left it stops with the text so far and the trace unchanged; otherwise the line read extends the trace by one entry that `Ran`, the text grows by its piece, and the loop stops exactly when that line ended the script |
| Server.CommandManager.RunReadLine | server/src/main/java/org/example/commands/ExecuteScript.java:47-98 | a line just read: its entry starts where the trace left the reader and the world, so the trace stays chained; it ends the script exactly when `Stops` says, and otherwise adds its piece to the text |
| Server.CommandManager.RunScriptLine | server/src/main/java/org/example/commands/ExecuteScript.java:47-98 | one line read from the top script `Ran` as the loop runs it: a blank line or an unknown name adds nothing, an open script adds the recursion notice, a command adds its reply and a blank line; the line ends the script, with the malformed-number reply or the exception, exactly when `Stops` says |
| Server.CommandManager.RunCommandLine | server/src/main/java/org/example/commands/ExecuteScript.java:60-94 | a line naming a registered command `Ran`: its piece is the reply followed by a blank line; it ends the script exactly when the number is malformed or the command, or closing its nested script, threw, and then with that reply |
| Server.CommandManager.RunLine | server/src/main/java/org/example/commands/ExecuteScript.java:60-98 | builds the line's request as `ScriptRequest` says and sends it as the script's user; the malformed-number reply, with nothing changed, exactly when `remove_by_id`/`update` has a non-Integer argument; otherwise the command's reply, or the exception that `LineReply` records |
| Server.CommandManager.SendLine | server/src/main/java/org/example/commands/ExecuteScript.java:66-98 | a command line with a well-formed number: the entry records the request the loop built and what the command did (`CommandSent`); the line's result is the command's reply, or the exception that ends the script exactly when `Stops` says |
| Server.CommandManager.RunRequest | server/src/main/java/org/example/commands/ExecuteScript.java:66-98 | the nested `execute` does what `Dispatched` says for the command's class, as the script's user; after a nested `execute_script` the top script is closed, and with none left that is a NoSuchElementException |
| Server.CommandManager.ScriptRequestFor | server/src/main/java/org/example/commands/ExecuteScript.java:64-92 | the request the loop builds: none exactly for a non-Integer id of `remove_by_id`/`update`; only `add` and `update` read further lines |
| Server.CommandManager.BuildBand | server/src/main/java/org/example/commands/ExecuteScript.java:72 | in file mode the band is built from the lines that follow in the top script, which are consumed; otherwise no script line is read |
| Builders.FirstAccepted | server/src/main/java/org/example/builders/Builder.java:37-45 | the first acceptable line and the lines read up to it; every earlier line is refused |
| Builders.FirstAcceptedAfter | server/src/main/java/org/example/builders/Builder.java:37-45 | skipping refused lines does not change which line is taken |
| Builders.DaysInMonth | server/src/main/java/org/example/builders/Builder.java:89-94 | every month has 28 to 31 days |
| Builders.Builder.constructor | server/src/main/java/org/example/builders/Builder.java:24-26 | a builder reads the given lines in the given file mode |
| Builders.Builder.NextAccepted | server/src/main/java/org/example/builders/Builder.java:37-45 | the read-until-valid loop returns the first acceptable line's value and consumes exactly the lines up to it |
| Builders.Builder.BuildInt | server/src/main/java/org/example/builders/Builder.java:35-46 | `buildInt`: the first line that parses as an int, lines up to it consumed |
| Builders.Builder.BuildMonth | server/src/main/java/org/example/builders/Builder.java:55-71 | `buildMonth`: the first int in 0..11 |
| Builders.Builder.BuildDate | server/src/main/java/org/example/builders/Builder.java:82-103 | `buildDate`: the first int that is a real day of the month and year |
| Builders.Builder.BuildLong | server/src/main/java/org/example/builders/Builder.java:137-155 | `buildLong`: the first long of at most 968, or in file mode any long with values above 968 cut to 968 |
| Builders.Builder.BuildSales | server/src/main/java/org/example/builders/Builder.java:164-180 | `buildSales`: the first positive long |
| Builders.Builder.BuildString | server/src/main/java/org/example/builders/Builder.java:189-200 | `buildString`: the next line, with a blank line read as null |
| Builders.FirstAcceptedExtend | server/src/main/java/org/example/builders/Builder.java:37-45 | what a prompt takes does not depend on the lines after the one it takes, so the rest of the script is left for the next field |
| Builders.CalendarFacts | server/src/main/java/org/example/builders/Builder.java:89-94 | 29 February exists exactly in leap years; a day of October 1582 exists exactly when it is 1 to 4 or 15 to 31 |
| Client.CommandEquals | client/src/main/java/org/example/commands/Command.java:81-88 | `equals` holds exactly for a non-null command of the same class with the same flag, name and description |
| Client.ClientRegistry.constructor | client/src/main/java/org/example/managers/CommandManager.java:14 | the client registry starts empty |
| Client.ClientRegistry.PutCommand | client/src/main/java/org/example/managers/CommandManager.java:16-18 | `putCommand`: the command is under its name and every other name is unchanged |
| Client.Tokens | client/src/main/java/org/example/network/RequestManager.java:98-99 | a line always has a first token |
| Client.Classify | client/src/main/java/org/example/network/RequestManager.java:97-166 | `exit` stops; an unknown name sends nothing; a command without arguments is sent only alone; one with arguments only with exactly one argument, its id parsed as a long |
| Client.HandleLine | client/src/main/java/org/example/network/RequestManager.java:97-165 | the command loop's action on a line: the classification, except that `execute_script` first runs `hasRecursion` with an empty set; it reports the recursion exactly when the script recurses, and sends the script's name exactly when it does not |
| Client.CalledScript | client/src/main/java/org/example/network/RequestManager.java:185-189 | a line names a nested script only when, trimmed, it starts with `execute_script` and has exactly two words |
| Client.Calls | client/src/main/java/org/example/network/RequestManager.java:184-195 | a script calls at most one script per line |
| Client.RecursesFrom | client/src/main/java/org/example/network/RequestManager.java:184-195 | scanning from line i finds recursion exactly when line i's call recurses or a later call does |
| Client.RecursionCheck.constructor | client/src/main/java/org/example/network/RequestManager.java:157 | the check starts with an empty path |
| Client.RecursionCheck.HasRecursion | client/src/main/java/org/example/network/RequestManager.java:176-202 | `hasRecursion` answers exactly whether the script reaches a script already on the path, and leaves the path as it was when it answers false |
| Client.SelfCallRecurses | client/src/main/java/org/example/network/RequestManager.java:176-202 | a script that calls itself is reported |
| Client.NoCallsNoRecursion | client/src/main/java/org/example/network/RequestManager.java:196-201 | a missing script, or one calling nothing, is not reported |
| Client.LoginAnswer | client/src/main/java/org/example/network/User.java:36-46 | the six yes spellings answer true and the six no spellings answer false |
| Client.Console.IsLogin | client/src/main/java/org/example/network/User.java:30-48 | `isLogin`: the answer of the first understood line, with exactly the lines up to it read |
| JavaText.TrimStartSuffix | server/src/main/java/org/example/commands/ExecuteScript.java:47 | what trimming the front of a line keeps is a suffix of it |
| JavaText.TrimEndDrops | server/src/main/java/org/example/commands/ExecuteScript.java:47 | every char trimming the end of a line cuts off is at most U+0020 |
| JavaText.TrimIdempotent | server/src/main/java/org/example/commands/ExecuteScript.java:47 | trimming twice is trimming once |
| JavaText.SplitJoin | server/src/main/java/org/example/managers/CollectionManager.java:305-307 | splitting joined newline-free texts on newline gives them back |
| JavaText.JoinLength | server/src/main/java/org/example/mainClasses/MusicGenre.java:26 | the joined length is the parts' lengths plus the separators' |
| JavaText.ParseIntToString | server/src/main/java/org/example/managers/CollectionManager.java:231 | an int printed in decimal parses back to itself |
| JavaText.StrLeTotal | server/src/main/java/org/example/managers/CollectionManager.java:276 | `compareTo` on UTF-16 units is total, and answers 0 only for equal strings |
| JavaText.Utf16Injective | server/src/main/java/org/example/managers/CollectionManager.java:276 | the UTF-16 encoding `compareTo` and `hashCode` run over loses nothing: equal units mean equal strings |
| JavaText.HashAppend | server/src/main/java/org/example/network/User.java:99-101 | `String.hashCode` of `a + b` carries on from the hash of `a`, one step per UTF-16 unit of `b`, so a char above U+FFFF takes two steps |
| Sorting.SortSorted | server/src/main/java/org/example/managers/CollectionManager.java:290 | the stable sort by a total order gives a sorted permutation |
| Sorting.MapSort | server/src/main/java/org/example/managers/CollectionManager.java:275-276 | sorting and then mapping gives the same multiset as mapping |

## Left out

- Networking, serialisation, the client's `Client` class and `Main`, `System.exit`, console prompts and error messages printed to `System.err`: I/O with no effect on the modelled state.
- JDBC and SQL are abstracted: what `DataBaseManager` answers is arbitrary within its types; `createCollection`/`loadCollection`/`setBands` (loading the table at start-up) are not modelled. As written, `deleteObject` and `deleteUserObjects` call `resultSet.next()` after `resultSet.close()` (DataBaseManager.java:188-189, 211-212), which a JDBC driver answers with an `SQLException` that both catch, so against a real driver they always answer false and `remove_by_id`, `remove_at`, `remove_first` and `clear` never change memory. The arbitrary answer includes that case; the branches where the database answers true are kept because the code has them.
- `ScriptExecuteManager`, `ManualInputManager`, `MusicBandsBuilder`, `MusicBand`, `Label`, `Coordinates` and the `LoginError` enum are abstracted: the script stack is modelled from how `ExecuteScript` uses it, building a band from script lines is a parameter, and band validation, text and natural order are parameters.
- `Builder.buildFloat`: floating point.
- `CollectionManager.addElem`, `isContain`, `getLocaleDate`/`setLocaleDate`, `getDate`, `getTypeOfCollection`, `size`, `getBands`: plain accessors or unused helpers; `info` covers `getTypeOfCollection`, `getDate` and `size`.
- The in-place `band.setId(...)` of `add`/`updateId`, which also changes the request's band object (aliasing): bands are values, so the stored band gets the new id and the request's band does not.
- SHA-1 password hashing and salt generation: a hash function parameter and an arbitrary salt.
- The client's registration and login prompts (`RequestManager.execute` before its command loop, and `loginToDb`), `leave()`, and the eleven client command classes other than the five whose flags the classification needs.
- Builders.Builder.BuildInt: at the end of input Java loops forever (`parseInt(null)` fails every time) or throws `NoSuchElementException`; the model answers `None`. The same holds for BuildMonth, BuildDate, BuildLong, BuildSales and BuildString.
- Client.Console.IsLogin: at the end of the console Java throws `NoSuchElementException`; the model answers `None`.
- JavaText.ParseInteger: accepts ASCII digits only, where `Integer.parseInt` also accepts other Unicode digits.
- Builders.IsValidDay: follows the default `GregorianCalendar` (Julian before 15 October 1582), with astronomical year numbers; the lenient calendar's handling of years outside the era is not modelled.
- Server.CommandManager.RunScript: when a nested command throws, the open scripts are those the trace ends with, but they are not promised to be what reading left of the scripts open at the start: a nested script can stay open on top, as in Java.
- Server.CommandManager.RunLine: as RunScript, after a nested exception the open scripts are not promised to be what reading left of those open before the line.
- Server.CommandManager.BuildBand: outside file mode (after a nested script finished and switched it off) the band comes from the server's console, so it is any band and no script line is read; the lines the calling script meant for it are then read as commands, as in the code.
- Server.CommandManager.Help: the order of the descriptions is some enumeration of the keys (`HashMap` order is unspecified).
- Collection.GroupByLabel: the order of the groups is a parameter, any order of the distinct labels (`HashMap` order). Groups are formed by equality of `Label` values; `Label.equals`/`hashCode` is not part of this model, and without an override there Java would put each `Label` object in a group of its own.
- Commands.ExecuteShuffle: the permutation is arbitrary (`Collections.shuffle`).
- Persistence.Gateway.AddBand: the issued id is arbitrary (database sequence).
- Client.Classify: `BadNumber` ends the client; the model records it as the line's outcome.
- Client.ClientCommand: name and description are non-null strings.
- Server.CommandManager.ExecuteScript: the `IOException` reply "Ошибка чтения файла" (ExecuteScript.java:106-107) is not modelled: script files are a map from path to lines, and reading one cannot fail.
- Network.DescriptionOf and Network.Command.Description: the sixteen help lines are the literals each class passes to `super`, with no contract of their own; `Help` states how they are used (`HelpReply`).
