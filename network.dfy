/** What travels between client and server: the user's credentials, the
    command descriptors, the request and the response. */
module Network {
  import opened Base
  import opened JavaText
  import opened Bands

  /** The `serialVersionUID`s, which both sides must agree on. */
  const ResponseVersion: int := 20
  const RequestVersion: int := 21
  const UserVersion: int := 33

  // ---------------------------------------------------------------- user

  /** `Objects.hashCode` of a nullable string. */
  function NullableHash(s: Option<string>): int
  {
    match s
    case None => 0
    case Some(t) => StringHash(t)
  }

  /** The credentials a request carries; both fields may be null. */
  class User {
    var login: Option<string>
    var password: Option<string>

    constructor (login: Option<string>, password: Option<string>)
      ensures this.login == login && this.password == password
    {
      this.login := login;
      this.password := password;
    }

    method SetLogin(login: Option<string>)
      modifies this`login
      ensures this.login == login
    {
      this.login := login;
    }

    method SetPassword(password: Option<string>)
      modifies this`password
      ensures this.password == password
    {
      this.password := password;
    }

    /** `equals`: the same object, or another user with equal (or both
        null) login and password. */
    function Equals(o: User?): (r: bool)
      reads this, o
      ensures r <==> o != null && login == o.login && password == o.password
      ensures r ==> HashCode() == o.HashCode()
    {
      this == o || (o != null && login == o.login && password == o.password)
    }

    /** `Objects.hash(login, password)`: 31 * (31 + h(login)) + h(password)
        in 32-bit arithmetic, with 0 for a null field. */
    function HashCode(): (r: int)
      reads this
      ensures INT_MIN <= r <= INT_MAX
      ensures (r - (961 + 31 * NullableHash(login) + NullableHash(password))) % 0x1_0000_0000 == 0
    {
      var h1, h2 := NullableHash(login), NullableHash(password);
      var inner := Wrap32(31 + h1);
      var r := Wrap32(31 * inner + h2);
      CongruentScaled(inner, 31 + h1, 31);
      CongruentSum(r - (31 * inner + h2), 31 * inner - 31 * (31 + h1));
      r
    }
  }

  /** Equality of users is symmetric, and a user equals itself. */
  lemma EqualsSymmetric(a: User, b: User?)
    ensures a.Equals(a)
    ensures b != null ==> (a.Equals(b) <==> b.Equals(a))
  {
  }

  // ---------------------------------------------------------------- response

  /** The single `LoginError` constant, `LOGIN_ERROR`. */
  datatype LoginError = LoginErrorCode

  /** The server's answer: a text and, for a refused login or registration,
      the error tag. */
  class Response {
    var result: string
    var loginError: Option<LoginError>

    /** `Response()`: the default text. */
    constructor Default()
      ensures result == "Успешно" && loginError == None
    {
      result := "Успешно";
      loginError := None;
    }

    constructor (text: string)
      ensures result == text && loginError == None
    {
      result := text;
      loginError := None;
    }

    constructor Tagged(error: LoginError, text: string)
      ensures result == text && loginError == Some(error)
    {
      result := text;
      loginError := Some(error);
    }

    method SetResult(text: string)
      modifies this`result
      ensures result == text
    {
      result := text;
    }
  }

  // ---------------------------------------------------------------- commands

  /** The sixteen server command classes. */
  datatype Kind =
    | AddKind | ClearKind | ExecuteScriptKind | GroupCountingByLabelKind
    | HelpKind | InfoKind | LoginKind | PrintDescendingKind
    | PrintFieldAscendingLabelKind | RegisterKind | RemoveAtKind
    | RemoveByIdKind | RemoveFirstKind | ShowKind | ShuffleKind | UpdateIdKind

  /** A command descriptor: its name and which class it is. Each class
      fixes its own help line, so the help line is a function of the class. */
  datatype Command = Command(name: string, kind: Kind)
  {
    /** The command's help line, fixed by its class. */
    function Description(): string
    {
      DescriptionOf(kind)
    }
  }

  /** The name each command class registers under. */
  function NameOf(k: Kind): string
  {
    match k
    case AddKind => "add"
    case ClearKind => "clear"
    case ExecuteScriptKind => "execute_script"
    case GroupCountingByLabelKind => "group_counting_by_label"
    case HelpKind => "help"
    case InfoKind => "info"
    case LoginKind => "login"
    case PrintDescendingKind => "print_descending"
    case PrintFieldAscendingLabelKind => "print_field_ascending_label"
    case RegisterKind => "register"
    case RemoveAtKind => "remove_at"
    case RemoveByIdKind => "remove_by_id"
    case RemoveFirstKind => "remove_first"
    case ShowKind => "show"
    case ShuffleKind => "shuffle"
    case UpdateIdKind => "update"
  }

  /** The help line each command class carries. */
  function DescriptionOf(k: Kind): string
  {
    match k
    case AddKind => "add {element} : добавить новый элемент в коллекцию"
    case ClearKind => "clear : очистить коллекцию"
    case ExecuteScriptKind => "execute_script file_name : выполнить команды из указанного файла"
    case GroupCountingByLabelKind =>
      "group_counting_by_label : сгруппировать элементы по label и вывести количество в каждой группе"
    case HelpKind => "help : вывести справку по доступным командам"
    case InfoKind =>
      "info : вывести в стандартный поток вывода информацию о коллекции (тип, дата инициализации, количество элементов и т.д.)"
    case LoginKind => "Войти в аккаунт"
    case PrintDescendingKind => "print_descending : вывести элементы коллекции в порядке убывания"
    case PrintFieldAscendingLabelKind =>
      "print_field_ascending_label : вывести значения поля label всех элементов в порядке возрастания"
    case RegisterKind => "Зарегистрировать пользователя"
    case RemoveAtKind => "remove_at index : удалить элемент, находящийся в заданной позиции коллекции (index)"
    case RemoveByIdKind => "remove_by_id id : удалить элемент из коллекции по его id"
    case RemoveFirstKind => "remove_first : удалить первый элемент из коллекции"
    case ShowKind => "show : вывести в стандартный поток вывода все элементы коллекции в строковом представлении"
    case ShuffleKind => "shuffle : перемешать элементы коллекции в случайном порядке"
    case UpdateIdKind => "update id {element} : обновить значение элемента коллекции, id которого равен заданному"
  }

  /** The descriptor each command class constructs for itself. */
  function CommandOf(k: Kind): Command
  {
    Command(NameOf(k), k)
  }

  /** Every name is one word the client can split off a line, and only the
      script command is called `execute_script`. */
  lemma NameShape(k: Kind)
    ensures NameOf(k) != [] && ' ' !in NameOf(k)
    ensures NameOf(k) == "execute_script" <==> k == ExecuteScriptKind
  {
  }

  /** The descriptor a class constructs carries its own kind and name, and no
      other class's descriptor has that name. */
  lemma CommandOfUnique(k: Kind, other: Kind)
    ensures CommandOf(k).kind == k && CommandOf(k).name == NameOf(k)
    ensures CommandOf(other).name == CommandOf(k).name ==> other == k
  {
    if other != k {
      NamesDistinct(other, k);
    }
  }

  /** No two classes register under the same name. */
  lemma NamesDistinct(a: Kind, b: Kind)
    requires a != b
    ensures NameOf(a) != NameOf(b)
  {
  }

  // ---------------------------------------------------------------- request

  /** The `Object args` of a request: null, a String, an Integer or a Long. */
  datatype Arg = Null | Text(text: string) | IntValue(int) | LongValue(long: int)

  /** The Java exceptions a command does not catch; they leave the command
      and the dispatcher. */
  datatype Escape = NullPointer | ClassCast | IndexOutOfBounds | NoSuchElement | StackOverflow

  /** `(long) args`: only a boxed Long unboxes; null is a
      NullPointerException, any other object a ClassCastException. */
  function AsLong(a: Arg): Result<int, Escape>
  {
    match a
    case LongValue(v) => Ok(v)
    case Null => Err(NullPointer)
    case _ => Err(ClassCast)
  }

  /** `(Long) args`: null passes as null, any other non-Long object is a
      ClassCastException. */
  function AsNullableLong(a: Arg): Result<Option<int>, Escape>
  {
    match a
    case LongValue(v) => Ok(Some(v))
    case Null => Ok(None)
    case _ => Err(ClassCast)
  }

  /** `(String) args`. */
  function AsNullableString(a: Arg): Result<Option<string>, Escape>
  {
    match a
    case Text(s) => Ok(Some(s))
    case Null => Ok(None)
    case _ => Err(ClassCast)
  }

  /** A request: every field the constructors may leave null is optional. */
  datatype Request = Request(
    command: Option<Command>,
    band: Option<MusicBand>,
    args: Arg,
    user: User?,
    register: Option<string>)

  function ForRegister(register: Option<string>, user: User?): (r: Request)
    ensures r.register == register && r.user == user
    ensures r.command.None? && r.band.None? && r.args.Null?
  {
    Request(None, None, Null, user, register)
  }

  function ForCommand(command: Command, user: User?): (r: Request)
    ensures r.command == Some(command) && r.user == user
    ensures r.band.None? && r.args.Null? && r.register.None?
  {
    Request(Some(command), None, Null, user, None)
  }

  function WithArgs(command: Command, args: Arg, user: User?): (r: Request)
    ensures r.command == Some(command) && r.args == args && r.user == user
    ensures r.band.None? && r.register.None?
  {
    Request(Some(command), None, args, user, None)
  }

  function WithBandAndArgs(command: Command, band: MusicBand, args: Arg, user: User?): (r: Request)
    ensures r.command == Some(command) && r.band == Some(band) && r.args == args && r.user == user
    ensures r.register.None?
  {
    Request(Some(command), Some(band), args, user, None)
  }

  function ForBand(band: MusicBand, user: User?): (r: Request)
    ensures r.band == Some(band) && r.user == user
    ensures r.command.None? && r.args.Null? && r.register.None?
  {
    Request(None, Some(band), Null, user, None)
  }

  function WithBand(command: Command, band: MusicBand, user: User?): (r: Request)
    ensures r.command == Some(command) && r.band == Some(band) && r.user == user
    ensures r.args.Null? && r.register.None?
  {
    Request(Some(command), Some(band), Null, user, None)
  }

  function ForText(text: string): (r: Request)
    ensures r.args == Text(text)
    ensures r.command.None? && r.band.None? && r.user == null && r.register.None?
  {
    Request(None, None, Text(text), null, None)
  }

  // ---------------------------------------------------------------- outcome

  /** What running a command comes to: a response, or an exception that
      escapes it. */
  datatype Outcome = Answer(response: Response) | Thrown(escape: Escape)

  /** An outcome as a value: the response's text and tag, or the escaping
      exception. */
  datatype Reply = Replied(text: string, loginError: Option<LoginError>) | Raised(escape: Escape)

  function ReplyOf(o: Outcome): (r: Reply)
    reads if o.Answer? then {o.response} else {}
    ensures r.Raised? <==> o.Thrown?
    ensures o.Answer? ==> r.text == o.response.result && r.loginError == o.response.loginError
  {
    match o
    case Answer(response) => Replied(response.result, response.loginError)
    case Thrown(e) => Raised(e)
  }

  /** A plain response with the given text. */
  function Plain(text: string): Reply
  {
    Replied(text, None)
  }

  /** The outcome is a plain response with the given text. */
  predicate Says(o: Outcome, text: string)
    reads if o.Answer? then {o.response} else {}
  {
    o.Answer? && o.response.result == text && o.response.loginError == None
  }

  /** The outcome is a response tagged `LOGIN_ERROR` with the given text. */
  predicate Refuses(o: Outcome, text: string)
    reads if o.Answer? then {o.response} else {}
  {
    o.Answer? && o.response.result == text && o.response.loginError == Some(LoginErrorCode)
  }
}
