/**
 * The command layer of main.go: the command record, the name-to-handler
 * registry with its lazy allocation, dispatch by name, the split of the
 * argument vector in `main`, and the argument-count guards of the handlers.
 *
 * A handler is a total function over an abstract program state `S`. What a
 * handler does after its guard (database queries, writing the config file,
 * fetching a feed) is not visible here and is passed in as a function value.
 */
module Commands {
  import opened Wrappers

  /** An error value; the message is the one the source formats. */
  datatype Error = Error(message: string)

  const NotRegistered := Error("Command not registered, please select from the valid commands")
  const LoginNoArguments := Error("Must provide arguments to `login` command, None provided")
  const RegisterNoArguments := Error("Must provide argument to `register` command, None provided")
  const AddFeedTooFewArguments := Error("Insufficient number of arguments")

  /** Exit status of a Go program that dies of a runtime panic. */
  const PanicStatus := 2

  /** `command{name, arguments}`. */
  datatype Command = Command(name: string, arguments: seq<string>)

  /**
   * What running a handler leads to: it returns (with a nil or non-nil
   * error), or the process stops with an exit status (`os.Exit`, or a
   * runtime panic). Either way the state it leaves behind is recorded.
   */
  datatype Outcome<S> = Returned(state: S, err: Option<Error>) | Halted(state: S, status: int)

  /** `func(*state, command) error`. */
  type Handler<!S> = (S, Command) -> Outcome<S>

  /**
   * `h` first checks that the command has at least `minArgs` arguments:
   * with fewer it returns `e` and changes nothing, with enough it does
   * exactly what `rest` does.
   */
  ghost predicate GuardedBy<S(!new)>(h: Handler<S>, minArgs: nat, e: Error, rest: Handler<S>)
  {
    forall s: S, cmd: Command ::
      h(s, cmd) == if |cmd.arguments| < minArgs then Returned(s, Some(e)) else rest(s, cmd)
  }

  /** The `commands` struct: a registry that is nil until the first registration. */
  class Commands<S(!new)> {
    var registry: Option<map<string, Handler<S>>>

    /** `commands{}`: the registry map is nil. */
    constructor ()
      ensures registry == None
    {
      registry := None;
    }

    /** The registry as Go reads it: a nil map has no entries. */
    function Table(): (t: map<string, Handler<S>>)
      reads this
      ensures registry.None? ==> t == map[]
      ensures registry.Some? ==> t == registry.value
    {
      if registry.Some? then registry.value else map[]
    }

    /**
     * `register`: allocate the map if it is nil, then bind `name` to `f`,
     * overwriting an earlier binding of `name` and keeping every other one.
     */
    method Register(name: string, f: Handler<S>)
      modifies this
      ensures registry.Some?
      ensures registry.value == old(Table())[name := f]
      ensures name in registry.value && registry.value[name] == f
      ensures forall n :: n != name ==> (n in registry.value <==> n in old(Table()))
      ensures forall n :: n != name && n in old(Table()) ==> registry.value[n] == old(Table())[n]
      ensures forall s: S, cmd: Command :: cmd.name == name ==> Run(s, cmd) == f(s, cmd)
      ensures forall s: S, cmd: Command :: cmd.name != name ==> Run(s, cmd) == old(Run(s, cmd))
    {
      if registry.None? {
        registry := Some(map[]);
      }
      registry := Some(registry.value[name := f]);
    }

    /**
     * `run`: an unknown name is reported as not registered and no handler
     * runs (the state is untouched); a known name runs its handler once and
     * passes on exactly what the handler led to.
     */
    function Run(s: S, cmd: Command): (r: Outcome<S>)
      reads this
      ensures cmd.name !in Table() ==> r == Returned(s, Some(NotRegistered))
      ensures cmd.name in Table() ==> r == Table()[cmd.name](s, cmd)
    {
      if cmd.name in Table() then Table()[cmd.name](s, cmd) else Returned(s, Some(NotRegistered))
    }
  }

  /**
   * The split of the argument vector in `main`: fewer than two entries is
   * rejected; otherwise entry 1 is the command name and the rest after it
   * are its arguments, so program name, command name and arguments put back
   * together give the vector again.
   */
  function SplitArgs(args: seq<string>): (r: Option<Command>)
    ensures r.None? <==> |args| < 2
    ensures r.Some? ==> [args[0], r.value.name] + r.value.arguments == args
  {
    if |args| < 2 then None else Some(Command(args[1], args[2..]))
  }

  /** Splitting a vector built from a program name and a command gives that command back. */
  lemma SplitArgsOfCommand(program: string, cmd: Command)
    ensures SplitArgs([program, cmd.name] + cmd.arguments) == Some(cmd)
  {
  }

  /** `handlerLogin`: no arguments is an error before anything else happens. */
  function LoginHandler<S(!new)>(rest: Handler<S>): (h: Handler<S>)
    ensures GuardedBy(h, 1, LoginNoArguments, rest)
  {
    (s: S, cmd: Command) => if |cmd.arguments| == 0 then Returned(s, Some(LoginNoArguments)) else rest(s, cmd)
  }

  /** `handlerRegister`: no arguments is an error before anything else happens. */
  function RegisterHandler<S(!new)>(rest: Handler<S>): (h: Handler<S>)
    ensures GuardedBy(h, 1, RegisterNoArguments, rest)
  {
    (s: S, cmd: Command) => if |cmd.arguments| == 0 then Returned(s, Some(RegisterNoArguments)) else rest(s, cmd)
  }

  /** `handlerAddFeed`: fewer than two arguments is an error before anything else happens. */
  function AddFeedHandler<S(!new)>(rest: Handler<S>): (h: Handler<S>)
    ensures GuardedBy(h, 2, AddFeedTooFewArguments, rest)
  {
    (s: S, cmd: Command) => if |cmd.arguments| < 2 then Returned(s, Some(AddFeedTooFewArguments)) else rest(s, cmd)
  }

  /**
   * `handlerAgg` takes `arguments[0]` without checking the length: with no
   * arguments the Go program panics (index out of range), otherwise the
   * first argument is the URL handed to the fetch.
   */
  function AggHandler<S(!new)>(fetch: (S, string) -> Outcome<S>): (h: Handler<S>)
    ensures forall s: S, cmd: Command :: |cmd.arguments| == 0 ==> h(s, cmd) == Halted(s, PanicStatus)
    ensures forall s: S, cmd: Command :: |cmd.arguments| > 0 ==> h(s, cmd) == fetch(s, cmd.arguments[0])
  {
    (s: S, cmd: Command) => if |cmd.arguments| == 0 then Halted(s, PanicStatus) else fetch(s, cmd.arguments[0])
  }

  /**
   * What each registered handler does beyond its argument guard. `reset`,
   * `users` and `feeds` have no guard, so they are their body entirely.
   */
  datatype Bodies<!S> = Bodies(
    login: Handler<S>,
    register: Handler<S>,
    reset: Handler<S>,
    users: Handler<S>,
    fetch: (S, string) -> Outcome<S>,
    addFeed: Handler<S>,
    feeds: Handler<S>)

  /** The registry that `main` builds: exactly these seven names. */
  function BuiltIn<S(!new)>(b: Bodies<S>): (t: map<string, Handler<S>>)
    ensures t.Keys == {"login", "register", "reset", "users", "agg", "addfeed", "feeds"}
    ensures GuardedBy(t["login"], 1, LoginNoArguments, b.login)
    ensures GuardedBy(t["register"], 1, RegisterNoArguments, b.register)
    ensures GuardedBy(t["addfeed"], 2, AddFeedTooFewArguments, b.addFeed)
    ensures t["reset"] == b.reset && t["users"] == b.users && t["feeds"] == b.feeds
    ensures t["agg"] == AggHandler(b.fetch)
  {
    map["login" := LoginHandler(b.login),
        "register" := RegisterHandler(b.register),
        "reset" := b.reset,
        "users" := b.users,
        "agg" := AggHandler(b.fetch),
        "addfeed" := AddFeedHandler(b.addFeed),
        "feeds" := b.feeds]
  }

  /** The process exit status `main` ends with after a dispatch. */
  function ExitStatus<S>(o: Outcome<S>): (status: int)
    ensures o.Returned? ==> (status == 0 <==> o.err.None?)
    ensures o.Returned? && o.err.Some? ==> status == 1
    ensures o.Halted? ==> status == o.status
  {
    match o
    case Returned(_, err) => if err.None? then 0 else 1
    case Halted(_, status) => status
  }

  /**
   * `main` after the configuration and database are set up: register the
   * seven commands, split the argument vector (exit 1 when it is too short)
   * and run the command (exit 1 when it fails, including when its name is
   * not registered). Returns the exit status, the final state and the error
   * `run` returned, which `main` prints (None when `run` was not reached or
   * the handler stopped the process).
   */
  method Gator<S(!new)>(args: seq<string>, s: S, b: Bodies<S>) returns (status: int, final: S, err: Option<Error>)
    ensures |args| < 2 ==> status == 1 && final == s && err == None
    ensures |args| >= 2 && args[1] !in BuiltIn(b).Keys ==> status == 1 && final == s && err == Some(NotRegistered)
    ensures |args| >= 2 && args[1] in BuiltIn(b).Keys ==>
      var o := BuiltIn(b)[args[1]](s, Command(args[1], args[2..]));
      status == ExitStatus(o) && final == o.state && err == (if o.Returned? then o.err else None)
  {
    var cmds := new Commands<S>();
    cmds.Register("login", LoginHandler(b.login));
    cmds.Register("register", RegisterHandler(b.register));
    cmds.Register("reset", b.reset);
    cmds.Register("users", b.users);
    cmds.Register("agg", AggHandler(b.fetch));
    cmds.Register("addfeed", AddFeedHandler(b.addFeed));
    cmds.Register("feeds", b.feeds);
    assert cmds.Table() == BuiltIn(b);
    var split := SplitArgs(args);
    if split.None? {
      return 1, s, None;
    }
    var o := cmds.Run(s, split.value);
    status, final := ExitStatus(o), o.state;
    err := if o.Returned? then o.err else None;
  }
}
