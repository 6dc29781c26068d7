/** The local backend (vm/local/local.go): its constructor, which validates
    the decoded backend parameters and records the instance's identity, and
    the command line its supervisor builds for every launch of the fuzzer. */
module Local {
  import opened Wrappers
  import opened Vm
  import opened Text

  /** The backend-specific parameters, as decoded from the parameter bag.
      A `Parallel` missing from the bag decodes as 0. */
  datatype Params = Params(fuzzer: string, executor: string, parallel: int)

  /** A local instance: the validated parameters and the identity it was
      created with. */
  datatype Local = Local(params: Params, workdir: string, syscalls: SyscallSet, id: int, mgrPort: int)

  /** The construction failures, each with what the source's message names. */
  datatype CtorError =
    | DecodeFailed(reason: string)
    | FuzzerMissing(path: string)
    | ExecutorMissing(path: string)
    | BadParallel(parallel: int)

  /** The backend's constructor. `decode` stands for the JSON decoder and
      `stat(path)` for "the file at `path` can be stat'ed". */
  function Ctor(workdir: string, syscalls: SyscallSet, port: int, index: int, paramsData: seq<bv8>,
                decode: seq<bv8> -> Result<Params, string>, stat: string -> bool): (r: Result<Local, CtorError>)
    ensures decode(paramsData).Failure? ==> r == Failure(DecodeFailed(decode(paramsData).error))
    ensures decode(paramsData).Success? && !stat(decode(paramsData).value.fuzzer) ==>
              r == Failure(FuzzerMissing(decode(paramsData).value.fuzzer))
    ensures decode(paramsData).Success? && stat(decode(paramsData).value.fuzzer)
            && !stat(decode(paramsData).value.executor) ==>
              r == Failure(ExecutorMissing(decode(paramsData).value.executor))
    ensures r.Success? <==>
              && decode(paramsData).Success?
              && stat(decode(paramsData).value.fuzzer) && stat(decode(paramsData).value.executor)
              && 0 <= decode(paramsData).value.parallel <= 100
    ensures r.Success? ==>
              && 1 <= r.value.params.parallel <= 100
              && r.value.params.fuzzer == decode(paramsData).value.fuzzer
              && r.value.params.executor == decode(paramsData).value.executor
              && (decode(paramsData).value.parallel == 0 ==> r.value.params.parallel == 1)
              && (decode(paramsData).value.parallel != 0 ==>
                    r.value.params.parallel == decode(paramsData).value.parallel)
              && r.value.workdir == workdir && r.value.syscalls == syscalls
              && r.value.id == index && r.value.mgrPort == port
    ensures decode(paramsData).Success? && stat(decode(paramsData).value.fuzzer)
            && stat(decode(paramsData).value.executor) && !(0 <= decode(paramsData).value.parallel <= 100) ==>
              r == Failure(BadParallel(decode(paramsData).value.parallel))
  {
    match decode(paramsData)
    case Failure(e) => Failure(DecodeFailed(e))
    case Success(p) =>
      if !stat(p.fuzzer) then Failure(FuzzerMissing(p.fuzzer))
      else if !stat(p.executor) then Failure(ExecutorMissing(p.executor))
      else
        var parallel := if p.parallel == 0 then 1 else p.parallel;
        if parallel <= 0 || parallel > 100 then Failure(BadParallel(parallel))
        else Success(Local(Params(p.fuzzer, p.executor, parallel), workdir, syscalls, index, port))
  }

  // ---------------------------------------------------------------------
  // The command line of one launch

  /** The name the instance reports to the manager: "local-" followed by the
      `%v` text of its index, which can be read back from it. */
  function InstanceName(id: int): (name: string)
    ensures |name| > 6 && name[..6] == "local-"
    ensures name[6..] == Decimal(id)
    ensures ParseDecimal(name[6..]) == id
  {
    var name := "local-" + Decimal(id);
    assert name[6..] == Decimal(id);
    DecimalRoundTrip(id);
    name
  }

  /** Different instances run under different names. */
  lemma InstanceNamesDistinct(a: int, b: int)
    requires a != b
    ensures InstanceName(a) != InstanceName(b)
  {
  }

  /** The fuzzer's boolean flags among those the supervisor passes. */
  const FuzzerBoolFlags: set<string> := {"saveprog"}

  /** The argument vector of every launch before the optional call list; its
      first element is the program path, as in the argument vector exec
      builds. */
  function FixedArgs(loc: Local): seq<string>
  {
    [loc.params.fuzzer, "-name", InstanceName(loc.id), "-saveprog", "-executor", loc.params.executor,
     "-manager", "localhost:" + Decimal(loc.mgrPort), "-parallel", Decimal(loc.params.parallel)]
  }

  /** The settings the fuzzer is to receive, flag by flag. */
  function Settings(loc: Local): seq<Flag>
  {
    [Flag("name", InstanceName(loc.id)), Flag("saveprog", "true"), Flag("executor", loc.params.executor),
     Flag("manager", "localhost:" + Decimal(loc.mgrPort)), Flag("parallel", Decimal(loc.params.parallel))]
  }

  /** The decimals of the identifiers, in order. */
  function Decimals(ids: seq<int>): (parts: seq<string>)
    ensures |parts| == |ids|
  {
    seq(|ids|, i requires 0 <= i < |ids| => Decimal(ids[i]))
  }

  /** The identifiers, comma-separated. */
  function CallList(ids: seq<int>): string
  {
    if ids == [] then "" else JoinWith(Decimals(ids), ',')
  }

  /** What a reader of the call list gets from each comma-separated piece. */
  function ParseIds(parts: seq<string>): (ids: seq<int>)
    ensures |ids| == |parts|
  {
    seq(|parts|, i requires 0 <= i < |parts| => ParseDecimal(parts[i]))
  }

  /** `order` lists the elements of `s`, each exactly once. */
  ghost predicate Enumerates(order: seq<int>, s: set<int>)
  {
    && (forall i, j :: 0 <= i < j < |order| ==> order[i] != order[j])
    && (forall x :: x in s <==> x in order)
  }

  /** An enumeration has as many entries as the set has elements. */
  lemma {:induction false} EnumerationSize(order: seq<int>, s: set<int>)
    requires Enumerates(order, s)
    ensures |order| == |s|
    decreases |order|
  {
    if order == [] {
      assert forall x :: x !in s;
      assert s == {};
    } else {
      var last, pre := order[|order| - 1], order[..|order| - 1];
      assert order == pre + [last];
      assert last !in pre by {
        forall i | 0 <= i < |pre| ensures pre[i] != last { assert order[i] != order[|order| - 1]; }
      }
      assert forall x :: x in s - {last} <==> x in pre;
      EnumerationSize(pre, s - {last});
    }
  }

  /** The call list has no leading comma, and splitting it on commas and
      reading each piece gives back the identifiers, in the order written. */
  lemma CallListReadBack(ids: seq<int>)
    requires ids != []
    ensures CallList(ids)[0] != ','
    ensures ParseIds(Split(CallList(ids), ',')) == ids
  {
    var parts := Decimals(ids);
    forall i | 0 <= i < |parts| ensures ',' !in parts[i] && ParseDecimal(parts[i]) == ids[i] {
      DecimalRoundTrip(ids[i]);
    }
    SplitJoin(parts, ',');
    assert JoinWith(parts, ',')[0] == parts[0][0];
  }

  lemma NonEmptyHasElement(s: set<int>)
    requires s != {}
    ensures exists x :: x in s
  {
    if forall x :: x !in s {
      assert false;
    }
  }

  /** What the loop below has written after the identifiers of `order`:
      each one's decimal after a comma. */
  function Buffer(order: seq<int>): string
  {
    if order == [] then "" else [','] + CallList(order)
  }

  /** Writing one more identifier appends a comma and its decimal; dropping
      the leading comma leaves the call list. */
  lemma BufferSnoc(order: seq<int>, c: int)
    ensures Buffer(order + [c]) == Buffer(order) + [','] + Decimal(c)
    ensures Buffer(order + [c])[1..] == CallList(order + [c])
  {
    assert Decimals(order + [c]) == Decimals(order) + [Decimal(c)];
    if order != [] {
      JoinWithSnoc(Decimals(order), Decimal(c), ',');
    }
  }

  /** The `-calls=` argument: the identifiers of a non-empty allow-set, each
      written after a comma into a buffer in whatever order the set yields
      them, with the buffer's leading comma dropped. `order` is the order in
      which they were written. */
  method CallsArg(syscalls: set<int>) returns (arg: string, order: seq<int>)
    requires syscalls != {}
    ensures Enumerates(order, syscalls)
    ensures arg == "-calls=" + CallList(order)
  {
    var buf: string := "";
    var rest := syscalls;
    order := [];
    while rest != {}
      invariant forall x :: x in syscalls <==> x in rest || x in order
      invariant forall x :: x in rest ==> x !in order
      invariant forall i, j :: 0 <= i < j < |order| ==> order[i] != order[j]
      invariant buf == Buffer(order)
      invariant order != [] ==> buf[1..] == CallList(order)
      decreases rest
    {
      NonEmptyHasElement(rest);
      var c :| c in rest;
      BufferSnoc(order, c);
      buf := buf + [','] + Decimal(c);
      order := order + [c];
      rest := rest - {c};
    }
    NonEmptyHasElement(syscalls);
    var x :| x in syscalls;
    assert x in order;
    arg := "-calls=" + buf[1..];
  }

  /** A launch of the fuzzer: program, argument vector, working directory,
      and whether it runs in a process group of its own. */
  datatype Command = Command(path: string, args: seq<string>, dir: string, ownProcessGroup: bool)

  /** Whether the instance passes a call list: when its allow-set is present
      and non-empty. */
  predicate HasCalls(loc: Local)
  {
    loc.syscalls.Some? && loc.syscalls.value != {}
  }

  /** The command the supervisor starts on every iteration of its loop. */
  method BuildCommand(loc: Local) returns (cmd: Command, order: seq<int>)
    ensures cmd.path == loc.params.fuzzer && cmd.dir == loc.workdir && cmd.ownProcessGroup
    ensures HasCalls(loc) ==>
              && Enumerates(order, loc.syscalls.value)
              && cmd.args == FixedArgs(loc) + ["-calls=" + CallList(order)]
    ensures !HasCalls(loc) ==> order == [] && cmd.args == FixedArgs(loc)
  {
    var name := InstanceName(loc.id);
    var args := [loc.params.fuzzer, "-name", name, "-saveprog", "-executor", loc.params.executor,
                 "-manager", "localhost:" + Decimal(loc.mgrPort), "-parallel", Decimal(loc.params.parallel)];
    order := [];
    if loc.syscalls.Some? && |loc.syscalls.value| != 0 {
      var arg;
      arg, order := CallsArg(loc.syscalls.value);
      args := args + [arg];
    }
    cmd := Command(loc.params.fuzzer, args, loc.workdir, true);
  }

  /** `flag` is written as `-name`, without `=`, for a flag that takes a
      value (`isBool` false) or for a boolean flag (`isBool` true). */
  predicate FlagToken(flag: string, isBool: bool)
  {
    |flag| >= 2 && flag[0] == '-' && '=' !in flag[1..] && (flag[1..] in FuzzerBoolFlags) == isBool
  }

  /** A value-taking flag reads the next argument as its value. */
  lemma ReadValueFlag(args: seq<string>, flag: string, v: string, rest: seq<string>)
    requires args == [flag, v] + rest && FlagToken(flag, false)
    ensures ReadFlags(args, FuzzerBoolFlags) == Cons(Flag(flag[1..], v), ReadFlags(rest, FuzzerBoolFlags))
  {
    assert args[2..] == rest;
  }

  /** A boolean flag stands alone and reads as "true". */
  lemma ReadBoolFlag(args: seq<string>, flag: string, rest: seq<string>)
    requires args == [flag] + rest && FlagToken(flag, true)
    ensures ReadFlags(args, FuzzerBoolFlags) == Cons(Flag(flag[1..], "true"), ReadFlags(rest, FuzzerBoolFlags))
  {
    assert args[1..] == rest;
  }

  /** A value flag, a boolean flag and three value flags, read one after
      the other. */
  lemma ReadLaunchShape(t0: string, v0: string, t1: string, t2: string, v2: string, t3: string, v3: string,
                        t4: string, v4: string, extra: seq<string>)
    requires FlagToken(t0, false) && FlagToken(t1, true) && FlagToken(t2, false)
    requires FlagToken(t3, false) && FlagToken(t4, false)
    ensures ReadFlags([t0, v0, t1, t2, v2, t3, v3, t4, v4] + extra, FuzzerBoolFlags)
            == Cons(Flag(t0[1..], v0), Cons(Flag(t1[1..], "true"), Cons(Flag(t2[1..], v2),
                 Cons(Flag(t3[1..], v3), Cons(Flag(t4[1..], v4), ReadFlags(extra, FuzzerBoolFlags))))))
  {
    var a4 := [t4, v4] + extra;
    var a3 := [t3, v3] + a4;
    var a2 := [t2, v2] + a3;
    var a1 := [t1] + a2;
    var a0 := [t0, v0] + a1;
    ReadValueFlag(a4, t4, v4, extra);
    ReadValueFlag(a3, t3, v3, a4);
    ReadValueFlag(a2, t2, v2, a3);
    ReadBoolFlag(a1, t1, a2);
    ReadValueFlag(a0, t0, v0, a1);
    assert [t0, v0, t1, t2, v2, t3, v3, t4, v4] + extra == a0;
  }

  /** The five fixed flags, read one after the other. */
  lemma ReadLaunchFlags(name: string, executor: string, manager: string, parallel: string, extra: seq<string>)
    ensures ReadFlags(["-name", name, "-saveprog", "-executor", executor, "-manager", manager, "-parallel", parallel]
                      + extra, FuzzerBoolFlags)
            == Cons(Flag("name", name), Cons(Flag("saveprog", "true"), Cons(Flag("executor", executor),
                 Cons(Flag("manager", manager), Cons(Flag("parallel", parallel), ReadFlags(extra, FuzzerBoolFlags))))))
  {
    assert "-name"[1..] == "name" && FlagToken("-name", false);
    assert "-saveprog"[1..] == "saveprog" && FlagToken("-saveprog", true);
    assert "-executor"[1..] == "executor" && FlagToken("-executor", false);
    assert "-manager"[1..] == "manager" && FlagToken("-manager", false);
    assert "-parallel"[1..] == "parallel" && FlagToken("-parallel", false);
    ReadLaunchShape("-name", name, "-saveprog", "-executor", executor, "-manager", manager, "-parallel", parallel, extra);
  }

  lemma ConsFive(f0: Flag, f1: Flag, f2: Flag, f3: Flag, f4: Flag, t: Option<seq<Flag>>)
    ensures Cons(f0, Cons(f1, Cons(f2, Cons(f3, Cons(f4, t))))) ==
              match t
              case None => None
              case Some(rest) => Some([f0, f1, f2, f3, f4] + rest)
  {
    match t
    case None =>
    case Some(rest) =>
      assert [f0, f1, f2, f3, f4] + rest == [f0] + ([f1] + ([f2] + ([f3] + ([f4] + rest))));
  }

  /** Reading the fixed arguments with the simplified flag reader yields
      the instance's settings, whatever arguments follow. */
  lemma ReadFixedArgs(loc: Local, extra: seq<string>)
    ensures ReadFlags(FixedArgs(loc)[1..] + extra, FuzzerBoolFlags) ==
              match ReadFlags(extra, FuzzerBoolFlags)
              case None => None
              case Some(rest) => Some(Settings(loc) + rest)
  {
    var name, manager, parallel := InstanceName(loc.id), "localhost:" + Decimal(loc.mgrPort), Decimal(loc.params.parallel);
    assert FixedArgs(loc)[1..] + extra ==
           ["-name", name, "-saveprog", "-executor", loc.params.executor, "-manager", manager, "-parallel", parallel] + extra;
    ReadLaunchFlags(name, loc.params.executor, manager, parallel, extra);
    ConsFive(Flag("name", name), Flag("saveprog", "true"), Flag("executor", loc.params.executor),
             Flag("manager", manager), Flag("parallel", parallel), ReadFlags(extra, FuzzerBoolFlags));
  }

  /** The call-list argument reads back as the one flag `calls`. */
  lemma ReadCallsArg(p: string)
    ensures ReadFlags(["-calls=" + p], FuzzerBoolFlags) == Some([Flag("calls", p)])
  {
    var arg := "-calls=" + p;
    var body := arg[1..];
    assert body == "calls=" + p;
    assert body[5] == '=' && '=' !in body[..5] by { assert body[..5] == "calls"; }
    var k := IndexOf(body, '=');
    assert k == 5;
    assert body[..5] == "calls" && body[6..] == p;
    var none: seq<string> := [];
    assert [arg][1..] == none;
    assert [arg][0] == arg && |arg| >= 2 && arg[0] == '-' && '=' in body;
    assert ReadFlags([arg], FuzzerBoolFlags) == Cons(Flag(body[..k], body[k + 1..]), ReadFlags(none, FuzzerBoolFlags));
    assert ReadFlags(none, FuzzerBoolFlags) == Some([]);
    assert Flag(body[..k], body[k + 1..]) == Flag("calls", p);
    assert [Flag("calls", p)] + [] == [Flag("calls", p)];
  }

  /** What the fuzzer reads from a command built by BuildCommand: the
      instance's settings, then, exactly when a call list is passed, the
      call list. */
  lemma CommandReadBack(loc: Local, order: seq<int>)
    ensures ReadFlags(FixedArgs(loc)[1..], FuzzerBoolFlags) == Some(Settings(loc))
    ensures order != [] ==>
              ReadFlags(FixedArgs(loc)[1..] + ["-calls=" + CallList(order)], FuzzerBoolFlags)
              == Some(Settings(loc) + [Flag("calls", CallList(order))])
  {
    ReadFixedArgs(loc, []);
    assert FixedArgs(loc)[1..] + [] == FixedArgs(loc)[1..];
    assert Settings(loc) + [] == Settings(loc);
    assert ReadFlags(FixedArgs(loc)[1..], FuzzerBoolFlags) == Some(Settings(loc));
    if order != [] {
      var extra := ["-calls=" + CallList(order)];
      ReadCallsArg(CallList(order));
      ReadFixedArgs(loc, extra);
      assert ReadFlags(extra, FuzzerBoolFlags) == Some([Flag("calls", CallList(order))]);
      assert ReadFlags(FixedArgs(loc)[1..] + extra, FuzzerBoolFlags) == Some(Settings(loc) + [Flag("calls", CallList(order))]);
    }
  }
}
