/** The manager's start-up (manager/main.go): validating the decoded
    configuration, resolving the syscall allow-set against the syscall
    catalog, and creating one instance per configured slot. A fatal log call
    of the source is a Failure result here. */
module Manager {
  import opened Wrappers
  import opened Vm

  /** One entry of the syscall catalog: its own name (the key of the
      catalog's by-name index), the name of the system call it describes
      (several entries may share one), and its numeric identifier. */
  datatype Call = Call(name: string, callName: string, id: int)

  /** A decoded JSON value: the values of the backend parameter bag. */
  datatype Json =
    | JNull
    | JBool(b: bool)
    | JNumber(n: real)
    | JString(s: string)
    | JArray(items: seq<Json>)
    | JObject(fields: map<string, Json>)

  /** The decoded configuration file. `kind` is the backend type name, the
      field `Type` of the source. */
  datatype Config = Config(
    name: string,
    http: string,
    master: string,
    workdir: string,
    vmlinux: string,
    kind: string,
    count: int,
    port: int,
    nocover: bool,
    params: map<string, Json>,
    enableSyscalls: seq<string>,
    disableSyscalls: seq<string>)

  /** The fatal conditions of configuration parsing, each with what the
      source's message names. */
  datatype ConfigError =
    | EmptyParam(param: string)
    | BadCount(count: int)
    | UnknownEnabled(call: string)
    | UnknownDisabled(call: string)

  /** The fatal conditions of the manager's start-up. */
  datatype BootError =
    | ConfigFailed(cause: ConfigError)
    | MarshalFailed(reason: string)
    | CreateFailed(reason: string)

  predicate HasName(calls: seq<Call>, name: string)
  {
    exists i :: 0 <= i < |calls| && calls[i].name == name
  }

  /** What the manager needs of the catalog: entry names are unique (they key
      the by-name index) and the two calls every allow-set keeps are listed. */
  predicate Catalog(calls: seq<Call>)
  {
    && (forall i, j :: 0 <= i < j < |calls| ==> calls[i].name != calls[j].name)
    && HasName(calls, "mmap")
    && HasName(calls, "clock_gettime")
  }

  /** The identifier the by-name index gives for `name`. */
  function CallId(calls: seq<Call>, name: string): (id: int)
    requires HasName(calls, name)
    ensures exists i :: 0 <= i < |calls| && calls[i].name == name && calls[i].id == id
  {
    if calls[0].name == name then calls[0].id
    else
      assert HasName(calls[1..], name) by {
        var i :| 0 <= i < |calls| && calls[i].name == name;
        assert calls[1..][i - 1] == calls[i];
      }
      CallId(calls[1..], name)
  }

  /** The two identifiers that every present allow-set contains. */
  function Essential(calls: seq<Call>): set<int>
    requires Catalog(calls)
  {
    {CallId(calls, "mmap"), CallId(calls, "clock_gettime")}
  }

  /** A syscall name is known when at least one catalog entry carries it. */
  predicate Known(calls: seq<Call>, c: string)
  {
    exists i :: 0 <= i < |calls| && calls[i].callName == c
  }

  /** The identifiers of every catalog entry whose call name is `c`. */
  function Matches(calls: seq<Call>, c: string): set<int>
  {
    set i | 0 <= i < |calls| && calls[i].callName == c :: calls[i].id
  }

  /** The identifiers of every catalog entry whose call name is listed. */
  function NamedIds(calls: seq<Call>, names: seq<string>): set<int>
  {
    set i | 0 <= i < |calls| && calls[i].callName in names :: calls[i].id
  }

  /** Every identifier of the catalog. */
  function AllIds(calls: seq<Call>): set<int>
  {
    set i | 0 <= i < |calls| :: calls[i].id
  }

  /** The first listed name that no catalog entry carries. */
  function FirstUnknown(calls: seq<Call>, names: seq<string>): Option<string>
    decreases |names|
  {
    if names == [] then None
    else if !Known(calls, names[0]) then Some(names[0])
    else FirstUnknown(calls, names[1..])
  }

  /** The required string parameters, in the order the source checks them,
      each with the name its error message uses. */
  function RequiredParams(cfg: Config): seq<(string, string)>
  {
    [("name", cfg.name), ("http", cfg.http), ("master", cfg.master),
     ("workdir", cfg.workdir), ("vmlinux", cfg.vmlinux), ("type", cfg.kind)]
  }

  /** The name of the first parameter whose value is empty. */
  function FirstEmpty(params: seq<(string, string)>): Option<string>
    decreases |params|
  {
    if params == [] then None
    else if params[0].1 == "" then Some(params[0].0)
    else FirstEmpty(params[1..])
  }

  /** What parseConfig computes from a decoded configuration: the first
      violated rule, or the allow-set (absent when neither list names a
      call). */
  function Resolve(cfg: Config, calls: seq<Call>): (r: Result<SyscallSet, ConfigError>)
    requires Catalog(calls)
    ensures r.Success? ==>
              && cfg.name != "" && cfg.http != "" && cfg.master != ""
              && cfg.workdir != "" && cfg.vmlinux != "" && cfg.kind != ""
    ensures r.Success? ==> 1 <= cfg.count <= 1000
    ensures r.Success? ==>
              (r.value.None? <==> cfg.enableSyscalls == [] && cfg.disableSyscalls == [])
    ensures r.Success? && r.value.Some? ==> Essential(calls) <= r.value.value
  {
    if cfg.name == "" then Failure(EmptyParam("name"))
    else if cfg.http == "" then Failure(EmptyParam("http"))
    else if cfg.master == "" then Failure(EmptyParam("master"))
    else if cfg.workdir == "" then Failure(EmptyParam("workdir"))
    else if cfg.vmlinux == "" then Failure(EmptyParam("vmlinux"))
    else if cfg.kind == "" then Failure(EmptyParam("type"))
    else if cfg.count <= 0 || cfg.count > 1000 then Failure(BadCount(cfg.count))
    else if cfg.enableSyscalls == [] && cfg.disableSyscalls == [] then Success(None)
    else if FirstUnknown(calls, cfg.enableSyscalls).Some? then
      Failure(UnknownEnabled(FirstUnknown(calls, cfg.enableSyscalls).value))
    else if FirstUnknown(calls, cfg.disableSyscalls).Some? then
      Failure(UnknownDisabled(FirstUnknown(calls, cfg.disableSyscalls).value))
    else
      var base := if cfg.enableSyscalls != [] then NamedIds(calls, cfg.enableSyscalls)
                  else AllIds(calls);
      Success(Some(base - NamedIds(calls, cfg.disableSyscalls) + Essential(calls)))
  }

  // ---------------------------------------------------------------------
  // Properties of Resolve

  /** FirstUnknown reports the name at the first index whose name is unknown. */
  lemma {:induction false} FirstUnknownAt(calls: seq<Call>, names: seq<string>, k: nat)
    requires k < |names|
    requires forall j :: 0 <= j < k ==> Known(calls, names[j])
    requires !Known(calls, names[k])
    ensures FirstUnknown(calls, names) == Some(names[k])
    decreases k
  {
    if k > 0 {
      FirstUnknownAt(calls, names[1..], k - 1);
    }
  }

  /** FirstUnknown finds nothing exactly when every listed name is known. */
  lemma {:induction false} FirstUnknownNone(calls: seq<Call>, names: seq<string>)
    ensures FirstUnknown(calls, names).None? <==> forall j :: 0 <= j < |names| ==> Known(calls, names[j])
    decreases |names|
  {
    if names != [] {
      FirstUnknownNone(calls, names[1..]);
      assert forall j :: 1 <= j < |names| ==> names[j] == names[1..][j - 1];
    }
  }

  /** FirstEmpty over the required parameters is the chain of checks the
      source writes out one by one. */
  lemma FirstEmptyOfRequired(cfg: Config)
    ensures FirstEmpty(RequiredParams(cfg)) ==
              if cfg.name == "" then Some("name")
              else if cfg.http == "" then Some("http")
              else if cfg.master == "" then Some("master")
              else if cfg.workdir == "" then Some("workdir")
              else if cfg.vmlinux == "" then Some("vmlinux")
              else if cfg.kind == "" then Some("type")
              else None
  {
    var p0 := RequiredParams(cfg);
    var p1 := [("http", cfg.http), ("master", cfg.master), ("workdir", cfg.workdir),
               ("vmlinux", cfg.vmlinux), ("type", cfg.kind)];
    var p2 := [("master", cfg.master), ("workdir", cfg.workdir), ("vmlinux", cfg.vmlinux), ("type", cfg.kind)];
    var p3 := [("workdir", cfg.workdir), ("vmlinux", cfg.vmlinux), ("type", cfg.kind)];
    var p4 := [("vmlinux", cfg.vmlinux), ("type", cfg.kind)];
    var p5 := [("type", cfg.kind)];
    assert p0[1..] == p1 && p1[1..] == p2 && p2[1..] == p3 && p3[1..] == p4 && p4[1..] == p5;
    assert p5[1..] == [];
    assert FirstEmpty(p5) == if cfg.kind == "" then Some("type") else None;
    assert FirstEmpty(p4) == if cfg.vmlinux == "" then Some("vmlinux") else FirstEmpty(p5);
    assert FirstEmpty(p3) == if cfg.workdir == "" then Some("workdir") else FirstEmpty(p4);
    assert FirstEmpty(p2) == if cfg.master == "" then Some("master") else FirstEmpty(p3);
    assert FirstEmpty(p1) == if cfg.http == "" then Some("http") else FirstEmpty(p2);
  }

  /** The first empty required parameter is the one reported, and an empty
      parameter is reported whenever one exists. */
  lemma EmptyParamReported(cfg: Config, calls: seq<Call>, p: string)
    requires Catalog(calls)
    ensures Resolve(cfg, calls) == Failure(EmptyParam(p)) <==> FirstEmpty(RequiredParams(cfg)) == Some(p)
  {
    FirstEmptyOfRequired(cfg);
  }

  /** Accepted configurations have 1 <= count <= 1000; with valid string
      parameters, any other count is the error reported. */
  lemma CountChecked(cfg: Config, calls: seq<Call>)
    requires Catalog(calls)
    requires FirstEmpty(RequiredParams(cfg)).None?
    ensures Resolve(cfg, calls).Success? ==> 1 <= cfg.count <= 1000
    ensures !(1 <= cfg.count <= 1000) <==> Resolve(cfg, calls) == Failure(BadCount(cfg.count))
  {
    FirstEmptyOfRequired(cfg);
  }

  /** With valid parameters and count, the first unknown enabled name is the
      error reported. */
  lemma UnknownEnabledReported(cfg: Config, calls: seq<Call>, k: nat)
    requires Catalog(calls)
    requires FirstEmpty(RequiredParams(cfg)).None? && 1 <= cfg.count <= 1000
    requires k < |cfg.enableSyscalls|
    requires forall j :: 0 <= j < k ==> Known(calls, cfg.enableSyscalls[j])
    requires !Known(calls, cfg.enableSyscalls[k])
    ensures Resolve(cfg, calls) == Failure(UnknownEnabled(cfg.enableSyscalls[k]))
  {
    FirstEmptyOfRequired(cfg);
    FirstUnknownAt(calls, cfg.enableSyscalls, k);
  }

  /** With valid parameters and count and every enabled name known, the
      first unknown disabled name is the error reported. */
  lemma UnknownDisabledReported(cfg: Config, calls: seq<Call>, k: nat)
    requires Catalog(calls)
    requires FirstEmpty(RequiredParams(cfg)).None? && 1 <= cfg.count <= 1000
    requires forall j :: 0 <= j < |cfg.enableSyscalls| ==> Known(calls, cfg.enableSyscalls[j])
    requires k < |cfg.disableSyscalls|
    requires forall j :: 0 <= j < k ==> Known(calls, cfg.disableSyscalls[j])
    requires !Known(calls, cfg.disableSyscalls[k])
    ensures Resolve(cfg, calls) == Failure(UnknownDisabled(cfg.disableSyscalls[k]))
  {
    FirstEmptyOfRequired(cfg);
    FirstUnknownNone(calls, cfg.enableSyscalls);
    FirstUnknownAt(calls, cfg.disableSyscalls, k);
  }

  /** A resolved configuration names only known calls, in both lists. */
  lemma ResolvedNamesKnown(cfg: Config, calls: seq<Call>)
    requires Catalog(calls)
    requires Resolve(cfg, calls).Success?
    ensures forall j :: 0 <= j < |cfg.enableSyscalls| ==> Known(calls, cfg.enableSyscalls[j])
    ensures forall j :: 0 <= j < |cfg.disableSyscalls| ==> Known(calls, cfg.disableSyscalls[j])
  {
    FirstUnknownNone(calls, cfg.enableSyscalls);
    FirstUnknownNone(calls, cfg.disableSyscalls);
  }

  /** A configuration is accepted exactly when every required parameter is
      non-empty, the count lies in [1, 1000] and every name in both lists is
      known. */
  lemma AcceptedExactly(cfg: Config, calls: seq<Call>)
    requires Catalog(calls)
    ensures Resolve(cfg, calls).Success? <==>
              && FirstEmpty(RequiredParams(cfg)).None?
              && 1 <= cfg.count <= 1000
              && (forall j :: 0 <= j < |cfg.enableSyscalls| ==> Known(calls, cfg.enableSyscalls[j]))
              && (forall j :: 0 <= j < |cfg.disableSyscalls| ==> Known(calls, cfg.disableSyscalls[j]))
  {
    FirstEmptyOfRequired(cfg);
    FirstUnknownNone(calls, cfg.enableSyscalls);
    FirstUnknownNone(calls, cfg.disableSyscalls);
  }

  /** A present allow-set is the enabled identifiers (every identifier, if
      nothing is enabled), less the disabled ones, plus the two essential
      calls. */
  lemma ResolvedSet(cfg: Config, calls: seq<Call>, s: set<int>)
    requires Catalog(calls)
    requires Resolve(cfg, calls) == Success(Some(s))
    ensures cfg.enableSyscalls != [] ==>
              s == NamedIds(calls, cfg.enableSyscalls) - NamedIds(calls, cfg.disableSyscalls) + Essential(calls)
    ensures cfg.enableSyscalls == [] ==>
              s == AllIds(calls) - NamedIds(calls, cfg.disableSyscalls) + Essential(calls)
  {
  }

  /** Membership in a present allow-set, entry by entry: an identifier is in
      it when it is one of the two essential calls, or when some catalog
      entry with that identifier is enabled (every entry, if nothing is
      enabled) and no catalog entry with that identifier is disabled. */
  lemma ResolvedMembers(cfg: Config, calls: seq<Call>, s: set<int>, x: int)
    requires Catalog(calls)
    requires Resolve(cfg, calls) == Success(Some(s))
    ensures x in s <==>
              || x == CallId(calls, "mmap")
              || x == CallId(calls, "clock_gettime")
              || (&& (exists i :: 0 <= i < |calls| && calls[i].id == x
                                  && (cfg.enableSyscalls == [] || calls[i].callName in cfg.enableSyscalls))
                  && !(exists j :: 0 <= j < |calls| && calls[j].id == x
                                   && calls[j].callName in cfg.disableSyscalls))
  {
    ResolvedSet(cfg, calls, s);
    var e, d := cfg.enableSyscalls, cfg.disableSyscalls;
    var base := if e != [] then NamedIds(calls, e) else AllIds(calls);
    assert s == base - NamedIds(calls, d) + Essential(calls);
    assert x in base <==> exists i :: 0 <= i < |calls| && calls[i].id == x && (e == [] || calls[i].callName in e);
    assert x in NamedIds(calls, d) <==> exists j :: 0 <= j < |calls| && calls[j].id == x && calls[j].callName in d;
    assert x in Essential(calls) <==> x == CallId(calls, "mmap") || x == CallId(calls, "clock_gettime");
  }

  /** The by-name index is unambiguous: it gives the identifier of the one
      entry with that name. */
  lemma CallIdOfEntry(calls: seq<Call>, i: nat)
    requires Catalog(calls)
    requires i < |calls|
    ensures CallId(calls, calls[i].name) == calls[i].id
  {
  }

  /** The scenario of a configuration enabling only mmap, over a small
      catalog: the allow-set is the two essential calls. */
  lemma EnableOnlyMmap()
    ensures var calls := [Call("mmap", "mmap", 9), Call("clock_gettime", "clock_gettime", 228),
                          Call("open", "open", 2), Call("open$dir", "open", 3)];
            var cfg := Config("t", "h", "m", "/tmp/w", "v", "local", 2, 0, false, map[],
                              ["mmap"], []);
            Catalog(calls) && Resolve(cfg, calls) == Success(Some({9, 228}))
  {
    var calls := [Call("mmap", "mmap", 9), Call("clock_gettime", "clock_gettime", 228),
                  Call("open", "open", 2), Call("open$dir", "open", 3)];
    var cfg := Config("t", "h", "m", "/tmp/w", "v", "local", 2, 0, false, map[], ["mmap"], []);
    assert HasName(calls, "mmap") by { assert calls[0].name == "mmap"; }
    assert HasName(calls, "clock_gettime") by { assert calls[1].name == "clock_gettime"; }
    assert Catalog(calls);
    CallIdOfEntry(calls, 0);
    CallIdOfEntry(calls, 1);
    assert Essential(calls) == {9, 228};
    assert Known(calls, "mmap") by { assert calls[0].callName == "mmap"; }
    assert FirstUnknown(calls, ["mmap"]) == None by {
      assert ["mmap"][1..] == [];
    }
    assert NamedIds(calls, ["mmap"]) == {9} by {
      assert forall i :: 1 <= i < |calls| ==> calls[i].callName !in ["mmap"];
      assert calls[0].callName in ["mmap"];
    }
    assert NamedIds(calls, []) == {};
    assert FirstUnknown(calls, []) == None;
    assert Resolve(cfg, calls) == Success(Some(NamedIds(calls, ["mmap"]) - NamedIds(calls, []) + Essential(calls)));
    assert NamedIds(calls, ["mmap"]) - NamedIds(calls, []) + Essential(calls) == {9, 228};
  }

  // ---------------------------------------------------------------------
  // parseConfig

  /** The fields checks and the count check of parseConfig, then, when
      either list names a call, the construction of the allow-set. */
  method ParseConfig(cfg: Config, calls: seq<Call>) returns (r: Result<SyscallSet, ConfigError>)
    requires Catalog(calls)
    ensures r == Resolve(cfg, calls)
  {
    if cfg.name == "" { return Failure(EmptyParam("name")); }
    if cfg.http == "" { return Failure(EmptyParam("http")); }
    if cfg.master == "" { return Failure(EmptyParam("master")); }
    if cfg.workdir == "" { return Failure(EmptyParam("workdir")); }
    if cfg.vmlinux == "" { return Failure(EmptyParam("vmlinux")); }
    if cfg.kind == "" { return Failure(EmptyParam("type")); }
    if cfg.count <= 0 || cfg.count > 1000 { return Failure(BadCount(cfg.count)); }

    var syscalls: SyscallSet := None;
    if |cfg.enableSyscalls| != 0 || |cfg.disableSyscalls| != 0 {
      var ids := BuildSyscalls(cfg.enableSyscalls, cfg.disableSyscalls, calls);
      if ids.Failure? {
        return Failure(ids.error);
      }
      syscalls := Some(ids.value);
    }
    return Success(syscalls);
  }

  /** The allow-set construction of parseConfig: the identifiers of the
      enabled names (or of the whole catalog), less those of the disabled
      names, plus mmap and clock_gettime; the first unknown name in either
      list is fatal. */
  method BuildSyscalls(enable: seq<string>, disable: seq<string>, calls: seq<Call>)
    returns (r: Result<set<int>, ConfigError>)
    requires Catalog(calls)
    ensures FirstUnknown(calls, enable).Some? ==> r == Failure(UnknownEnabled(FirstUnknown(calls, enable).value))
    ensures FirstUnknown(calls, enable).None? && FirstUnknown(calls, disable).Some? ==>
              r == Failure(UnknownDisabled(FirstUnknown(calls, disable).value))
    ensures FirstUnknown(calls, enable).None? && FirstUnknown(calls, disable).None? ==>
              r == Success((if enable != [] then NamedIds(calls, enable) else AllIds(calls))
                           - NamedIds(calls, disable) + Essential(calls))
  {
    var ids: set<int> := {};
    if |enable| != 0 {
      for k := 0 to |enable|
        invariant ids == NamedIds(calls, enable[..k])
        invariant forall j :: 0 <= j < k ==> Known(calls, enable[j])
      {
        var c := enable[k];
        var n;
        ids, n := AddMatches(ids, calls, c);
        if n == 0 {
          FirstUnknownAt(calls, enable, k);
          return Failure(UnknownEnabled(c));
        }
        NamedIdsStep(calls, enable, k);
      }
      assert enable[..|enable|] == enable;
    } else {
      for j := 0 to |calls|
        invariant ids == AllIds(calls[..j])
      {
        ids := ids + {calls[j].id};
        AllIdsStep(calls, j);
      }
      assert calls[..|calls|] == calls;
    }
    FirstUnknownNone(calls, enable);
    ghost var base := ids;
    for k := 0 to |disable|
      invariant ids == base - NamedIds(calls, disable[..k])
      invariant forall j :: 0 <= j < k ==> Known(calls, disable[j])
    {
      var c := disable[k];
      var n;
      ids, n := DeleteMatches(ids, calls, c);
      if n == 0 {
        FirstUnknownAt(calls, disable, k);
        return Failure(UnknownDisabled(c));
      }
      NamedIdsStep(calls, disable, k);
    }
    assert disable[..|disable|] == disable;
    FirstUnknownNone(calls, disable);
    assert base == if enable != [] then NamedIds(calls, enable) else AllIds(calls);
    assert ids == base - NamedIds(calls, disable);
    ids := ids + {CallId(calls, "mmap")};
    ids := ids + {CallId(calls, "clock_gettime")};
    assert FirstUnknown(calls, enable).None?;
    assert FirstUnknown(calls, disable).None?;
    assert ids == base - NamedIds(calls, disable) + Essential(calls);
    return Success(ids);
  }

  /** One pass of the enable loop over the catalog: adds the identifier of
      every entry named `c` and counts the hits. */
  method AddMatches(ids: set<int>, calls: seq<Call>, c: string) returns (ids': set<int>, n: nat)
    ensures ids' == ids + Matches(calls, c)
    ensures n == 0 <==> !Known(calls, c)
  {
    ids', n := ids, 0;
    for j := 0 to |calls|
      invariant ids' == ids + Matches(calls[..j], c)
      invariant n == 0 <==> !Known(calls[..j], c)
    {
      if calls[j].callName == c {
        ids' := ids' + {calls[j].id};
        n := n + 1;
      }
      MatchesStep(calls, c, j);
      KnownStep(calls, c, j);
    }
    assert calls[..|calls|] == calls;
  }

  /** One pass of the disable loop over the catalog: deletes the identifier
      of every entry named `c` and counts the hits. */
  method DeleteMatches(ids: set<int>, calls: seq<Call>, c: string) returns (ids': set<int>, n: nat)
    ensures ids' == ids - Matches(calls, c)
    ensures n == 0 <==> !Known(calls, c)
  {
    ids', n := ids, 0;
    for j := 0 to |calls|
      invariant ids' == ids - Matches(calls[..j], c)
      invariant n == 0 <==> !Known(calls[..j], c)
    {
      if calls[j].callName == c {
        ids' := ids' - {calls[j].id};
        n := n + 1;
      }
      MatchesStep(calls, c, j);
      KnownStep(calls, c, j);
    }
    assert calls[..|calls|] == calls;
  }

  lemma MatchesStep(calls: seq<Call>, c: string, j: nat)
    requires j < |calls|
    ensures Matches(calls[..j + 1], c)
            == Matches(calls[..j], c) + (if calls[j].callName == c then {calls[j].id} else {})
  {
    var pre, pre' := calls[..j], calls[..j + 1];
    assert forall i :: 0 <= i < j ==> pre'[i] == pre[i];
    assert pre'[j] == calls[j];
  }

  lemma KnownStep(calls: seq<Call>, c: string, j: nat)
    requires j < |calls|
    ensures Known(calls[..j + 1], c) <==> Known(calls[..j], c) || calls[j].callName == c
  {
    var pre, pre' := calls[..j], calls[..j + 1];
    assert forall i :: 0 <= i < j ==> pre'[i] == pre[i];
    assert pre'[j] == calls[j];
  }

  lemma AllIdsStep(calls: seq<Call>, j: nat)
    requires j < |calls|
    ensures AllIds(calls[..j + 1]) == AllIds(calls[..j]) + {calls[j].id}
  {
    var pre, pre' := calls[..j], calls[..j + 1];
    assert forall i :: 0 <= i < j ==> pre'[i] == pre[i];
    assert pre'[j] == calls[j];
  }

  lemma NamedIdsStep(calls: seq<Call>, names: seq<string>, k: nat)
    requires k < |names|
    ensures NamedIds(calls, names[..k + 1]) == NamedIds(calls, names[..k]) + Matches(calls, names[k])
  {
    var pre, pre' := names[..k], names[..k + 1];
    assert pre' == pre + [names[k]];
    assert forall i :: 0 <= i < |calls| ==> (calls[i].callName in pre' <==> calls[i].callName in pre || calls[i].callName == names[k]);
    assert calls[..|calls|] == calls;
  }

  // ---------------------------------------------------------------------
  // main: one instance per slot

  /** The i-th attempt of the instance loop: marshal the parameter bag, then
      create the instance with index i. */
  function Attempt<I>(cfg: Config, syscalls: SyscallSet,
                      marshal: map<string, Json> -> Result<seq<bv8>, string>,
                      create: Creator<I>, i: int): Result<I, BootError>
  {
    match marshal(cfg.params)
    case Failure(e) => Failure(MarshalFailed(e))
    case Success(data) =>
      match create(cfg.kind, cfg.workdir, syscalls, cfg.port, i, data)
      case Failure(e) => Failure(CreateFailed(e))
      case Success(inst) => Success(inst)
  }

  /** The instance loop of main: attempts 0, 1, ..., count - 1 in order,
      stopping at the first failure. */
  method CreateInstances<I>(cfg: Config, syscalls: SyscallSet,
                            marshal: map<string, Json> -> Result<seq<bv8>, string>,
                            create: Creator<I>)
    returns (r: Result<seq<I>, BootError>)
    ensures r.Success? ==>
              && |r.value| == (if cfg.count < 0 then 0 else cfg.count)
              && forall i :: 0 <= i < |r.value| ==>
                   Attempt(cfg, syscalls, marshal, create, i) == Success(r.value[i])
    ensures r.Failure? ==>
              exists k :: && 0 <= k < cfg.count
                          && (forall i :: 0 <= i < k ==> Attempt(cfg, syscalls, marshal, create, i).Success?)
                          && Attempt(cfg, syscalls, marshal, create, k) == Failure(r.error)
  {
    var instances: seq<I> := [];
    var i := 0;
    while i < cfg.count
      invariant 0 <= i <= (if cfg.count < 0 then 0 else cfg.count)
      invariant |instances| == i
      invariant forall j :: 0 <= j < i ==> Attempt(cfg, syscalls, marshal, create, j) == Success(instances[j])
    {
      var params := marshal(cfg.params);
      if params.Failure? {
        assert Attempt(cfg, syscalls, marshal, create, i) == Failure(MarshalFailed(params.error));
        return Failure(MarshalFailed(params.error));
      }
      var inst := create(cfg.kind, cfg.workdir, syscalls, cfg.port, i, params.value);
      if inst.Failure? {
        assert Attempt(cfg, syscalls, marshal, create, i) == Failure(CreateFailed(inst.error));
        return Failure(CreateFailed(inst.error));
      }
      instances := instances + [inst.value];
      i := i + 1;
    }
    return Success(instances);
  }

  /** main up to the hand-over to the manager loop: parse the configuration,
      then create the instances. */
  method Boot<I>(cfg: Config, calls: seq<Call>,
                 marshal: map<string, Json> -> Result<seq<bv8>, string>,
                 create: Creator<I>)
    returns (r: Result<(SyscallSet, seq<I>), BootError>)
    requires Catalog(calls)
    ensures Resolve(cfg, calls).Failure? ==> r == Failure(ConfigFailed(Resolve(cfg, calls).error))
    ensures Resolve(cfg, calls).Success? ==>
              (r.Success? <==>
                 forall i :: 0 <= i < cfg.count ==> Attempt(cfg, Resolve(cfg, calls).value, marshal, create, i).Success?)
    ensures Resolve(cfg, calls).Success? && r.Failure? ==>
              exists k :: && 0 <= k < cfg.count
                          && (forall i :: 0 <= i < k ==>
                                Attempt(cfg, Resolve(cfg, calls).value, marshal, create, i).Success?)
                          && Attempt(cfg, Resolve(cfg, calls).value, marshal, create, k) == Failure(r.error)
    ensures r.Success? ==>
              && Resolve(cfg, calls) == Success(r.value.0)
              && |r.value.1| == cfg.count
              && forall i :: 0 <= i < cfg.count ==>
                   Attempt(cfg, r.value.0, marshal, create, i) == Success(r.value.1[i])
  {
    var parsed := ParseConfig(cfg, calls);
    if parsed.Failure? {
      return Failure(ConfigFailed(parsed.error));
    }
    var instances := CreateInstances(cfg, parsed.value, marshal, create);
    if instances.Failure? {
      return Failure(instances.error);
    }
    return Success((parsed.value, instances.value));
  }
}
