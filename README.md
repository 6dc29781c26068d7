# syzkaller manager start-up and the local VM backend

This project models two parts of syzkaller's kernel fuzzing manager.

The first is the manager's start-up (`manager/main.go`):
- it validates the decoded configuration file;
- it resolves the syscall allow-set from the `enable_syscalls` and `disable_syscalls` lists against the syscall catalog;
- it creates one VM instance for each of the `count` slots.

The second is the `local` VM backend (`vm/local/local.go`):
- its constructor validates the backend parameters, defaults `Parallel` and records the instance's identity;
- on every launch, its supervisor builds the fuzzer's command line. That is the instance name, the fixed flags, and the optional `-calls=` list of allowed syscall identifiers.

Modules:
- `Wrappers`: `Option` and `Result`.
- `Vm`: the interface of the vm package. That is the allow-set type (absent, or a set of identifiers) and the shape of `vm.Create`, which takes the backend type name besides the constructor's arguments.
- `Text`: the Go conventions the core relies on. These are `%v` formatting of integers and its read-back, `strings.Split` and joining on a separator, and a simplified command line reader that accepts the flag forms the local backend writes. A reader is the partner of each thing the core writes: the model states what a consumer of the written name, argument vector or call list gets back.
- `Manager`: `parseConfig` and the instance loop of `main`.
  - `Resolve` is the specification of `parseConfig`.
  - `ParseConfig`, `BuildSyscalls`, `AddMatches` and `DeleteMatches` are the nested loops of the source. They are proved to compute `Resolve`.
  - Lemmas characterise `Resolve` independently: which error is reported, and which identifiers are in the set.
- `Local`:
  - `Ctor` is the backend constructor.
  - `CallsArg` and `BuildCommand` are the loop that writes the call list and the construction of the command.
  - `CommandReadBack` and `CallListReadBack` state what the fuzzer reads from them.

A fatal log call in the manager is a `Failure` result. The catalog (`sys.Calls`) is a parameter: a sequence of entries, each with a unique entry name, a system call name that several entries may share, and an identifier. The by-name index `sys.CallMap` is a search on entry names.

## Model

| member | source | states |
|---|---|---|
| Manager.CallId | manager/main.go:124-125 | the by-name index gives the identifier of an entry with that name |
| Manager.CallIdOfEntry | manager/main.go:124-125 | with unique entry names, the index gives each entry's own identifier |
| Manager.Resolve | manager/main.go:68-128 | an accepted configuration has all six string parameters non-empty and 1 <= count <= 1000; the set is absent exactly when both lists are empty; a present set contains the identifiers of mmap and clock_gettime |
| Manager.FirstEmptyOfRequired | manager/main.go:68-85 | the first empty required parameter, taken from a list, is the one the chain of checks finds, in the order name, http, master, workdir, vmlinux, type |
| Manager.EmptyParamReported | manager/main.go:68-85 | an empty-parameter error is reported for parameter p if and only if p is the first empty required parameter |
| Manager.CountChecked | manager/main.go:86-88 | with valid string parameters, a count outside [1, 1000] is exactly the case in which the count error is reported; accepted counts lie in [1, 1000] |
| Manager.FirstUnknownAt | manager/main.go:94-104 | the name reported as unknown is the one at the first index whose name no catalog entry carries |
| Manager.FirstUnknownNone | manager/main.go:94-121 | no name is reported exactly when every listed name is carried by some catalog entry |
| Manager.UnknownEnabledReported | manager/main.go:93-105 | with valid parameters and count, the first unknown enabled name is the error reported |
| Manager.UnknownDisabledReported | manager/main.go:111-122 | with every enabled name known, the first unknown disabled name is the error reported |
| Manager.AcceptedExactly | manager/main.go:68-122 | a configuration is accepted if and only if every required parameter is non-empty, 1 <= count <= 1000 and every name in both lists is known |
| Manager.ResolvedNamesKnown | manager/main.go:93-122 | an accepted configuration names only known calls, in both lists |
| Manager.ResolvedSet | manager/main.go:90-126 | a present set is the enabled identifiers (all identifiers when nothing is enabled), less the disabled identifiers, plus mmap and clock_gettime |
| Manager.ResolvedMembers | manager/main.go:93-126 | an identifier is in a present set if and only if it is mmap's or clock_gettime's, or some entry with it is enabled (or nothing is enabled) and no entry with it is disabled |
| Manager.EnableOnlyMmap | manager/main.go:93-126 | enabling only mmap over a four-entry catalog gives the set {mmap, clock_gettime} |
| Manager.ParseConfig | manager/main.go:68-128 | the checks and the loops compute exactly what Resolve specifies, including which error comes first |
| Manager.BuildSyscalls | manager/main.go:92-125 | the first unknown enabled name fails; then the first unknown disabled name fails; otherwise the result is (enabled or all) less disabled plus the two essential identifiers |
| Manager.AddMatches | manager/main.go:95-101 | one pass over the catalog adds the identifier of every entry with that call name; the hit count is zero exactly when the name is unknown |
| Manager.DeleteMatches | manager/main.go:112-118 | one pass over the catalog deletes the identifier of every entry with that call name; the hit count is zero exactly when the name is unknown |
| Manager.CreateInstances | manager/main.go:41-52 | on success there are max(count, 0) instances and the i-th is the result of attempt i (marshal, then create with index i); on failure, attempts 0..k-1 succeeded and attempt k's error is returned |
| Manager.Boot | manager/main.go:40-52 | a configuration error stops start-up with that error; after a successful parse, start-up succeeds if and only if every attempt 0..count-1 succeeds, and otherwise returns the error of the first failing attempt; on success the set is Resolve's and there are count instances, the i-th being attempt i's |
| Local.Ctor | vm/local/local.go:37-75 | the errors come in the order decode, fuzzer missing, executor missing, bad parallel; success happens if and only if decoding succeeds, both binaries exist and the decoded Parallel lies in [0, 100]; a Parallel of 0 becomes 1; the instance stores the decoded paths, the workdir, the allow-set, id = index and mgrPort = port |
| Local.InstanceName | vm/local/local.go:78 | the name is "local-" followed by the `%v` text of the instance index, which reads back as that index |
| Local.InstanceNamesDistinct | vm/local/local.go:78 | instances with different indices have different names |
| Text.Decimal | vm/local/local.go:78-82 | `%v` of an integer is a leading minus sign exactly for a negative value, followed by at least one digit and only digits, with no leading zero unless the value is zero, in which case the text is exactly "0" |
| Text.DecimalRoundTrip | vm/local/local.go:78-82 | reading back the decimal of n gives n |
| Text.Split | vm/local/local.go:84-88 | splitting yields at least one piece, no piece holds the separator, and joining the pieces gives back the string |
| Text.SplitJoin | vm/local/local.go:84-88 | splitting a join of separator-free pieces recovers the pieces |
| Local.CallListReadBack | vm/local/local.go:84-88 | the call list has no leading comma, and splitting it on commas and reading every piece gives the identifiers in the order they were written |
| Local.EnumerationSize | vm/local/local.go:85-87 | an order that lists each identifier of the set exactly once is as long as the set is large |
| Local.CallsArg | vm/local/local.go:84-88 | the loop writes each identifier of the set exactly once, and the argument is "-calls=" followed by the comma-joined decimals in the order written |
| Local.BuildCommand | vm/local/local.go:81-93 | the command runs the fuzzer binary in the workdir in its own process group; its arguments are the fixed vector, plus the call list exactly when the allow-set is present and non-empty |
| Local.ReadLaunchFlags | vm/local/local.go:81-82 | a flag reader gets the five fixed flags, in order, from the fixed arguments, then whatever the remaining arguments give |
| Local.ReadFixedArgs | vm/local/local.go:81-82 | reading the fixed arguments gives the instance's settings: its name, saveprog, the executor path, localhost plus the manager port, and parallel |
| Local.ReadCallsArg | vm/local/local.go:88 | the call-list argument reads as the single flag `calls` with the list as its value |
| Local.CommandReadBack | vm/local/local.go:81-89 | the fuzzer reads back exactly the settings, and after them the call list when one is passed |

## Left out

- Reading the configuration file, the `-config` and `-v` flags, and JSON decoding of the file (manager/main.go:57-67). The model starts from a decoded `Config`.
- `json.Marshal` of the parameter bag and `json.Unmarshal` of the backend parameters. Each is a function parameter (`marshal`, `decode`) whose result is given.
- `os.Stat` is a function parameter `stat` saying whether the file exists. The text of its error is not modelled.
- `vm.Create` is a function parameter `create`. The backend registry (`vm.Register`, `init`) is not modelled.
- `RunManager` and everything after the instances exist. That code is not part of this model.
- Logging (`log.Printf`, `logf`, `fatalf`). A fatal call is a `Failure` value; the process does not exit.
- `os.MkdirAll`, the write to `/proc/sys/debug/exception-trace` and `Setrlimit` in the constructor. These are host side effects whose failures the constructor ignores.
- The supervision loop in `Run` after the command is built (vm/local/local.go:90-116):
  - starting and waiting for the fuzzer;
  - the one-hour watchdog goroutine and its kills;
  - the 10-second sleeps;
  - stdout and stderr inheritance.
  This is process control, concurrency and timers. The model builds the command of one iteration. Every iteration builds the same command except for the order of the `-calls=` list: Go randomises map iteration order on every `range`, so that order may differ from one launch to the next.
- Go's map iteration order. `CallsArg` picks the next identifier with an unconstrained choice, so every order is covered. `order` reports which one was taken.
- `BuildCommand` takes the fuzzer path as the program to run. Go's `exec.Command` searches `PATH` for a name without a path separator, while the constructor's `os.Stat` looked the same name up relative to the working directory. The model does not capture that lookup.
- `map[int]bool` is a `set<int>`, because the source only stores `true`. `Vm.Creator` passes the allow-set by value, so the sharing of one map by all instances is not modelled.
- The contents of `sys.Calls`. The catalog is a parameter. It must have unique entry names and must contain `mmap` and `clock_gettime`; without them the source would dereference a nil entry.
- The model uses unbounded `int` for `Count`, `Port`, `Parallel` and identifiers. A 64-bit overflow cannot occur in the source's checks, because each value is compared against small constants or printed.
- The count error message says "want (1, 1000]", but the code accepts 1. The model follows the code: `CountChecked` accepts exactly [1, 1000].
