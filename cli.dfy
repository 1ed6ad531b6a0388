/**
 * The command-line front end of src/cli.ts: how the arguments after the command split into
 * `--flag value` options and positional words, and which library call each command makes with
 * them. The library calls themselves are modelled by the modules of src/lib.
 */
module Cli {
  import opened Wrappers
  import opened Text
  import opened Records
  import opened QueryRules

  /** The options record `parseArgs` fills: flag name to value. */
  type Flags = map<string, string>

  predicate IsFlag(a: string)
  {
    StartsWith(a, "--")
  }

  /** `args[i + 1] || 'true'`: the next argument, unless it is missing or empty. */
  function FlagValue(args: seq<string>, i: nat): (v: string)
    ensures v != ""
    ensures v == "true" || (i + 1 < |args| && v == args[i + 1])
  {
    if i + 1 < |args| && args[i + 1] != "" then args[i + 1] else "true"
  }

  /**
   * The options the arguments from position `i` on give, read left to right: a flag takes the
   * following argument as its value (consuming it whatever it is), every other argument is passed
   * over, and a flag met later replaces what an earlier one of the same name set.
   */
  function OptionsFrom(args: seq<string>, i: nat): Flags
    decreases |args| - i
  {
    if i >= |args| then map[]
    else if IsFlag(args[i]) then map[args[i][2..] := FlagValue(args, i)] + OptionsFrom(args, i + 2)
    else OptionsFrom(args, i + 1)
  }

  /** The options of all the arguments. */
  function Options(args: seq<string>): Flags
  {
    OptionsFrom(args, 0)
  }

  /** The positions, from `i` on, that the loop of parseArgs reads as flags. */
  function FlagsRead(args: seq<string>, i: nat): (r: set<nat>)
    ensures forall j :: j in r ==> i <= j < |args| && IsFlag(args[j])
    decreases |args| - i
  {
    if i >= |args| then {}
    else if IsFlag(args[i]) then {i} + FlagsRead(args, i + 2)
    else FlagsRead(args, i + 1)
  }

  /** parseArgs */
  method ParseArgs(args: seq<string>) returns (result: Flags)
    ensures result == Options(args)
  {
    result := map[];
    var i := 0;
    while i < |args|
      invariant 0 <= i <= |args| + 1
      invariant Options(args) == result + OptionsFrom(args, i)
    {
      if IsFlag(args[i]) {
        var key := args[i][2..];
        var value := FlagValue(args, i);
        assert OptionsFrom(args, i) == map[key := value] + OptionsFrom(args, i + 2);
        assert result + (map[key := value] + OptionsFrom(args, i + 2)) == result[key := value] + OptionsFrom(args, i + 2);
        result := result[key := value];
        i := i + 1;
      }
      i := i + 1;
    }
  }

  /**
   * The loop reads an argument as a flag exactly when it starts with '--' and the argument before
   * it was not read as a flag: the argument after a flag is always consumed as its value, even
   * when it starts with '--' itself.
   */
  lemma {:induction false} FlagsReadExactly(args: seq<string>, i: nat)
    ensures forall j :: i <= j < |args| ==>
      (j in FlagsRead(args, i) <==> IsFlag(args[j]) && (j == i || j - 1 !in FlagsRead(args, i)))
    decreases |args| - i
  {
    if i < |args| {
      if IsFlag(args[i]) {
        FlagsReadExactly(args, i + 2);
        assert i + 1 !in FlagsRead(args, i);
        forall j | i + 2 <= j < |args|
          ensures j in FlagsRead(args, i) <==> IsFlag(args[j]) && (j == i || j - 1 !in FlagsRead(args, i))
        {
          assert j in FlagsRead(args, i) <==> j in FlagsRead(args, i + 2);
          assert j - 1 in FlagsRead(args, i) <==> j - 1 in FlagsRead(args, i + 2);
        }
      } else {
        FlagsReadExactly(args, i + 1);
        assert FlagsRead(args, i) == FlagsRead(args, i + 1);
        assert i !in FlagsRead(args, i);
      }
    }
  }

  /** The argument after a flag is never read as a flag: `--a --b x` makes '--b' the value of a. */
  lemma ValueAlwaysConsumed(args: seq<string>, j: nat)
    requires j in FlagsRead(args, 0)
    ensures j + 1 !in FlagsRead(args, 0)
  {
    FlagsReadExactly(args, 0);
  }

  /** There is an option exactly for the name of each argument read as a flag. */
  lemma {:induction false} OptionsKeys(args: seq<string>, i: nat)
    ensures forall k :: k in OptionsFrom(args, i) <==> exists j :: j in FlagsRead(args, i) && args[j][2..] == k
    decreases |args| - i
  {
    if i < |args| {
      if IsFlag(args[i]) {
        OptionsKeys(args, i + 2);
      } else {
        OptionsKeys(args, i + 1);
      }
    }
  }

  /**
   * The value of an option is what the last flag of that name reads: the next argument, or
   * 'true' when there is none or it is empty. A later flag of a name overrides an earlier one.
   */
  lemma {:induction false} LaterFlagWins(args: seq<string>, i: nat, j: nat)
    requires j in FlagsRead(args, i)
    requires forall j' :: j' in FlagsRead(args, i) && j < j' ==> args[j'][2..] != args[j][2..]
    ensures args[j][2..] in OptionsFrom(args, i) && OptionsFrom(args, i)[args[j][2..]] == FlagValue(args, j)
    decreases |args| - i
  {
    if IsFlag(args[i]) {
      if j == i {
        OptionsKeys(args, i + 2);
      } else {
        LaterFlagWins(args, i + 2, j);
        OptionsKeys(args, i + 2);
      }
    } else {
      LaterFlagWins(args, i + 1, j);
    }
  }

  /** Arguments without a flag give no option. */
  lemma NoFlagsNoOptions(args: seq<string>)
    requires forall j :: 0 <= j < |args| ==> !IsFlag(args[j])
    ensures Options(args) == map[]
  {
    OptionsKeys(args, 0);
    assert Options(args).Keys == {};
  }

  /** `--a --b x` sets only a, to '--b'. */
  lemma ConsumedExample()
    ensures Options(["--a", "--b", "x"]) == map["a" := "--b"]
  {
    var args := ["--a", "--b", "x"];
    assert "--a"[..2] == "--" && "--a"[2..] == "a";
    assert !IsFlag("x");
    assert OptionsFrom(args, 2) == OptionsFrom(args, 3) == map[];
  }

  /** The later of two flags of one name wins; a flag at the end, or before '', is 'true'. */
  lemma LaterFlagExample(k: string, v1: string, v2: string)
    requires v1 != "" && v2 != ""
    ensures Options(["--" + k, v1, "--" + k, v2]) == map[k := v2]
    ensures Options(["--" + k]) == map[k := "true"]
    ensures Options(["--" + k, ""]) == map[k := "true"]
  {
    var args := ["--" + k, v1, "--" + k, v2];
    assert ("--" + k)[..2] == "--" && ("--" + k)[2..] == k;
    assert IsFlag("--" + k);
    assert OptionsFrom(args, 2) == map[k := v2] + OptionsFrom(args, 4);
    assert OptionsFrom(args, 0) == map[k := v1] + OptionsFrom(args, 2);
    assert OptionsFrom(["--" + k], 0) == map[k := "true"] + OptionsFrom(["--" + k], 2);
    assert OptionsFrom(["--" + k, ""], 0) == map[k := "true"] + OptionsFrom(["--" + k, ""], 2);
  }

  /** `args.filter(a => !a.startsWith('--'))`: every non-flag argument, flag values included, in order. */
  function Positional(args: seq<string>): (r: seq<string>)
    ensures |r| <= |args|
    ensures forall j :: 0 <= j < |r| ==> r[j] in args && !IsFlag(r[j])
    ensures forall j :: 0 <= j < |args| && !IsFlag(args[j]) ==> args[j] in r
  {
    if |args| == 0 then []
    else
      var tail := Positional(args[1..]);
      assert forall j :: 1 <= j < |args| ==> args[j] == args[1..][j - 1];
      (if IsFlag(args[0]) then [] else [args[0]]) + tail
  }

  /**
   * The filter keeps order and multiplicity: the words of a concatenation are the words of its
   * parts in turn, so with `Positional([w])` being `[w]` for a non-flag and `[]` for a flag, the
   * result is each non-flag argument once, where it stands.
   */
  lemma {:induction false} PositionalAppend(a: seq<string>, b: seq<string>)
    ensures Positional(a + b) == Positional(a) + Positional(b)
  {
    if |a| == 0 {
      assert a + b == b;
    } else {
      assert (a + b)[1..] == a[1..] + b;
      PositionalAppend(a[1..], b);
    }
  }

  /** What `run` does: print the usage, call the library with these arguments, or fail with a message. */
  datatype Call =
    | ShowUsage                              // the usage text, exit status 0
    | ListCall(options: ListOptions)
    | GetCall(conversationId: string, format: string)
    | SearchCall(query: string, limit: Option<int>)
    | AdvancedCall(filters: AdvancedOptions)
    | ExportCall(conversationId: string, format: string)
    | MessagesCall(conversationId: string, limit: Option<int>)
    | MessageCall(conversationId: string, messageId: string)
    | SnapshotsCall(conversationId: string, limit: Option<int>)
    | SnapshotCall(conversationId: string, snapshotId: string)
    | DiffsCall(conversationId: string, limit: Option<int>)
    | DiffCall(conversationId: string, diffId: string)
    | ContextsCall(conversationId: string, limit: Option<int>)
    | ContextCall(conversationId: string, contextId: string)
    | StatsCall
    | MessageStatsCall
    | UnknownCommand(command: string)        // reported, then the usage, exit status 1
    | Failed(message: string)                // `Error: <message>`, exit status 1

  /** `opts.k`, `undefined` when the flag was not given. */
  function Opt(opts: Flags, k: string): Option<string>
  {
    if k in opts then Some(opts[k]) else None
  }

  /** `opts.k ? parseInt(opts.k) : undefined` */
  function NumberOpt(opts: Flags, k: string, parseInt: string -> Option<int>): (r: Option<int>)
    ensures k !in opts || opts[k] == "" ==> r == None
    ensures k in opts && opts[k] != "" ==> r == parseInt(opts[k])
  {
    if Truthy(Opt(opts, k)) then parseInt(opts[k]) else None
  }

  const IdMessage: string := "conversationId required"

  /** The commands that take one conversation id and an optional `--limit`. */
  predicate ListsParts(command: string)
  {
    command == "messages" || command == "snapshots" || command == "diffs" || command == "contexts"
  }

  /** The commands that take a conversation id and the id of one of its parts. */
  predicate GetsPart(command: string)
  {
    command == "message" || command == "snapshot" || command == "diff" || command == "context"
  }

  /** The commands the `switch` of run knows. */
  const Commands: set<string> := {"list", "get", "search", "search-advanced", "export", "messages", "message",
                                  "snapshots", "snapshot", "diffs", "diff", "contexts", "context", "stats",
                                  "message-stats"}

  /** The second id each part command names in its error. */
  function PartName(command: string): string
  {
    if command == "message" then "messageId"
    else if command == "snapshot" then "snapshotId"
    else if command == "diff" then "diffId"
    else "contextId"
  }

  function PartMessage(command: string): string
  {
    "conversationId and " + PartName(command) + " required"
  }

  function PartsCall(command: string, id: string, limit: Option<int>): Call
  {
    if command == "messages" then MessagesCall(id, limit)
    else if command == "snapshots" then SnapshotsCall(id, limit)
    else if command == "diffs" then DiffsCall(id, limit)
    else ContextsCall(id, limit)
  }

  function PartCall(command: string, id: string, partId: string): Call
  {
    if command == "message" then MessageCall(id, partId)
    else if command == "snapshot" then SnapshotCall(id, partId)
    else if command == "diff" then DiffCall(id, partId)
    else ContextCall(id, partId)
  }

  /** run, for `command` and the arguments after it; `parseInt` gives `None` for NaN. */
  function Run(command: Option<string>, args: seq<string>, parseInt: string -> Option<int>): (r: Call)
    ensures r == ShowUsage <==> !Truthy(command) || command.value in {"help", "--help", "-h"}
    ensures r.UnknownCommand? ==> Truthy(command) && r.command == command.value
  {
    if !Truthy(command) || command.value in {"help", "--help", "-h"} then ShowUsage
    else Dispatch(command.value, Options(args), Positional(args), parseInt)
  }

  /** The `switch` of run, on the options and positional words of the arguments. */
  function Dispatch(c: string, opts: Flags, positional: seq<string>, parseInt: string -> Option<int>): (r: Call)
    ensures r != ShowUsage
    ensures r.UnknownCommand? <==> c !in Commands
    ensures r.UnknownCommand? ==> r.command == c
    ensures r.Failed? ==> r.message in {IdMessage, "search query required", PartMessage(c)}
  {
    var first := At(positional, 0);
    if c == "list" then ListCall(ListOptions(NumberOpt(opts, "limit", parseInt), None, Opt(opts, "sort"), None))
    else if c == "get" then
      (if !Truthy(first) then Failed(IdMessage) else GetCall(first.value, OrString(Opt(opts, "format"), "summary")))
    else if c == "search" then
      (var query := Join(positional, " ");
       if query == "" then Failed("search query required") else SearchCall(query, NumberOpt(opts, "limit", parseInt)))
    else if c == "search-advanced" then
      AdvancedCall(AdvancedOptions(Opt(opts, "from"), Opt(opts, "to"), NumberOpt(opts, "min", parseInt),
                                   NumberOpt(opts, "max", parseInt), Opt(opts, "status"), None, None,
                                   NumberOpt(opts, "limit", parseInt)))
    else if c == "export" then
      (if !Truthy(first) then Failed(IdMessage) else ExportCall(first.value, OrString(Opt(opts, "format"), "markdown")))
    else if ListsParts(c) then
      (if !Truthy(first) then Failed(IdMessage) else PartsCall(c, first.value, NumberOpt(opts, "limit", parseInt)))
    else if GetsPart(c) then PartDispatch(c, first, At(positional, 1))
    else if c == "stats" then StatsCall
    else if c == "message-stats" then MessageStatsCall
    else UnknownCommand(c)
  }

  function PartDispatch(c: string, first: Option<string>, second: Option<string>): Call
  {
    if !Truthy(first) || !Truthy(second) then Failed(PartMessage(c)) else PartCall(c, first.value, second.value)
  }

  /** Help, or no command at all, shows the usage; a command not in the `switch` is reported. */
  lemma UsageAndUnknown(command: string, args: seq<string>, parseInt: string -> Option<int>)
    ensures Run(None, args, parseInt) == ShowUsage && Run(Some(""), args, parseInt) == ShowUsage
    ensures command in {"help", "--help", "-h"} ==> Run(Some(command), args, parseInt) == ShowUsage
    ensures command !in {"", "help", "--help", "-h", "list", "get", "search", "search-advanced", "export",
                         "messages", "message", "snapshots", "snapshot", "diffs", "diff", "contexts",
                         "context", "stats", "message-stats"} ==>
      Run(Some(command), args, parseInt) == UnknownCommand(command)
  {
  }

  /**
   * The commands on one conversation fail exactly when the first positional word is missing or
   * empty, and then with 'conversationId required'; otherwise they name that word.
   */
  lemma IdsRequired(command: string, args: seq<string>, parseInt: string -> Option<int>)
    requires command in {"get", "export", "messages", "snapshots", "diffs", "contexts"}
    ensures Run(Some(command), args, parseInt).Failed? <==> !Truthy(At(Positional(args), 0))
    ensures Run(Some(command), args, parseInt).Failed? ==> Run(Some(command), args, parseInt) == Failed(IdMessage)
    ensures !Run(Some(command), args, parseInt).Failed? ==> Run(Some(command), args, parseInt).conversationId == Positional(args)[0]
  {
    assert Run(Some(command), args, parseInt) == Dispatch(command, Options(args), Positional(args), parseInt);
  }

  /** The part commands fail exactly when either of the first two positional words is missing or empty. */
  lemma PartIdsRequired(command: string, args: seq<string>, parseInt: string -> Option<int>)
    requires GetsPart(command)
    ensures Run(Some(command), args, parseInt).Failed? <==> !Truthy(At(Positional(args), 0)) || !Truthy(At(Positional(args), 1))
    ensures Run(Some(command), args, parseInt).Failed? ==> Run(Some(command), args, parseInt) == Failed(PartMessage(command))
    ensures !Run(Some(command), args, parseInt).Failed? ==>
      Run(Some(command), args, parseInt) == PartCall(command, Positional(args)[0], Positional(args)[1])
  {
    var positional := Positional(args);
    assert Run(Some(command), args, parseInt) == Dispatch(command, Options(args), positional, parseInt);
    DispatchPart(command, Options(args), positional, parseInt);
  }

  lemma DispatchPart(command: string, opts: Flags, positional: seq<string>, parseInt: string -> Option<int>)
    requires GetsPart(command)
    ensures Dispatch(command, opts, positional, parseInt) == PartDispatch(command, At(positional, 0), At(positional, 1))
  {
  }

  lemma NotFlag(a: string)
    requires |a| < 2 || a[0] != '-'
    ensures !IsFlag(a)
  {
    if |a| >= 2 {
      assert a[..2][0] == a[0];
    }
  }

  /**
   * The search query is every positional word joined by spaces, so the value of a flag joins it:
   * `search foo --limit 5` searches for "foo 5" with limit 5.
   */
  lemma SearchJoinsFlagValues(parseInt: string -> Option<int>)
    ensures Run(Some("search"), ["foo", "--limit", "5"], parseInt) == SearchCall("foo 5", parseInt("5"))
  {
    var a := ["foo", "--limit", "5"];
    var opts := map["limit" := "5"];
    SearchExamplePositional(a);
    SearchExampleOptions(a);
    assert Run(Some("search"), a, parseInt) == Dispatch("search", opts, ["foo", "5"], parseInt);
    JoinExample();
    assert NumberOpt(opts, "limit", parseInt) == parseInt("5");
  }

  lemma JoinExample()
    ensures Join(["foo", "5"], " ") == "foo 5"
  {
    assert ["foo", "5"][1..] == ["5"];
  }

  lemma SearchExamplePositional(a: seq<string>)
    requires a == ["foo", "--limit", "5"]
    ensures Positional(a) == ["foo", "5"]
  {
    NotFlag("foo");
    NotFlag("5");
    assert a[1..] == ["--limit", "5"];
    assert a[1..][1..] == ["5"];
    assert ["5"][1..] == [];
    assert Positional(["5"]) == ["5"];
    assert Positional(["--limit", "5"]) == ["5"];
  }

  lemma SearchExampleOptions(a: seq<string>)
    requires a == ["foo", "--limit", "5"]
    ensures Options(a) == map["limit" := "5"]
  {
    NotFlag("foo");
    assert "--limit"[..2] == "--" && "--limit"[2..] == "limit";
    assert OptionsFrom(a, 1) == map["limit" := "5"] + OptionsFrom(a, 3);
  }

  /** `get --format full abc` reads the conversation "full": the flag's value is the first positional word. */
  lemma GetTakesFlagValue(parseInt: string -> Option<int>)
    ensures Run(Some("get"), ["--format", "full", "abc"], parseInt) == GetCall("full", "full")
  {
    var b := ["--format", "full", "abc"];
    GetExamplePositional(b);
    GetExampleOptions(b);
    assert Run(Some("get"), b, parseInt) == Dispatch("get", map["format" := "full"], ["full", "abc"], parseInt);
  }

  lemma GetExamplePositional(b: seq<string>)
    requires b == ["--format", "full", "abc"]
    ensures Positional(b) == ["full", "abc"]
  {
    NotFlag("full");
    NotFlag("abc");
    assert "--format"[..2] == "--";
    assert b[1..] == ["full", "abc"];
    assert b[1..][1..] == ["abc"];
    assert ["abc"][1..] == [];
    assert Positional(["abc"]) == ["abc"];
    assert Positional(["full", "abc"]) == ["full", "abc"];
  }

  lemma GetExampleOptions(b: seq<string>)
    requires b == ["--format", "full", "abc"]
    ensures Options(b) == map["format" := "full"]
  {
    NotFlag("abc");
    assert "--format"[..2] == "--" && "--format"[2..] == "format";
    assert OptionsFrom(b, 2) == OptionsFrom(b, 3) == map[];
  }

  /** Only flags give no positional word. */
  lemma {:induction false} OnlyFlags(args: seq<string>)
    requires forall j :: 0 <= j < |args| ==> IsFlag(args[j])
    ensures Positional(args) == []
  {
    if |args| > 0 {
      OnlyFlags(args[1..]);
    }
  }

  /** A search with no positional word fails, whatever the flags. */
  lemma SearchNeedsQuery(args: seq<string>, parseInt: string -> Option<int>)
    requires forall j :: 0 <= j < |args| ==> IsFlag(args[j])
    ensures Run(Some("search"), args, parseInt) == Failed("search query required")
  {
    OnlyFlags(args);
  }
}
