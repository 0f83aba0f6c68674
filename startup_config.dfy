/**
 * Flag and environment-variable start-up configuration
 * (internal/platform/startupconfig/config.go).
 *
 * A flag not given on the command line takes its value from an environment variable
 * whose name is derived from the flag's name; the first value that fails to set stops
 * the whole pass. Usage text lists, per flag, its type, usage, environment variable and
 * default. The standard `flag` package is abstract here: the outcome of parsing the
 * command line, each flag's type name, value kind, zero-ness of its default and the
 * outcome of setting a value are inputs.
 */
module StartupConfig {
  import opened Wrappers
  import opened GoText

  /** `Parser`: an optional custom mapping from flag name to environment variable name. */
  datatype Parser = Parser(flagNameToEnvVarName: Option<string -> string>)

  // ---------------------------------------------------------------- environment variable names

  /** The replacer of the default mapping: '-', '.' and '/' each become '_'. */
  function ReplaceSeparators(s: string): (r: string)
  {
    if s == [] then []
    else [if s[0] == '-' || s[0] == '.' || s[0] == '/' then '_' else s[0]] + ReplaceSeparators(s[1..])
  }

  /** `strings.ToUpper` on ASCII: 'a'..'z' become 'A'..'Z', everything else is kept. */
  function ToUpper(s: string): (r: string)
  {
    if s == [] then []
    else [if 'a' <= s[0] <= 'z' then (s[0] as int - 32) as char else s[0]] + ToUpper(s[1..])
  }

  /** The default mapping: separators replaced, then upper-cased. */
  function DefaultEnvVarName(flagName: string): string
  {
    ToUpper(ReplaceSeparators(flagName))
  }

  /** `flagNameToEnvVarName`: the custom mapping when set, the default one otherwise. */
  function FlagNameToEnvVarName(p: Parser, flagName: string): string
  {
    match p.flagNameToEnvVarName
    case Some(custom) => custom(flagName)
    case None => DefaultEnvVarName(flagName)
  }

  /** What the default mapping does to one character. */
  function EnvChar(c: char): char
  {
    if c == '-' || c == '.' || c == '/' then '_'
    else if 'a' <= c <= 'z' then (c as int - 32) as char
    else c
  }

  lemma {:induction false} ReplaceSeparatorsAt(s: string)
    ensures |ReplaceSeparators(s)| == |s|
    ensures forall i :: 0 <= i < |s| ==>
              ReplaceSeparators(s)[i] == (if s[i] == '-' || s[i] == '.' || s[i] == '/' then '_' else s[i])
  {
    if s != [] {
      ReplaceSeparatorsAt(s[1..]);
    }
  }

  lemma {:induction false} ToUpperAt(s: string)
    ensures |ToUpper(s)| == |s|
    ensures forall i :: 0 <= i < |s| ==> ToUpper(s)[i] == (if 'a' <= s[i] <= 'z' then (s[i] as int - 32) as char else s[i])
  {
    if s != [] {
      ToUpperAt(s[1..]);
    }
  }

  /**
   * The default name keeps the flag name's length and maps it character by character:
   * '-', '.', '/' to '_', lower-case ASCII letters to upper case, the rest unchanged. So it
   * holds no separator and no lower-case ASCII letter.
   */
  lemma DefaultEnvVarNameAt(flagName: string)
    ensures |DefaultEnvVarName(flagName)| == |flagName|
    ensures forall i :: 0 <= i < |flagName| ==> DefaultEnvVarName(flagName)[i] == EnvChar(flagName[i])
    ensures forall i :: 0 <= i < |flagName| ==>
              DefaultEnvVarName(flagName)[i] !in "-./" && !('a' <= DefaultEnvVarName(flagName)[i] <= 'z')
  {
    ReplaceSeparatorsAt(flagName);
    ToUpperAt(ReplaceSeparators(flagName));
  }

  /** The replacer works character by character, so it distributes over concatenation. */
  lemma {:induction false} ReplaceSeparatorsAppend(a: string, b: string)
    ensures ReplaceSeparators(a + b) == ReplaceSeparators(a) + ReplaceSeparators(b)
  {
    if a != [] {
      assert (a + b)[1..] == a[1..] + b;
      ReplaceSeparatorsAppend(a[1..], b);
    } else {
      assert a + b == b;
    }
  }

  // ---------------------------------------------------------------- flags

  /** The value kinds the usage text distinguishes: bool, string, anything else. */
  datatype ValueType = BoolValue | StringValue | UnknownValue

  /**
   * `getFlagValueType`, given the type name `flag.UnquoteUsage` reports for the flag's
   * value once back-quoted names are ignored: "" only for bool flags.
   */
  function GetFlagValueType(kindName: string): (t: ValueType)
    ensures t == BoolValue <==> kindName == ""
    ensures t == StringValue <==> kindName == "string"
  {
    if kindName == "" then BoolValue
    else if kindName == "string" then StringValue
    else UnknownValue
  }

  /** `isZeroValue` on the default: zero, not zero, or undeterminable (an error, and treated as not zero). */
  datatype ZeroCheck = IsZero | NotZero | Undetermined

  /**
   * A flag as the usage text and the parser see it: its name, its usage with back quotes
   * removed, the type name `flag.UnquoteUsage` reports (a back-quoted name in the usage, or
   * the value's type name, empty for bool), the value's own type name, its default and
   * whether the default is its type's zero value.
   */
  datatype Flag = Flag(name: string, usage: string, typeName: string, kindName: string, defValue: string, zero: ZeroCheck)
  {
    function ValueKind(): ValueType { GetFlagValueType(kindName) }
  }

  /** `flag.FlagSet`: its name and its flags in the order `VisitAll` visits them. */
  datatype FlagSet = FlagSet(name: string, flags: seq<Flag>)

  /** Flag names in a flag set are unique. */
  predicate DistinctNames(flags: seq<Flag>)
  {
    forall i, j :: 0 <= i < j < |flags| ==> flags[i].name != flags[j].name
  }

  // ---------------------------------------------------------------- Parse

  /** The outcome of `fs.Parse(args)`: its error, or the names of the flags set on the command line in `Visit` order. */
  datatype ArgsParse = ArgsError(err: string) | ArgsParsed(visited: seq<string>)

  /** The error text for a flag whose environment value failed to set. */
  function SetFromEnvError(flagName: string, envVarName: string, err: string): string
  {
    "set flag " + Quote(flagName) + " value from environment variable " + Quote(envVarName) + ": " + err
  }

  /**
   * The state of the environment pass: the captured `visitAllErr`, the values set from
   * the environment (flag name to the variable's text) and the variables looked up, in order.
   */
  datatype EnvState = EnvState(err: Option<string>, fromEnv: map<string, string>, lookups: seq<string>)

  /**
   * One visit of the environment pass: nothing once an error is captured or when the flag
   * was set on the command line or its variable name is empty; otherwise look the
   * variable up and, when present, set the flag from it, capturing the setter's error.
   */
  function EnvStep(p: Parser, setOnCommandLine: set<string>, env: map<string, string>,
                   setter: (Flag, string) -> Option<string>, st: EnvState, f: Flag): EnvState
  {
    if st.err.Some? || f.name in setOnCommandLine then st
    else
      var envVarName := FlagNameToEnvVarName(p, f.name);
      if envVarName == "" then st
      else
        var looked := st.(lookups := st.lookups + [envVarName]);
        if envVarName !in env then looked
        else match setter(f, env[envVarName])
          case Some(e) => looked.(err := Some(SetFromEnvError(f.name, envVarName, e)))
          case None => looked.(fromEnv := looked.fromEnv[f.name := env[envVarName]])
  }

  /** The environment pass over `flags` in order. */
  function EnvPass(p: Parser, flags: seq<Flag>, setOnCommandLine: set<string>, env: map<string, string>,
                   setter: (Flag, string) -> Option<string>): EnvState
    decreases |flags|
  {
    if flags == [] then EnvState(None, map[], [])
    else EnvStep(p, setOnCommandLine, env, setter, EnvPass(p, flags[..|flags| - 1], setOnCommandLine, env, setter), flags[|flags| - 1])
  }

  /**
   * `Parser.Parse`: a command-line failure is returned wrapped and no variable is looked
   * up; otherwise every flag not set on the command line is offered its environment
   * variable, and an environment failure is returned wrapped. `fromEnv` holds the values
   * set from the environment, `lookups` the variables looked up.
   */
  method Parse(p: Parser, fs: FlagSet, args: ArgsParse, env: map<string, string>, setter: (Flag, string) -> Option<string>)
    returns (err: Option<string>, fromEnv: map<string, string>, lookups: seq<string>)
    ensures args.ArgsError? ==>
              err == Some("parse command-line arguments: " + args.err) && fromEnv == map[] && lookups == []
    ensures args.ArgsParsed? ==>
              var r := EnvPass(p, fs.flags, (set n | n in args.visited), env, setter);
              && fromEnv == r.fromEnv && lookups == r.lookups
              && err == (if r.err.Some? then Some("parse environment variables: " + r.err.value) else None)
  {
    if args.ArgsError? {
      return Some("parse command-line arguments: " + args.err), map[], [];
    }

    var flagsSet: map<string, bool> := map[];
    var v := 0;
    while v < |args.visited|
      invariant 0 <= v <= |args.visited|
      invariant flagsSet.Keys == (set n | n in args.visited[..v])
      invariant forall n :: n in flagsSet ==> flagsSet[n]
    {
      assert args.visited[..v + 1] == args.visited[..v] + [args.visited[v]];
      flagsSet := flagsSet[args.visited[v] := true];
      v := v + 1;
    }
    assert args.visited[..v] == args.visited;
    ghost var setOnCommandLine := (set n | n in args.visited);

    var visitAllErr: Option<string> := None;
    fromEnv, lookups := map[], [];
    var i := 0;
    while i < |fs.flags|
      invariant 0 <= i <= |fs.flags|
      invariant EnvState(visitAllErr, fromEnv, lookups) == EnvPass(p, fs.flags[..i], setOnCommandLine, env, setter)
    {
      var f := fs.flags[i];
      assert fs.flags[..i + 1][..i] == fs.flags[..i];
      if visitAllErr.None? && !(f.name in flagsSet && flagsSet[f.name]) {
        var envVarName := FlagNameToEnvVarName(p, f.name);
        if envVarName != "" {
          lookups := lookups + [envVarName];
          if envVarName in env {
            var setErr := setter(f, env[envVarName]);
            if setErr.Some? {
              visitAllErr := Some(SetFromEnvError(f.name, envVarName, setErr.value));
            } else {
              fromEnv := fromEnv[f.name := env[envVarName]];
            }
          }
        }
      }
      i := i + 1;
    }
    assert fs.flags[..i] == fs.flags;

    if visitAllErr.Some? {
      return Some("parse environment variables: " + visitAllErr.value), fromEnv, lookups;
    }
    return None, fromEnv, lookups;
  }

  /** A flag set on the command line is never set from the environment. */
  lemma {:induction false} CommandLineWins(p: Parser, flags: seq<Flag>, setOnCommandLine: set<string>,
                                           env: map<string, string>, setter: (Flag, string) -> Option<string>, name: string)
    requires name in setOnCommandLine
    ensures name !in EnvPass(p, flags, setOnCommandLine, env, setter).fromEnv
    decreases |flags|
  {
    if flags != [] {
      CommandLineWins(p, flags[..|flags| - 1], setOnCommandLine, env, setter, name);
    }
  }

  /**
   * A flag whose variable name is empty or whose variable is absent keeps its value: it is
   * not set from the environment (flag names being unique).
   */
  lemma {:induction false} NoVariableKeepsValue(p: Parser, flags: seq<Flag>, setOnCommandLine: set<string>,
                                                env: map<string, string>, setter: (Flag, string) -> Option<string>, k: nat)
    requires DistinctNames(flags) && k < |flags|
    requires FlagNameToEnvVarName(p, flags[k].name) == "" || FlagNameToEnvVarName(p, flags[k].name) !in env
    ensures flags[k].name !in EnvPass(p, flags, setOnCommandLine, env, setter).fromEnv
    decreases |flags|
  {
    var init := flags[..|flags| - 1];
    if k < |flags| - 1 {
      assert init[k] == flags[k];
      assert DistinctNames(init);
      NoVariableKeepsValue(p, init, setOnCommandLine, env, setter, k);
      assert flags[|flags| - 1].name != flags[k].name;
    } else {
      NameNotAssignedBefore(p, init, setOnCommandLine, env, setter, flags[k].name);
    }
  }

  /**
   * The environment fills an unset flag: a flag not set on the command line whose variable
   * name is non-empty and present in the environment, and whose value is accepted, is set
   * to that variable's text when the pass succeeds (flag names being unique).
   */
  lemma {:induction false} EnvFillsUnsetFlag(p: Parser, flags: seq<Flag>, setOnCommandLine: set<string>,
                                             env: map<string, string>, setter: (Flag, string) -> Option<string>, k: nat)
    requires DistinctNames(flags) && k < |flags|
    requires flags[k].name !in setOnCommandLine
    requires FlagNameToEnvVarName(p, flags[k].name) != "" && FlagNameToEnvVarName(p, flags[k].name) in env
    requires setter(flags[k], env[FlagNameToEnvVarName(p, flags[k].name)]).None?
    requires EnvPass(p, flags, setOnCommandLine, env, setter).err.None?
    ensures var r := EnvPass(p, flags, setOnCommandLine, env, setter);
            flags[k].name in r.fromEnv && r.fromEnv[flags[k].name] == env[FlagNameToEnvVarName(p, flags[k].name)]
    decreases |flags|
  {
    var init := flags[..|flags| - 1];
    var st := EnvPass(p, init, setOnCommandLine, env, setter);
    assert st.err.None?;
    if k < |flags| - 1 {
      assert init[k] == flags[k];
      assert DistinctNames(init);
      EnvFillsUnsetFlag(p, init, setOnCommandLine, env, setter, k);
      assert flags[|flags| - 1].name != flags[k].name;
    }
  }

  /** A name that no flag in `flags` carries is never set from the environment. */
  lemma {:induction false} NameNotAssignedBefore(p: Parser, flags: seq<Flag>, setOnCommandLine: set<string>,
                                                 env: map<string, string>, setter: (Flag, string) -> Option<string>, name: string)
    requires forall i :: 0 <= i < |flags| ==> flags[i].name != name
    ensures name !in EnvPass(p, flags, setOnCommandLine, env, setter).fromEnv
    decreases |flags|
  {
    if flags != [] {
      NameNotAssignedBefore(p, flags[..|flags| - 1], setOnCommandLine, env, setter, name);
    }
  }

  /**
   * The first failure ends the pass: once an error is captured, no later flag looks up a
   * variable or is set, and the error stays the first one.
   */
  lemma {:induction false} FirstErrorAborts(p: Parser, flags: seq<Flag>, more: seq<Flag>, setOnCommandLine: set<string>,
                                            env: map<string, string>, setter: (Flag, string) -> Option<string>)
    requires EnvPass(p, flags, setOnCommandLine, env, setter).err.Some?
    ensures EnvPass(p, flags + more, setOnCommandLine, env, setter) == EnvPass(p, flags, setOnCommandLine, env, setter)
    decreases |more|
  {
    if more != [] {
      var init := more[..|more| - 1];
      assert (flags + more)[..|flags + more| - 1] == flags + init;
      FirstErrorAborts(p, flags, init, setOnCommandLine, env, setter);
    } else {
      assert flags + more == flags;
    }
  }

  /**
   * A first flag whose environment value fails to set fails the pass with the wrapped
   * setter error, and the second flag's variable is never looked up (the test case with
   * FIRST_BOOL=WOOPS and FIRST_STRING=aaaa).
   */
  lemma FailingFirstFlagStopsPass(p: Parser, setter: (Flag, string) -> Option<string>, env: map<string, string>,
                                  first: Flag, second: Flag)
    requires FlagNameToEnvVarName(p, first.name) != "" && FlagNameToEnvVarName(p, first.name) in env
    requires setter(first, env[FlagNameToEnvVarName(p, first.name)]).Some?
    ensures var envVarName := FlagNameToEnvVarName(p, first.name);
            var r := EnvPass(p, [first, second], {}, env, setter);
            && r.err == Some(SetFromEnvError(first.name, envVarName, setter(first, env[envVarName]).value))
            && r.lookups == [envVarName] && r.fromEnv == map[]
  {
    assert [first][..0] == [];
    assert [first, second] == [first] + [second];
    FirstErrorAborts(p, [first], [second], {}, env, setter);
  }

  // ---------------------------------------------------------------- usage text

  /** The first line of the usage text. */
  function UsageHeader(fsName: string): string
  {
    if fsName == "" then "Usage:\n" else "Usage of " + fsName + ":\n"
  }

  /** `strings.ReplaceAll(usage, "\n", "\n    \t")`: continuation lines are indented. */
  function IndentUsage(usage: string): string
  {
    if usage == [] then []
    else (if usage[0] == '\n' then UsageIndent else [usage[0]]) + IndentUsage(usage[1..])
  }

  /** The environment-variable sentence, present only for a non-empty variable name. */
  function EnvHint(envVarName: string): string
  {
    if envVarName == "" then "" else EnvHintPrefix + envVarName + EnvHintSuffix
  }

  /** The separator between a flag's name line and its usage text, also used for continuation lines. */
  const UsageIndent: string := "\n    \t"
  const EnvHintPrefix: string := "\n    \tIf not specified, the value will be read from environment variable \""
  const EnvHintSuffix: string := "\"."

  /** The " <type>" part of the name line; empty for bool flags. */
  function TypePart(f: Flag): string
  {
    if f.typeName != "" then " " + f.typeName else ""
  }

  /** The whole usage line of one flag. */
  function UsageLine(p: Parser, f: Flag): string
  {
    "  -" + f.name + TypePart(f) + UsageIndent + IndentUsage(f.usage)
    + EnvHint(FlagNameToEnvVarName(p, f.name)) + DefaultSuffix(f) + "\n"
  }

  /** Whether the default is shown: always for bool flags, otherwise when the default is not known to be zero. */
  predicate ShowsDefault(f: Flag)
  {
    f.ValueKind() == BoolValue || !f.zero.IsZero?
  }

  /** The " (default ...)" suffix; string defaults are `%q`-quoted. */
  function DefaultSuffix(f: Flag): string
  {
    if !ShowsDefault(f) then ""
    else if f.ValueKind() == StringValue then " (default " + Quote(f.defValue) + ")"
    else " (default " + f.defValue + ")"
  }

  /** The error `isZeroValue` reports when it cannot decide. */
  function ZeroError(f: Flag): (err: Option<string>)
    ensures err.Some? <==> f.zero == Undetermined
  {
    if f.zero == Undetermined then Some(UndeterminedZeroMessage(f.name)) else None
  }

  function UndeterminedZeroMessage(flagName: string): string
  {
    "could not determine if flag " + Quote(flagName) + " had a zero value"
  }

  /**
   * `fPrintUsage`: the line is built piece by piece: name, type, usage, variable hint,
   * default, newline. The undeterminable zero check is reported beside it.
   */
  method FPrintUsage(p: Parser, f: Flag) returns (line: string, err: Option<string>)
    ensures line == UsageLine(p, f)
    ensures err == ZeroError(f)
  {
    var b := "  -" + f.name;
    if |f.typeName| > 0 {
      b := b + (" " + f.typeName);
    }
    assert b == "  -" + f.name + TypePart(f);
    b := b + UsageIndent;
    b := b + IndentUsage(f.usage);
    var envVarName := FlagNameToEnvVarName(p, f.name);
    ghost var beforeHint := b;
    if envVarName != "" {
      b := b + EnvHintPrefix;
      b := b + envVarName;
      b := b + EnvHintSuffix;
      assert b == beforeHint + (EnvHintPrefix + envVarName + EnvHintSuffix);
    }
    assert b == beforeHint + EnvHint(envVarName);
    ghost var beforeDefault := b;
    if f.ValueKind() == BoolValue || !f.zero.IsZero? {
      if f.ValueKind() == StringValue {
        b := b + (" (default " + Quote(f.defValue) + ")");
      } else {
        b := b + (" (default " + f.defValue + ")");
      }
    }
    assert b == beforeDefault + DefaultSuffix(f);
    line := b + "\n";
    err := ZeroError(f);
  }

  /** The concatenated usage lines of `flags`. */
  function UsageLines(p: Parser, flags: seq<Flag>): string
    decreases |flags|
  {
    if flags == [] then ""
    else
      UsageLines(p, flags[..|flags| - 1]) + UsageLine(p, flags[|flags| - 1])
  }

  /** The zero-check errors of `flags`, in order. */
  function ZeroErrors(flags: seq<Flag>): seq<string>
    decreases |flags|
  {
    if flags == [] then []
    else
      var f := flags[|flags| - 1];
      ZeroErrors(flags[..|flags| - 1]) + (if f.zero == Undetermined then [UndeterminedZeroMessage(f.name)] else [])
  }

  /** Each error on its own line after an empty line; nothing when there is none. */
  function ErrorBlock(errs: seq<string>): string
  {
    if errs == [] then "" else "\n" + ErrorLines(errs)
  }

  function ErrorLines(errs: seq<string>): string
  {
    if errs == [] then "" else errs[0] + "\n" + ErrorLines(errs[1..])
  }

  /**
   * The function `Parser.Usage` returns, run once: the header, each flag's usage line in
   * `VisitAll` order, then the collected zero-check errors.
   */
  method Usage(p: Parser, fs: FlagSet) returns (output: string)
    ensures output == UsageHeader(fs.name) + UsageLines(p, fs.flags) + ErrorBlock(ZeroErrors(fs.flags))
  {
    if fs.name == "" {
      output := "Usage:\n";
    } else {
      output := "Usage of " + fs.name + ":\n";
    }
    var lines, errs := PrintFlagUsages(p, fs.flags);
    output := output + lines;
    if |errs| > 0 {
      var block := PrintErrors(errs);
      output := output + ("\n" + block);
    }
  }

  /** The `VisitAll` pass of `Usage`: every flag's usage line, and the zero-check errors met. */
  method PrintFlagUsages(p: Parser, flags: seq<Flag>) returns (lines: string, errs: seq<string>)
    ensures lines == UsageLines(p, flags) && errs == ZeroErrors(flags)
  {
    lines, errs := "", [];
    var i := 0;
    while i < |flags|
      invariant 0 <= i <= |flags|
      invariant lines == UsageLines(p, flags[..i])
      invariant errs == ZeroErrors(flags[..i])
    {
      assert flags[..i + 1][..i] == flags[..i];
      var line, err := FPrintUsage(p, flags[i]);
      lines := lines + line;
      if err.Some? {
        errs := errs + [err.value];
      }
      i := i + 1;
    }
    assert flags[..i] == flags;
  }

  /** The error lines of `Usage`, each followed by a newline. */
  method PrintErrors(errs: seq<string>) returns (block: string)
    ensures block == ErrorLines(errs)
  {
    block := "";
    var j := 0;
    while j < |errs|
      invariant 0 <= j <= |errs|
      invariant block + ErrorLines(errs[j..]) == ErrorLines(errs)
    {
      assert errs[j..][1..] == errs[j + 1..];
      assert block + (errs[j] + "\n") + ErrorLines(errs[j + 1..]) == block + (errs[j] + "\n" + ErrorLines(errs[j + 1..]));
      block := block + (errs[j] + "\n");
      j := j + 1;
    }
    assert errs[j..] == [];
  }

  /** A flag set without flags prints only its header: "Usage:\n" unnamed, "Usage of <name>:\n" named. */
  lemma EmptyFlagSetUsage(name: string)
    ensures UsageHeader(name) + UsageLines(Parser(None), []) + ErrorBlock(ZeroErrors([])) ==
              if name == "" then "Usage:\n" else "Usage of " + name + ":\n"
  {
  }

  /** The error block appears exactly when some flag's zero check was undeterminable. */
  lemma {:induction false} ErrorBlockIffUndetermined(flags: seq<Flag>)
    ensures ErrorBlock(ZeroErrors(flags)) != "" <==> exists i :: 0 <= i < |flags| && flags[i].zero == Undetermined
    decreases |flags|
  {
    if flags != [] {
      var init := flags[..|flags| - 1];
      ErrorBlockIffUndetermined(init);
      assert forall i :: 0 <= i < |init| ==> init[i] == flags[i];
      if ZeroErrors(flags) != [] {
        assert ErrorLines(ZeroErrors(flags)) != "";
      }
      if exists i :: 0 <= i < |init| && init[i].zero == Undetermined {
        assert ZeroErrors(init) != [] && ErrorBlock(ZeroErrors(init)) != "";
      }
    }
  }

  /**
   * The default is shown exactly for bool flags and for defaults not known to be zero; a
   * shown string default is quoted.
   */
  lemma DefaultShownRule(f: Flag)
    ensures DefaultSuffix(f) != "" <==> (f.ValueKind() == BoolValue || f.zero != IsZero)
    ensures ShowsDefault(f) && f.ValueKind() == StringValue ==> DefaultSuffix(f) == " (default " + Quote(f.defValue) + ")"
  {
  }

  /** The variable hint appears exactly when the variable name is not empty. */
  lemma EnvHintRule(envVarName: string)
    ensures EnvHint(envVarName) != "" <==> envVarName != ""
  {
  }

  // ---------------------------------------------------------------- FlagError

  /** The index of the flag named `name`, if any (`fs.Lookup`). */
  function LookupFlag(flags: seq<Flag>, name: string): (k: Option<nat>)
    ensures k.Some? ==> k.value < |flags| && flags[k.value].name == name
    ensures k.None? ==> forall i :: 0 <= i < |flags| ==> flags[i].name != name
    decreases |flags|
  {
    if flags == [] then None
    else if flags[|flags| - 1].name == name then Some(|flags| - 1)
    else LookupFlag(flags[..|flags| - 1], name)
  }

  /**
   * `Parser.FlagError`: for an unknown flag, the error `flag "<name>" does not exist` and
   * no output; otherwise "error with flag -<name>: <err>" is output, followed by that
   * flag's usage line, and returned as the error.
   */
  method FlagError(p: Parser, fs: FlagSet, flagName: string, err: string) returns (output: string, result: string)
    ensures LookupFlag(fs.flags, flagName).None? ==>
              output == "" && result == "flag " + Quote(flagName) + " does not exist"
    ensures LookupFlag(fs.flags, flagName).Some? ==>
              var f := fs.flags[LookupFlag(fs.flags, flagName).value];
              && result == "error with flag -" + flagName + ": " + err
              && output == result + "\n" + UsageLine(p, f)
  {
    var k := LookupFlag(fs.flags, flagName);
    if k.None? {
      return "", "flag " + Quote(flagName) + " does not exist";
    }
    var f := fs.flags[k.value];
    var msg := "error with flag -" + f.name + ": " + err;
    output := msg + "\n";
    var line, _ := FPrintUsage(p, f);
    output := output + line;
    result := msg;
  }

  /** Usage text without a newline is printed as is. */
  lemma {:induction false} IndentUsageNoNewline(usage: string)
    requires forall i :: 0 <= i < |usage| ==> usage[i] != '\n'
    ensures IndentUsage(usage) == usage
  {
    if usage != [] {
      IndentUsageNoNewline(usage[1..]);
    }
  }
}
