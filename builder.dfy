/**
 * The `npm` builder: a working directory, an output mode and a list of
 * pass-through arguments, changed in place by fluent setters that return the
 * same instance, and five subcommands that run one command line each.
 *
 * Running a process is not modelled: a synchronous call hands its command
 * line and the current options to an `Executor`, whose `None` stands for
 * "`execSync` threw"; an asynchronous call is modelled by the `Launch` it
 * hands to `exec`.
 */
module Builder {
  import opened Wrappers
  import opened Flags
  import opened Commands

  /** Whether the child's output is shown in the console. */
  datatype Stdio = Inherit | Ignore

  /** The options object passed to the process: `{ cwd?, stdio }`. */
  datatype Options = Options(cwd: Option<string>, stdio: Stdio)

  /** `execSync` followed by `toString()`: the output, or `None` when it throws. */
  type Executor = (string, Options) -> Option<string>

  /** What an asynchronous call hands to `exec`: the command line and the options. */
  datatype Launch = Launch(command: string, options: Options)

  /** The argument of `arguments(...)`: a flag map, or `false`. */
  datatype ArgSource = Disabled | FromMap(flags: FlagMap)

  /** The argument list `arguments(source)` stores. */
  function ArgsOf(source: ArgSource): (args: seq<string>)
    ensures source.Disabled? ==> args == []
    ensures source.FromMap? ==> |args| == |Kept(source.flags)|
    ensures source.FromMap? ==> forall i :: 0 <= i < |args| ==>
      args[i] == RenderEntry(Kept(source.flags)[i].0, Kept(source.flags)[i].1)
  {
    match source
    case Disabled => []
    case FromMap(m) =>
      RenderFlagsKept(m);
      RenderFlags(m)
  }

  class Npm {
    var options: Options
    var args: seq<string>

    /**
     * A new builder: output shown, no working directory, and the process's
     * command-line arguments after the program and script path.
     */
    constructor (argv: seq<string>)
      ensures options == Options(None, Inherit)
      ensures args == if |argv| < 2 then [] else argv[2..]
    {
      options := Options(None, Inherit);
      args := if |argv| < 2 then [] else argv[2..];
    }

    /** Sets (or, with `None`, clears) the working directory; nothing else changes. */
    method Cwd(dir: Option<string>) returns (self: Npm)
      modifies this
      ensures self == this
      ensures options == Options(dir, old(options).stdio)
      ensures args == old(args)
    {
      options := options.(cwd := dir);
      self := this;
    }

    /** Shows the output when `value` holds, hides it otherwise; nothing else changes. */
    method Output(value: bool := true) returns (self: Npm)
      modifies this
      ensures self == this
      ensures options.stdio == Inherit <==> value
      ensures options.cwd == old(options).cwd
      ensures args == old(args)
    {
      options := options.(stdio := if value then Inherit else Ignore);
      self := this;
    }

    /** Replaces the argument list with the rendering of `source`; the options do not change. */
    method Arguments(source: ArgSource) returns (self: Npm)
      modifies this
      ensures self == this
      ensures args == ArgsOf(source)
      ensures options == old(options)
    {
      if source.Disabled? {
        args := [];
        self := this;
        return;
      }
      args := RenderFlags(source.flags);
      self := this;
    }

    /** The save flag `install` and `installAsync` compute, `save` first. */
    static method ComputeSaveMode(save: bool, saveDev: bool) returns (saveMode: string)
      ensures saveMode == SaveMode(save, saveDev)
    {
      saveMode := "";
      if save {
        saveMode := "--save";
      } else if saveDev {
        saveMode := "--save-dev";
      }
    }

    /** `npm install <pkg> <saveMode>`; the argument list is not used. */
    method Install(exec: Executor, pkg: string := "", save: bool := false, saveDev: bool := false)
      returns (output: Option<string>)
      ensures output == exec(Line(Command.Install(pkg, SaveMode(save, saveDev))), options)
    {
      var saveMode := ComputeSaveMode(save, saveDev);
      output := exec(Line(Command.Install(pkg, saveMode)), options);
    }

    method InstallAsync(pkg: string := "", save: bool := false, saveDev: bool := false)
      returns (launch: Launch)
      ensures launch == Launch(Line(Command.Install(pkg, SaveMode(save, saveDev))), options)
    {
      var saveMode := ComputeSaveMode(save, saveDev);
      launch := Launch(Line(Command.Install(pkg, saveMode)), options);
    }

    /** `npm remove <pkg>`. */
    method Remove(exec: Executor, pkg: string) returns (output: Option<string>)
      ensures output == exec(Line(Command.Remove(pkg)), options)
    {
      output := exec(Line(Command.Remove(pkg)), options);
    }

    method RemoveAsync(pkg: string) returns (launch: Launch)
      ensures launch == Launch(Line(Command.Remove(pkg)), options)
    {
      launch := Launch(Line(Command.Remove(pkg)), options);
    }

    /** `npm link <pkg>`. */
    method Link(exec: Executor, pkg: string := "") returns (output: Option<string>)
      ensures output == exec(Line(Command.Link(pkg)), options)
    {
      output := exec(Line(Command.Link(pkg)), options);
    }

    method LinkAsync(pkg: string := "") returns (launch: Launch)
      ensures launch == Launch(Line(Command.Link(pkg)), options)
    {
      launch := Launch(Line(Command.Link(pkg)), options);
    }

    /** `npm unlink <pkg>`. */
    method Unlink(exec: Executor, pkg: string := "") returns (output: Option<string>)
      ensures output == exec(Line(Command.Unlink(pkg)), options)
    {
      output := exec(Line(Command.Unlink(pkg)), options);
    }

    method UnlinkAsync(pkg: string := "") returns (launch: Launch)
      ensures launch == Launch(Line(Command.Unlink(pkg)), options)
    {
      launch := Launch(Line(Command.Unlink(pkg)), options);
    }

    /** `npm run <script> -- <args>`: the only subcommand that uses the argument list. */
    method Run(exec: Executor, script: string) returns (output: Option<string>)
      ensures output == exec(Line(Command.Run(script, args)), options)
    {
      output := exec(Line(Command.Run(script, args)), options);
    }

    method RunAsync(script: string) returns (launch: Launch)
      ensures launch == Launch(Line(Command.Run(script, args)), options)
    {
      launch := Launch(Line(Command.Run(script, args)), options);
    }
  }

  /** The module's default export: a fresh builder. */
  method NewNpm(argv: seq<string>) returns (n: Npm)
    ensures fresh(n)
    ensures n.options == Options(None, Inherit)
    ensures n.args == if |argv| < 2 then [] else argv[2..]
  {
    n := new Npm(argv);
  }

  /**
   * A caller's chain: `arguments(false)` empties the argument list whatever
   * it held, so the following `run` emits the separator alone, in the
   * directory and output mode set before.
   */
  method DisabledArgumentsChain(exec: Executor, argv: seq<string>) returns (output: Option<string>)
    ensures output == exec("npm run build -- ", Options(Some("app"), Ignore))
  {
    var n := new Npm(argv);
    var same := n.Cwd(Some("app"));
    same := same.Output(false);
    same := same.Arguments(Disabled);
    RunWithoutArgs();
    output := n.Run(exec, "build");
  }

  /**
   * The first usage example of the source's doc comment, as the code runs it:
   * the key `--no-save` is stored as `----no-save`, and `install` does not
   * use the argument list at all.
   */
  method DocExampleInstall(exec: Executor, argv: seq<string>) returns (output: Option<string>, stored: seq<string>)
    ensures stored == ["----no-save"]
    ensures output == exec("npm install express ", Options(None, Inherit))
  {
    var n := new Npm(argv);
    var same := n.Arguments(FromMap([("--no-save", Str(""))]));
    DoubleDashKey();
    stored := n.args;
    output := same.Install(exec, "express");
    assert Line(Command.Install("express", SaveMode(false, false))) == "npm install express ";
  }
}
