/**
 * The command lines the builder hands to the process executor: one template
 * per subcommand (`npm install`, `npm remove`, `npm link`, `npm unlink`,
 * `npm run`), together with a parser that reads the subcommand and its
 * operand back, so that the templates can be shown to be unambiguous.
 */
module Commands {
  import opened Wrappers
  import opened Flags

  /**
   * The save flag of `install`: `save` wins over `saveDev`, and neither gives
   * the empty flag. (JavaScript's `undefined` options are `false` here.)
   */
  function SaveMode(save: bool, saveDev: bool): (mode: string)
    ensures mode == "--save" <==> save
    ensures mode == "--save-dev" <==> !save && saveDev
    ensures mode == "" <==> !save && !saveDev
  {
    if save then "--save" else if saveDev then "--save-dev" else ""
  }

  /** The five subcommands. */
  datatype Verb = InstallVerb | RemoveVerb | LinkVerb | UnlinkVerb | RunVerb

  /** One command, with the operands its template interpolates. */
  datatype Command =
    | Install(pkg: string, saveMode: string)
    | Remove(pkg: string)
    | Link(pkg: string)
    | Unlink(pkg: string)
    | Run(script: string, args: seq<string>)
  {
    function Verb(): Verb {
      match this
      case Install(_, _) => InstallVerb
      case Remove(_) => RemoveVerb
      case Link(_) => LinkVerb
      case Unlink(_) => UnlinkVerb
      case Run(_, _) => RunVerb
    }
  }

  /** The fixed text every command line of a subcommand starts with. */
  function Prefix(v: Verb): (p: string)
    ensures |p| > 5 && p[..4] == "npm " && p[|p| - 1] == ' '
  {
    match v
    case InstallVerb => "npm install "
    case RemoveVerb => "npm remove "
    case LinkVerb => "npm link "
    case UnlinkVerb => "npm unlink "
    case RunVerb => "npm run "
  }

  /**
   * The text `run` puts after the script name. The source guards it with
   * `this.args ? ... : ""`, but `args` is always an array and arrays are
   * truthy, so the separator `--` is always there, followed by the
   * arguments joined with single spaces.
   */
  function PassThrough(args: seq<string>): string {
    "-- " + Join(args)
  }

  /** The exact command line of a command. */
  function Line(c: Command): (line: string)
    ensures |Prefix(c.Verb())| <= |line| && line[..|Prefix(c.Verb())|] == Prefix(c.Verb())
  {
    match c
    case Install(m, mode) => "npm install " + m + " " + mode
    case Remove(m) => "npm remove " + m
    case Link(m) => "npm link " + m
    case Unlink(m) => "npm unlink " + m
    case Run(s, args) => "npm run " + s + " " + PassThrough(args)
  }

  predicate StartsWith(s: string, p: string) {
    |p| <= |s| && s[..|p|] == p
  }

  /** Reads the subcommand off the front of a command line. */
  function ParseVerb(line: string): (v: Option<Verb>)
    ensures v.Some? ==> StartsWith(line, Prefix(v.value))
  {
    if StartsWith(line, "npm install ") then Some(InstallVerb)
    else if StartsWith(line, "npm remove ") then Some(RemoveVerb)
    else if StartsWith(line, "npm link ") then Some(LinkVerb)
    else if StartsWith(line, "npm unlink ") then Some(UnlinkVerb)
    else if StartsWith(line, "npm run ") then Some(RunVerb)
    else None
  }

  /** Reads back a `remove`, `link` or `unlink` command: the operand is the rest of the line. */
  function ParseModuleCommand(line: string): (c: Option<Command>)
    ensures c.Some? ==> (c.value.Remove? || c.value.Link? || c.value.Unlink?) && Line(c.value) == line
  {
    match ParseVerb(line)
    case Some(RemoveVerb) => Some(Remove(line[|Prefix(RemoveVerb)|..]))
    case Some(LinkVerb) => Some(Link(line[|Prefix(LinkVerb)|..]))
    case Some(UnlinkVerb) => Some(Unlink(line[|Prefix(UnlinkVerb)|..]))
    case _ => None
  }

  // ---------------------------------------------------------------------------
  // The templates are unambiguous

  /** Two different subcommands never share a prefix: one differs from the other at the fifth or sixth character. */
  lemma PrefixesDiffer(v: Verb, w: Verb)
    requires v != w
    ensures !StartsWith(Prefix(v), Prefix(w)) && !StartsWith(Prefix(w), Prefix(v))
  {
    var p, q := Prefix(v), Prefix(w);
    assert |p| > 5 && |q| > 5;
    assert p[4] != q[4] || p[5] != q[5];
  }

  /** The subcommand of every command line is the one it was built from. */
  lemma VerbRoundTrip(c: Command)
    ensures ParseVerb(Line(c)) == Some(c.Verb())
  {
  }

  /** `remove`, `link` and `unlink` lines give back exactly the module they were built from. */
  lemma ModuleCommandRoundTrip(c: Command)
    requires c.Remove? || c.Link? || c.Unlink?
    ensures ParseModuleCommand(Line(c)) == Some(c)
  {
  }

  // ---------------------------------------------------------------------------
  // install

  /** `save` decides alone whenever it is set: `saveDev` does not change the line. */
  lemma SaveHasPriority(pkg: string, saveDev: bool)
    ensures Line(Install(pkg, SaveMode(true, saveDev))) == Line(Install(pkg, SaveMode(true, false)))
    ensures Line(Install(pkg, SaveMode(true, saveDev))) == "npm install " + pkg + " --save"
  {
  }

  /** The save flag is the last word of an install line: what follows `npm install <module> `. */
  lemma InstallModeRecoverable(pkg: string, save: bool, saveDev: bool)
    ensures Line(Install(pkg, SaveMode(save, saveDev)))[|pkg| + 13..] == SaveMode(save, saveDev)
    ensures Line(Install(pkg, SaveMode(save, saveDev)))[..|pkg| + 12] == "npm install " + pkg
    ensures Line(Install(pkg, SaveMode(save, saveDev)))[|pkg| + 12] == ' '
  {
  }

  /** The last character of an install line tells the save flag apart: a space, `e` or `v`. */
  lemma InstallLastChar(pkg: string, save: bool, saveDev: bool)
    ensures Line(Install(pkg, SaveMode(save, saveDev)))[|Line(Install(pkg, SaveMode(save, saveDev)))| - 1]
            == if save then 'e' else if saveDev then 'v' else ' '
  {
  }

  /**
   * Install lines are unambiguous: the same line comes only from the same
   * package and the same save flag.
   */
  lemma InstallLineInjective(p1: string, s1: bool, d1: bool, p2: string, s2: bool, d2: bool)
    requires Line(Install(p1, SaveMode(s1, d1))) == Line(Install(p2, SaveMode(s2, d2)))
    ensures p1 == p2 && SaveMode(s1, d1) == SaveMode(s2, d2)
  {
    var m1, m2 := SaveMode(s1, d1), SaveMode(s2, d2);
    InstallLastChar(p1, s1, d1);
    InstallLastChar(p2, s2, d2);
    assert m1 == m2;
    var l1 := "npm install " + p1 + " " + m1;
    var l2 := "npm install " + p2 + " " + m2;
    assert l1 == Line(Install(p1, m1)) && l2 == Line(Install(p2, m2));
    assert |p1| == |p2|;
    assert l1[12..12 + |p1|] == p1;
    assert l2[12..12 + |p2|] == p2;
  }

  /** `install("x", { save: true, saveDev: true })` runs `npm install x --save`. */
  lemma InstallExample()
    ensures Line(Install("x", SaveMode(true, true))) == "npm install x --save"
  {
  }

  /** With every argument omitted, `install()` runs `npm install` followed by two spaces. */
  lemma InstallDefaults()
    ensures Line(Install("", SaveMode(false, false))) == "npm install  "
  {
  }

  // ---------------------------------------------------------------------------
  // run

  /** A run line is `npm run <script> -- ` followed by the arguments joined with single spaces. */
  lemma RunLineShape(script: string, args: seq<string>)
    ensures Line(Run(script, args))[..|script| + 12] == "npm run " + script + " -- "
    ensures Line(Run(script, args))[|script| + 12..] == Join(args)
  {
  }

  /** Arguments without spaces can be read back off a run line by splitting at spaces. */
  lemma RunArgsRecoverable(script: string, args: seq<string>)
    requires args != []
    requires forall i :: 0 <= i < |args| ==> ' ' !in args[i]
    ensures Split(Line(Run(script, args))[|script| + 12..]) == args
  {
    RunLineShape(script, args);
    SplitJoin(args);
  }

  /** Without arguments the separator is still emitted: `npm run build -- `. */
  lemma RunWithoutArgs()
    ensures Line(Run("build", [])) == "npm run build -- "
  {
  }

  /** With the arguments `["--flag"]`: `npm run build -- --flag`. */
  lemma RunWithFlag()
    ensures Line(Run("build", ["--flag"])) == "npm run build -- --flag"
  {
  }

  /** `link()` and `unlink()` without a module leave a trailing space. */
  lemma LinkDefaults()
    ensures Line(Link("")) == "npm link "
    ensures Line(Unlink("")) == "npm unlink "
  {
  }
}
