/** The command line that `open` in index.ts builds for a target: the program to
    spawn and its argument vector, per operating-system family. The ambient
    facts the source reads at run time (the OS, WSL, where the module lives,
    whether the bundled `xdg-open` is a regular file) arrive as a Context value. */
module Launcher {
  import opened Wrappers
  import Paths
  import Escaping

  datatype Os = Darwin | Windows | Other

  /** The `app` option: absent, one program, or a program followed by its own arguments. */
  datatype App = NoApp | Single(name: string) | List(items: seq<string>)

  /** The options as the caller passes them. A `None` flag is an absent key or an
      explicit `undefined`: both are falsy in the source, exactly like the default. */
  datatype OpenOptions = OpenOptions(wait: Option<bool>, background: Option<bool>, app: App, url: Option<bool>)

  /** The options after merging over the defaults `wait`, `background`, `url` = false. */
  datatype Settings = Settings(wait: bool, background: bool, app: App, url: bool)

  /** `modulePath` is the string getDir reads: the pathname of the module's URL when
      that is a `file:` URL, otherwise the whole URL; `localHelperPath` is the joined
      path of the bundled `xdg-open`. */
  datatype Context = Context(os: Os, wsl: bool, modulePath: string, localHelperPath: string, helperIsFile: bool)

  datatype Launch = Launch(command: string, args: seq<string>)

  /** `app` split into the program and the extra arguments for it. */
  datatype AppSplit = AppSplit(program: Option<string>, extras: seq<string>)

  /** The programs and fixed arguments the launcher uses. */
  const MacOpen := "open"
  const Cmd := "cmd"
  const WslView := "wslview"
  const XdgOpen := "xdg-open"
  const WaitApps := "--wait-apps"
  const Background := "--background"
  const AppSwitch := "-a"
  const ArgsSeparator := "--args"
  const WaitSwitch := "/wait"
  /** `/c start` with the empty window title that `start` expects before the target. */
  const StartPrefix: seq<string> := ["/c", "start", ""]

  const NoOptions := OpenOptions(None, None, NoApp, None)

  function Flag(f: Option<bool>): bool
  {
    match f
    case None => false
    case Some(b) => b
  }

  /** Merges the caller's options over the defaults. */
  function WithDefaults(o: OpenOptions): (s: Settings)
    ensures s.wait <==> o.wait == Some(true)
    ensures s.background <==> o.background == Some(true)
    ensures s.url <==> o.url == Some(true)
    ensures s.app == o.app
  {
    Settings(Flag(o.wait), Flag(o.background), o.app, Flag(o.url))
  }

  /** An array `app` gives its first element as the program and the rest, in order,
      as extra arguments; an empty array leaves the program `undefined`. */
  function SplitApp(app: App): (r: AppSplit)
    ensures app.List? && app.items != [] ==> r.program == Some(app.items[0]) && [r.program.value] + r.extras == app.items
    ensures app.List? && app.items == [] ==> r.program == None && r.extras == []
    ensures app.Single? ==> r.program == Some(app.name) && r.extras == []
    ensures app.NoApp? ==> r.program == None && r.extras == []
  {
    match app
    case NoApp => AppSplit(None, [])
    case Single(name) => AppSplit(Some(name), [])
    case List(items) => AppSplit(if items == [] then None else Some(items[0]), if items == [] then [] else items[1..])
  }

  /** The truthiness test the source applies to the program: `undefined` and the
      empty string both mean that no app was given. */
  predicate AppGiven(program: Option<string>)
  {
    program.Some? && program.value != ""
  }

  /** Running from a bundle: the module's own directory is empty or the root. */
  predicate IsBundled(ownDir: string)
  {
    ownDir == "" || ownDir == "/"
  }

  /** The opener used on other platforms when there is no app and no WSL. */
  function FallbackOpener(ctx: Context): (cmd: string)
    ensures cmd == XdgOpen || cmd == ctx.localHelperPath
    ensures cmd == ctx.localHelperPath && cmd != XdgOpen ==> ctx.helperIsFile && !IsBundled(Paths.GetDir(ctx.modulePath))
  {
    var useSystemXdgOpen := IsBundled(Paths.GetDir(ctx.modulePath)) || !ctx.helperIsFile;
    if useSystemXdgOpen then XdgOpen else ctx.localHelperPath
  }

  /** The program spawned on other platforms: the app, else `wslview`, else the fallback. */
  function OtherCommand(program: Option<string>, ctx: Context): string
  {
    if AppGiven(program) then program.value
    else if ctx.wsl then WslView
    else FallbackOpener(ctx)
  }

  function When(b: bool, s: seq<string>): seq<string>
  {
    if b then s else []
  }

  function AppFlag(program: Option<string>): seq<string>
  {
    if AppGiven(program) then [AppSwitch, program.value] else []
  }

  function AppName(program: Option<string>): seq<string>
  {
    if AppGiven(program) then [program.value] else []
  }

  /** The target as placed on the command line: URI-encoded when asked. */
  function EffectiveTarget(target: string, s: Settings, encodeUri: string -> string): string
  {
    if s.url then encodeUri(target) else target
  }

  /** The command line for each platform, written as one closed form per platform. */
  function CommandLine(target: string, options: OpenOptions, ctx: Context, encodeUri: string -> string): (l: Launch)
    ensures ctx.os == Darwin ==> l.command == "open"
    ensures ctx.os == Windows ==> l.command == "cmd" && |l.args| > 3 && l.args[..3] == ["/c", "start", ""]
    ensures ctx.os == Other && !AppGiven(SplitApp(options.app).program) && !ctx.wsl ==> l.command in {"xdg-open", ctx.localHelperPath}
  {
    var s := WithDefaults(options);
    var split := SplitApp(s.app);
    var t := EffectiveTarget(target, s, encodeUri);
    match ctx.os
    case Darwin =>
      Launch(MacOpen, When(s.wait, [WaitApps]) + When(s.background, [Background])
                     + AppFlag(split.program) + [t] + When(split.extras != [], [ArgsSeparator] + split.extras))
    case Windows =>
      Launch(Cmd, StartPrefix + When(s.wait, [WaitSwitch]) + AppName(split.program)
                    + split.extras + [Escaping.EscapeAmpersands(t)])
    case Other =>
      Launch(OtherCommand(split.program, ctx), split.extras + [t])
  }

  /** The darwin options pushed before the target: `--wait-apps`, `--background`, `-a app`. */
  method DarwinOptions(opts: Settings, app: Option<string>) returns (cliArguments: seq<string>)
    ensures cliArguments == When(opts.wait, [WaitApps]) + When(opts.background, [Background]) + AppFlag(app)
  {
    cliArguments := [];
    if opts.wait {
      cliArguments := cliArguments + [WaitApps];
    }
    if opts.background {
      cliArguments := cliArguments + [Background];
    }
    if AppGiven(app) {
      cliArguments := cliArguments + [AppSwitch, app.value];
    }
  }

  /** The Windows arguments pushed before the target: the `start` invocation with its
      empty title, `/wait`, the app and the app's own arguments. */
  method WindowsOptions(opts: Settings, app: Option<string>, appArguments: seq<string>) returns (cliArguments: seq<string>)
    ensures cliArguments == StartPrefix + When(opts.wait, [WaitSwitch]) + AppName(app) + appArguments
  {
    cliArguments := StartPrefix;
    if opts.wait {
      cliArguments := cliArguments + [WaitSwitch];
    }
    if AppGiven(app) {
      cliArguments := cliArguments + [app.value];
    }
    if |appArguments| > 0 {
      cliArguments := cliArguments + appArguments;
    }
  }

  /** The program chosen on other platforms: the app, else `wslview` under WSL, else
      `xdg-open` when bundled or when the local helper is not a regular file, else
      the local helper. */
  method OtherCommandOf(app: Option<string>, ctx: Context) returns (command: string)
    ensures command == OtherCommand(app, ctx)
  {
    if AppGiven(app) {
      command := app.value;
    } else if ctx.wsl {
      command := WslView;
    } else {
      var ownDir := Paths.GetDir(ctx.modulePath);
      var isBundled := ownDir == "" || ownDir == "/";
      var useSystemXdgOpen := isBundled || !ctx.helperIsFile;
      command := if useSystemXdgOpen then XdgOpen else ctx.localHelperPath;
    }
  }

  /** Builds the command line the way `open` does: the options are merged and the
      app array split in place, the arguments before the target are pushed per
      platform, then the target and, on darwin, `--args` with the app's arguments. */
  method Open(target: string, options: OpenOptions, ctx: Context, encodeUri: string -> string)
    returns (command: string, args: seq<string>)
    ensures Launch(command, args) == CommandLine(target, options, ctx, encodeUri)
  {
    var opts := WithDefaults(options);
    var app: Option<string>;
    var appArguments: seq<string> := [];
    match opts.app {
      case NoApp => app := None;
      case Single(name) => app := Some(name);
      case List(items) =>
        appArguments := if items == [] then [] else items[1..];
        app := if items == [] then None else Some(items[0]);
    }
    assert AppSplit(app, appArguments) == SplitApp(options.app);
    var t := target;
    if opts.url {
      t := encodeUri(t);
    }
    assert t == EffectiveTarget(target, opts, encodeUri);
    var cliArguments: seq<string>;
    if ctx.os == Darwin {
      command := MacOpen;
      cliArguments := DarwinOptions(opts, app);
    } else if ctx.os == Windows {
      command := Cmd;
      cliArguments := WindowsOptions(opts, app, appArguments);
    } else {
      command := OtherCommandOf(app, ctx);
      cliArguments := [];
      if |appArguments| > 0 {
        cliArguments := cliArguments + appArguments;
      }
    }
    if ctx.os == Windows {
      cliArguments := cliArguments + [Escaping.EscapeAmpersands(t)];
    } else {
      cliArguments := cliArguments + [t];
    }
    if ctx.os == Darwin && |appArguments| > 0 {
      cliArguments := cliArguments + [ArgsSeparator] + appArguments;
    }
    args := cliArguments;
  }

  /** Where the target lands: last on every platform (escaped on Windows), except on
      darwin with app arguments, where `--args` and those arguments follow it. */
  lemma TargetPlacement(target: string, options: OpenOptions, ctx: Context, encodeUri: string -> string)
    ensures var l := CommandLine(target, options, ctx, encodeUri);
            var extras := SplitApp(options.app).extras;
            var t := EffectiveTarget(target, WithDefaults(options), encodeUri);
            if ctx.os == Darwin && extras != [] then
              |l.args| >= |extras| + 2 && l.args[|l.args| - |extras| - 2] == t
              && l.args[|l.args| - |extras| - 1..] == ["--args"] + extras
            else
              l.args != [] && l.args[|l.args| - 1] == (if ctx.os == Windows then Escaping.EscapeAmpersands(t) else t)
  {
  }

  /** The app's own arguments are forwarded unchanged and in order: first on other
      platforms, just before the target on Windows, at the very end on darwin. */
  lemma ExtrasForwarded(target: string, options: OpenOptions, ctx: Context, encodeUri: string -> string)
    ensures var args := CommandLine(target, options, ctx, encodeUri).args;
            var extras := SplitApp(options.app).extras;
            match ctx.os
            case Other => args[..|extras|] == extras
            case Windows => |args| > |extras| && args[|args| - 1 - |extras|..|args| - 1] == extras
            case Darwin => args[|args| - |extras|..] == extras
  {
  }

  /** The number of arguments on each platform: one per flag that is on, two for
      `-a app` and one for a Windows app, the target, and the app arguments (with
      `--args` in front of them on darwin). */
  lemma ArgumentCount(target: string, options: OpenOptions, ctx: Context, encodeUri: string -> string)
    ensures var s := WithDefaults(options);
            var split := SplitApp(options.app);
            var n := |CommandLine(target, options, ctx, encodeUri).args|;
            var given := if AppGiven(split.program) then 1 else 0;
            var extras := |split.extras|;
            match ctx.os
            case Darwin => n == (if s.wait then 1 else 0) + (if s.background then 1 else 0) + 2 * given + 1
                                + (if extras > 0 then 1 + extras else 0)
            case Windows => n == 3 + (if s.wait then 1 else 0) + given + extras + 1
            case Other => n == extras + 1
  {
  }

  /** `wait` and `background` leave the command line of other platforms untouched, and
      `background` leaves the Windows one untouched. */
  lemma FlagsWithoutEffect(target: string, options: OpenOptions, ctx: Context, encodeUri: string -> string, wait: Option<bool>, background: Option<bool>)
    ensures ctx.os == Other ==>
      CommandLine(target, options.(wait := wait, background := background), ctx, encodeUri) == CommandLine(target, options, ctx, encodeUri)
    ensures ctx.os == Windows ==>
      CommandLine(target, options.(background := background), ctx, encodeUri) == CommandLine(target, options, ctx, encodeUri)
  {
  }

  /** `url` changes nothing but the target, which is replaced by its encoding. */
  lemma UrlEncodesOnlyTarget(target: string, options: OpenOptions, ctx: Context, encodeUri: string -> string)
    ensures CommandLine(target, options.(url := Some(true)), ctx, encodeUri)
         == CommandLine(encodeUri(target), options.(url := None), ctx, encodeUri)
  {
  }

  /** An empty-string app and an empty app array are both the same as no app. */
  lemma EmptyAppIsNoApp(target: string, options: OpenOptions, ctx: Context, encodeUri: string -> string)
    ensures CommandLine(target, options.(app := Single("")), ctx, encodeUri) == CommandLine(target, options.(app := NoApp), ctx, encodeUri)
    ensures CommandLine(target, options.(app := List([])), ctx, encodeUri) == CommandLine(target, options.(app := NoApp), ctx, encodeUri)
  {
  }

  /** An app array `[x, flag]` without other options: on other platforms `x` is the
      program and `flag` precedes the target; on darwin `open -a x target --args flag`;
      on Windows `cmd /c start "" x flag target`. */
  lemma AppArrayExample(target: string, x: string, flag: string, ctx: Context, encodeUri: string -> string)
    requires x != ""
    ensures var l := CommandLine(target, NoOptions.(app := List([x, flag])), ctx, encodeUri);
            match ctx.os
            case Other => l == Launch(x, [flag, target])
            case Darwin => l == Launch("open", ["-a", x, target, "--args", flag])
            case Windows => l == Launch("cmd", ["/c", "start", "", x, flag, Escaping.EscapeAmpersands(target)])
  {
    var options := NoOptions.(app := List([x, flag]));
    assert SplitApp(options.app) == AppSplit(Some(x), [flag]);
    assert WithDefaults(options) == Settings(false, false, options.app, false);
  }

  /** With no options the last argument is the target itself on every platform, as
      long as it holds no `&` (which Windows quotes). */
  lemma BareTargetLast(target: string, ctx: Context, encodeUri: string -> string)
    ensures var args := CommandLine(target, NoOptions, ctx, encodeUri).args;
            args != [] && (ctx.os != Windows || '&' !in target ==> args[|args| - 1] == target)
  {
  }

  /** Where the bundled helper is and whether it is a file matter only on other
      platforms with no app and no WSL, the one case that probes the file system. */
  lemma ProbeOnlyForFallback(target: string, options: OpenOptions, ctx: Context, encodeUri: string -> string,
                             modulePath: string, localHelperPath: string, helperIsFile: bool)
    requires ctx.os != Other || AppGiven(SplitApp(options.app).program) || ctx.wsl
    ensures var other := ctx.(modulePath := modulePath, localHelperPath := localHelperPath, helperIsFile := helperIsFile);
            CommandLine(target, options, other, encodeUri) == CommandLine(target, options, ctx, encodeUri)
  {
  }

  /** A module that sits in a real directory, next to a helper that is a regular
      file, launches that helper; a missing helper always gives `xdg-open`. */
  lemma FallbackChoice(ctx: Context, dir: string, name: string)
    requires '/' !in name && dir != "" && dir != "/"
    requires ctx.modulePath == dir + "/" + name
    ensures FallbackOpener(ctx) == if ctx.helperIsFile then ctx.localHelperPath else "xdg-open"
  {
    Paths.GetDirOfChild(dir, name);
  }

  /** A module at the root of the file system counts as bundled and always falls
      back to the system `xdg-open`, whatever the probe says. */
  lemma BundledFallsBack(ctx: Context, name: string)
    requires '/' !in name
    requires ctx.modulePath == "/" + name
    ensures FallbackOpener(ctx) == "xdg-open"
  {
    assert ctx.modulePath == "" + "/" + name;
    Paths.GetDirOfChild("", name);
  }

  /** A module path without any `/` is its own directory, so it is not bundled: the
      helper is used whenever it is a regular file. */
  lemma SlashFreePathNotBundled(ctx: Context)
    requires '/' !in ctx.modulePath && ctx.modulePath != ""
    ensures FallbackOpener(ctx) == if ctx.helperIsFile then ctx.localHelperPath else "xdg-open"
  {
    assert Paths.GetDir(ctx.modulePath) == ctx.modulePath;
    assert ctx.modulePath != "/" by {
      assert "/"[0] == '/';
    }
  }
}
