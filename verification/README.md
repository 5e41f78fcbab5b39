# deno-open, modelled in Dafny

`open(target, options)` in `index.ts` opens a file or URL with the operating
system's default handler. It builds a command line per platform, spawns it and,
when asked, waits for the process to end. This project models that logic as
plain values. Its input is the target, the options and a `Context` value, which
holds the facts the source reads from its environment: the OS family, whether it
runs under WSL, the path of the module file, the joined path of the bundled
`xdg-open`, and whether that helper is a regular file.

- `paths.dfy`, module `Paths`: `getDir`, which removes the last `/` and everything after it.
- `escaping.dfy`, module `Escaping`: the Windows quoting of `&` as `"&"`, with an
  inverse (`Unquote`) that shows the quoting loses nothing.
- `launcher.dfy`, module `Launcher`: merging the options over their defaults;
  splitting an `app` array into program and extra arguments; the truthiness of
  `app`; the fallback opener (`isBundled` / `useSystemXdgOpen`). `CommandLine` is
  the reference definition: one closed form per platform (darwin, Windows,
  other). `Open` builds the same `(command, args)` the way the source does: it
  merges and splits in place, then grows the argument vector push by push. The
  pushes before the target are in three per-platform helper methods. The
  lemmas state where the target lands, that the extra arguments are forwarded
  in order, how many arguments there are, which options have no effect where,
  and when the helper probe matters.
- `wait_mode.dfy`, module `WaitMode`: the outcome of waiting, from the first
  stderr chunk and the exit code. `Deferred` models a promise that only its
  first `resolve`/`reject` settles. `RunWaitExecutor` replays the source's
  executor statement by statement: the stderr `reject` does not return, so a
  positive exit code calls `reject` a second time, and that second call is
  ignored. It is proved equal to `WaitOutcome`, in which stderr takes
  precedence.
- `wrappers.dfy`, module `Wrappers`: `Option`, which stands for a value that may be `undefined`.

JavaScript details kept in the model:
- A flag that is absent or explicitly `undefined` is falsy, the same as its default `false`.
- An app that is the empty string counts as "no app" (the truthiness test at
  `index.ts` lines 103, 114 and 123). So does the `undefined` that an empty
  `app` array leaves behind. An array's extra arguments are forwarded even when
  its first element is empty.
- The third fixed Windows argument is the empty string, because the code pushes
  `''`. On a `cmd` command line an empty argument is written `""`; the model
  keeps the empty string itself.
- A module path without any `/` is its own directory, so it does not count as
  bundled (`SlashFreePathNotBundled`).

## Model

| member | source | states |
|---|---|---|
| `Paths.GetDir` | index.ts:10-15 | The result is a prefix of the path. A path without `/` comes back unchanged. Otherwise the path has a `/` right after the result, and no `/` after that one, so exactly the last `/` and its tail are removed. |
| `Paths.GetDirOfChild` | index.ts:13 | The directory of `dir/name`, for a `name` without `/`, is `dir`: this is how the module's own directory is read from its path. |
| `Escaping.EscapeAmpersands` | index.ts:143-144 | The output is as long as the input plus two per `&`. It holds the same number of `&`, and it equals the input when the input holds no `&`. |
| `Escaping.EscapeAppend` | index.ts:144 | Escaping works one character at a time: it distributes over concatenation. |
| `Escaping.AmpersandsQuoted` | index.ts:143-144 | Every `&` of the escaped target stands between two `"`. |
| `Escaping.UnquoteEscape` | index.ts:143-144 | Removing the inserted quotes gives back the target, so escaping is injective and keeps every other character in order. |
| `Escaping.EscapeExample` | index.ts:144 | `a&b` becomes `a"&"b`. |
| `Launcher.WithDefaults` | index.ts:68-74 | After merging, a flag is on exactly when the caller passed `true`; `app` is kept as given. |
| `Launcher.SplitApp` | index.ts:80-83 | A non-empty array gives its first element as the program, and the program followed by the extras rebuilds the array. An empty array gives no program and no extras. A string gives itself and no extras. |
| `Launcher.FallbackOpener` | index.ts:128-135 | The opener is `xdg-open` or the local helper path. It is the helper (when that differs from `xdg-open`) only if the helper is a regular file and the own directory is neither empty nor `/`. |
| `Launcher.FallbackChoice` | index.ts:128-135 | For a module in a real directory, the opener is the helper when the helper is a regular file, and `xdg-open` otherwise. |
| `Launcher.BundledFallsBack` | index.ts:128-135 | A module at the file-system root is bundled and always uses `xdg-open`. |
| `Launcher.SlashFreePathNotBundled` | index.ts:128-135 | A non-empty module path without `/` is its own directory, so it is not bundled: the helper is used exactly when it is a regular file. |
| `Launcher.CommandLine` | index.ts:92-151 | darwin spawns `open`. Windows spawns `cmd` with `/c`, `start` and the empty string first. Other platforms with no app and no WSL spawn `xdg-open` or the local helper. |
| `Launcher.DarwinOptions` | index.ts:92-105 | On darwin, before the target: `--wait-apps` if wait, then `--background` if background, then `-a app` if an app is given, in that order. |
| `Launcher.WindowsOptions` | index.ts:106-120 | On Windows, before the target: `/c start ""`, then `/wait` if wait, then the app if given, then the app's extra arguments. |
| `Launcher.OtherCommandOf` | index.ts:121-136 | On other platforms the program is the app if given, else `wslview` under WSL, else the fallback opener. |
| `Launcher.Open` | index.ts:63-151 | The command and argument vector built push by push equal `CommandLine` for every target, option set and context. |
| `Launcher.TargetPlacement` | index.ts:143-151 | The (possibly encoded) target is the last argument, escaped on Windows. The exception is darwin with app arguments: there it is followed by exactly `--args` and those arguments. |
| `Launcher.ExtrasForwarded` | index.ts:118-151 | The app's extra arguments appear unchanged and in order. They come first on other platforms, just before the target on Windows, and last on darwin. |
| `Launcher.ArgumentCount` | index.ts:92-151 | The exact argument count on each platform, from the flags that are on, whether an app is given and the number of extras. |
| `Launcher.FlagsWithoutEffect` | index.ts:121-146 | `wait` and `background` do not change the command line on other platforms. `background` does not change it on Windows. |
| `Launcher.UrlEncodesOnlyTarget` | index.ts:88-90 | With `url`, the command line is that of the encoded target without `url`. |
| `Launcher.EmptyAppIsNoApp` | index.ts:80-124 | An empty-string app and an empty app array give the same command line as no app. |
| `Launcher.AppArrayExample` | index.ts:80-151 | For `app: [x, flag]` with nothing else set: `x flag target` on other platforms, `open -a x target --args flag` on darwin, `cmd /c start "" x flag target'` on Windows (`target'` is the escaped target). |
| `Launcher.BareTargetLast` | index.ts:143-146 | With no options the last argument is the target itself, on Windows as long as the target holds no `&`. |
| `Launcher.ProbeOnlyForFallback` | index.ts:121-136 | The module path, the helper path and the probe result change nothing unless the platform is "other", no app is given and WSL is off. |
| `WaitMode.WaitOutcome` | index.ts:162-176 | The call fails with the stderr bytes exactly when the first chunk is non-empty. Otherwise it fails with the code exactly when the code is positive. Otherwise it succeeds, and that includes code 0 and an absent code. It never stays pending. |
| `WaitMode.RunWaitExecutor` | index.ts:163-176 | Running the executor's calls in source order against a settle-once promise gives `WaitOutcome`, so stderr takes precedence over the exit code. |

## Left out

- Process spawning and its streams (index.ts:153-159), the `output()` call on
  the path without `wait` (index.ts:177), and awaiting the exit status. These are OS process I/O.
  The model stops at the command line, and at the wait outcome for a given
  stderr chunk and exit code.
- The raw-argument mode that the spawn requests on Windows. It affects how the
  vector is passed to the OS, not the vector itself.
- A failure to spawn at all. It propagates from the process facility, which is
  not part of this model.
- The file probe `isFile` (index.ts:49-58), including its rethrow of errors
  other than "not found". The probe result is the boolean `helperIsFile`. The
  source also runs the probe when bundled, where the result is ignored.
- `isWsl()` and `Deno.build.os` (index.ts:3-4, 122). They are fields of `Context`.
- The `new URL` parsing and the `file:` protocol check in `getDir`
  (index.ts:11-12). `GetDir` receives the already-chosen path string.
- `join` from the path library (index.ts:61). The helper's path is the opaque
  `Context.localHelperPath`.
- `encodeURI` (index.ts:89). It is the function parameter `encodeUri`. No
  decoder appears in the code, so no round trip is claimed for it.
- The `TypeError` for a target that is not a string (index.ts:64-66). Targets
  are typed as strings here.
- `TextDecoder` (index.ts:167). A stderr failure carries the raw bytes, not the
  decoded text.
- The exit-code failure's message text `Exited with code N` (index.ts:171). The
  failure carries the code itself.
- The async and promise plumbing. Only the settle-once rule that decides the
  outcome is modelled, in `Deferred`.
- test.ts. It launches real programs and holds no logic to model.
