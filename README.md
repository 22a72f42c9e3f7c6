# boxwine configuration model

boxwine packages a Windows application, run through Wine, as a macOS `.app`
bundle. The application is described by a TOML configuration file. This
project models the in-memory configuration record that the file is parsed
into, together with the pure values the bundler derives from it:

- the configuration record (`App`, `Wine`, `Build`, `Prefix`, `Volume`, `Run`,
  `Winetricks`, `Config`) as Dafny datatypes, with `Option` for the icon, the
  base prefix and the run arguments, and `seq` for volumes, runs and verbs;
- the built-in default configuration;
- the download URL of the portable Wine build (`PortableWineUrl`), and the
  tarball name that the bundler takes as that URL's last path segment;
- the `WINEDLLOVERRIDES` value (`DllOverrides`). The source builds it by
  pushing the disabled component ids onto a list and joining it with commas.
  Here that is the method `WineDllOverrides`, which is proved equal to the
  function `DllOverrides`;
- the read-only accessors for the icon, the verbs, the sandbox flag and the
  base prefix.

Files:
- `wrappers.dfy`: the `Option` datatype.
- `strings.dfy`: `Join`, which models a slice's `join`, and its inverse
  `Split`. It also holds `LastSegment`, which models taking a path's file
  name.
- `configuration.dfy`: the record, the defaults, the derivations, the
  accessors and the lemmas about them.

Where the code and the surrounding documentation disagree, the model follows
the code:
- The example configuration written by `init` says that `install_mono`
  defaults to false. `Default::default` sets it to true, and so does the model.
- The record has no `post_install` flag on volumes. It has no compress,
  delete-installers or winetricks-bundle flag either. Those settings are not
  modelled.

## Model

| member | source | states |
|---|---|---|
| `Configuration.Default` | src/config.rs:64-94 | The default configuration is named "My App", with no icon and an empty entrypoint program without arguments. Its build is stable / 5.0 / 64 and its prefix arch is win64, with no base prefix. It is sandboxed and installs Mono but not Gecko. It has no volumes, runs or verbs. |
| `Configuration.PortableWineUrl` | src/config.rs:97-106 | The URL starts with `https://dl.winehq.org/wine-builds/macosx/pool/portable-winehq-` and ends with `.tar.gz`. Between them are branch, `-`, version, `-osx`, arch. Its length is the sum of those parts. |
| `Configuration.UrlSegments` | src/config.rs:102-105 | If branch, version and arch contain no `/`, the URL is the fixed pool directory, then `/`, then the tarball name `portable-winehq-<branch>-<version>-osx<arch>.tar.gz`. Only that final segment depends on the configuration. The tarball name has no `/`, and it is the URL's last `/`-segment. |
| `Strings.LastSegment` | src/create.rs:63 | The file name taken from the URL contains no `/`. It is a suffix of the URL, and the character just before it (when there is one) is `/`. So it is exactly the text after the last `/`. |
| `Configuration.DisabledComponents` | src/config.rs:110-116 | `mscoree` is listed exactly when Mono is not installed, and `mshtml` exactly when Gecko is not installed. No other id appears. Whenever both are present, `mscoree` comes before `mshtml`. |
| `Configuration.DllOverrides` | src/config.rs:109-120 | The override string always ends in `=`. Both components installed gives `"="`. Only Mono disabled gives `"mscoree="`. Only Gecko disabled gives `"mshtml="`. Both disabled gives `"mscoree,mshtml="`. |
| `Configuration.WineDllOverrides` | src/config.rs:109-120 | The list built by the two conditional pushes, joined with `,` and followed by `=`, is the override string. |
| `Configuration.DllOverridesList` | src/config.rs:110-117 | When at least one component is disabled, splitting the text before the final `=` at commas gives back exactly the disabled ids, in order. |
| `Configuration.DllOverridesDetermineFlags` | src/config.rs:111-117 | Two prefixes with the same override string agree on both install flags, so the string records which components are disabled. |
| `Strings.SplitJoin` | src/config.rs:117 | The contract of `Strings.Join`, the model of the comma join: joining a non-empty list of comma-free parts with `,` and splitting the result at `,` gives the list back. |
| `Configuration.DefaultDerivations` | src/config.rs:64-120 | The default configuration's override string is `"mshtml="`. Its tarball name is `portable-winehq-stable-5.0-osx64.tar.gz`. Its URL is the pool directory followed by that name, and that name is the URL's last segment. |
| `Configuration.AppIcon` | src/config.rs:122-124 | Returns the configured icon unchanged. |
| `Configuration.Verbs` | src/config.rs:126-128 | Returns the configured verb list unchanged, in order. |
| `Configuration.Sandbox` | src/config.rs:130-132 | Returns the configured sandbox flag unchanged. |
| `Configuration.BasePrefix` | src/config.rs:134-136 | Returns the configured base prefix unchanged. |

## Left out

- `load` (src/config.rs:139-142): reading the file and TOML deserialisation are I/O and a foreign library. The `#[serde(default)]` merge of a partial file with the defaults is not modelled.
- Rust ownership: the accessors return references into the configuration. The model returns the values. Datatype values are immutable, so the configuration is unchanged by construction.
- Strings.LastSegment: takes the text after the last `/`. `Path::file_name` also ignores trailing slashes and a trailing `.` component, returns `None` when the path ends in `..`, and returns `None` on an empty path, which makes the `unwrap` at src/create.rs:63 panic. The URLs produced here end in `.tar.gz`, so none of those cases arise; they are not modelled.
- src/create.rs: everything apart from taking the tarball name from the URL is not modelled. That is the bundle directory creation, the HTTP download and the `.app` suffix check (which panics); these are filesystem, network and process operations. It also holds the prefix creation and verb installation functions (src/create.rs:106-121), which only read the base prefix, the verbs and the sandbox flag through the getters and do nothing else (line 116 is not valid Rust).
- src/init.rs, src/files/launch.rs, src/files/info_plist.rs, src/info_plist.rs and src/main.rs are not part of this model. They hold fixed text templates, file writes and command-line dispatch.
- The archive extraction, prefix initialisation, verb installation, volume copying, program runs and prefix compression stages are not modelled. The source has no implementation of them.
