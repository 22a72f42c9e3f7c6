/** The application configuration of the bundler: an immutable record describing
    the Windows application to box up (name, icon, entrypoint), the Wine build and
    prefix to use, the volumes and programs to run, and the winetricks verbs; plus
    the values derived from it (the portable Wine download URL and the
    WINEDLLOVERRIDES string) and its read-only accessors. */
module Configuration {
  import opened Wrappers
  import opened Strings

  /** A program to start inside the prefix, with optional arguments. */
  datatype Run = Run(program: string, args: Option<seq<string>>)

  /** Application metadata: its display name, optional icon and entrypoint. */
  datatype App = App(name: string, icon: Option<string>, entrypoint: Run)

  /** Which portable Wine build to download. */
  datatype Build = Build(branch: string, version: string, arch: string)

  /** How the Wine prefix is set up. */
  datatype Prefix = Prefix(
    prefixArch: string,
    basePrefix: Option<string>,
    sandbox: bool,
    installGecko: bool,
    installMono: bool)

  /** A file or directory copied into the prefix. */
  datatype Volume = Volume(from: string, to: string)

  /** Everything about Wine: build, prefix, volumes and runs, in order. */
  datatype Wine = Wine(build: Build, prefix: Prefix, volumes: seq<Volume>, runs: seq<Run>)

  /** The winetricks verbs to install. */
  datatype Winetricks = Winetricks(verbs: seq<string>)

  datatype Config = Config(app: App, wine: Wine, winetricks: Winetricks)

  /** Directory on the WineHQ server that holds the portable macOS builds. */
  const PoolUrl := "https://dl.winehq.org/wine-builds/macosx/pool"

  /** The start of every tarball name, up to the branch. */
  const TarballPrefix := "portable-winehq-"

  /** The start of every download URL, up to the branch. */
  const UrlPrefix := PoolUrl + "/" + TarballPrefix

  /** The end of every download URL. */
  const TarballSuffix := ".tar.gz"

  /** Component id Wine uses for Mono (.NET), disabled unless Mono is installed. */
  const MonoId := "mscoree"

  /** Component id Wine uses for Gecko (HTML), disabled unless Gecko is installed. */
  const GeckoId := "mshtml"

  /** The configuration used when none is given. */
  function Default(): (c: Config)
    ensures c.app.name == "My App" && c.app.icon == None
    ensures c.app.entrypoint == Run("", None)
    ensures c.wine.build == Build("stable", "5.0", "64")
    ensures c.wine.prefix.prefixArch == "win64" && c.wine.prefix.basePrefix == None
    ensures c.wine.prefix.sandbox && c.wine.prefix.installMono && !c.wine.prefix.installGecko
    ensures c.wine.volumes == [] && c.wine.runs == [] && c.winetricks.verbs == []
  {
    Config(
      App("My App", None, Run("", None)),
      Wine(
        Build("stable", "5.0", "64"),
        Prefix("win64", None, true, false, true),
        [], []),
      Winetricks([]))
  }

  /** File name of the portable Wine tarball for a build. */
  function TarballName(b: Build): (name: string)
  {
    TarballPrefix + b.branch + "-" + b.version + "-osx" + b.arch + TarballSuffix
  }

  /** The URL the portable Wine build is downloaded from. */
  function PortableWineUrl(c: Config): (url: string)
    ensures |url| == |UrlPrefix| + |c.wine.build.branch| + 1 + |c.wine.build.version|
                     + 4 + |c.wine.build.arch| + |TarballSuffix|
    ensures url[..|UrlPrefix|] == UrlPrefix
    ensures url[|url| - |TarballSuffix|..] == TarballSuffix
    ensures url[|UrlPrefix|..|url| - |TarballSuffix|]
            == c.wine.build.branch + "-" + c.wine.build.version + "-osx" + c.wine.build.arch
  {
    var b := c.wine.build;
    var url := PoolUrl + "/" + TarballPrefix + b.branch + "-" + b.version + "-osx" + b.arch + TarballSuffix;
    assert url == UrlPrefix + (b.branch + "-" + b.version + "-osx" + b.arch) + TarballSuffix;
    url
  }

  /** The URL is the fixed pool directory followed by the tarball name: the
      configuration changes only the last '/'-separated segment, and that
      segment is the name the download is saved under. */
  lemma UrlSegments(c: Config)
    requires '/' !in c.wine.build.branch
    requires '/' !in c.wine.build.version
    requires '/' !in c.wine.build.arch
    ensures PortableWineUrl(c) == PoolUrl + "/" + TarballName(c.wine.build)
    ensures '/' !in TarballName(c.wine.build)
    ensures LastSegment(PortableWineUrl(c), '/') == TarballName(c.wine.build)
  {
    assert PortableWineUrl(c) == PoolUrl + ['/'] + TarballName(c.wine.build);
    TarballNameHasNoSlash(c.wine.build);
    LastSegmentAfter(PoolUrl, '/', TarballName(c.wine.build));
  }

  /** A tarball name built from fields without '/' has none either. */
  lemma TarballNameHasNoSlash(b: Build)
    requires '/' !in b.branch && '/' !in b.version && '/' !in b.arch
    ensures '/' !in TarballName(b)
  {
  }

  /** Ids of the optional components the prefix must not install, Mono's first. */
  function DisabledComponents(p: Prefix): (ids: seq<string>)
    ensures MonoId in ids <==> !p.installMono
    ensures GeckoId in ids <==> !p.installGecko
    ensures forall k :: 0 <= k < |ids| ==> ids[k] == MonoId || ids[k] == GeckoId
    ensures forall i, j :: 0 <= i < j < |ids| ==> ids[i] == MonoId && ids[j] == GeckoId
  {
    (if p.installMono then [] else [MonoId]) + (if p.installGecko then [] else [GeckoId])
  }

  /** The WINEDLLOVERRIDES value: the disabled component ids, comma separated,
      followed by "=" (an empty mode, which turns them off). */
  function DllOverrides(p: Prefix): (overrides: string)
    ensures |overrides| >= 1 && overrides[|overrides| - 1] == '='
    ensures p.installMono && p.installGecko ==> overrides == "="
    ensures !p.installMono && p.installGecko ==> overrides == "mscoree="
    ensures p.installMono && !p.installGecko ==> overrides == "mshtml="
    ensures !p.installMono && !p.installGecko ==> overrides == "mscoree,mshtml="
  {
    var ids := DisabledComponents(p);
    assert |ids| == 2 ==> Join(",", ids) == MonoId + "," + GeckoId by {
      if |ids| == 2 { assert ids[..1] == [MonoId]; }
    }
    Join(",", ids) + "="
  }

  /** The part of the overrides string before the final "=" lists exactly the
      disabled components, in order, when there is at least one. */
  lemma DllOverridesList(p: Prefix)
    requires !p.installMono || !p.installGecko
    ensures var overrides := DllOverrides(p);
      Split(overrides[..|overrides| - 1], ',') == DisabledComponents(p)
  {
    var ids := DisabledComponents(p);
    var joined := Join(",", ids);
    assert DllOverrides(p) == joined + "=";
    assert (joined + "=")[..|joined|] == joined;
    DisabledComponentsSplit(p);
  }

  /** Splitting the joined ids at commas gives the ids back: no id has a comma. */
  lemma DisabledComponentsSplit(p: Prefix)
    requires !p.installMono || !p.installGecko
    ensures Split(Join(",", DisabledComponents(p)), ',') == DisabledComponents(p)
  {
    var ids := DisabledComponents(p);
    assert ',' !in MonoId && ',' !in GeckoId;
    assert forall k :: 0 <= k < |ids| ==> ',' !in ids[k];
    SplitJoin(',', ids);
  }

  /** Builds the WINEDLLOVERRIDES value by pushing each disabled component onto
      a list and joining it. */
  method WineDllOverrides(c: Config) returns (overrides: string)
    ensures overrides == DllOverrides(c.wine.prefix)
  {
    var ids: seq<string> := [];
    if !c.wine.prefix.installMono {
      ids := ids + [MonoId];
    }
    if !c.wine.prefix.installGecko {
      ids := ids + [GeckoId];
    }
    assert ids == DisabledComponents(c.wine.prefix);
    overrides := Join(",", ids) + "=";
  }

  /** The overrides string tells both install flags apart: no two prefixes that
      differ in which components they install get the same string. */
  lemma DllOverridesDetermineFlags(p: Prefix, q: Prefix)
    requires DllOverrides(p) == DllOverrides(q)
    ensures p.installMono == q.installMono && p.installGecko == q.installGecko
  {
  }

  /** What the default configuration derives: Gecko is switched off, and the
      Wine 5.0 stable 64-bit tarball is downloaded. */
  lemma DefaultDerivations()
    ensures DllOverrides(Default().wine.prefix) == "mshtml="
    ensures TarballName(Default().wine.build) == "portable-winehq-stable-5.0-osx64.tar.gz"
    ensures PortableWineUrl(Default()) == PoolUrl + "/" + "portable-winehq-stable-5.0-osx64.tar.gz"
    ensures LastSegment(PortableWineUrl(Default()), '/') == "portable-winehq-stable-5.0-osx64.tar.gz"
  {
    var b := Default().wine.build;
    assert b == Build("stable", "5.0", "64");
    calc {
      TarballName(b);
      "portable-winehq-" + "stable" + "-" + "5.0" + "-osx" + "64" + ".tar.gz";
      "portable-winehq-stable" + "-5.0" + "-osx64" + ".tar.gz";
      "portable-winehq-stable-5.0-osx64.tar.gz";
    }
    UrlSegments(Default());
  }

  /** The application's icon, if it has one. */
  function AppIcon(c: Config): (icon: Option<string>)
    ensures icon == c.app.icon
  {
    c.app.icon
  }

  /** The winetricks verbs, in configured order. */
  function Verbs(c: Config): (verbs: seq<string>)
    ensures verbs == c.winetricks.verbs
  {
    c.winetricks.verbs
  }

  /** Whether the prefix is sandboxed. */
  function Sandbox(c: Config): (sandbox: bool)
    ensures sandbox == c.wine.prefix.sandbox
  {
    c.wine.prefix.sandbox
  }

  /** The existing prefix to start from, if any. */
  function BasePrefix(c: Config): (basePrefix: Option<string>)
    ensures basePrefix == c.wine.prefix.basePrefix
  {
    c.wine.prefix.basePrefix
  }
}
