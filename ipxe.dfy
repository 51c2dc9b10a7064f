/** The iPXE HTTP handler: it serves the init script, composes per-request
    chain-boot scripts through the image factory, and is built once from the
    handler options. A request is its script name and its query; a response
    is its status and body. */
module Ipxe {
  import opened Wrappers
  import Text

  const ArchArm64 := "arm64"
  const ArchAmd64 := "amd64"

  const InitScriptName := "init.ipxe"
  const BootScriptName := "boot.ipxe"

  const StatusOK := 200
  const StatusNotFound := 404
  const StatusInternalServerError := 500

  /** The kernel parameter name of Talos' config URL. */
  const KernelParamConfig := "talos.config"

  const ScriptHeader := "#!ipxe\nchain --replace "
  const ErrScriptPrefix := "failed to get iPXE script: "
  const ErrSchematicURLPrefix := "failed to get schematic IPXE URL: "
  const ErrSchematicConflict := "schematicID cannot be used with extensions or extraKernelArgs"
  const ErrInitScriptPrefix := "failed to build init script: "

  /** The image factory as the handler sees it: two calls, each of which
      returns a value or an error text. */
  datatype ImageFactoryClient = ImageFactoryClient(
    ensureSchematic: (seq<string>, seq<string>) -> Result<string, string>,
    getIPXEURL: (string, string, string) -> Result<string, string>)

  datatype HandlerOptions = HandlerOptions(
    apiAdvertiseAddress: string,
    talosVersion: string,
    extraKernelArgs: string,
    schematicID: string,
    extensions: seq<string>,
    apiPort: int)

  /** A constructed handler; nothing in it changes after construction. */
  datatype Handler = Handler(
    imageFactoryClient: ImageFactoryClient,
    kernelArgs: seq<string>,
    initScript: string,
    options: HandlerOptions)

  /** A parsed query string: every key with its values in order. */
  type Query = map<string, seq<string>>

  datatype Response = Response(status: int, body: string)

  /** What bootViaFactoryIPXEScript returns: a body, a status and an error. */
  datatype BootScript = BootScript(body: string, statusCode: int, err: Option<string>)

  /** The first value of key, or "" when there is none (url.Values.Get). */
  function QueryGet(q: Query, key: string): (r: string)
    ensures key !in q || q[key] == [] ==> r == ""
    ensures key in q && q[key] != [] ==> r == q[key][0]
  {
    if key in q && |q[key]| > 0 then q[key][0] else ""
  }

  /** Two buckets: "arm64" stays, everything else (including "" and "i386")
      boots amd64. */
  function NormalizeArch(arch: string): (a: string)
    ensures a == ArchArm64 || a == ArchAmd64
    ensures a == ArchArm64 <==> arch == ArchArm64
  {
    if arch != ArchArm64 then ArchAmd64 else arch
  }

  /** The kernel console arguments for an architecture: tty0, then the
      serial console, which is ttyAMA0 on arm64 and ttyS0 on anything else. */
  function ConsoleKernelArgs(arch: string): (r: seq<string>)
    ensures |r| == 2 && r[0] == "console=tty0"
    ensures r[1] == "console=ttyAMA0" <==> arch == ArchArm64
    ensures r[1] == "console=ttyS0" <==> arch != ArchArm64
  {
    match arch
    case "arm64" => ["console=tty0", "console=ttyAMA0"]
    case _ => ["console=tty0", "console=ttyS0"]
  }

  /** The two-line chain-boot script for a URL. */
  function RenderScript(url: string): string {
    ScriptHeader + url + "\n"
  }

  /** The URL a chain-boot script redirects the loader to, if it is one. */
  function ChainTarget(script: string): Option<string> {
    if |script| >= |ScriptHeader| + 1 && script[..|ScriptHeader|] == ScriptHeader
       && script[|script| - 1] == '\n'
    then Some(script[|ScriptHeader|..|script| - 1])
    else None
  }

  /** RenderScript and ChainTarget are inverse: a rendered script chains to
      exactly its URL, and every chain-boot script is the rendering of the
      URL it chains to. */
  lemma ChainTargetOfRender(url: string, script: string)
    ensures ChainTarget(RenderScript(url)) == Some(url)
    ensures ChainTarget(script) == Some(url) ==> script == RenderScript(url)
  {
    var s := RenderScript(url);
    assert s[..|ScriptHeader|] == ScriptHeader;
    assert s[|ScriptHeader|..|s| - 1] == url;
    if ChainTarget(script) == Some(url) {
      assert script == script[..|ScriptHeader|] + script[|ScriptHeader|..|script| - 1] + [script[|script| - 1]];
    }
  }

  /** The schematic a boot request ends up with: the configured one, or the
      one the factory returned for the handler's extensions and these kernel
      arguments. */
  ghost predicate ResolvesTo(h: Handler, kernelArgs: seq<string>, id: string) {
    if h.options.schematicID != "" then id == h.options.schematicID
    else h.imageFactoryClient.ensureSchematic(h.options.extensions, kernelArgs) == Success(id)
  }

  /** The error text a failing boot request reports: the factory's failure
      to create the schematic, or its failure to build the URL for the
      schematic resolved. */
  ghost predicate FailsWith(h: Handler, arch: string, kernelArgs: seq<string>, e: string) {
    (h.options.schematicID == ""
     && h.imageFactoryClient.ensureSchematic(h.options.extensions, kernelArgs) == Failure(e))
    || exists id :: ResolvesTo(h, kernelArgs, id)
         && h.imageFactoryClient.getIPXEURL(id, h.options.talosVersion, arch) == Failure(e)
  }

  /** Composes the chain-boot script. With a configured schematic the
      factory is only asked for the URL; otherwise it first resolves the
      schematic. Success yields the script of the URL with status 200; any
      factory failure yields no script, status 500 and the wrapped error. */
  function BootViaFactoryIPXEScript(h: Handler, arch: string, kernelArgs: seq<string>): (r: BootScript)
    ensures r.err.None? ==> r.statusCode == StatusOK
    ensures r.err.None? ==>
      exists id :: ResolvesTo(h, kernelArgs, id)
        && h.imageFactoryClient.getIPXEURL(id, h.options.talosVersion, arch).Success?
        && r.body == RenderScript(h.imageFactoryClient.getIPXEURL(id, h.options.talosVersion, arch).value)
    ensures r.err.Some? ==> r.statusCode == StatusInternalServerError && r.body == ""
    ensures r.err.Some? ==>
      exists e :: FailsWith(h, arch, kernelArgs, e) && r.err.value == ErrSchematicURLPrefix + e
  {
    var resolved :=
      if h.options.schematicID == "" then h.imageFactoryClient.ensureSchematic(h.options.extensions, kernelArgs)
      else Success(h.options.schematicID);
    if resolved.Failure? then
      BootScript("", StatusInternalServerError, Some(ErrSchematicURLPrefix + resolved.error))
    else
      var id := resolved.value;
      assert ResolvesTo(h, kernelArgs, id);
      var url := h.imageFactoryClient.getIPXEURL(id, h.options.talosVersion, arch);
      if url.Failure? then
        assert FailsWith(h, arch, kernelArgs, url.error);
        BootScript("", StatusInternalServerError, Some(ErrSchematicURLPrefix + url.error))
      else
        BootScript(RenderScript(url.value), StatusOK, None)
  }

  /** The kernel arguments of a boot request: the handler's, then the
      console arguments of the architecture. */
  function BootKernelArgs(h: Handler, arch: string): (r: seq<string>)
    ensures |r| == |h.kernelArgs| + 2
    ensures r[..|h.kernelArgs|] == h.kernelArgs
    ensures r[|h.kernelArgs|..] == ConsoleKernelArgs(arch)
  {
    h.kernelArgs + ConsoleKernelArgs(arch)
  }

  /** ServeHTTP. Unknown script names get 404 with no body; init.ipxe gets
      the init script whatever the query; boot.ipxe gets the chain-boot
      script for the normalised arch with status 200, or 500 with the error
      text when the factory fails. */
  function Serve(h: Handler, scriptName: string, query: Query): (r: Response)
    ensures scriptName != InitScriptName && scriptName != BootScriptName ==> r == Response(StatusNotFound, "")
    ensures scriptName == InitScriptName ==> r == Response(StatusOK, h.initScript)
    ensures scriptName == BootScriptName ==> r.status == StatusOK || r.status == StatusInternalServerError
    ensures scriptName == BootScriptName && r.status == StatusOK ==>
      var arch := NormalizeArch(QueryGet(query, "arch"));
      exists id :: ResolvesTo(h, h.kernelArgs + ConsoleKernelArgs(arch), id)
        && h.imageFactoryClient.getIPXEURL(id, h.options.talosVersion, arch).Success?
        && r.body == RenderScript(h.imageFactoryClient.getIPXEURL(id, h.options.talosVersion, arch).value)
    ensures scriptName == BootScriptName && r.status == StatusInternalServerError ==>
      var arch := NormalizeArch(QueryGet(query, "arch"));
      exists e :: FailsWith(h, arch, h.kernelArgs + ConsoleKernelArgs(arch), e)
        && r.body == ErrScriptPrefix + ErrSchematicURLPrefix + e
  {
    match scriptName
    case "init.ipxe" => Response(StatusOK, h.initScript)
    case "boot.ipxe" =>
      var arch := NormalizeArch(QueryGet(query, "arch"));
      var b := BootViaFactoryIPXEScript(h, arch, BootKernelArgs(h, arch));
      if b.err.Some? then Response(StatusInternalServerError, ErrScriptPrefix + b.err.value)
      else Response(b.statusCode, b.body)
    case _ => Response(StatusNotFound, "")
  }

  /** A boot request succeeds exactly when the schematic resolves and the
      factory builds a URL for it; only then is there a script. */
  lemma BootSucceedsIff(h: Handler, query: Query)
    ensures
      var arch := NormalizeArch(QueryGet(query, "arch"));
      var args := h.kernelArgs + ConsoleKernelArgs(arch);
      Serve(h, BootScriptName, query).status == StatusOK <==>
        exists id :: ResolvesTo(h, args, id) && h.imageFactoryClient.getIPXEURL(id, h.options.talosVersion, arch).Success?
  {
    var arch := NormalizeArch(QueryGet(query, "arch"));
    var args := h.kernelArgs + ConsoleKernelArgs(arch);
    if Serve(h, BootScriptName, query).status != StatusOK {
      var e :| FailsWith(h, arch, args, e);
      forall id | ResolvesTo(h, args, id)
        ensures !h.imageFactoryClient.getIPXEURL(id, h.options.talosVersion, arch).Success?
      {
        if h.options.schematicID == "" && h.imageFactoryClient.ensureSchematic(h.options.extensions, args) == Failure(e) {
        } else {
          var id' :| ResolvesTo(h, args, id') && h.imageFactoryClient.getIPXEURL(id', h.options.talosVersion, arch) == Failure(e);
          assert id' == id;
        }
      }
    }
  }

  /** For one handler, whose factory answers the same arguments the same
      way, only the arch parameter of a boot request matters: uuid, mac and
      every other query value are only logged. */
  lemma BootDependsOnlyOnArch(h: Handler, q1: Query, q2: Query)
    requires NormalizeArch(QueryGet(q1, "arch")) == NormalizeArch(QueryGet(q2, "arch"))
    ensures Serve(h, BootScriptName, q1) == Serve(h, BootScriptName, q2)
  {
  }

  /** Requests other than boot.ipxe never reach the factory: the response
      is the same whatever factory the handler holds. */
  lemma NonBootIgnoresFactory(h: Handler, other: ImageFactoryClient, scriptName: string, query: Query)
    requires scriptName != BootScriptName
    ensures Serve(h, scriptName, query) == Serve(h.(imageFactoryClient := other), scriptName, query)
  {
  }

  /** With a configured schematic, EnsureSchematic is never called: the
      response is the same whatever that call would return. */
  lemma FixedSchematicSkipsEnsure(
    h: Handler, ensure: (seq<string>, seq<string>) -> Result<string, string>, scriptName: string, query: Query)
    requires h.options.schematicID != ""
    ensures Serve(h, scriptName, query)
         == Serve(h.(imageFactoryClient := h.imageFactoryClient.(ensureSchematic := ensure)), scriptName, query)
  {
  }

  /** talos.config=http://<host:port>/config?u=${uuid}; the ${uuid} is left
      for iPXE to expand. */
  function TalosConfigKernelArg(address: string, port: int): string {
    KernelParamConfig + "=" + "http://" + Text.JoinHostPort(address, Text.Itoa(port)) + "/config?u=${uuid}"
  }

  /** For a host name or IPv4 address the config argument is
      talos.config=http://<address>:<port>/config?u=${uuid}. */
  lemma TalosConfigKernelArgShape(address: string, port: nat)
    requires ':' !in address
    ensures TalosConfigKernelArg(address, port)
         == "talos.config=http://" + address + ":" + Text.NatToDecimal(port) + "/config?u=${uuid}"
  {
  }

  /** A configured schematic already fixes extensions and kernel
      arguments, so it cannot be combined with either. */
  predicate ConflictingOptions(options: HandlerOptions) {
    options.schematicID != "" && (|options.extensions| > 0 || |options.extraKernelArgs| > 0)
  }

  /** NewHandler. Conflicting options are refused first; then building the
      init script and patching the iPXE binaries must succeed, their errors
      reported in that order. The handler keeps the options, the factory
      and the init script, and its kernel arguments are the white-space
      separated fields of the extra kernel arguments followed, iff the
      config server is enabled, by the talos.config argument. */
  function NewHandler(
    configServerEnabled: bool,
    client: ImageFactoryClient,
    options: HandlerOptions,
    buildInitScript: (string, int) -> Result<string, string>,
    patchBinaries: string -> Outcome<string>): (r: Result<Handler, string>)
    ensures ConflictingOptions(options) ==> r == Failure(ErrSchematicConflict)
    ensures r.Success? <==>
      !ConflictingOptions(options)
      && buildInitScript(options.apiAdvertiseAddress, options.apiPort).Success?
      && patchBinaries(buildInitScript(options.apiAdvertiseAddress, options.apiPort).value).Pass?
    ensures !ConflictingOptions(options) && buildInitScript(options.apiAdvertiseAddress, options.apiPort).Failure? ==>
      r == Failure(ErrInitScriptPrefix + buildInitScript(options.apiAdvertiseAddress, options.apiPort).error)
    ensures (!ConflictingOptions(options) && buildInitScript(options.apiAdvertiseAddress, options.apiPort).Success?
             && patchBinaries(buildInitScript(options.apiAdvertiseAddress, options.apiPort).value).Fail?) ==>
      r == Failure(patchBinaries(buildInitScript(options.apiAdvertiseAddress, options.apiPort).value).error)
    ensures r.Success? ==>
      r.value.options == options && r.value.imageFactoryClient == client
      && r.value.initScript == buildInitScript(options.apiAdvertiseAddress, options.apiPort).value
    ensures r.Success? ==>
      var extra := Text.Fields(options.extraKernelArgs);
      |r.value.kernelArgs| == |extra| + (if configServerEnabled then 1 else 0)
      && r.value.kernelArgs[..|extra|] == extra
      && (configServerEnabled ==>
            r.value.kernelArgs[|extra|] == TalosConfigKernelArg(options.apiAdvertiseAddress, options.apiPort))
  {
    var talosConfigKernelArg := TalosConfigKernelArg(options.apiAdvertiseAddress, options.apiPort);
    if ConflictingOptions(options) then Failure(ErrSchematicConflict)
    else
      var initScript := buildInitScript(options.apiAdvertiseAddress, options.apiPort);
      if initScript.Failure? then Failure(ErrInitScriptPrefix + initScript.error)
      else
        var patched := patchBinaries(initScript.value);
        if patched.Fail? then Failure(patched.error)
        else
          var kernelArgs := Text.Fields(options.extraKernelArgs);
          var kernelArgs := if configServerEnabled then kernelArgs + [talosConfigKernelArg] else kernelArgs;
          Success(Handler(client, kernelArgs, initScript.value, options))
  }

  /** With a configured schematic the handler adds no kernel arguments of
      its own except the config URL, and that one iff the config server is
      enabled. */
  lemma FixedSchematicKernelArgs(
    configServerEnabled: bool,
    client: ImageFactoryClient,
    options: HandlerOptions,
    buildInitScript: (string, int) -> Result<string, string>,
    patchBinaries: string -> Outcome<string>)
    requires options.schematicID != ""
    requires NewHandler(configServerEnabled, client, options, buildInitScript, patchBinaries).Success?
    ensures NewHandler(configServerEnabled, client, options, buildInitScript, patchBinaries).value.kernelArgs
         == if configServerEnabled then [TalosConfigKernelArg(options.apiAdvertiseAddress, options.apiPort)] else []
  {
    assert options.extraKernelArgs == "";
    assert Text.Fields("") == [];
  }

  /** The kernel arguments a boot request hands to EnsureSchematic, for a
      handler built by NewHandler: the extra arguments' fields, then the
      config URL when the config server is enabled, then the console
      arguments; nothing dropped and nothing reordered. */
  lemma BootKernelArgsOfNewHandler(
    configServerEnabled: bool,
    client: ImageFactoryClient,
    options: HandlerOptions,
    buildInitScript: (string, int) -> Result<string, string>,
    patchBinaries: string -> Outcome<string>,
    arch: string)
    requires NewHandler(configServerEnabled, client, options, buildInitScript, patchBinaries).Success?
    ensures
      var h := NewHandler(configServerEnabled, client, options, buildInitScript, patchBinaries).value;
      BootKernelArgs(h, arch)
        == Text.Fields(options.extraKernelArgs)
           + (if configServerEnabled then [TalosConfigKernelArg(options.apiAdvertiseAddress, options.apiPort)] else [])
           + ConsoleKernelArgs(arch)
  {
    var h := NewHandler(configServerEnabled, client, options, buildInitScript, patchBinaries).value;
    var extra := Text.Fields(options.extraKernelArgs);
    var cfg := if configServerEnabled then [TalosConfigKernelArg(options.apiAdvertiseAddress, options.apiPort)] else [];
    assert h.kernelArgs == h.kernelArgs[..|extra|] + h.kernelArgs[|extra|..];
    assert h.kernelArgs[|extra|..] == cfg;
  }
}
