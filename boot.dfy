/** The handler wired to the image factory client, as the server runs it:
    the client's GetIPXEURL behind the handler's capability, its
    EnsureSchematic left abstract. End-to-end facts about boot requests. */
module Boot {
  import opened Wrappers
  import ImageFactory
  import Ipxe

  /** The capability a client provides: its schematic creation (a network
      call, abstract here) and its URL builder. */
  function FactoryOf(c: ImageFactory.Client, ensureSchematic: (seq<string>, seq<string>) -> Result<string, string>)
    : Ipxe.ImageFactoryClient
  {
    Ipxe.ImageFactoryClient(ensureSchematic, (id, version, arch) => ImageFactory.GetIPXEURL(c, id, version, arch))
  }

  /** With a configured schematic and the real URL builder, a boot request
      fails only for a missing Talos version, with that error in the body;
      otherwise it chains to the schematic's URL for the normalised arch. */
  lemma FixedSchematicBoot(
    h: Ipxe.Handler, c: ImageFactory.Client,
    ensure: (seq<string>, seq<string>) -> Result<string, string>, query: Ipxe.Query)
    requires h.options.schematicID != ""
    ensures
      var r := Ipxe.Serve(h.(imageFactoryClient := FactoryOf(c, ensure)), Ipxe.BootScriptName, query);
      var arch := Ipxe.NormalizeArch(Ipxe.QueryGet(query, "arch"));
      (h.options.talosVersion == "" ==>
         r == Ipxe.Response(Ipxe.StatusInternalServerError,
                Ipxe.ErrScriptPrefix + Ipxe.ErrSchematicURLPrefix + ImageFactory.ErrTalosVersionRequired))
      && (h.options.talosVersion != "" ==>
         r.status == Ipxe.StatusOK
         && Ipxe.ChainTarget(r.body)
            == ImageFactory.GetIPXEURL(c, h.options.schematicID, h.options.talosVersion, arch).ToOption())
  {
    var h' := h.(imageFactoryClient := FactoryOf(c, ensure));
    var arch := Ipxe.NormalizeArch(Ipxe.QueryGet(query, "arch"));
    var r := Ipxe.Serve(h', Ipxe.BootScriptName, query);
    if h.options.talosVersion != "" {
      var url := ImageFactory.GetIPXEURL(c, h.options.schematicID, h.options.talosVersion, arch);
      assert url.Success?;
      assert r.body == Ipxe.RenderScript(url.value);
      Ipxe.ChainTargetOfRender(url.value, r.body);
    }
  }

  /** In the wired server, the URL a successful boot script chains to ends
      in "-secureboot" exactly when the client is in secure-boot mode. */
  lemma SecureBootInBootScript(
    h: Ipxe.Handler, c: ImageFactory.Client,
    ensure: (seq<string>, seq<string>) -> Result<string, string>, query: Ipxe.Query)
    requires Ipxe.Serve(h.(imageFactoryClient := FactoryOf(c, ensure)), Ipxe.BootScriptName, query).status == Ipxe.StatusOK
    ensures
      var r := Ipxe.Serve(h.(imageFactoryClient := FactoryOf(c, ensure)), Ipxe.BootScriptName, query);
      Ipxe.ChainTarget(r.body).Some?
      && (ImageFactory.HasSuffix(Ipxe.ChainTarget(r.body).value, ImageFactory.SecureBootSuffix) <==> c.secureBootEnabled)
  {
    var h' := h.(imageFactoryClient := FactoryOf(c, ensure));
    var arch := Ipxe.NormalizeArch(Ipxe.QueryGet(query, "arch"));
    var r := Ipxe.Serve(h', Ipxe.BootScriptName, query);
    var id :| Ipxe.ResolvesTo(h', h'.kernelArgs + Ipxe.ConsoleKernelArgs(arch), id)
      && ImageFactory.GetIPXEURL(c, id, h.options.talosVersion, arch).Success?
      && r.body == Ipxe.RenderScript(ImageFactory.GetIPXEURL(c, id, h.options.talosVersion, arch).value);
    ImageFactory.SecureBootSuffixIff(c, id, h.options.talosVersion, arch);
    Ipxe.ChainTargetOfRender(ImageFactory.GetIPXEURL(c, id, h.options.talosVersion, arch).value, r.body);
  }

  /** The URL the real builder gives for schematic "img-1", version
      "v1.2.3" and arm64, without secure boot. */
  lemma ExampleURL(pxeBase: string)
    ensures ImageFactory.GetIPXEURL(ImageFactory.Client(pxeBase, false), "img-1", "v1.2.3", "arm64")
         == Success(pxeBase + "/pxe/img-1/v1.2.3/metal-arm64")
  {
    var tail := "/pxe/" + "img-1" + "/" + "v1.2.3" + "/metal-" + "arm64";
    assert tail == "/pxe/img-1/v1.2.3/metal-arm64";
    assert ImageFactory.BaseIPXEURL(ImageFactory.Client(pxeBase, false), "img-1", "v1.2.3", "arm64") == pxeBase + tail;
  }

  /** The chain-boot script for that URL, written out. */
  lemma ExampleScript(pxeBase: string)
    ensures Ipxe.RenderScript(pxeBase + "/pxe/img-1/v1.2.3/metal-arm64")
         == "#!ipxe\nchain --replace " + pxeBase + "/pxe/img-1/v1.2.3/metal-arm64\n"
  {
    assert Ipxe.ScriptHeader == "#!ipxe\nchain --replace ";
  }

  /** Any handler with schematic "img-1" and version "v1.2.3" behind the
      real URL builder, without secure boot, answers boot.ipxe?arch=arm64
      with the script chaining to <pxeBase>/pxe/img-1/v1.2.3/metal-arm64. */
  lemma ExampleBoot(h: Ipxe.Handler, pxeBase: string, ensure: (seq<string>, seq<string>) -> Result<string, string>)
    requires h.options.schematicID == "img-1" && h.options.talosVersion == "v1.2.3"
    ensures Ipxe.Serve(h.(imageFactoryClient := FactoryOf(ImageFactory.Client(pxeBase, false), ensure)),
                       Ipxe.BootScriptName, map["arch" := ["arm64"]])
         == Ipxe.Response(200, "#!ipxe\nchain --replace " + pxeBase + "/pxe/img-1/v1.2.3/metal-arm64\n")
  {
    var c := ImageFactory.Client(pxeBase, false);
    var query: Ipxe.Query := map["arch" := ["arm64"]];
    assert Ipxe.QueryGet(query, "arch") == "arm64";
    FixedSchematicBoot(h, c, ensure, query);
    ExampleURL(pxeBase);
    var url := pxeBase + "/pxe/img-1/v1.2.3/metal-arm64";
    var r := Ipxe.Serve(h.(imageFactoryClient := FactoryOf(c, ensure)), Ipxe.BootScriptName, query);
    assert Ipxe.ChainTarget(r.body) == Some(url);
    Ipxe.ChainTargetOfRender(url, r.body);
    ExampleScript(pxeBase);
  }

  /** A boot request end to end: NewHandler with schematic "img-1",
      version "v1.2.3" and no extensions or extra kernel arguments succeeds, and the handler it builds answers
      boot.ipxe?arch=arm64 with 200 and the script chaining to
      <pxeBase>/pxe/img-1/v1.2.3/metal-arm64. */
  lemma Arm64FixedSchematicExample(
    configServerEnabled: bool, pxeBase: string, address: string, port: int,
    ensure: (seq<string>, seq<string>) -> Result<string, string>,
    buildInitScript: (string, int) -> Result<string, string>,
    patchBinaries: string -> Outcome<string>)
    requires buildInitScript(address, port).Success?
    requires patchBinaries(buildInitScript(address, port).value).Pass?
    ensures
      var options := Ipxe.HandlerOptions(address, "v1.2.3", "", "img-1", [], port);
      var client := FactoryOf(ImageFactory.Client(pxeBase, false), ensure);
      var h := Ipxe.NewHandler(configServerEnabled, client, options, buildInitScript, patchBinaries);
      h.Success?
      && Ipxe.Serve(h.value, Ipxe.BootScriptName, map["arch" := ["arm64"]])
         == Ipxe.Response(200, "#!ipxe\nchain --replace " + pxeBase + "/pxe/img-1/v1.2.3/metal-arm64\n")
  {
    var options := Ipxe.HandlerOptions(address, "v1.2.3", "", "img-1", [], port);
    var client := FactoryOf(ImageFactory.Client(pxeBase, false), ensure);
    var built := Ipxe.NewHandler(configServerEnabled, client, options, buildInitScript, patchBinaries);
    assert !Ipxe.ConflictingOptions(options);
    var h := built.value;
    assert h.options == options && h.imageFactoryClient == client;
    ExampleBoot(h, pxeBase, ensure);
    assert h.(imageFactoryClient := client) == h;
  }

  /** A handler asked for a configured schematic together with extensions
      is never built, whatever the rest of the configuration. */
  lemma SchematicWithExtensionsRefused(
    configServerEnabled: bool, client: Ipxe.ImageFactoryClient, options: Ipxe.HandlerOptions,
    buildInitScript: (string, int) -> Result<string, string>,
    patchBinaries: string -> Outcome<string>)
    requires options.schematicID != "" && options.extensions != []
    ensures Ipxe.NewHandler(configServerEnabled, client, options, buildInitScript, patchBinaries)
         == Failure(Ipxe.ErrSchematicConflict)
  {
  }
}
