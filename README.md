# booter: iPXE boot requests and the image factory client, in Dafny

This project models the part of booter that answers iPXE network-boot
requests. A loader first fetches `init.ipxe`, the fixed init script. It then
fetches `boot.ipxe?uuid=…&mac=…&arch=…`. That answer is a two-line chain-boot
script pointing the loader at an install image URL built by the Talos image
factory. The model also covers how the handler is built from its options,
and the factory client's URL builder and stable-version selector.

Modules, one per source component:

- `Wrappers` (wrappers.dfy): `Option`, `Result` and `Outcome`. These stand for
  Go's `(value, error)` and `error` returns.
- `Text` (text.dfy): the Go standard-library functions that the kernel
  arguments depend on: `strings.Fields` with Go's `unicode.IsSpace` set,
  `net.JoinHostPort` and `strconv.Itoa`.
- `ImageFactory` (imagefactory.dfy): the client's `GetIPXEURL`, the release
  ordering of semantic versions, and `GetLatestStableVersion`. That last one
  is a method whose loop over the listed versions carries its invariants.
- `Ipxe` (ipxe.dfy): the `ImageFactoryClient` capability, `Handler`,
  `NewHandler`, `Serve` (`ServeHTTP`) and the script composition.
- `Boot` (boot.dfy): the handler wired to the real URL builder, with
  end-to-end facts about boot requests.

Requests are a script name plus a parsed query (`map<string, seq<string>>`,
read the way `url.Values.Get` reads it). Responses are a status plus a body.
The two factory operations are fields of arrow type in the
`ImageFactoryClient` value. "No factory call is made" is stated as: the
response does not change when that field is replaced by any other function.
Some inputs come from outside the model and are taken as parameters:

- the init-script builder;
- the binary patcher;
- `EnsureSchematic`;
- the semantic-version parser;
- the list of versions the factory returns.

One detail of the code is easy to miss. A failing boot request's body is `failed to get iPXE script: ` followed by
`failed to get schematic IPXE URL: ` and the factory's error text. The code
uses that second prefix for a failed `EnsureSchematic` as well as for a
failed `GetIPXEURL`.

## Model

| member | source | states |
|---|---|---|
| `Text.Fields` | internal/server/ipxe/handler.go:190 | every element of the split is a non-empty run of non-space characters, and together the elements hold exactly the non-space characters of the input, in order |
| `Text.FieldsSplitAtSpace` | internal/server/ipxe/handler.go:190 | the split happens only at white space, and at every white space: any one white-space character separates the fields before it from those after it (`Fields(a + [c] + b) == Fields(a) + Fields(b)`); with `FieldsEmpty` and `FieldsOfJoin`, this fixes the result on every string |
| `Text.SpaceCharacters` | internal/server/ipxe/handler.go:190 | the characters treated as white space: among ASCII, exactly tab, newline, vertical tab, form feed, carriage return and space; among U+0080 to U+00FF, exactly NEL and no-break space |
| `Text.FieldsEmpty` | internal/server/ipxe/handler.go:190 | the split is empty exactly when the input has no non-space character (so `""` gives no extra kernel arguments) |
| `Text.FieldsOfJoin` | internal/server/ipxe/handler.go:190 | splitting undoes joining with one space: for any list of fields, `Fields(Join(ws, " ")) == ws` |
| `Text.NatToDecimal` | internal/server/ipxe/handler.go:162 | the formatted port is a non-empty string of decimal digits, with no leading zero unless the number is 0 |
| `Text.Itoa` | internal/server/ipxe/handler.go:162 | a non-negative port is formatted as its decimal digits; a negative one as `-` followed by the digits of its absolute value; in both cases the digits read back to the number |
| `Text.JoinHostPort` | internal/server/ipxe/handler.go:162 | the result ends with `:` and the port; the part before that is the host in brackets when it contains a colon (an IPv6 literal), and the bare host otherwise |
| `Text.DecimalRoundTrip` | internal/server/ipxe/handler.go:162 | reading the digits back gives the number formatted |
| `ImageFactory.GetIPXEURL` | internal/server/imagefactory/client.go:75-95 | fails exactly when the schematic, the version or the arch is empty; checks the schematic first, then the version, then the arch; on success the URL is `<pxeBase>/pxe/<schematic>/<version>/metal-<arch>`, with `-secureboot` appended when secure boot is on |
| `ImageFactory.SecureBootSuffixIff` | internal/server/imagefactory/client.go:88-94 | for the arches `amd64` and `arm64`, the URL ends with `-secureboot` exactly when secure boot is on |
| `ImageFactory.GreaterIsStrictOrder` | internal/server/imagefactory/client.go:118 | the version comparison is irreflexive, asymmetric and transitive, and it is total on (major, minor, patch) |
| `ImageFactory.GetLatestStableVersion` | internal/server/imagefactory/client.go:98-128 | a listing error is passed on; unparseable strings and pre-releases are skipped; the call fails exactly when no string is a stable version; otherwise the result is such a version, no stable version exceeds it, it strictly exceeds every stable version listed before it (ties keep the first), and it is never a pre-release |
| `ImageFactory.LatestStableIsUnique` | internal/server/imagefactory/client.go:104-121 | only one index can be the first maximal stable version, so the result is determined |
| `Ipxe.QueryGet` | internal/server/ipxe/handler.go:84-87 | a query value is its first value, or `""` when the key is absent or has no values |
| `Ipxe.NormalizeArch` | internal/server/ipxe/handler.go:87-92 | the result is `arm64` or `amd64`, and it is `arm64` exactly when the raw value is `arm64` |
| `Ipxe.ConsoleKernelArgs` | internal/server/ipxe/handler.go:151-158 | two arguments: `console=tty0`, then `console=ttyAMA0` exactly for arm64 or `console=ttyS0` exactly for anything else |
| `Ipxe.BootKernelArgs` | internal/server/ipxe/handler.go:98-99 | the handler's kernel arguments come first, followed by the console arguments; order is kept and nothing is dropped |
| `Ipxe.ChainTargetOfRender` | internal/server/ipxe/handler.go:21-23 | the chain-boot script of a URL redirects to exactly that URL, and every chain-boot script is the rendering of the URL it redirects to |
| `Ipxe.BootViaFactoryIPXEScript` | internal/server/ipxe/handler.go:131-149 | uses the configured schematic if there is one, else the one `EnsureSchematic` returns; success gives status 200 and the script of `GetIPXEURL`'s URL for that schematic; any factory error gives status 500, no script, and that error under the wrap prefix |
| `Ipxe.Serve` | internal/server/ipxe/handler.go:68-129 | unknown script names get 404 with an empty body; `init.ipxe` gets 200 with the init script, whatever the query; `boot.ipxe` gets 200 with the chain-boot script for the normalised arch and the assembled kernel arguments, or 500 with `failed to get iPXE script: ` plus the wrapped factory error |
| `Ipxe.BootSucceedsIff` | internal/server/ipxe/handler.go:103-116 | a boot request gets 200 exactly when the schematic resolves and `GetIPXEURL` succeeds for it |
| `Ipxe.BootDependsOnlyOnArch` | internal/server/ipxe/handler.go:83-99 | for one handler and the same factory answers, boot requests whose arch values normalise alike get the same response; uuid, mac and the other query values play no part |
| `Ipxe.NonBootIgnoresFactory` | internal/server/ipxe/handler.go:69-79 | for any script name other than `boot.ipxe`, the response does not depend on the factory |
| `Ipxe.FixedSchematicSkipsEnsure` | internal/server/ipxe/handler.go:132-138 | with a configured schematic, the response does not depend on what `EnsureSchematic` would return |
| `Ipxe.TalosConfigKernelArgShape` | internal/server/ipxe/handler.go:162-164 | for a host without `:`, the config argument is `talos.config=http://<host>:<port>/config?u=${uuid}` |
| `Ipxe.NewHandler` | internal/server/ipxe/handler.go:161-205 | fails when a schematic is configured together with extensions or extra kernel arguments; otherwise succeeds exactly when building the init script and patching both succeed, and reports their errors in that order; the handler keeps the options, the factory and the init script; its kernel arguments are the whitespace fields of the extra arguments, followed by the `talos.config` argument exactly when the config server is enabled |
| `Ipxe.FixedSchematicKernelArgs` | internal/server/ipxe/handler.go:166-169 | with a configured schematic, the handler's kernel arguments are the config argument alone if the config server is enabled, and empty otherwise |
| `Ipxe.BootKernelArgsOfNewHandler` | internal/server/ipxe/handler.go:190-196 | for a handler built by `NewHandler`, a boot request passes on the extra-argument fields, then the config argument when enabled, then the console arguments |
| `Boot.FixedSchematicBoot` | internal/server/imagefactory/client.go:75-95 | with a configured schematic and the real URL builder, a boot request fails only when the Talos version is missing, with that exact body; otherwise it chains to the schematic's URL for the normalised arch |
| `Boot.SecureBootInBootScript` | internal/server/imagefactory/client.go:88-94 | in the wired server, a successful boot script's URL ends with `-secureboot` exactly when secure boot is on |
| `Boot.ExampleURL` | internal/server/imagefactory/client.go:88 | the URL for schematic `img-1`, version `v1.2.3`, arch arm64 without secure boot is `<pxeBase>/pxe/img-1/v1.2.3/metal-arm64` |
| `Boot.ExampleScript` | internal/server/ipxe/handler.go:21-23 | the chain-boot script for `<pxeBase>/pxe/img-1/v1.2.3/metal-arm64`, written out byte for byte |
| `Boot.ExampleBoot` | internal/server/ipxe/handler.go:131-148 | any handler configured with schematic `img-1` and version `v1.2.3` behind the real URL builder answers `boot.ipxe?arch=arm64` with that URL's chain-boot script and status 200 |
| `Boot.Arm64FixedSchematicExample` | internal/server/ipxe/handler.go:142-148 | a handler built with schematic `img-1` and version `v1.2.3`, without secure boot, answers a `boot.ipxe?arch=arm64` request with 200 and `#!ipxe\nchain --replace <pxeBase>/pxe/img-1/v1.2.3/metal-arm64\n` |
| `Boot.SchematicWithExtensionsRefused` | internal/server/ipxe/handler.go:166-169 | a configured schematic together with extensions is refused at construction |

## Left out

- `EnsureSchematic`'s body (schematic marshalling and the network call under a 10-second timeout) is abstract. It is a capability parameter that returns an ID or an error text.
- The factory capability is a fixed function of its arguments: repeated calls with the same arguments return the same result. Transient failures such as time-outs, and a factory that is not idempotent, are not captured.
- `NewClient` and the factory's `Versions` call are foreign library code. `GetLatestStableVersion` receives the outcome of the listing as a `Result` value.
- `semver.ParseTolerant` is a parameter `string -> Option<Version>`, and `Version.String()` formatting is not modelled. `GetLatestStableVersion` returns the chosen `Version` value, not its text.
- `ImageFactory.GreaterIsStrictOrder`: the comparison is semver precedence restricted to release versions (major, minor, patch). Pre-release precedence is left out, because the loop compares only stable versions.
- `ImageFactory.SecureBootSuffixIff`: stated only for the arches `amd64` and `arm64`, the only ones the handler passes. For other arches, `metal-<arch>` can itself end with `-secureboot`.
- `buildInitScript` and `patchBinaries` are not part of this model. They are parameters: the first returns the init script or an error, the second passes or fails.
- `constants.KernelParamConfig` is taken to be `talos.config`.
- `Text.IsSpace` works on Unicode scalar values. Invalid UTF-8 bytes in the extra kernel arguments, which Go treats as non-space runes, cannot occur in the model.
- HTTP plumbing is left out: the `Content-Type` header, `ResponseWriter` write errors, and the request context.
- Zap logging is left out, including the warning about a configured schematic with the config server enabled. It has no effect on results.
- Bodies and the init script are strings, not UTF-8 byte slices.
- Concurrency is not modelled. The handler is an immutable value, so concurrent requests do not interact.
