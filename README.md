# setup-fargate-cli: platform-to-URL resolution

This project models the pure core of a GitHub Action that installs the
fargatecli tool. That core is the code in `index.js` that turns the host's raw
Node platform facts into a release download URL:

- `formatOSForUrl` maps a raw OS token (`os.platform()`) to the OS name the
  release assets use: `darwin`, `linux`, or `win32` → `windows`.
- `formatArchForUrl` maps a raw CPU token (`os.arch()`) to the asset name:
  `arm64`, `arm`, `x32` → `386`, or `x64` → `amd64`.
- `ensureArchCompatibleWithOS` is the gate over the `allowedArch` table.
- `generateDownloadUrl` runs these three steps in order. It then fills in the
  template
  `https://github.com/awslabs/fargatecli/releases/download/<version>/fargate-<version>-<os>-<arch>.zip`.

Every `throw` becomes a value. `Result<T>` is `Ok(value)` or
`Err(error)`, and `Outcome` is `Pass` or `Fail(error)`. There are three error
variants:

- `UnsupportedOS(raw)`
- `UnsupportedArch(raw)`
- `UnsupportedCombination(os, arch)`

`Message` gives the text of each error.

The source's callback `arch => arch == arch` (`index.js:53`) shadows the
requested architecture. As a result, the gate checks only that the OS is a key
of the table. The model reproduces this as written
(`EnsureArchCompatibleWithOS`, used by `GenerateDownloadUrl`). The gate the
table evidently means is kept beside it (`IntendedCompatible`,
`EnsureArchCompatibleWithOSIntended`, `GenerateDownloadUrlIntended`). The
lemmas state exactly where the two gates disagree.

The model has two files:

- `download_url.dfy` (module `DownloadUrl`) holds the data, the four functions,
  `Array.prototype.some` as `ArraySome`, and the intended gate.
- `download_url_properties.dfy` (module `DownloadUrlProperties`) holds the
  lemmas.

Where the code does less than a reader of the action would expect, the model
follows the code:

- The gate does not enforce the per-OS architecture list (see Findings).
- The version is not validated. Any string is inserted verbatim, including the
  empty one, and the model does the same.
- No cache is looked up or filled (see Left out).

## Model

| member | source | states |
|---|---|---|
| `DownloadUrl.FormatOSForUrl` | index.js:59-71 | Succeeds exactly on `darwin`, `linux`, `win32`, giving `darwin`, `linux`, `windows`; every result is a key of `allowedArch`; any other token fails with `UnsupportedOS` carrying the raw token |
| `DownloadUrl.FormatArchForUrl` | index.js:73-89 | Succeeds exactly on `arm64`, `arm`, `x32`, `x64`, giving `arm64`, `arm`, `386`, `amd64`; any other token fails with `UnsupportedArch` carrying the raw token |
| `DownloadUrl.ArraySome` | index.js:53 | `some` is true exactly when some element satisfies the callback |
| `DownloadUrl.EnsureArchCompatibleWithOS` | index.js:45-57 | As written: passes exactly when the OS is a key of the table, whatever the architecture; a failure is `UnsupportedCombination(os, arch)` |
| `DownloadUrl.EnsureArchCompatibleWithOSIntended` | index.js:45-55 | Corrected gate: passes exactly on the six published pairs of the release table (equivalently, when the architecture is listed for the OS); otherwise `UnsupportedCombination(os, arch)` |
| `DownloadUrl.GenerateDownloadUrl` | index.js:37-43 | Succeeds exactly when the raw OS and the raw arch are both accepted; the URL is the template filled with the version verbatim and the canonical tokens; an unsupported OS is reported before an unsupported arch |
| `DownloadUrl.GenerateDownloadUrlIntended` | index.js:37-43 | With the corrected gate: succeeds exactly when both tokens are accepted and the canonical pair is published; an accepted but unpublished pair fails with `UnsupportedCombination` of the canonical tokens |
| `DownloadUrl.Message` | index.js:45-89 | The text of each thrown error contains the offending value(s): the raw OS, the raw arch, or both canonical tokens |
| `DownloadUrlProperties.NormalisedTokensAreCanonical` | index.js:59-89 | Every normalised OS is `darwin`, `linux` or `windows`, and every normalised arch is `386`, `amd64`, `arm` or `arm64` |
| `DownloadUrlProperties.NormalisationInjective` | index.js:59-89 | Two distinct accepted raw tokens never map to the same canonical token |
| `DownloadUrlProperties.GateIgnoresArch` | index.js:52-55 | The written gate gives the same verdict for every architecture |
| `DownloadUrlProperties.GateNeverFailsAfterNormalisation` | index.js:38-40 | Any OS that `formatOSForUrl` returns passes the written gate, with any architecture |
| `DownloadUrlProperties.GenerateNeverReportsCombination` | index.js:37-43 | `generateDownloadUrl` never fails with `UnsupportedCombination` |
| `DownloadUrlProperties.OSErrorReportedFirst` | index.js:38-39 | With both raw tokens unsupported, the OS error is the one reported |
| `DownloadUrlProperties.GateDivergence` | index.js:46-55 | The written and intended gates disagree exactly when the OS is in the table but the arch is not listed for it; the intended gate never passes a pair the written one rejects |
| `DownloadUrlProperties.DarwinArm64Divergence` | index.js:46-53 | (darwin, arm64) passes the written gate and yields a URL, while the intended gate rejects it with `UnsupportedCombination` |
| `DownloadUrlProperties.IntendedAgreesWhereItSucceeds` | index.js:37-55 | Wherever the intended pipeline succeeds, the written one returns the same URL; wherever the written one fails, both fail with the same error |
| `DownloadUrlProperties.LinuxX64Example` | index.js:42 | (linux, x64, v1.2.3) gives `…/download/v1.2.3/fargate-v1.2.3-linux-amd64.zip` |
| `DownloadUrlProperties.Win32X64Example` | index.js:42 | (win32, x64, v2.0.0) gives `…/download/v2.0.0/fargate-v2.0.0-windows-amd64.zip` |
| `DownloadUrlProperties.ReleaseUrlInjective` | index.js:42 | The template is injective on canonical platforms: equal URLs mean an equal version, OS and arch |
| `DownloadUrlProperties.GenerateDownloadUrlInjective` | index.js:37-43 | Two successful calls that give the same URL were given the same raw OS, raw arch and version |

## Left out

- The top-level block (`index.js:6-17`) is left out. It reads the `cli-version`
  input and queries `os.platform()` and `os.arch()`. It also calls
  `core.addPath` and `core.setFailed`. All of this is host I/O. Instead, the
  model takes the OS, the arch and the version as plain string parameters.
- `downloadCli` (`index.js:20-35`) is left out. It is asynchronous and only
  calls foreign library code: `toolCache.downloadTool`, `toolCache.extractZip`
  and `core.info`. Two defects there are noted but not modelled:
  - `index.js:12` calls `downloadCli` without `await`, so `core.addPath`
    receives a promise, and a rejection escapes the `try`/`catch`.
  - `index.js:31` refers to the undefined name `url`.
- Caching and reuse across runs are left out. The code never calls
  `toolCache.find` or `toolCache.cacheDir`, so there is no cache behaviour to
  model.
- Concurrency, timeouts and retries are left out. The code has none.
- JavaScript property lookup on a name that is not a table key, such as
  `constructor`, returns a prototype member. The following `.some` call then
  throws a `TypeError` rather than the gate's own `Error`. The model reports
  both as `UnsupportedCombination`. This cannot arise inside
  `generateDownloadUrl`, because normalised OS names are always table keys.
- `DownloadUrl.Message`: its contract states only that each message contains
  the offending values. It does not state the full wording. The body gives the
  exact texts.
- Current Node documentation names 32-bit x86 `ia32`, but the source maps only
  `x32`. The model follows the code, so `ia32` fails with `UnsupportedArch`.

## Findings

| source | as written | input that shows it | evidently intended | confidence | as-written member | corrected member |
|---|---|---|---|---|---|---|
| index.js:53 | the callback `arch => arch == arch` compares each listed architecture with itself, so the gate passes any architecture for a known OS | OS `darwin`, arch `arm64`: passes, and `generateDownloadUrl("darwin", "arm64", v)` returns a URL, although darwin lists only `amd64` | compare each listed architecture with the requested one, so that only the table's pairs pass | high; not executed | `DownloadUrlProperties.DarwinArm64Divergence` | `DownloadUrl.EnsureArchCompatibleWithOSIntended` |

`GenerateDownloadUrlIntended` builds the pipeline on the corrected gate. The
main `GenerateDownloadUrl` keeps the gate as written, because that is what the
action runs. `IntendedAgreesWhereItSucceeds` and `GateDivergence` relate the
two pipelines.
