# OpenList direct-upload negotiation and static front-end serving, in Dafny

This project models the decision logic of four files of OpenList, a file-aggregation server.

- **Direct-upload negotiation** (`server/handles/direct_upload.go`). Given a path, the handler decides whether a client may upload a file straight to the storage behind it. The answer is one of four shapes: a descriptor, `upload_info: null` ("unsupported, fall back to a normal upload"), or an error with status 400, 403 or 500. The handler is a fixed chain of checks, and the first one that fails decides the response. `DirectUpload.FsGetDirectUploadInfo` is that chain as a function. It also reports how many stages it went through. Its collaborators are fields of a `Collaborators` value: path unescaping, the user's path join, storage resolution, directory lookup and the driver. So every property holds whatever those collaborators do.
- **Site configuration** (`server/static/config.go`). `StaticConfig.GetSiteConfig` normalises the base path and the CDN URL: trailing slashes, `$version` substitution, `local`/`none`, the default npm mirror for release builds, and the local fallback.
- **Front-end serving** (`server/static/static.go`):
  - `replaceStrings` is a method that loops over the map's keys in an unspecified order. Its specification function is `ApplyInOrder`.
  - The three index pages kept by the server are a class, `Static.Pages`. `InitIndex` and `UpdateIndex` reassign its fields.
  - The manifest, the `useCdn` predicate, the CDN and mermaid redirects, and the catch-all route are pure functions.
- **Descriptor record and close aggregation** (`internal/model/file.go`):
  - `Model.DirectUploadInfo` is the descriptor record.
  - `Model.FileCloser.Close` closes the inner file (when it is an `io.Closer`) and then the outer closer (when it is not nil). It joins their errors as `errors.Join` does.

Go's `strings` functions that the code uses are in `GoStrings`. Go's `int64` is the newtype `Model.int64`.

## Model

| member | source | states |
|---|---|---|
| `DirectUpload.FsGetDirectUploadInfo` | server/handles/direct_upload.go:19-97 | The handler consults between 1 and 8 stages. An error response is always 400, 403 or 500. A 500 or a returned descriptor is only possible after the driver was called, at the last stage. |
| `DirectUpload.BindFailureIsBadRequest` | server/handles/direct_upload.go:26-29 | A request that cannot be bound gives 400 with the bind error, whatever the collaborators are. |
| `DirectUpload.UnescapeFailureIsBadRequest` | server/handles/direct_upload.go:32-36 | A path that fails to percent-decode gives 400 with the decoding error. |
| `DirectUpload.JoinFailureIsForbidden` | server/handles/direct_upload.go:40-44 | A JoinPath failure gives 403. |
| `DirectUpload.UnmountedPathIsUnsupported` | server/handles/direct_upload.go:47-54 | A path that resolves to no storage gives success with `upload_info` null, never an error. |
| `DirectUpload.NoCapabilityIsUnsupported` | server/handles/direct_upload.go:57-64 | A storage that is not a DirectUploader gives success with null. Two requests for the same path get the same response, whatever their file names and sizes. |
| `DirectUpload.DirectoryChecks` | server/handles/direct_upload.go:68-77 | A failed directory lookup gives 400 with the lookup error. An object that is not a directory gives 400 "Path is not a directory". |
| `DirectUpload.DriverOutcome` | server/handles/direct_upload.go:80-96 | Once every check passes, the driver is consulted. A NotImplement error gives success with null, any other driver error gives 500, and a descriptor is returned exactly as the driver gave it. |
| `DirectUpload.DriverOnlyAfterChecks` | server/handles/direct_upload.go:68-96 | The driver is reached if and only if the request binds and the unescape, join, resolution, capability, lookup and directory checks all pass. Any descriptor in a response is the one the driver returned for the resolved storage, directory, actual path, file name and size. |
| `DirectUpload.LaterStagesNotConsulted` | server/handles/direct_upload.go:26-92 | The checks run in a fixed order and the first failing check decides. Replacing the collaborators of the stages after the deciding one does not change the response. |
| `Model.RequiresChunking` | internal/model/file.go:37 | A chunk size of 0 means no chunking. What this means for a client is stated by `Model.UploadRanges`. |
| `Model.UploadRanges` | internal/model/file.go:37 | The ranges a client uploads cover the file from byte 0 to its size, each one starting where the previous one ended. Without chunking there is one range, the whole file. With chunking no range is longer than the chunk size. |
| `Model.Chunked` | internal/model/file.go:37 | Splitting into pieces of a positive chunk size covers the bytes contiguously, with every piece non-empty and at most the chunk size. |
| `Model.UploadMethod` | internal/model/file.go:39 | The upload method is never empty. It is the descriptor's method when one is given and PUT otherwise. |
| `Model.Join` | internal/model/file.go:27 | `errors.Join` gives nil if and only if every error is nil. Otherwise it wraps exactly the non-nil errors. |
| `Model.NonNil` | internal/model/file.go:27 | The non-nil errors of a list are empty if and only if every entry is nil, and they are exactly the errors that appear in the list. |
| `Model.JoinOrder` | internal/model/file.go:19-27 | For two close results, the joined error lists the first one's error before the second one's and drops a nil one. |
| `Model.FileCloser.Close` | internal/model/file.go:19-28 | The inner file is closed first, if it is an io.Closer. Then the outer Closer is closed, if it is not nil, whatever the first close returned. Each object is closed once per reference to it. The result is nil if and only if every attempted close returned nil, and it is the join of the attempted results, in order. |
| `StaticConfig.GetSiteConfig` | server/static/config.go:15-47 | The base path is never empty, and an empty URL path gives "/". An empty CDN gives the npm mirror for a release version and otherwise the base path without its trailing "/". A CDN of "local" or "none" gives "". Any other CDN is kept after the trim and the substitution. |
| `StaticConfig.BasePathShape` | server/static/config.go:20-29 | A cleaned path of "" or "/" gives "/". A cleaned path ending in "/" loses exactly that one "/". Any other cleaned path is kept. |
| `StaticConfig.BasePathHasNoTrailingSlash` | server/static/config.go:20-26 | If the cleaned path does not end in "//", the base path is "/" or has no trailing "/". |
| `StaticConfig.DisablesCdnAnyCase` | server/static/config.go:41-45 | "local" and "none" switch the CDN off in any mix of letter cases. |
| `StaticConfig.CdnVersionSubstitution` | server/static/config.go:18 | A CDN template with one `$version` (and no other `$`) loses one trailing "/". The `$version` is replaced by the web version with its leading "v" removed. |
| `GoStrings.ReplaceFirst` | server/static/static.go:54 | Text without the key is unchanged. Otherwise only the first occurrence of the key is replaced, and the text before and after it is kept. |
| `GoStrings.ReplaceFirstKeepsLaterOccurrences` | server/static/static.go:52-57 | A one-shot replacement leaves any later, non-overlapping occurrence of the key in place, shifted by the length difference. |
| `GoStrings.ReplaceAllIdentity` | server/static/config.go:18 | Replacing every occurrence of a pattern by the pattern itself gives back the same text. |
| `GoStrings.ReplaceAllSingle` | server/static/config.go:18 | When the pattern's first character occurs nowhere else, ReplaceAll rewrites exactly the one occurrence. |
| `GoStrings.FirstLine` | server/static/static.go:143 | The logo is a prefix of the setting and has no newline. It is the whole setting, or it stops right before the first newline. |
| `Static.ReplaceStrings` | server/static/static.go:52-57 | Each key of the map is visited exactly once, in some order. The result is the content with each key's first occurrence replaced in that order. |
| `Static.NoKeyUnchanged` | server/static/static.go:52-57 | Content that contains no key is returned unchanged, whatever the iteration order. |
| `Static.ManifestPath` | server/static/static.go:96-99 | The manifest link starts with the base path and ends with "/manifest.json". |
| `Static.ManifestPathUnderBase` | server/static/static.go:96-99 | For "/" the link is "/manifest.json". For a base path without a trailing "/" it is the base path followed by "/manifest.json". |
| `Static.Pages.InitIndex` | server/static/static.go:59-107 | The page is loaded from where the program decides, by the as-written test on the raw configured CDN. The raw index is that page with the cdn, base_path and manifest placeholders filled in, one occurrence each, in some order. After that, the pages are rendered with the settings. |
| `Static.Pages.InitIndexCorrected` | server/static/static.go:59-107 | The same as InitIndex, except that the page is loaded from the corrected choice of source. |
| `Static.Pages.RenderIndex` | server/static/static.go:94-106 | The raw index is the given page with the cdn, base_path and manifest placeholders filled in, one occurrence each, in some order. The pages are then rendered with the settings. |
| `Static.Pages.UpdateIndex` | server/static/static.go:109-132 | ManageHtml is the raw index with the favicon, logo first line, title and main colour filled in. IndexHtml is ManageHtml with the customised head and body filled in. The raw index is unchanged. |
| `Static.NoMarkersIndexIsManage` | server/static/static.go:126-130 | If ManageHtml has no customisation markers, IndexHtml equals ManageHtml. |
| `Static.ManifestJson` | server/static/static.go:134-166 | The scope and start_url are both the base path, display is "standalone" and the name is the site title. There is exactly one icon: the logo's first line, 512x512, image/png. |
| `Static.ManifestConsistent` | server/static/static.go:146-166 | For the site configuration, the manifest's scope is never empty and its icon source is a single line. The manifest link put into index.html lies inside the scope. |
| `Static.DisabledCdnIsLocal` | server/static/static.go:186 | A CDN switched off with "local" or "none" means useCdn is false. |
| `Static.DevBuildIsLocal` | server/static/static.go:186 | With no CDN configured, a development build has useCdn false. Under the root base path its CDN setting is "". |
| `Static.ReleaseBuildUsesMirror` | server/static/static.go:186 | With no CDN configured, a release build uses the npm mirror, so useCdn holds (given an absolute cleaned path). |
| `Static.BasePathIsAbsolute` | server/static/config.go:20-29 | A URL path that cleans to an absolute path gives a base path starting with "/". |
| `Static.MirrorIsRemote` | server/static/config.go:35 | The default mirror for any version starts with "https://", so it is never taken for a local base path. |
| `Static.CdnRedirect` | server/static/static.go:217-225 | A 301 is returned if and only if the request is static/mermaid/mermaid.min.js, and it points to jsDelivr. Every other request gets a 302 to `Cdn + "/" + folder + filepath`. |
| `Static.CdnRedirectInjective` | server/static/static.go:224 | Two different files never get a 302 to the same CDN location. |
| `Static.FoldersPrefixFree` | server/static/static.go:183 | No static folder name is a prefix of another, so a folder name followed by a path identifies both. |
| `Static.LocalStaticAction` | server/static/static.go:190-202 | In local mode, only /static/mermaid/mermaid.min.js is redirected (301 to jsDelivr). Any other request is served, with the long cache lifetime if and only if it lies under a static folder. |
| `Static.UseCdn` | server/static/static.go:186 | Static files come from a CDN exactly when the CDN setting is neither empty nor the base path without its trailing "/". Its consequences are the lemmas below. |
| `Static.StaticFolderAction` | server/static/static.go:188-227 | CDN mode answers a GET under a folder by the CDN route, which sees only the path parameter. Local mode answers it by the middleware, which sees the whole request URI: the router group's path, the folder, the file and the query. |
| `Static.StaticFolderModes` | server/static/static.go:188-227 | With the routes at the root and no query, both modes send mermaid.min.js, and only it, to jsDelivr with a 301. With the routes at the root and any query, local mode serves every other file of a folder with the long cache lifetime. Wherever the routes are, CDN mode redirects every other file (302) under the CDN. |
| `Static.MermaidWithQuery` | server/static/static.go:188-227 | With the routes at the root, mermaid.min.js requested with a query string is still sent to jsDelivr in CDN mode. In local mode it is served locally with the long cache lifetime. |
| `Static.GroupPathBypassesMiddleware` | server/static/static.go:190-202 | In local mode, with the routes mounted under a group path whose first segment does not start with a, i or s (such as "/foo"), no request is redirected to jsDelivr and none gets the long cache lifetime. The middleware compares the request URI with paths written from the root. |
| `Static.LocalUriInFolder` | server/static/static.go:197-201 | A request URI made of "/", a static folder, a file path starting with "/" and any query lies under that folder. For routes at the root this is the URI the middleware sees, so it gives the long cache lifetime. |
| `Static.MermaidUriOnly` | server/static/static.go:192 | Without a query, the middleware's mermaid URI matches the mermaid file of the static folder and no other folder/file pair. |
| `Static.CatchAll` | server/static/static.go:230-244 | The catch-all answers 405 with no body if and only if the method is neither GET nor POST. Otherwise it answers 200 with ManageHtml for paths starting "/@manage" and IndexHtml for every other path. |
| `Static.ChooseIndexSourceAsWritten` | server/static/static.go:62-66 | As written, index.html is fetched if and only if the dist dir is empty, the configured CDN is non-empty and the web version is "", beta, dev or rolling. |
| `Static.AsWrittenFetchesWithoutCdn` | server/static/static.go:62-66 | As written, a dev build with the CDN set to "local" fetches "/index.html". |
| `Static.ChooseIndexSource` | server/static/static.go:62-66 | Corrected: index.html is fetched only when useCdn also holds. The fetch URL is never "/index.html" and never the local base path's index.html. |
| `Static.DisabledCdnReadsDist` | server/static/static.go:62-66 | Corrected: a CDN switched off with "local" or "none" always reads index.html from the dist files. |
| `Static.IndexSourceAgreesUnderCdn` | server/static/static.go:62-66 | Whenever useCdn holds, the corrected choice equals the as-written one. |

## Findings

| source | as written | input that shows it | evidently intended | confidence | as-written member | corrected member |
|---|---|---|---|---|---|---|
| server/static/static.go:62 | The decision to fetch index.html from the CDN tests the raw `conf.Conf.Cdn`. That value is not empty for "local" or "none", even though config.go:41-45 turns both into an empty CDN. | DistDir "", Cdn "local", WebVersion "dev", URL path "": the server fetches "/index.html", a URL with no host, and the fetch failure is fatal at startup. | "local"/"none" force local loading, as config.go:41-45 intends, so index.html is read from the dist files. | medium, not executed | `Static.AsWrittenFetchesWithoutCdn` (about `Static.ChooseIndexSourceAsWritten`) | `Static.ChooseIndexSource`, with `Static.DisabledCdnReadsDist`, used by `Static.Pages.InitIndexCorrected` |

## Left out

- HTTP and gin plumbing is not modelled: request binding, headers, `c.Redirect`, `StaticFS`, writer flushes and JSON encoding. Binding is an input outcome, and a response is a tagged value.
- The Content-Type and Cache-Control values are not modelled. The long cache lifetime is a boolean.
- The formatting done by `common.ErrorResp`/`SuccessResp` is not part of this model. An error response carries the collaborator's error message.
- Network and file-system I/O is not modelled: the resty fetch of index.html, `os.DirFS`/`fs.Sub`, `io.ReadAll`, `initStatic`. Loading index.html is the parameter `load` of `Static.Pages.InitIndex`. Its `Fatalf` exits are not modelled.
- External collaborators are not modelled: `url.PathUnescape`, `user.JoinPath`, `fs.GetStorageAndActualPath`, `fs.GetByActualPath`, the driver's `GetDirectUploadInfo`, `utils.FixAndCleanPath` and `setting.GetStr`. Each is an arbitrary function or value given as a parameter. How the user is taken from the request context is not modelled.
- Per-backend descriptor factories are not modelled: chunk alignment, MiB-to-byte conversion and conflict policy. No driver is part of this model. The handler does not check the file size, so the model does not either.
- Global configuration (`conf.Conf`, `conf.WebVersion`, `conf.URL`) is passed as parameters.
- Go map iteration order is unspecified. `Static.ReplaceStrings` picks each next key arbitrarily and returns the order it took. No order-independence is claimed when keys overlap.
- `GoStrings.ToLower` lowers ASCII letters only. No other character lowers to a letter of "local" or "none", so this comparison is unaffected.
- `GoStrings.ReplaceAll` requires a non-empty pattern. Its one use is with "$version". Go's special case for an empty pattern is not modelled.
- Logging is not modelled.
- `Static.Pages.InitIndex` follows the program and loads the page by the as-written decision. The corrected decision is only used by `Static.Pages.InitIndexCorrected`.
- `Static.StaticFolderAction` takes the router group's path as a parameter. The router that mounts the static routes is not part of this model, so which path that is in practice is not stated.
- `Static.StaticFolderAction` takes the path and the raw query apart. Percent-encoding, by which the raw RequestURI can also differ from gin's decoded path parameter, is not modelled.
- `Model.UploadRanges` requires a chunk size of at least 0. The record does not say what a negative chunk size means. How a client actually splits the upload is not code in this repository: the function states the record's documented meaning of the chunk size.
- The text of a joined error (messages separated by newlines) is not modelled.
- `Model.Closer`: each closer always returns the same result. Side effects of a real `Close` beyond a call count are not modelled.
