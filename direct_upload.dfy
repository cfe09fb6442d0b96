/**
  server/handles/direct_upload.go: the negotiation that tells a client
  whether it may upload a file straight to the storage behind a path, and
  with which descriptor.

  The handler is a fixed chain of checks; the first that fails decides the
  response. Its collaborators (path unescaping, the user's path join,
  storage resolution, directory lookup and the driver itself) are given as
  functions, so any behaviour of theirs is covered.
 */
module DirectUpload {
  import opened Wrappers
  import opened Model

  /** A Go error: its message, and whether errors.Is(err, errs.NotImplement) holds. */
  datatype GoError = GoError(message: string, isNotImplement: bool)

  /** The bound request: path (percent-encoded), file name and declared size. */
  datatype Request = Request(path: string, fileName: string, fileSize: int64)

  /**
    A mounted storage, identified by its mount path for the collaborators
    it is handed to; `directUploader` says whether its driver implements
    DirectUploader.
   */
  datatype Storage = Storage(mountPath: string, directUploader: bool)

  /** An object found by path. */
  datatype Obj = Obj(name: string, isDir: bool)

  /** What the driver's GetDirectUploadInfo returns. */
  datatype DriverResult = Info(info: DirectUploadInfo) | DriverError(err: GoError)

  datatype Collaborators = Collaborators(
    pathUnescape: string -> Result<string, GoError>,                       // url.PathUnescape
    joinPath: string -> Result<string, GoError>,                           // user.JoinPath
    getStorageAndActualPath: string -> Result<(Storage, string), GoError>, // fs.GetStorageAndActualPath
    getByActualPath: (Storage, string) -> Result<Obj, GoError>,            // fs.GetByActualPath
    getDirectUploadInfo: (Storage, Obj, string, string, int64) -> DriverResult) // DirectUploader.GetDirectUploadInfo

  /** A success carrying `upload_info` (null or a descriptor), or an error with its HTTP status. */
  datatype Response = SuccessResp(uploadInfo: Option<DirectUploadInfo>) | ErrorResp(code: int, message: string)

  /**
    The number of steps of the handler. In order: 1 bind the request,
    2 unescape the path, 3 join it with the user's base path, 4 resolve the
    storage, 5 probe the DirectUploader capability, 6 look the directory up,
    7 check that it is a directory, 8 call the driver.
   */
  const StageCount: nat := 8

  /** The response, and how many of the steps (always the first ones) the handler went through. */
  datatype Negotiation = Negotiation(response: Response, consulted: nat)

  const NotDirectory := "Path is not a directory"

  /** The response that tells the client to fall back to an ordinary upload. */
  const Unsupported := SuccessResp(None)

  /** FsGetDirectUploadInfo, from the outcome of binding the request and the collaborators. */
  function FsGetDirectUploadInfo(bound: Result<Request, GoError>, c: Collaborators): (n: Negotiation)
    ensures 1 <= n.consulted <= StageCount
    ensures n.response.ErrorResp? ==> n.response.code in {400, 403, 500}
    ensures n.response.ErrorResp? && n.response.code == 500 ==> n.consulted == StageCount
    ensures n.response.SuccessResp? && n.response.uploadInfo.Some? ==> n.consulted == StageCount
  {
    match bound
    case Failure(e) => Negotiation(ErrorResp(400, e.message), 1)
    case Success(req) =>
      match c.pathUnescape(req.path)
      case Failure(e) => Negotiation(ErrorResp(400, e.message), 2)
      case Success(path) =>
        match c.joinPath(path)
        case Failure(e) => Negotiation(ErrorResp(403, e.message), 3)
        case Success(fullPath) =>
          match c.getStorageAndActualPath(fullPath)
          case Failure(_) => Negotiation(Unsupported, 4)
          case Success((storage, actualPath)) =>
            if !storage.directUploader then Negotiation(Unsupported, 5)
            else
              match c.getByActualPath(storage, actualPath)
              case Failure(e) => Negotiation(ErrorResp(400, e.message), 6)
              case Success(dir) =>
                if !dir.isDir then Negotiation(ErrorResp(400, NotDirectory), 7)
                else
                  match c.getDirectUploadInfo(storage, dir, actualPath, req.fileName, req.fileSize)
                  case DriverError(e) =>
                    if e.isNotImplement then Negotiation(Unsupported, 8)
                    else Negotiation(ErrorResp(500, e.message), 8)
                  case Info(info) => Negotiation(SuccessResp(Some(info)), 8)
  }

  /**
    The checks before the driver call all pass for `req`: the path unescapes
    and joins, resolves to `storage` and `actualPath`, the storage is a
    DirectUploader, and the lookup finds the directory `dir`.
   */
  ghost predicate ChecksPass(req: Request, c: Collaborators, storage: Storage, actualPath: string, dir: Obj) {
    var unescaped := c.pathUnescape(req.path);
    && unescaped.Success?
    && var joined := c.joinPath(unescaped.value);
    && joined.Success?
    && c.getStorageAndActualPath(joined.value) == Success((storage, actualPath))
    && storage.directUploader
    && c.getByActualPath(storage, actualPath) == Success(dir)
    && dir.isDir
  }

  /** A request that cannot be bound is a 400, whatever the collaborators would say. */
  lemma BindFailureIsBadRequest(e: GoError, c: Collaborators)
    ensures FsGetDirectUploadInfo(Failure(e), c) == Negotiation(ErrorResp(400, e.message), 1)
  {
  }

  /** A path that does not unescape is a 400. */
  lemma UnescapeFailureIsBadRequest(req: Request, c: Collaborators)
    requires c.pathUnescape(req.path).Failure?
    ensures FsGetDirectUploadInfo(Success(req), c) == Negotiation(ErrorResp(400, c.pathUnescape(req.path).error.message), 2)
  {
  }

  /** A path the user may not reach (JoinPath fails) is a 403. */
  lemma JoinFailureIsForbidden(req: Request, c: Collaborators, path: string)
    requires c.pathUnescape(req.path) == Success(path)
    requires c.joinPath(path).Failure?
    ensures FsGetDirectUploadInfo(Success(req), c) == Negotiation(ErrorResp(403, c.joinPath(path).error.message), 3)
  {
  }

  /** A path under no mounted storage is not an error: upload_info is null. */
  lemma UnmountedPathIsUnsupported(req: Request, c: Collaborators, path: string, fullPath: string)
    requires c.pathUnescape(req.path) == Success(path)
    requires c.joinPath(path) == Success(fullPath)
    requires c.getStorageAndActualPath(fullPath).Failure?
    ensures FsGetDirectUploadInfo(Success(req), c) == Negotiation(Unsupported, 4)
  {
  }

  /**
    A storage whose driver is not a DirectUploader gives upload_info null,
    and the same response for every file name and size.
   */
  lemma NoCapabilityIsUnsupported(req: Request, other: Request, c: Collaborators, path: string, fullPath: string, storage: Storage, actualPath: string)
    requires other.path == req.path
    requires c.pathUnescape(req.path) == Success(path)
    requires c.joinPath(path) == Success(fullPath)
    requires c.getStorageAndActualPath(fullPath) == Success((storage, actualPath))
    requires !storage.directUploader
    ensures FsGetDirectUploadInfo(Success(req), c) == Negotiation(Unsupported, 5)
    ensures FsGetDirectUploadInfo(Success(other), c) == FsGetDirectUploadInfo(Success(req), c)
  {
  }

  /** A failed directory lookup is a 400; an object that is not a directory is a 400 "Path is not a directory". */
  lemma DirectoryChecks(req: Request, c: Collaborators, path: string, fullPath: string, storage: Storage, actualPath: string)
    requires c.pathUnescape(req.path) == Success(path)
    requires c.joinPath(path) == Success(fullPath)
    requires c.getStorageAndActualPath(fullPath) == Success((storage, actualPath))
    requires storage.directUploader
    ensures c.getByActualPath(storage, actualPath).Failure? ==>
      FsGetDirectUploadInfo(Success(req), c) == Negotiation(ErrorResp(400, c.getByActualPath(storage, actualPath).error.message), 6)
    ensures c.getByActualPath(storage, actualPath).Success? && !c.getByActualPath(storage, actualPath).value.isDir ==>
      FsGetDirectUploadInfo(Success(req), c) == Negotiation(ErrorResp(400, NotDirectory), 7)
  {
  }

  /**
    Once the checks pass, a driver error that is errs.NotImplement gives
    upload_info null, any other driver error a 500, and a descriptor is
    returned as the driver gave it.
   */
  lemma DriverOutcome(req: Request, c: Collaborators, storage: Storage, actualPath: string, dir: Obj)
    requires ChecksPass(req, c, storage, actualPath, dir)
    ensures var d := c.getDirectUploadInfo(storage, dir, actualPath, req.fileName, req.fileSize);
      var n := FsGetDirectUploadInfo(Success(req), c);
      && n.consulted == StageCount
      && (d.DriverError? && d.err.isNotImplement ==> n.response == Unsupported)
      && (d.DriverError? && !d.err.isNotImplement ==> n.response == ErrorResp(500, d.err.message))
      && (d.Info? ==> n.response == SuccessResp(Some(d.info)))
  {
  }

  /**
    The driver is consulted exactly when the request binds and every check
    before it passes; a descriptor in the response is always the one the
    driver returned for the resolved directory, file name and size.
   */
  lemma DriverOnlyAfterChecks(bound: Result<Request, GoError>, c: Collaborators)
    ensures FsGetDirectUploadInfo(bound, c).consulted == StageCount <==>
      bound.Success? && exists storage, actualPath, dir :: ChecksPass(bound.value, c, storage, actualPath, dir)
    ensures forall info :: FsGetDirectUploadInfo(bound, c).response == SuccessResp(Some(info)) ==>
      bound.Success? &&
      exists storage, actualPath, dir :: ChecksPass(bound.value, c, storage, actualPath, dir) &&
        c.getDirectUploadInfo(storage, dir, actualPath, bound.value.fileName, bound.value.fileSize) == Info(info)
  {
    if bound.Success? {
      var req := bound.value;
      var u := c.pathUnescape(req.path);
      if u.Success? {
        var j := c.joinPath(u.value);
        if j.Success? {
          var g := c.getStorageAndActualPath(j.value);
          if g.Success? {
            var (storage, actualPath) := g.value;
            var l := c.getByActualPath(storage, actualPath);
            if storage.directUploader && l.Success? && l.value.isDir {
              assert ChecksPass(req, c, storage, actualPath, l.value);
            }
          }
        }
      }
    }
  }

  /** `c1` and `c2` are the same collaborators for the stages before stage `k`. */
  ghost predicate AgreeBefore(c1: Collaborators, c2: Collaborators, k: nat) {
    && (k > 1 ==> c1.pathUnescape == c2.pathUnescape)
    && (k > 2 ==> c1.joinPath == c2.joinPath)
    && (k > 3 ==> c1.getStorageAndActualPath == c2.getStorageAndActualPath)
    && (k > 5 ==> c1.getByActualPath == c2.getByActualPath)
    && (k > 7 ==> c1.getDirectUploadInfo == c2.getDirectUploadInfo)
  }

  /**
    The first failing check decides: collaborators of the stages after the
    one that decided are never consulted, so replacing them changes nothing.
   */
  lemma LaterStagesNotConsulted(bound: Result<Request, GoError>, c1: Collaborators, c2: Collaborators)
    requires AgreeBefore(c1, c2, FsGetDirectUploadInfo(bound, c1).consulted)
    ensures FsGetDirectUploadInfo(bound, c2) == FsGetDirectUploadInfo(bound, c1)
  {
  }
}
