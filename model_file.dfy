/**
  internal/model/file.go: the direct-upload descriptor record and the
  close aggregation of a FileCloser.
 */
module Model {
  import opened Wrappers

  /** Go's int64. */
  newtype int64 = x: int | -0x8000_0000_0000_0000 <= x < 0x8000_0000_0000_0000

  /**
    DirectUploadInfo: what the client needs to upload straight to the
    storage provider. A chunk size of 0 means the file goes in one request;
    an empty method stands for the default, PUT.
   */
  datatype DirectUploadInfo = DirectUploadInfo(
    uploadUrl: string,
    chunkSize: int64,
    headers: map<string, string>,
    httpMethod: string)

  /** The upload must be split into chunks exactly when the chunk size is not 0. */
  predicate RequiresChunking(info: DirectUploadInfo) {
    info.chunkSize != 0
  }

  /** `rs` is a run of byte ranges [lo, hi), each starting where the previous one ended, from `lo` to `hi`. */
  ghost predicate Tiles(rs: seq<(nat, nat)>, lo: nat, hi: nat)
    decreases |rs|
  {
    if rs == [] then lo == hi
    else rs[0].0 == lo && rs[0].0 <= rs[0].1 && Tiles(rs[1..], rs[0].1, hi)
  }

  /** The bytes from `lo` to `size` in pieces of `chunk` bytes, the last one possibly shorter. */
  function Chunked(chunk: nat, lo: nat, size: nat): (rs: seq<(nat, nat)>)
    requires 0 < chunk && lo <= size
    ensures Tiles(rs, lo, size)
    ensures forall k :: 0 <= k < |rs| ==> 0 < rs[k].1 - rs[k].0 <= chunk
    decreases size - lo
  {
    if lo == size then []
    else
      var hi := if lo + chunk < size then lo + chunk else size;
      var rest := Chunked(chunk, hi, size);
      assert ([(lo, hi)] + rest)[1..] == rest;
      [(lo, hi)] + rest
  }

  /**
    The byte ranges a client sends, one request each, for a file of `size`
    bytes: the whole file at once when no chunking is required, otherwise
    consecutive pieces of at most the chunk size.
   */
  function UploadRanges(info: DirectUploadInfo, size: nat): (rs: seq<(nat, nat)>)
    requires info.chunkSize >= 0
    ensures Tiles(rs, 0, size)
    ensures !RequiresChunking(info) ==> rs == [(0, size)]
    ensures RequiresChunking(info) ==> forall k :: 0 <= k < |rs| ==> rs[k].1 - rs[k].0 <= info.chunkSize as int
  {
    if !RequiresChunking(info) then
      assert [(0, size)][1..] == [];
      [(0, size)]
    else Chunked(info.chunkSize as nat, 0, size)
  }

  /** The HTTP method the client uses: the one given, or PUT when it is omitted. */
  function UploadMethod(info: DirectUploadInfo): (m: string)
    ensures m != ""
    ensures info.httpMethod != "" ==> m == info.httpMethod
  {
    if info.httpMethod == "" then "PUT" else info.httpMethod
  }

  /** An error value, compared by its message. */
  datatype Error = Error(message: string)

  /** The non-nil errors of `errs`, in their order. */
  function NonNil(errs: seq<Option<Error>>): (r: seq<Error>)
    ensures |r| <= |errs|
    ensures r == [] <==> forall i :: 0 <= i < |errs| ==> errs[i] == None
    ensures forall e :: e in r <==> Some(e) in errs
  {
    if errs == [] then []
    else if errs[0] == None then NonNil(errs[1..])
    else [errs[0].value] + NonNil(errs[1..])
  }

  /**
    errors.Join: nil when every error is nil; otherwise an error wrapping
    the non-nil ones in order.
   */
  function Join(errs: seq<Option<Error>>): (r: Option<seq<Error>>)
    ensures r == None <==> forall i :: 0 <= i < |errs| ==> errs[i] == None
    ensures r != None ==> r.value == NonNil(errs) && r.value != []
  {
    var es := NonNil(errs);
    if es == [] then None else Some(es)
  }

  /** The non-nil errors of two result lists, one after the other, keep their order. */
  lemma {:induction false} NonNilAppend(a: seq<Option<Error>>, b: seq<Option<Error>>)
    ensures NonNil(a + b) == NonNil(a) + NonNil(b)
    decreases |a|
  {
    if a == [] {
      assert a + b == b;
    } else {
      assert (a + b)[0] == a[0];
      assert (a + b)[1..] == a[1..] + b;
      NonNilAppend(a[1..], b);
    }
  }

  /** Joining two close results lists the first one's error before the second one's. */
  lemma JoinOrder(first: Option<Error>, second: Option<Error>)
    ensures first != None && second != None ==> Join([first, second]) == Some([first.value, second.value])
    ensures first != None && second == None ==> Join([first, second]) == Some([first.value])
    ensures first == None && second != None ==> Join([first, second]) == Some([second.value])
  {
    NonNilAppend([first], [second]);
    assert [first, second] == [first] + [second];
    assert NonNil([first]) == if first == None then [] else [first.value] by {
      assert [first][1..] == [];
    }
    assert NonNil([second]) == if second == None then [] else [second.value] by {
      assert [second][1..] == [];
    }
    if first != None && second != None {
      assert [first.value] + [second.value] == [first.value, second.value];
    }
  }

  /** Which part of a FileCloser a close call went to. */
  datatype Part = Inner | Outer

  /**
    Something with a Close method (io.Closer). What its Close returns is
    fixed when it is made; the count records how often it was closed.
   */
  class Closer {
    const failure: Option<Error>
    var closeCount: nat

    constructor (failure: Option<Error>)
      ensures this.failure == failure && closeCount == 0
    {
      this.failure := failure;
      closeCount := 0;
    }

    method Close() returns (err: Option<Error>)
      modifies this
      ensures closeCount == old(closeCount) + 1
      ensures err == failure
    {
      closeCount := closeCount + 1;
      err := failure;
    }
  }

  /**
    FileCloser: a File together with an io.Closer. `file` is the File seen
    as an io.Closer (null when the File does not implement it) and `closer`
    is the embedded io.Closer (null when it is nil). `attempts` records the
    close calls made by Close, in order.
   */
  class FileCloser {
    const file: Closer?
    const closer: Closer?
    ghost var attempts: seq<Part>

    constructor (file: Closer?, closer: Closer?)
      ensures this.file == file && this.closer == closer && attempts == []
    {
      this.file := file;
      this.closer := closer;
      attempts := [];
    }

    /** The results of the close calls Close makes, in order. */
    function Attempted(): (rs: seq<Option<Error>>)
      reads this, file, closer
      ensures |rs| == (if file != null then 1 else 0) + (if closer != null then 1 else 0)
    {
      (if file != null then [file.failure] else []) + (if closer != null then [closer.failure] else [])
    }

    /**
      Close both parts: the File first (if it is an io.Closer), then the
      Closer (if it is not nil), whatever the first returned; the result
      joins their errors and is nil exactly when every call returned nil.
     */
    method Close() returns (err: Option<seq<Error>>)
      modifies this, file, closer
      ensures attempts == old(attempts) + (if file != null then [Inner] else []) + (if closer != null then [Outer] else [])
      ensures file != null && file != closer ==> file.closeCount == old(file.closeCount) + 1
      ensures closer != null && file != closer ==> closer.closeCount == old(closer.closeCount) + 1
      ensures file != null && file == closer ==> file.closeCount == old(file.closeCount) + 2
      ensures err == None <==> (file == null || file.failure == None) && (closer == null || closer.failure == None)
      ensures err == Join(Attempted())
    {
      var errs: seq<Option<Error>> := [];
      if file != null {
        var e := file.Close();
        errs := errs + [e];
        attempts := attempts + [Inner];
      }
      if closer != null {
        var e := closer.Close();
        errs := errs + [e];
        attempts := attempts + [Outer];
      }
      err := Join(errs);
    }
  }
}
