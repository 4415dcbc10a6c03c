/**
 * A model of the S3 writer of the spatialbench command-line tool: a byte
 * sink that accumulates everything written to it in memory, cuts the
 * accumulated bytes into parts of at least ParquetBufferSize bytes, and on
 * `finish` uploads them either with one simple PUT or as a multipart upload.
 *
 * The network calls are not modelled; `Finish` returns the upload it would
 * perform as an `Upload` value.
 */
module S3 {

  newtype byte = b: int | 0 <= b < 256

  /** Minimum part size S3 enforces on every part of a multipart upload except the last (5 MiB). */
  const S3MinPartSize: nat := 5 * 1024 * 1024

  /** Size at which the write buffer is cut off as a completed part (32 MiB). */
  const ParquetBufferSize: nat := 32 * 1024 * 1024

  datatype Option<T> = None | Some(value: T)

  datatype ErrorKind = InvalidInput | Other

  datatype IoError = IoError(kind: ErrorKind, message: string)

  datatype Result<T> = Ok(value: T) | Err(error: IoError)

  // ---------------------------------------------------------------------
  // Byte accounting over lists of parts
  // ---------------------------------------------------------------------

  /** The summed lengths of all parts. */
  function TotalLength(parts: seq<seq<byte>>): nat
  {
    if parts == [] then 0 else |parts[0]| + TotalLength(parts[1..])
  }

  /** The parts' bytes laid end to end, in order. */
  function Flatten(parts: seq<seq<byte>>): (r: seq<byte>)
    ensures |r| == TotalLength(parts)
  {
    if parts == [] then [] else parts[0] + Flatten(parts[1..])
  }

  lemma {:induction false} FlattenAppend(a: seq<seq<byte>>, b: seq<seq<byte>>)
    ensures Flatten(a + b) == Flatten(a) + Flatten(b)
  {
    if a == [] {
      assert a + b == b;
    } else {
      assert (a + b)[0] == a[0];
      assert (a + b)[1..] == a[1..] + b;
      FlattenAppend(a[1..], b);
    }
  }

  lemma FlattenSingle(p: seq<byte>)
    ensures Flatten([p]) == p
  {
  }

  /** True when every part is at least `size` bytes long. */
  ghost predicate AllAtLeast(parts: seq<seq<byte>>, size: nat)
  {
    forall i :: 0 <= i < |parts| ==> |parts[i]| >= size
  }

  // ---------------------------------------------------------------------
  // Upload planning (the decision half of `finish`)
  // ---------------------------------------------------------------------

  /** What `finish` sends to the object store. */
  datatype Upload =
    | SimplePut(data: seq<byte>)
    | Multipart(parts: seq<seq<byte>>)

  /** The object's bytes as the upload delivers them. */
  function UploadedBytes(u: Upload): seq<byte>
  {
    match u
    case SimplePut(data) => data
    case Multipart(parts) => Flatten(parts)
  }

  /** The completed parts plus the non-empty remainder of the buffer, if any, as one last part. */
  function FinalParts(parts: seq<seq<byte>>, buffer: seq<byte>): (r: seq<seq<byte>>)
    ensures |r| == |parts| + (if buffer == [] then 0 else 1)
    ensures r[..|parts|] == parts
    ensures buffer != [] ==> r[|parts|] == buffer
    ensures Flatten(r) == Flatten(parts) + buffer
  {
    if buffer == [] then
      assert Flatten(parts) + buffer == Flatten(parts);
      parts
    else
      FlattenAppend(parts, [buffer]);
      FlattenSingle(buffer);
      assert (parts + [buffer])[..|parts|] == parts;
      parts + [buffer]
  }

  /**
   * The upload `finish` performs for a writer holding `parts` and `buffer`:
   * a simple PUT when the final list of parts is a single part shorter than
   * S3MinPartSize, otherwise a multipart upload of all final parts in order.
   */
  function PlanUpload(parts: seq<seq<byte>>, buffer: seq<byte>): (u: Upload)
    ensures UploadedBytes(u) == Flatten(parts) + buffer
    ensures u.SimplePut? <==>
      (var fin := FinalParts(parts, buffer); |fin| == 1 && |fin[0]| < S3MinPartSize)
    ensures u.Multipart? ==> u.parts == FinalParts(parts, buffer)
  {
    var fin := FinalParts(parts, buffer);
    if |fin| == 1 && |fin[0]| < S3MinPartSize then
      FlattenSingle(fin[0]);
      SimplePut(fin[0])
    else
      Multipart(fin)
  }

  /** The assumption the claim "each part is at least the S3 minimum" rests on. */
  lemma ParquetBufferCoversS3Minimum()
    ensures ParquetBufferSize >= S3MinPartSize
  {
  }

  /**
   * For a writer whose completed parts all come from `write` (each at least
   * `cutOff` bytes) and whose buffer is below `cutOff`: the simple PUT is
   * used exactly when nothing was cut off yet and the buffer holds between
   * 1 and S3MinPartSize - 1 bytes; a multipart upload never has an empty
   * part, every part but its last meets S3's minimum part size, and it has
   * no parts at all exactly when nothing was written. All of this rests on
   * the cut-off being at least S3MinPartSize, which ParquetBufferSize is
   * (ParquetBufferCoversS3Minimum).
   */
  lemma PlanRespectsS3PartRules(parts: seq<seq<byte>>, buffer: seq<byte>, cutOff: nat)
    requires cutOff >= S3MinPartSize
    requires AllAtLeast(parts, cutOff)
    requires |buffer| < cutOff
    ensures PlanUpload(parts, buffer).SimplePut? <==> parts == [] && 0 < |buffer| < S3MinPartSize
    ensures PlanUpload(parts, buffer).Multipart? ==>
      var ps := PlanUpload(parts, buffer).parts;
      (forall i :: 0 <= i < |ps| ==> ps[i] != []) &&
      (forall i :: 0 <= i < |ps| - 1 ==> |ps[i]| >= S3MinPartSize) &&
      (ps == [] <==> parts == [] && buffer == [])
  {
  }

  // ---------------------------------------------------------------------
  // Target resolution (the URI checks of `new`)
  // ---------------------------------------------------------------------

  /** The parts of a parsed URL that `new` inspects. */
  datatype Url = Url(scheme: string, host: Option<string>, path: string)

  /** The outcome of the URL parser, whose internals are not modelled. */
  datatype UrlParse = Parsed(url: Url) | Unparsable(reason: string)

  /** Where the writer uploads: a bucket, and the path string that is handed to the object store's path conversion. */
  datatype Target = Target(bucket: string, path: string)

  /** `s` with every leading '/' removed. */
  function TrimLeadingSlashes(s: string): (r: string)
    ensures |r| <= |s| && r == s[|s| - |r|..]
    ensures r == [] || r[0] != '/'
    ensures forall i :: 0 <= i < |s| - |r| ==> s[i] == '/'
  {
    if s != [] && s[0] == '/' then TrimLeadingSlashes(s[1..]) else s
  }

  /**
   * The checks `new` makes before it builds a client: the URI must parse,
   * its scheme must be "s3" and it must name a bucket as its host; the path
   * string kept for the object store is the URL path without its leading
   * slashes. Every rejection is an
   * InvalidInput error, and a bad scheme is reported before a missing bucket.
   */
  function ResolveTarget(parsed: UrlParse): (r: Result<Target>)
    ensures r.Ok? <==> parsed.Parsed? && parsed.url.scheme == "s3" && parsed.url.host.Some?
    ensures r.Err? ==> r.error.kind == InvalidInput
    ensures parsed.Unparsable? ==> r.error.message == "Invalid S3 URI: " + parsed.reason
    ensures parsed.Parsed? && parsed.url.scheme != "s3" ==>
      r.error.message == "Expected s3:// URI, got: " + parsed.url.scheme
    ensures parsed.Parsed? && parsed.url.scheme == "s3" && parsed.url.host.None? ==>
      r.error.message == "S3 URI missing bucket name"
    ensures r.Ok? ==>
      r.value.bucket == parsed.url.host.value &&
      (r.value.path == [] || r.value.path[0] != '/') &&
      exists k :: 0 <= k <= |parsed.url.path| &&
        parsed.url.path[k..] == r.value.path &&
        forall i :: 0 <= i < k ==> parsed.url.path[i] == '/'
  {
    match parsed
    case Unparsable(reason) =>
      Err(IoError(InvalidInput, "Invalid S3 URI: " + reason))
    case Parsed(url) =>
      if url.scheme != "s3" then
        Err(IoError(InvalidInput, "Expected s3:// URI, got: " + url.scheme))
      else if url.host.None? then
        Err(IoError(InvalidInput, "S3 URI missing bucket name"))
      else
        var key := TrimLeadingSlashes(url.path);
        assert url.path[|url.path| - |key|..] == key;
        Ok(Target(url.host.value, key))
  }

  // ---------------------------------------------------------------------
  // The writer
  // ---------------------------------------------------------------------

  class S3Writer {
    /** The bucket and path string this writer uploads to. */
    const target: Target
    /** Bytes written since the last part was cut off. */
    var buffer: seq<byte>
    /** Completed parts, in the order they were cut off. */
    var parts: seq<seq<byte>>
    /** Number of bytes written so far. */
    var totalBytes: nat
    /** Every byte passed to Write, in call order. */
    ghost var written: seq<byte>
    /** Set by Finish, which consumes the writer: nothing may use it afterwards. */
    ghost var finished: bool

    /**
     * Nothing written is lost or reordered, the counter agrees with the
     * bytes held, the buffer stays below the cut-off size and every
     * completed part reached it. A finished writer is no longer valid.
     */
    ghost predicate Valid()
      reads this
    {
      !finished &&
      Flatten(parts) + buffer == written &&
      totalBytes == |written| &&
      |buffer| < ParquetBufferSize &&
      AllAtLeast(parts, ParquetBufferSize)
    }

    constructor (target: Target)
      ensures Valid()
      ensures this.target == target
      ensures buffer == [] && parts == [] && totalBytes == 0 && written == []
    {
      this.target := target;
      buffer := [];
      parts := [];
      totalBytes := 0;
      written := [];
      finished := false;
    }

    /** `new`: checks the URI and, when it names an S3 bucket, creates an empty writer for it. */
    static method New(parsed: UrlParse) returns (r: Result<S3Writer>)
      ensures r.Ok? <==> ResolveTarget(parsed).Ok?
      ensures r.Err? ==> r.error == ResolveTarget(parsed).error
      ensures r.Ok? ==>
        fresh(r.value) && r.value.Valid() && r.value.written == [] &&
        r.value.target == ResolveTarget(parsed).value
    {
      var t := ResolveTarget(parsed);
      if t.Err? {
        return Err(t.error);
      }
      var w := new S3Writer(t.value);
      r := Ok(w);
    }

    /** Total bytes written so far: the lengths of all parts plus the buffer. */
    function TotalBytes(): (n: nat)
      reads this
      requires Valid()
      ensures n == |written|
      ensures n == TotalLength(parts) + |buffer|
    {
      totalBytes
    }

    /** Reports the total bytes written, not the buffer length, exactly as TotalBytes does. */
    function BufferSize(): (n: nat)
      reads this
      requires Valid()
      ensures n == |written|
      ensures n >= |buffer|
    {
      totalBytes
    }

    /**
     * Appends `buf` to the buffer and counts its bytes; when the buffer
     * reaches ParquetBufferSize it becomes a completed part and the buffer
     * starts over empty. Always reports `|buf|` bytes written.
     */
    method Write(buf: seq<byte>) returns (r: Result<nat>)
      requires Valid()
      modifies this
      ensures Valid()
      ensures r == Ok(|buf|)
      ensures written == old(written) + buf
      ensures totalBytes == old(totalBytes) + |buf|
      ensures |old(buffer)| + |buf| >= ParquetBufferSize ==>
        parts == old(parts) + [old(buffer) + buf] && buffer == []
      ensures |old(buffer)| + |buf| < ParquetBufferSize ==>
        parts == old(parts) && buffer == old(buffer) + buf
    {
      totalBytes := totalBytes + |buf|;
      buffer := buffer + buf;
      written := written + buf;
      if |buffer| >= ParquetBufferSize {
        FlattenAppend(parts, [buffer]);
        FlattenSingle(buffer);
        parts := parts + [buffer];
        buffer := [];
      }
      r := Ok(|buf|);
    }

    /** Does nothing and always succeeds; the data leaves only in Finish. */
    method Flush() returns (r: Result<()>)
      requires Valid()
      ensures r == Ok(())
    {
      r := Ok(());
    }

    /**
     * `finish`: turns a non-empty buffer into one last part, then uploads
     * with a simple PUT when that leaves a single part shorter than
     * S3MinPartSize, and otherwise sends every part in order as a multipart
     * upload. The upload carries exactly the bytes written; the result is
     * the byte count.
     */
    method Finish() returns (plan: Upload, n: nat)
      requires Valid()
      modifies this
      ensures plan == PlanUpload(old(parts), old(buffer))
      ensures UploadedBytes(plan) == old(written)
      ensures n == old(totalBytes) == |UploadedBytes(plan)|
      ensures plan.SimplePut? <==> old(parts) == [] && 0 < old(|buffer|) < S3MinPartSize
      ensures plan.Multipart? ==> forall i :: 0 <= i < |plan.parts| - 1 ==> |plan.parts[i]| >= S3MinPartSize
      ensures buffer == [] && parts == FinalParts(old(parts), old(buffer))
      ensures written == old(written) && totalBytes == old(totalBytes)
      ensures finished && !Valid()
    {
      ParquetBufferCoversS3Minimum();
      PlanRespectsS3PartRules(parts, buffer, ParquetBufferSize);
      finished := true;
      if buffer != [] {
        parts := parts + [buffer];
        buffer := [];
      }
      assert parts == FinalParts(old(parts), old(buffer));
      if |parts| == 1 && |parts[0]| < S3MinPartSize {
        plan := SimplePut(parts[0]);
        n := totalBytes;
        return;
      }
      var sent: seq<seq<byte>> := [];
      var i := 0;
      while i < |parts|
        invariant 0 <= i <= |parts|
        invariant sent == parts[..i]
      {
        sent := sent + [parts[i]];
        i := i + 1;
      }
      assert parts[..|parts|] == parts;
      plan := Multipart(sent);
      n := totalBytes;
    }
  }
}
