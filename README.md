# S3 writer of the spatialbench command-line tool, in Dafny

The spatialbench command line can send a generated table straight to Amazon S3
instead of a local file. It does so through `S3Writer`, an in-memory byte sink:

- `write` appends bytes to a buffer and counts them. Once the buffer reaches
  the Parquet buffer size (32 MiB), the whole buffer becomes a completed
  *part* and a fresh buffer starts.
- `flush` does nothing.
- `finish` turns a non-empty buffer into one last part. It then uploads the
  object. It uses a simple PUT when that leaves a single part shorter than S3's
  5 MiB minimum part size. Otherwise it uploads every part in order as a
  multipart upload.
- `new` checks the target URI before anything else: the scheme must be `s3`, a
  bucket must be given as the host, and the path handed to the object store is
  the URL path with its leading slashes removed.

`s3_writer.dfy` (module `S3`) models this as the class `S3Writer`. The class
has the writer's fields `buffer`, `parts` and `totalBytes`, plus two ghost fields:
`written` holds every byte ever passed to `Write`, and `finished` records that
`Finish` has consumed the writer. Its invariant `Valid()` requires that the
writer is not finished and says four more things:

- the parts, laid end to end and followed by the buffer, are exactly `written`;
- `totalBytes` equals `|written|`;
- the buffer is shorter than the cut-off size;
- every completed part reached the cut-off size.

`Finish` returns the upload it would perform, as an `Upload` value
(`SimplePut(data)` or `Multipart(parts)`). It does not call the network. The
pure function `PlanUpload` specifies that decision. The lemmas beside it show
that the upload carries exactly the written bytes and that it respects S3's
part-size rules.

## Model

| member | source | states |
|---|---|---|
| `S3.S3Writer.constructor` | spatialbench-cli/src/s3_writer.rs:104-110 | a new writer has an empty buffer, no parts, a zero byte count, and satisfies the invariant |
| `S3.S3Writer.New` | spatialbench-cli/src/s3_writer.rs:45-64 | succeeds exactly when the target resolves, returns that resolution's error otherwise, and on success yields a fresh empty valid writer for the resolved bucket and path string |
| `S3.ResolveTarget` | spatialbench-cli/src/s3_writer.rs:46-64 | accepts exactly a parsed URI with scheme `s3` and a host; every rejection is InvalidInput; a wrong scheme is reported (with its message) before a missing bucket; a parse failure carries the parser's text behind "Invalid S3 URI: "; on success the bucket is the host and the path string is the URL path minus a prefix made only of `/`, and it does not start with `/` |
| `S3.TrimLeadingSlashes` | spatialbench-cli/src/s3_writer.rs:64 | the result is a suffix of the input, does not start with `/`, and everything removed in front of it is `/` |
| `S3.S3Writer.TotalBytes` | spatialbench-cli/src/s3_writer.rs:170-173 | the byte count equals the number of bytes ever written and the summed lengths of the parts plus the buffer length |
| `S3.S3Writer.BufferSize` | spatialbench-cli/src/s3_writer.rs:175-178 | reports the total bytes written, not the buffer length, which it is at least |
| `S3.S3Writer.Write` | spatialbench-cli/src/s3_writer.rs:182-195 | always returns `Ok(|buf|)`; raises the count by `|buf|`; appends `buf` to the written bytes; when the buffer reaches the cut-off size it is moved to the end of `parts` as one part and the buffer becomes empty, otherwise `parts` is unchanged; keeps the invariant (no byte lost or reordered, buffer below the cut-off, every part at least the cut-off) |
| `S3.S3Writer.Flush` | spatialbench-cli/src/s3_writer.rs:197-200 | always succeeds and changes no field |
| `S3.S3Writer.Finish` | spatialbench-cli/src/s3_writer.rs:117-168 | the upload is `PlanUpload` of the old parts and buffer and carries exactly the bytes written; the result is the old byte count, which equals the uploaded length; a simple PUT happens exactly when no part was cut off and 1 to 5 MiB - 1 bytes remain buffered, and in a multipart upload every part but the last is at least 5 MiB; afterwards the buffer is empty, the parts are the final parts, and the writer is marked finished and no longer valid, so no method can be called on it again |
| `S3.FinalParts` | spatialbench-cli/src/s3_writer.rs:120-124 | a non-empty buffer adds exactly one last part equal to it, an empty buffer adds none, the earlier parts keep their order, and the bytes are the old parts' bytes followed by the buffer |
| `S3.PlanUpload` | spatialbench-cli/src/s3_writer.rs:126-155 | a simple PUT exactly when the final parts are one part shorter than 5 MiB, otherwise a multipart upload of all final parts in order (including zero parts); either way the uploaded bytes are the parts' bytes followed by the buffer |
| `S3.ParquetBufferCoversS3Minimum` | spatialbench-cli/src/s3_writer.rs:28 | the cut-off size is at least S3's minimum part size, the assumption the comment's claim rests on |
| `S3.PlanRespectsS3PartRules` | spatialbench-cli/src/s3_writer.rs:121-155 | for parts and buffer kept by any cut-off of at least 5 MiB (the assumption is a named precondition), a simple PUT is chosen exactly when no part was cut off and the buffer holds 1 to 5 MiB - 1 bytes; a multipart upload has no empty part, every part but the last is at least 5 MiB (the claim of the comment at line 28), and it has no parts exactly when nothing was written |
| `S3.Flatten` | spatialbench-cli/src/s3_writer.rs:28-31 | the concatenated parts are as long as the parts' summed lengths, which ties the byte counter to the parts |
| `S3.FlattenAppend` | spatialbench-cli/src/s3_writer.rs:189-191 | concatenating two lists of parts concatenates their bytes, so pushing a part onto `parts` appends its bytes in order |

## Left out

- The S3 client, its credentials and its construction from environment variables (`AmazonS3Builder`, `std::env::var`, `build`, lines 71-97). These are foreign library calls and process environment. `New` therefore never fails with the client-build error.
- The network operations `put`, `put_multipart`, `put_part` and `complete`, and their error messages. `Finish` returns the planned `Upload` instead. The model does not capture that any of these calls may fail, or that a failed call makes `finish` return an `Other` error.
- The URL parser. `ResolveTarget` takes its outcome as input: either the parsed scheme, optional host and path, or the parser's error text. Lowercasing of the scheme and which URIs have a host are the parser's business.
- `PARQUET_BUFFER_SIZE` is defined in `crate::plan`, which is not part of this model. It is taken as 32 MiB, the value the comment at line 186 gives. The model proves that every part cut off by `Write` is at least 5 MiB only because 32 MiB is at least 5 MiB; with a smaller cut-off the comment at line 28 would not hold.
- `total_bytes` is a `usize` in the source. The model uses an unbounded `nat`, so overflow is not modelled.
- Logging, `Arc`/`Bytes` ownership, and `Vec::with_capacity` hints. A capacity is not a length, so none of them changes the observable state.
- `finish` takes the writer by value. The model keeps the object after `Finish`, with an empty buffer and the final parts, but sets the ghost flag `finished`, which `Valid()` excludes; every other method requires `Valid()`, so none can be called on a finished writer.
- The conversion `ObjectPath::from` (line 106), a foreign `object_store` call, is not modelled. The model keeps the path string handed to it; how that library normalises it (empty segments, encoding) into the final object key is outside the model.
