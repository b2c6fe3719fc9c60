# watermark — a Dafny model of the extension rules and the mark pipeline

The Go package `watermark` stamps one decoded watermark image onto JPEG and
PNG images. `New(path)` loads the watermark from a file, `IsAllowExt(ext)`
tells whether an extension may be watermarked, and `Mark(src, ext, point)` /
`MarkFile(path, point)` decode a target image, composite the watermark onto
it and write it back in its own format.

This model covers what the package decides itself:

- the allow-list `.jpg`, `.jpeg`, `.png` and `IsAllowExt` with its two
  argument panics, which are modelled as `Failure(EmptyExt)` and
  `Failure(MissingDot)`;
- the `switch strings.ToLower(ext)` that picks JPEG, PNG or the
  `ErrUnsupportedWatermarkType` default;
- the order of the steps of `New`, `Mark` and `MarkFile`, which failure stops
  them where, what is written to the stream, and in which format.

The image libraries are given operations that may fail. They are collected
in a `Library` value: decoders, encoders and `draw.Draw`. The stream is a
`Stream` object whose bytes and offset `Mark` changes by reading,
seeking to the start and writing. The file system is a `FileSystem` object
whose files `MarkFile` rewrites. The pure function `Watermark.MarkRun` gives
the outcome of `Mark`: the returned error, the new stream state and the
steps taken. The method `Watermark.Watermark.Mark` is proved to produce
exactly that outcome, and the lemmas about the pipeline are proved about
`MarkRun`. Each step in the outcome carries the arguments its call was
made with: the format decoded, the images drawn onto and from, the format
and the image encoded. The lemmas tie the logged encode to the bytes that
reach the stream.

Files: `wrappers.dfy` (Option, Result), `extensions.dfy` (lower-casing, path
extension, allow-list, classification), `io.dfy` (stream and file system),
`watermark.dfy` (images, the pipeline, `Watermark`, `New`).

`New` opens the file before it looks at the extension. An unsupported
extension is therefore reported only for a file that could be opened, and an
open error wins over it (`Watermark.New`).

## Model

| member | source | states |
|---|---|---|
| `Extensions.Lower` | watermark.go:74 | lower-casing keeps the length and maps every character through ASCII lower-casing |
| `Extensions.LowerIdempotent` | watermark.go:92-99 | lower-casing an already lower-cased extension, as `MarkFile` then `Mark` do, changes nothing |
| `Extensions.PathExt` | watermark.go:45 | the extension of a path is the suffix from the last '.' of its final element, starts with '.', holds no other '.' or separator, and is empty only when the final element has no '.' |
| `Extensions.IsAllowExt` | watermark.go:65-82 | an empty argument is the first argument error, a non-empty one not starting with '.' the second, and otherwise the answer is whether the lower-cased argument is on the allow-list |
| `Extensions.AllowedIsDotPrefixed` | watermark.go:20-22 | every extension on the allow-list, in any case, is non-empty and starts with '.', so it passes both argument checks of `IsAllowExt` |
| `Extensions.FormatOf` | watermark.go:45-52 | the switch's cases list exactly the allow-list: `.jpg` and `.jpeg` give JPEG, `.png` gives PNG, anything else the default |
| `Extensions.Classify` | watermark.go:99-107 | the lower-cased switch picks a format exactly when the extension is allowed: JPEG for `.jpg`/`.jpeg`, PNG for `.png`, in any case |
| `Extensions.ClassifyIgnoresCase` | watermark.go:74-81 | allow-list membership and classification are the same for an extension and its lower-cased form |
| `Extensions.AllowedExamples` | watermark.go:20-22 | `.jpg`, `.jpeg`, `.png` and their upper-case forms are allowed |
| `Extensions.RejectedExamples` | watermark.go:76-81 | `.gif`, `.` and `.jpg.png` are not allowed |
| `Io.AfterRead` | watermark.go:102-104 | a decoder's reading leaves the bytes alone and moves the offset forward by what it consumed, stopping at the end |
| `Io.Overwrite` | watermark.go:122-124 | a write replaces the bytes at the offset, keeps those before it and those past the written ones, and grows the data only when it runs past the end |
| `Io.Stream.SeekStart` | watermark.go:116-118 | `Seek(0, 0)` reports the stream's seek error, or sets the offset to 0 and leaves the bytes |
| `Io.Stream.Consume` | watermark.go:102-104 | the stream's state after a read is the state `AfterRead` gives |
| `Io.Stream.Write` | watermark.go:122-124 | the stream's state after a write is the state `Overwrite` gives |
| `Io.FileSystem.OpenFault` | watermark.go:86-89 | an open that does not fail finds the file; neither mode creates it |
| `Io.FileSystem.Open` | watermark.go:38-41 | an open fails exactly with the file system's error, and otherwise gives a new stream at offset 0 over the file's bytes |
| `Io.FileSystem.Close` | watermark.go:90 | closing leaves the file holding what was written to its stream |
| `Watermark.ReadImage` | watermark.go:102-104 | decoding returns the decoder's image or error and advances the stream by what it consumed |
| `Watermark.WriteImage` | watermark.go:122-124 | encoding writes the encoder's bytes at the current offset and returns its error |
| `Watermark.DecodeSwitch` | watermark.go:100-107 | the switch that picks the decoder in `New` and `Mark`: the default branch reads nothing; otherwise the decoder for the extension's format reads from the current offset and its result is returned |
| `Watermark.EncodeSwitch` | watermark.go:120-127 | the switch before the encode: the sentinel and no write in the default branch, otherwise the encoder for the extension's format writes at the current offset and its error is returned |
| `Watermark.Composite` | watermark.go:112-114 | the destination encoded, the watermark drawn over the target's base layer, has the target's bounds whatever the point |
| `Watermark.MarkRun` | watermark.go:96-128 | the outcome of `Mark` keeps the stream offset within its data, and takes no step exactly when the extension is not classified |
| `Watermark.Watermark.constructor` | watermark.go:57-59 | a new Watermark holds the decoded image |
| `Watermark.Watermark.Mark` | watermark.go:96-128 | the error returned, the new stream state and the steps taken are exactly those of `MarkRun` |
| `Watermark.Watermark.MarkFile` | watermark.go:85-93 | an open error is returned with the files unchanged; otherwise the file is marked with the lower-cased extension of its path and holds the stream's new bytes |
| `Watermark.New` | watermark.go:37-60 | an open error comes first; `ErrUnsupportedWatermarkType` is returned exactly when the open succeeded and the extension is not allowed; otherwise the decoder's error, or a Watermark holding the decoded image |
| `Watermark.MarkRejectsUnsupported` | watermark.go:99-107 | `Mark` returns `ErrUnsupportedWatermarkType` exactly when the extension is not allowed, and then has neither read nor written the stream |
| `Watermark.MarkStopsAtDecodeFailure` | watermark.go:108-110 | a decode error is returned as it came, after the decode step alone, and the bytes are unchanged |
| `Watermark.MarkStopsAtSeekFailure` | watermark.go:116-118 | a seek error is returned as it came after the five steps up to the seek, with no encode and the bytes unchanged |
| `Watermark.MarkFollowsPipeline` | watermark.go:96-127 | the i-th step of every call is the i-th of decode, allocate, draw the target, draw the watermark, seek, encode; a nil return performs all six |
| `Watermark.MarkSeeksBeforeEncode` | watermark.go:116-124 | an encode step comes right after the seek step and is the last step |
| `Watermark.MarkEncodesDecodedFormat` | watermark.go:100-127 | an encode is the sixth step and uses the format of the decode, the one the extension names; its bytes overwrite the stream from offset 0 and its error is the one returned, so the second switch never reaches its default |
| `Watermark.MarkKeepsTargetBounds` | watermark.go:112-114 | the allocated rectangle, both draw destinations and the encoded image have exactly the decoded target's bounds, whatever the point |
| `Watermark.MarkEncodesComposite` | watermark.go:112-124 | the encoded image is the result of the logged `Over` draw of the watermark at the point onto the logged base layer, which is the decoded target drawn with `Src` onto a new image of its bounds |
| `Watermark.MarkWritesFromStart` | watermark.go:116-124 | without an encode the bytes are unchanged; with one, the new bytes are an overwrite from offset 0 of the old ones, with no truncation |
| `Watermark.MarkIgnoresCase` | watermark.go:92-99 | marking with the lower-cased extension, as `MarkFile` does, gives the same outcome as with the extension itself |

## Left out

- JPEG and PNG decoding and encoding are not modelled: they belong to the standard library. The `Library` value supplies them, and each may fail.
- `draw.Draw` with `draw.Src` and `draw.Over` is not modelled either. It gives the destination's new pixels, and the model asserts no placement rule for the watermark. That the pixels are 16-bit NRGBA64 shows only in the size of the new buffer.
- `strings.ToLower` is modelled for ASCII letters only; other Unicode case mappings are not.
- `filepath.Ext` is modelled for '/'-separated paths; other platforms' separators are not.
- Go strings are bytes; the model uses characters, which gives the same results for the ASCII extensions involved.
- The operating system's reasons for refusing an open are a given function of the path and the mode. A missing file fails with Go's "no such file or directory" message.
- Writes to a file go through a `Stream` over its bytes and reach the file when it is closed. The model does not capture writes that become visible earlier, or I/O errors on close.
- Io.Stream.SeekStart: on a seek error the offset is left unchanged, which is more specific than the unspecified position of an `io.Seeker`.
- A regular file opened by `MarkFile` always seeks successfully.
- The in-place mutation of the destination image by `draw.Draw` is modelled on values: each draw gives a new image with the same bounds.
- The steps `Mark` logs are ghost; the run's bytes, not the log, are what the caller observes, and the lemmas tie the logged encode to those bytes.
- Concurrent use of one stream or one file is not modelled; the package does not coordinate it.
