/**
 * The watermark package: a Watermark holds one decoded image and stamps it
 * onto JPEG or PNG targets read from and written back to a stream or a file.
 * Decoding, encoding and compositing belong to the image libraries and are
 * taken as given operations (`Library`) that may fail; what is modelled is the
 * order of the steps, which failure stops where, and which format is used.
 */
module Watermark {
  import opened Wrappers
  import opened Extensions
  import opened Io

  /** `image.Point`. */
  datatype Point = Point(x: int, y: int)

  /** `image.ZP`, the origin. */
  const ZP: Point := Point(0, 0)

  /** `image.Rectangle`, from `min` inclusive to `max` exclusive. */
  datatype Rect = Rect(min: Point, max: Point)

  /** A decoded image: its bounds and its pixel bytes, which the model never inspects. */
  datatype Image = Image(bounds: Rect, pix: seq<int>)

  /** The compositing operators passed to `draw.Draw`. */
  datatype DrawOp = Src | Over

  /** What a decoder reports: how many stream bytes it consumed, and the image or its error. */
  datatype Decoded = Decoded(consumed: nat, result: Result<Image, Fault>)

  /** What an encoder reports: the bytes it wrote, and its error if it stopped with one. */
  datatype Encoded = Encoded(written: seq<byte>, fault: Option<Fault>)

  /**
   * The library operations the package calls: `jpeg.Decode`/`png.Decode`,
   * `draw.Draw` (giving the destination's new pixels) and
   * `jpeg.Encode`/`png.Encode`, each chosen by its format argument.
   */
  datatype Library = Library(
    decode: (Format, seq<byte>) -> Decoded,
    draw: (Image, Rect, Image, Point, DrawOp) -> seq<int>,
    encode: (Format, Image) -> Encoded)

  /** The errors the package returns: its own sentinel, or another package's error as it came. */
  datatype Error = ErrUnsupportedWatermarkType | External(fault: Fault)

  /** The steps of a `Mark` call, in the order performed. */
  datatype Step =
    | Decode(format: Format)
    | Allocate(bounds: Rect)
    | Draw(op: DrawOp, dst: Image, src: Image, sp: Point)
    | Seek
    | Encode(format: Format, img: Image)

  /** The outcome of `Mark`: the error it returns (`None` for nil), the stream, the steps taken. */
  datatype Run = Run(err: Option<Error>, stream: StreamState, steps: seq<Step>)

  /** The position of each kind of step in the order `Mark` performs them. */
  function Rank(step: Step): nat {
    match step
    case Decode(_) => 0
    case Allocate(_) => 1
    case Draw(op, _, _, _) => if op == Src then 2 else 3
    case Seek => 4
    case Encode(_, _) => 5
  }

  function Dx(r: Rect): nat {
    if r.min.x < r.max.x then r.max.x - r.min.x else 0
  }

  function Dy(r: Rect): nat {
    if r.min.y < r.max.y then r.max.y - r.min.y else 0
  }

  /** `image.NewNRGBA64(r)`: eight zero bytes (four 16-bit channels) per pixel of `r`. */
  function NewNRGBA64(r: Rect): Image {
    Image(r, seq(8 * Dx(r) * Dy(r), _ => 0))
  }

  /** `draw.Draw(dst, r, src, sp, op)`: the library redraws `dst`'s pixels; its bounds stay. */
  function DrawOnto(lib: Library, dst: Image, r: Rect, src: Image, sp: Point, op: DrawOp): Image {
    Image(dst.bounds, lib.draw(dst, r, src, sp, op))
  }

  /** The base layer: a new NRGBA64 image with the target's bounds, the target copied in. */
  function BaseLayer(lib: Library, target: Image): Image {
    var dst := NewNRGBA64(target.bounds);
    DrawOnto(lib, dst, dst.bounds, target, ZP, Src)
  }

  /**
   * The destination `Mark` encodes: the watermark drawn over the base layer.
   * It has the target's bounds, whatever `point` is.
   */
  function Composite(lib: Library, target: Image, watermark: Image, point: Point): (img: Image)
    ensures img.bounds == target.bounds
  {
    var base := BaseLayer(lib, target);
    DrawOnto(lib, base, base.bounds, watermark, point, Over)
  }

  /** The error `Mark` returns for an encoder's report: its fault, or nil. */
  function EncodeError(e: Encoded): Option<Error> {
    if e.fault.Some? then Some(External(e.fault.value)) else None
  }

  /**
   * `Mark` on a stream in state `s` whose seek reports `seekFault`: classify
   * the extension, decode from the current offset, build the destination,
   * composite, seek to the start, encode in the same format over the old bytes.
   * Each step is logged with the arguments it is performed with.
   */
  function MarkRun(watermark: Image, s: StreamState, seekFault: Option<Fault>, ext: string,
                   point: Point, lib: Library): (run: Run)
    requires InBounds(s)
    ensures InBounds(run.stream)
    ensures run.steps == [] <==> Classify(ext).None?
  {
    match Classify(ext)
    case None => Run(Some(ErrUnsupportedWatermarkType), s, [])
    case Some(f) =>
      var d := lib.decode(f, s.data[s.pos..]);
      var read := AfterRead(s, d.consumed);
      match d.result
      case Failure(fault) => Run(Some(External(fault)), read, [Decode(f)])
      case Success(target) =>
        var dst := NewNRGBA64(target.bounds);
        var base := DrawOnto(lib, dst, dst.bounds, target, ZP, Src);
        var marked := DrawOnto(lib, base, base.bounds, watermark, point, Over);
        var drawn := [Decode(f), Allocate(dst.bounds), Draw(Src, dst, target, ZP),
                      Draw(Over, base, watermark, point), Seek];
        if seekFault.Some? then
          Run(Some(External(seekFault.value)), read, drawn)
        else
          var e := lib.encode(f, marked);
          Run(EncodeError(e), Overwrite(StreamState(read.data, 0), e.written), drawn + [Encode(f, marked)])
  }

  /**
   * Classification comes first: `Mark` returns the sentinel exactly when the
   * extension is not on the allow-list, and then it has neither read nor
   * written the stream.
   */
  lemma MarkRejectsUnsupported(watermark: Image, s: StreamState, seekFault: Option<Fault>,
                               ext: string, point: Point, lib: Library)
    requires InBounds(s)
    ensures var run := MarkRun(watermark, s, seekFault, ext, point, lib);
            (run.err == Some(ErrUnsupportedWatermarkType) <==> !Allowed(ext))
            && (!Allowed(ext) ==> run.stream == s && run.steps == [])
  {
  }

  /** A decode error is returned as it came, after the decode step alone: nothing is written. */
  lemma MarkStopsAtDecodeFailure(watermark: Image, s: StreamState, seekFault: Option<Fault>,
                                 ext: string, point: Point, lib: Library, f: Format, fault: Fault)
    requires InBounds(s) && Classify(ext) == Some(f)
    requires lib.decode(f, s.data[s.pos..]).result == Failure(fault)
    ensures var run := MarkRun(watermark, s, seekFault, ext, point, lib);
            run.err == Some(External(fault)) && run.stream.data == s.data && run.steps == [Decode(f)]
  {
  }

  /** A seek error is returned as it came, before anything is encoded or written. */
  lemma MarkStopsAtSeekFailure(watermark: Image, s: StreamState, fault: Fault,
                               ext: string, point: Point, lib: Library, f: Format)
    requires InBounds(s) && Classify(ext) == Some(f)
    requires lib.decode(f, s.data[s.pos..]).result.Success?
    ensures var run := MarkRun(watermark, s, Some(fault), ext, point, lib);
            run.err == Some(External(fault)) && run.stream.data == s.data
            && |run.steps| == 5 && run.steps[4] == Seek
            && forall i :: 0 <= i < |run.steps| ==> !run.steps[i].Encode?
  {
  }

  /**
   * Every call performs a prefix of decode, allocate, draw the target, draw the
   * watermark, seek, encode, and all of it when it returns nil.
   */
  lemma MarkFollowsPipeline(watermark: Image, s: StreamState, seekFault: Option<Fault>,
                            ext: string, point: Point, lib: Library)
    requires InBounds(s)
    ensures var run := MarkRun(watermark, s, seekFault, ext, point, lib);
            forall i :: 0 <= i < |run.steps| ==> Rank(run.steps[i]) == i
    ensures var run := MarkRun(watermark, s, seekFault, ext, point, lib);
            run.err.None? ==> |run.steps| == 6
  {
    var run := MarkRun(watermark, s, seekFault, ext, point, lib);
    if Classify(ext).Some? {
      var f := Classify(ext).value;
      var d := lib.decode(f, s.data[s.pos..]);
      if d.result.Failure? {
        assert run.steps == [Decode(f)];
      } else {
        assert |run.steps| == 5 || |run.steps| == 6;
        assert Rank(run.steps[2]) == 2 && Rank(run.steps[3]) == 3 && Rank(run.steps[4]) == 4;
      }
    }
  }

  /** The encode step comes right after the seek step and is the last step. */
  lemma MarkSeeksBeforeEncode(watermark: Image, s: StreamState, seekFault: Option<Fault>,
                              ext: string, point: Point, lib: Library)
    requires InBounds(s)
    ensures var run := MarkRun(watermark, s, seekFault, ext, point, lib);
            forall j :: 0 <= j < |run.steps| && run.steps[j].Encode? ==>
              0 < j && run.steps[j - 1] == Seek && j == |run.steps| - 1
  {
    var run := MarkRun(watermark, s, seekFault, ext, point, lib);
    if Classify(ext).Some? && lib.decode(Classify(ext).value, s.data[s.pos..]).result.Success? {
      assert run.steps[4] == Seek;
      assert forall j :: 0 <= j < 5 ==> !run.steps[j].Encode?;
    }
  }

  /**
   * An encode uses the format that was decoded from, the one the extension
   * names; its bytes are what reaches the stream, from offset 0, and its error
   * is what `Mark` returns.
   */
  lemma MarkEncodesDecodedFormat(watermark: Image, s: StreamState, seekFault: Option<Fault>,
                                 ext: string, point: Point, lib: Library)
    requires InBounds(s)
    ensures var run := MarkRun(watermark, s, seekFault, ext, point, lib);
            forall j :: 0 <= j < |run.steps| && run.steps[j].Encode? ==>
              var g, e := run.steps[j].format, lib.encode(run.steps[j].format, run.steps[j].img);
              j == 5 && run.steps[0] == Decode(g) && Classify(ext) == Some(g)
              && run.stream == Overwrite(StreamState(s.data, 0), e.written)
              && run.err == EncodeError(e)
  {
    var run := MarkRun(watermark, s, seekFault, ext, point, lib);
    if Classify(ext).Some? {
      var f := Classify(ext).value;
      var d := lib.decode(f, s.data[s.pos..]);
      if d.result.Success? {
        assert forall j :: 0 <= j < 5 ==> !run.steps[j].Encode?;
        if seekFault.None? {
          assert run.steps[5] == Encode(f, Composite(lib, d.result.value, watermark, point));
        }
      }
    }
  }

  /**
   * The destination that is allocated, drawn on and encoded has exactly the
   * decoded target's bounds, whatever `point` is.
   */
  lemma MarkKeepsTargetBounds(watermark: Image, s: StreamState, seekFault: Option<Fault>,
                              ext: string, point: Point, lib: Library)
    requires InBounds(s)
    ensures var run := MarkRun(watermark, s, seekFault, ext, point, lib);
            forall j :: 0 < j < |run.steps| ==>
              var target := lib.decode(run.steps[0].format, s.data[s.pos..]).result;
              target.Success?
              && (run.steps[j].Allocate? ==> run.steps[j].bounds == target.value.bounds)
              && (run.steps[j].Draw? ==> run.steps[j].dst.bounds == target.value.bounds)
              && (run.steps[j].Encode? ==> run.steps[j].img.bounds == target.value.bounds)
  {
    var run := MarkRun(watermark, s, seekFault, ext, point, lib);
    if Classify(ext).Some? {
      var f := Classify(ext).value;
      var d := lib.decode(f, s.data[s.pos..]);
      if d.result.Success? {
        var target := d.result.value;
        assert run.steps[0] == Decode(f);
        assert run.steps[3].dst == BaseLayer(lib, target);
        if seekFault.None? {
          assert run.steps[5].img == Composite(lib, target, watermark, point);
        }
      }
    }
  }

  /**
   * What is encoded is the composite: the watermark drawn with `Over` at
   * `point` onto the base layer, which is the decoded target drawn with `Src`
   * onto a new image of its bounds.
   */
  lemma MarkEncodesComposite(watermark: Image, s: StreamState, seekFault: Option<Fault>,
                             ext: string, point: Point, lib: Library)
    requires InBounds(s)
    ensures var run := MarkRun(watermark, s, seekFault, ext, point, lib);
            forall j :: 0 <= j < |run.steps| && run.steps[j].Encode? ==>
              var d := lib.decode(run.steps[j].format, s.data[s.pos..]);
              var img := run.steps[j].img;
              d.result.Success?
              && run.steps[2] == Draw(Src, NewNRGBA64(d.result.value.bounds), d.result.value, ZP)
              && run.steps[3] == Draw(Over, BaseLayer(lib, d.result.value), watermark, point)
              && img == DrawOnto(lib, run.steps[3].dst, run.steps[3].dst.bounds, watermark, point, Over)
              && img == Composite(lib, d.result.value, watermark, point)
  {
    var run := MarkRun(watermark, s, seekFault, ext, point, lib);
    if Classify(ext).Some? {
      var f := Classify(ext).value;
      var d := lib.decode(f, s.data[s.pos..]);
      if d.result.Success? {
        assert forall j :: 0 <= j < 5 ==> !run.steps[j].Encode?;
        if seekFault.None? {
          assert run.steps[5] == Encode(f, Composite(lib, d.result.value, watermark, point));
        }
      }
    }
  }

  /**
   * The stream changes only by an encode, which writes from offset 0 over the
   * old bytes: bytes past the new encoding are left as they were.
   */
  lemma MarkWritesFromStart(watermark: Image, s: StreamState, seekFault: Option<Fault>,
                            ext: string, point: Point, lib: Library)
    requires InBounds(s)
    ensures var run := MarkRun(watermark, s, seekFault, ext, point, lib);
            (forall j :: 0 <= j < |run.steps| ==> !run.steps[j].Encode?) ==> run.stream.data == s.data
    ensures var run := MarkRun(watermark, s, seekFault, ext, point, lib);
            (exists j :: 0 <= j < |run.steps| && run.steps[j].Encode?) ==>
              exists out :: run.stream == Overwrite(StreamState(s.data, 0), out)
  {
    var run := MarkRun(watermark, s, seekFault, ext, point, lib);
    if Classify(ext).Some? {
      var f := Classify(ext).value;
      var d := lib.decode(f, s.data[s.pos..]);
      if d.result.Success? && seekFault.None? {
        assert run.steps[5].Encode?;
        var e := lib.encode(f, Composite(lib, d.result.value, watermark, point));
        assert run.stream == Overwrite(StreamState(s.data, 0), e.written);
      }
    }
  }

  /** Lower-casing the extension first, as `MarkFile` does, changes nothing. */
  lemma MarkIgnoresCase(watermark: Image, s: StreamState, seekFault: Option<Fault>,
                        ext: string, point: Point, lib: Library)
    requires InBounds(s)
    ensures MarkRun(watermark, s, seekFault, Lower(ext), point, lib)
         == MarkRun(watermark, s, seekFault, ext, point, lib)
  {
    ClassifyIgnoresCase(ext);
  }

  /** Decodes an image in format `f` from the stream's current offset. */
  method ReadImage(src: Stream, f: Format, lib: Library) returns (r: Result<Image, Fault>)
    requires src.Valid()
    modifies src
    ensures src.Valid()
    ensures var d := lib.decode(f, old(src.Unread()));
            r == d.result && src.State() == AfterRead(old(src.State()), d.consumed)
  {
    var d := lib.decode(f, src.Unread());
    src.Consume(d.consumed);
    r := d.result;
  }

  /** Encodes `img` in format `f`, writing at the stream's current offset. */
  method WriteImage(dst: Stream, f: Format, img: Image, lib: Library) returns (fault: Option<Fault>)
    requires dst.Valid()
    modifies dst
    ensures dst.Valid()
    ensures var e := lib.encode(f, img);
            fault == e.fault && dst.State() == Overwrite(old(dst.State()), e.written)
  {
    var e := lib.encode(f, img);
    dst.Write(e.written);
    fault := e.fault;
  }

  /**
   * The `switch` that picks the decoder in `New` and `Mark`: decode from the
   * current offset in the format the lower-cased extension `e` names, or, in
   * the `default` branch, return `None` without reading. `steps` logs the decode.
   */
  method DecodeSwitch(src: Stream, e: string, lib: Library)
    returns (r: Option<Result<Image, Fault>>, ghost steps: seq<Step>)
    requires src.Valid()
    modifies src
    ensures src.Valid()
    ensures FormatOf(e).None? ==> r.None? && steps == [] && src.State() == old(src.State())
    ensures FormatOf(e).Some? ==>
              var g := FormatOf(e).value;
              var d := lib.decode(g, old(src.Unread()));
              r == Some(d.result) && steps == [Decode(g)]
              && src.State() == AfterRead(old(src.State()), d.consumed)
  {
    var img: Result<Image, Fault>;
    match FormatOf(e) {
      case Some(Jpeg) =>
        img := ReadImage(src, Jpeg, lib);
        steps := [Decode(Jpeg)];
      case Some(Png) =>
        img := ReadImage(src, Png, lib);
        steps := [Decode(Png)];
      case None =>
        return None, [];
    }
    r := Some(img);
  }

  /**
   * The `switch` before the encode in `Mark`: encode `img` at the current
   * offset in the format the lower-cased extension `e` names, or return the
   * sentinel, writing nothing, in the `default` branch. `steps` logs the encode.
   */
  method EncodeSwitch(dst: Stream, e: string, img: Image, lib: Library)
    returns (err: Option<Error>, ghost steps: seq<Step>)
    requires dst.Valid()
    modifies dst
    ensures dst.Valid()
    ensures FormatOf(e).None? ==>
              err == Some(ErrUnsupportedWatermarkType) && steps == [] && dst.State() == old(dst.State())
    ensures FormatOf(e).Some? ==>
              var g := FormatOf(e).value;
              err == EncodeError(lib.encode(g, img)) && steps == [Encode(g, img)]
              && dst.State() == Overwrite(old(dst.State()), lib.encode(g, img).written)
  {
    var fault: Option<Fault>;
    match FormatOf(e) {
      case Some(Jpeg) =>
        fault := WriteImage(dst, Jpeg, img, lib);
        steps := [Encode(Jpeg, img)];
      case Some(Png) =>
        fault := WriteImage(dst, Png, img, lib);
        steps := [Encode(Png, img)];
      case None =>
        return Some(ErrUnsupportedWatermarkType), [];
    }
    err := if fault.Some? then Some(External(fault.value)) else None;
  }

  /** `Watermark`: the decoded watermark image, never changed after `New`. */
  class Watermark {
    const image: Image

    constructor (image: Image)
      ensures this.image == image
    {
      this.image := image;
    }

    /**
     * `Mark(src, ext, point)`; `steps` logs each library call and seek with the
     * arguments it was made with, for the lemmas above.
     */
    method Mark(src: Stream, ext: string, point: Point, lib: Library)
      returns (err: Option<Error>, ghost steps: seq<Step>)
      requires src.Valid()
      modifies src
      ensures src.Valid()
      ensures var run := MarkRun(image, old(src.State()), src.seekFault, ext, point, lib);
              err == run.err && src.State() == run.stream && steps == run.steps
    {
      ghost var s0 := src.State();
      ghost var run := MarkRun(image, s0, src.seekFault, ext, point, lib);
      var lower := Lower(ext);
      LowerIdempotent(ext);
      assert FormatOf(lower) == Classify(ext);
      var decoded: Option<Result<Image, Fault>>;
      decoded, steps := DecodeSwitch(src, lower, lib);
      if decoded.None? {
        return Some(ErrUnsupportedWatermarkType), steps;
      }
      var target := decoded.value;
      ghost var f := Classify(ext).value;
      ghost var d := lib.decode(f, s0.data[s0.pos..]);
      assert target == d.result && src.State() == AfterRead(s0, d.consumed);
      if target.Failure? {
        return Some(External(target.error)), steps;
      }

      var srcImg := target.value;
      var dstImg := NewNRGBA64(srcImg.bounds);
      steps := steps + [Allocate(dstImg.bounds)];
      steps := steps + [Draw(Src, dstImg, srcImg, ZP)];
      dstImg := DrawOnto(lib, dstImg, dstImg.bounds, srcImg, ZP, Src);
      steps := steps + [Draw(Over, dstImg, image, point)];
      dstImg := DrawOnto(lib, dstImg, dstImg.bounds, image, point, Over);

      var seekFault := src.SeekStart();
      steps := steps + [Seek];
      assert steps == run.steps[..5];
      if seekFault.Some? {
        return Some(External(seekFault.value)), steps;
      }
      assert src.State() == StreamState(s0.data, 0);

      // The second `switch` classifies the same lower-cased string, so its
      // `default` branch is not taken: `err` is the encoder's error, as
      // `MarkRun` says.
      ghost var encoded;
      err, encoded := EncodeSwitch(src, lower, dstImg, lib);
      steps := steps + encoded;
    }

    /**
     * `MarkFile(path, point)`: open the file for reading and writing, mark it
     * with the lower-cased extension of its path, close it.
     */
    method MarkFile(fs: FileSystem, path: string, point: Point, lib: Library)
      returns (err: Option<Error>)
      modifies fs
      ensures var fault := old(fs.OpenFault(path, ReadWrite));
              fault.Some? ==> err == Some(External(fault.value)) && fs.files == old(fs.files)
      ensures old(fs.OpenFault(path, ReadWrite)).None? ==>
                var run := MarkRun(image, StreamState(old(fs.files[path]), 0), None,
                                   Lower(PathExt(path)), point, lib);
                err == run.err && fs.files == old(fs.files)[path := run.stream.data]
    {
      var handle := fs.Open(path, ReadWrite);
      if handle.Failure? {
        return Some(External(handle.error));
      }
      var file := handle.value;
      var ext := Lower(PathExt(path));
      ghost var before := fs.files;
      assert file.State() == StreamState(before[path], 0);
      ghost var run := MarkRun(image, file.State(), None, ext, point, lib);
      ghost var steps;
      err, steps := Mark(file, ext, point, lib);
      assert fs.files == before;
      assert err == run.err && file.data == run.stream.data;
      fs.Close(path, file);
      assert fs.files == before[path := run.stream.data];
    }
  }

  /**
   * `New(path)`: open the file for reading, then choose the decoder by the
   * lower-cased extension of the path, then decode the whole file.
   */
  method New(fs: FileSystem, path: string, lib: Library) returns (r: Result<Watermark, Error>)
    ensures fs.OpenFault(path, ReadOnly).Some? ==>
              r == Failure(External(fs.OpenFault(path, ReadOnly).value))
    ensures r == Failure(ErrUnsupportedWatermarkType) <==>
              fs.OpenFault(path, ReadOnly).None? && !Allowed(PathExt(path))
    ensures fs.OpenFault(path, ReadOnly).None? && Classify(PathExt(path)).Some? ==>
              var d := lib.decode(Classify(PathExt(path)).value, fs.files[path]);
              match d.result
              case Failure(fault) => r == Failure(External(fault))
              case Success(img) => r.Success? && r.value.image == img
  {
    var handle := fs.Open(path, ReadOnly);
    if handle.Failure? {
      return Failure(External(handle.error));
    }
    var f := handle.value;
    var ext := Lower(PathExt(path));
    assert FormatOf(ext) == Classify(PathExt(path));
    var decoded: Option<Result<Image, Fault>>;
    ghost var steps;
    decoded, steps := DecodeSwitch(f, ext, lib);
    if decoded.None? {
      return Failure(ErrUnsupportedWatermarkType);
    }
    var img := decoded.value;
    if img.Failure? {
      return Failure(External(img.error));
    }
    var w := new Watermark(img.value);
    return Success(w);
  }
}
