/** `WanVideoVACEStartToEndFrame.process`: the start/end frame batch and its
    mask for VACE. A frame is abstracted to the token naming where its
    content came from, and a mask frame to one value that multiplies all its
    pixels (1 for "to be generated", 0 for "given"). An image batch is given
    by its length; the inpaint mask by its per-frame values. */
module FrameBatch {
  import opened Wrappers
  import opened Arith

  /** Where an output frame's pixels come from: the empty frame of
      `empty_frame_level`, or frame `i` of the start, end or control batch. */
  datatype Frame = Fill | Start(i: int) | End(i: int) | Control(i: int)

  /** A negative `end_index` counts back from `num_frames`, as a Python index
      does: then it names the same frame as the Python index would. */
  function NormalizeEnd(numFrames: nat, endIndex: int): (e: int)
    ensures endIndex >= 0 ==> e == endIndex
    ensures 0 <= numFrames + endIndex && endIndex < numFrames ==> 0 <= e < numFrames
  {
    if endIndex < 0 then numFrames + endIndex else endIndex
  }

  /** In the range Python accepts as an index into `num_frames` frames,
      the normalised index and the raw one agree modulo `num_frames`. */
  lemma NormalizeEndAsPythonIndex(numFrames: nat, endIndex: int)
    requires 0 <= numFrames + endIndex && endIndex < numFrames
    ensures NormalizeEnd(numFrames, endIndex) % numFrames == endIndex % numFrames
  {
    var e := NormalizeEnd(numFrames, endIndex);
    DivModUnique(e, numFrames, 0, e);
    if endIndex < 0 {
      DivModUnique(endIndex, numFrames, -1, e);
    }
  }

  /** Frame `i` is covered by `count` start images placed at `startIndex`. */
  predicate InStartWindow(startIndex: int, count: nat, i: int)
  {
    startIndex <= i < startIndex + count
  }

  /** The position the first of `count` end images would take so that the
      last one lands on `endIndex`. */
  function EndStart(endIndex: int, count: nat): int
  {
    endIndex - count + 1
  }

  /** Frame `i` is covered by `count` end images ending at `endIndex`. */
  predicate InEndWindow(endIndex: int, count: nat, i: int)
  {
    EndStart(endIndex, count) <= i <= endIndex
  }

  /** The copy the code makes for the end images: where it starts, how many
      leading images it crops off, and how many it copies (nothing unless
      positive). */
  datatype EndCopy = EndCopy(at: int, drop: nat, count: int)

  function PlanEnd(numFrames: nat, endIndex: int, count: nat): (p: EndCopy)
    ensures p.at >= 0 && p.count <= numFrames - p.at
    ensures forall i :: 0 <= i < numFrames ==>
      (InEndWindow(endIndex, count, i) <==> p.at <= i < p.at + p.count)
    ensures p.drop - p.at == -EndStart(endIndex, count)
  {
    var start := EndStart(endIndex, count);
    var drop: nat := if start < 0 then -start else 0;
    var at := if start < 0 then 0 else start;
    var kept := if count >= drop then count - drop else 0;
    EndCopy(at, drop, Min(kept, numFrames - at))
  }

  /** The last end image lands exactly on `end_index` when that is a frame
      of the batch. */
  lemma LastEndImageAtEndIndex(numFrames: nat, endIndex: int, count: nat)
    requires count > 0 && 0 <= endIndex < numFrames
    ensures var p := PlanEnd(numFrames, endIndex, count);
      p.at <= endIndex < p.at + p.count && p.drop + (endIndex - p.at) == count - 1
  {
    assert InEndWindow(endIndex, count, endIndex);
  }

  /** When all end images fit, none are cropped and all are copied. */
  lemma EndImagesFit(numFrames: nat, endIndex: int, count: nat)
    requires count > 0 && count - 1 <= endIndex < numFrames
    ensures PlanEnd(numFrames, endIndex, count) == EndCopy(endIndex - count + 1, 0, count)
  {
  }

  /** `(n + m - 1) // m`, the repeat factor of the inpaint mask: the least
      number of copies of `m` frames that cover `n` frames. */
  function CeilDiv(n: nat, m: nat): (r: nat)
    requires m > 0
    ensures r * m >= n
    ensures r == 0 || (r - 1) * m < n
  {
    var r := (n + m - 1) / m;
    assert r * m + (n + m - 1) % m == n + m - 1;
    r
  }

  /** A quotient and remainder that fit `n == k * m + r` are the ones of
      `n / m` and `n % m`. */
  lemma DivModUnique(n: int, m: int, k: int, r: int)
    requires m > 0 && 0 <= r < m && n == k * m + r
    ensures n / m == k && n % m == r
  {
    var k0, r0 := n / m, n % m;
    assert n == k0 * m + r0;
    var d := k0 - k;
    assert d * m == r - r0 by {
      assert k0 * m == (k + d) * m == k * m + d * m;
    }
    if d >= 1 {
      MulAtLeast(d, m);
    } else if d <= -1 {
      MulAtLeast(-d, m);
    }
  }

  lemma MulAtLeast(d: int, m: int)
    requires d >= 1 && m > 0
    ensures d * m >= m
  {
    assert d * m == (d - 1) * m + m;
    assert (d - 1) * m >= 0;
  }

  /** `mask.repeat(times, 1, 1)`: `times` copies of the mask, one after the
      other, so frame `i` is mask frame `i mod |mask|`. */
  function Repeat(mask: seq<real>, times: nat): (r: seq<real>)
    ensures |r| == |mask| * times
    ensures forall i :: 0 <= i < |r| ==> r[i] == mask[i % |mask|]
  {
    if times == 0 then []
    else
      var prefix := Repeat(mask, times - 1);
      var r := prefix + mask;
      assert forall i :: |prefix| <= i < |r| ==> r[i] == mask[i % |mask|] by {
        forall i | |prefix| <= i < |r|
          ensures r[i] == mask[i % |mask|]
        {
          DivModUnique(i, |mask|, times - 1, i - |prefix|);
        }
      }
      r
  }

  /** Lines 102-106: the inpaint mask cut, or tiled and cut, to exactly
      `numFrames` frames; frame `i` is mask frame `i mod |mask|`. */
  method FitMask(mask: seq<real>, numFrames: nat) returns (fitted: array<real>)
    requires |mask| > 0 || numFrames == 0
    ensures fresh(fitted) && fitted.Length == numFrames
    ensures forall i :: 0 <= i < numFrames ==> fitted[i] == mask[i % |mask|]
  {
    var source := mask;
    if |mask| > numFrames {
      source := mask[..numFrames];
    } else if |mask| < numFrames {
      var times := CeilDiv(numFrames, |mask|);
      source := Repeat(mask, times)[..numFrames];
    }
    fitted := new real[numFrames](i requires 0 <= i < numFrames => source[i]);
  }

  /** Lines 65-69: `k = min(B, num_frames - start_index)` start images
      copied from `start_index` on, their mask frames set to 0; nothing
      when `k <= 0`. */
  method PlaceStart(frames: array<Frame>, masks: array<real>, startIndex: nat, count: nat)
    requires frames.Length == masks.Length
    modifies frames, masks
    ensures forall i :: 0 <= i < frames.Length ==>
      frames[i] == (if InStartWindow(startIndex, count, i) then Start(i - startIndex) else old(frames[i]))
    ensures forall i :: 0 <= i < masks.Length ==>
      masks[i] == (if InStartWindow(startIndex, count, i) then 0.0 else old(masks[i]))
  {
    var k := Min(count, frames.Length - startIndex);
    if k > 0 {
      var j := 0;
      while j < k
        invariant 0 <= j <= k
        invariant forall i :: 0 <= i < frames.Length ==>
          frames[i] == (if startIndex <= i < startIndex + j then Start(i - startIndex) else old(frames[i]))
        invariant forall i :: 0 <= i < masks.Length ==>
          masks[i] == (if startIndex <= i < startIndex + j then 0.0 else old(masks[i]))
      {
        frames[startIndex + j] := Start(j);
        masks[startIndex + j] := 0.0;
        j := j + 1;
      }
    }
  }

  /** Lines 74-82: the end images placed to end at `endIndex`, the leading
      ones cropped when they would start before frame 0, overwriting any
      start images they overlap; their mask frames set to 0. */
  method PlaceEnd(frames: array<Frame>, masks: array<real>, endIndex: int, count: nat)
    requires frames.Length == masks.Length
    modifies frames, masks
    ensures forall i :: 0 <= i < frames.Length ==>
      frames[i] == (if InEndWindow(endIndex, count, i) then End(i - EndStart(endIndex, count)) else old(frames[i]))
    ensures forall i :: 0 <= i < masks.Length ==>
      masks[i] == (if InEndWindow(endIndex, count, i) then 0.0 else old(masks[i]))
  {
    var p := PlanEnd(frames.Length, endIndex, count);
    if p.count > 0 {
      var j := 0;
      while j < p.count
        invariant 0 <= j <= p.count
        invariant forall i :: 0 <= i < frames.Length ==>
          frames[i] == (if p.at <= i < p.at + j then End(i - EndStart(endIndex, count)) else old(frames[i]))
        invariant forall i :: 0 <= i < masks.Length ==>
          masks[i] == (if p.at <= i < p.at + j then 0.0 else old(masks[i]))
      {
        frames[p.at + j] := End(p.drop + j);
        masks[p.at + j] := 0.0;
        j := j + 1;
      }
    }
  }

  /** A mask frame still counts as empty when more than half its pixels are
      set, which for a uniform mask frame means a value above one half. */
  predicate IsEmpty(m: real)
  {
    m > 0.5
  }

  /** `empty_frames.any()`. */
  method AnyEmpty(masks: array<real>) returns (b: bool)
    ensures b <==> exists i :: 0 <= i < masks.Length && IsEmpty(masks[i])
  {
    b := false;
    var i := 0;
    while i < masks.Length
      invariant 0 <= i <= masks.Length
      invariant b <==> exists j :: 0 <= j < i && IsEmpty(masks[j])
    {
      if IsEmpty(masks[i]) {
        b := true;
      }
      i := i + 1;
    }
  }

  /** Lines 87-94: control frame `i` written into every frame `i` that is
      still empty and that the control batch reaches; the mask is not
      touched. */
  method FillControl(frames: array<Frame>, masks: array<real>, controlLength: nat)
    requires frames.Length == masks.Length
    modifies frames
    ensures forall i :: 0 <= i < frames.Length ==>
      frames[i] == (if IsEmpty(masks[i]) && i < controlLength then Control(i) else old(frames[i]))
  {
    var any := AnyEmpty(masks);
    if any {
      for idx := 0 to frames.Length
        invariant forall i :: 0 <= i < frames.Length ==>
          frames[i] == (if i < idx && IsEmpty(masks[i]) && i < controlLength then Control(i) else old(frames[i]))
      {
        if IsEmpty(masks[idx]) && idx < controlLength {
          frames[idx] := Control(idx);
        }
      }
    }
  }

  /** Line 109: `masks = inpaint_mask * masks`, frame by frame. */
  method ApplyMask(masks: array<real>, fitted: array<real>)
    requires fitted.Length == masks.Length && fitted != masks
    modifies masks
    ensures forall i :: 0 <= i < masks.Length ==> masks[i] == fitted[i] * old(masks[i])
  {
    for idx := 0 to masks.Length
      invariant forall i :: 0 <= i < masks.Length ==>
        masks[i] == (if i < idx then fitted[i] * old(masks[i]) else old(masks[i]))
    {
      masks[idx] := fitted[idx] * masks[idx];
    }
  }

  /** Lines 34-43: with only control images, exactly `num_frames` frames,
      the control frames first (cut to fit) and empty frames after them,
      and an all-zero mask. */
  method ControlOnly(numFrames: nat, controlLength: nat) returns (frames: array<Frame>, masks: array<real>)
    ensures fresh(frames) && fresh(masks)
    ensures frames.Length == numFrames && masks.Length == numFrames
    ensures forall i :: 0 <= i < numFrames ==> frames[i] == (if i < controlLength then Control(i) else Fill)
    ensures forall i :: 0 <= i < numFrames ==> masks[i] == 0.0
  {
    var kept := Min(controlLength, numFrames);
    frames := new Frame[numFrames](i => if i < kept then Control(i) else Fill);
    masks := new real[numFrames](i => 0.0);
  }

  /** The frames some start or end image takes, which end up masked 0. */
  predicate Covered(startImages: Option<nat>, endImages: Option<nat>, startIndex: nat, endIndex: int, i: int)
  {
    (startImages.Some? && InStartWindow(startIndex, startImages.value, i))
    || (endImages.Some? && InEndWindow(endIndex, endImages.value, i))
  }

  /** The inpaint value frame `i` is multiplied by: 1 without a mask. */
  function InpaintAt(inpaintMask: Option<seq<real>>, i: nat): real
  {
    if inpaintMask.None? || |inpaintMask.value| == 0 then 1.0
    else inpaintMask.value[i % |inpaintMask.value|]
  }

  /** Why the node raises: with no batch at all line 44 reads the shape of
      `None`; a zero-length inpaint mask makes the ceiling division of the
      tiling divide by zero. */
  datatype Failure = NoImages | EmptyInpaintMask

  /** The two tensors the node returns. */
  datatype Batch = Batch(frames: array<Frame>, masks: array<real>)

  /** The inputs on which the node raises, and which exception. */
  function FailureOf(numFrames: nat, startImages: Option<nat>, endImages: Option<nat>,
                     controlImages: Option<nat>, inpaintMask: Option<seq<real>>): Option<Failure>
  {
    if startImages.None? && endImages.None? && controlImages.None? then Some(NoImages)
    else if (startImages.Some? || endImages.Some?) && inpaintMask.Some? && |inpaintMask.value| == 0
            && numFrames > 0 then Some(EmptyInpaintMask)
    else None
  }

  /** The whole node. A batch of images is given by its length, `None` when
      the input is not connected; `endIndex` is the raw input. */
  method Process(numFrames: nat, startImages: Option<nat>, endImages: Option<nat>, controlImages: Option<nat>,
                 inpaintMask: Option<seq<real>>, startIndex: nat, endIndex: int)
    returns (r: Result<Batch, Failure>)
    ensures r.Err? <==> FailureOf(numFrames, startImages, endImages, controlImages, inpaintMask).Some?
    ensures r.Err? ==> r.error == FailureOf(numFrames, startImages, endImages, controlImages, inpaintMask).value
    ensures r.Ok? ==> fresh(r.value.frames) && fresh(r.value.masks)
    ensures r.Ok? ==> r.value.frames.Length == numFrames && r.value.masks.Length == numFrames
    ensures r.Ok? && startImages.None? && endImages.None? ==>
      forall i :: 0 <= i < numFrames ==>
        r.value.frames[i] == (if i < controlImages.value then Control(i) else Fill) && r.value.masks[i] == 0.0
    ensures r.Ok? && (startImages.Some? || endImages.Some?) ==>
      var e := NormalizeEnd(numFrames, endIndex);
      forall i :: 0 <= i < numFrames ==>
        && r.value.frames[i]
           == (if endImages.Some? && InEndWindow(e, endImages.value, i) then End(i - EndStart(e, endImages.value))
               else if startImages.Some? && InStartWindow(startIndex, startImages.value, i) then Start(i - startIndex)
               else if controlImages.Some? && i < controlImages.value then Control(i)
               else Fill)
        && r.value.masks[i]
           == InpaintAt(inpaintMask, i) * (if Covered(startImages, endImages, startIndex, e, i) then 0.0 else 1.0)
  {
    var failure := FailureOf(numFrames, startImages, endImages, controlImages, inpaintMask);
    if failure.Some? {
      return Err(failure.value);
    }
    var frames, masks := Compose(numFrames, startImages, endImages, controlImages, inpaintMask, startIndex, endIndex);
    return Ok(Batch(frames, masks));
  }

  /** The node on inputs where it does not raise. */
  method Compose(numFrames: nat, startImages: Option<nat>, endImages: Option<nat>, controlImages: Option<nat>,
                 inpaintMask: Option<seq<real>>, startIndex: nat, endIndex: int)
    returns (frames: array<Frame>, masks: array<real>)
    requires FailureOf(numFrames, startImages, endImages, controlImages, inpaintMask).None?
    ensures fresh(frames) && fresh(masks)
    ensures frames.Length == numFrames && masks.Length == numFrames
    ensures startImages.None? && endImages.None? ==>
      forall i :: 0 <= i < numFrames ==> frames[i] == (if i < controlImages.value then Control(i) else Fill) && masks[i] == 0.0
    ensures startImages.Some? || endImages.Some? ==>
      var e := NormalizeEnd(numFrames, endIndex);
      forall i :: 0 <= i < numFrames ==>
        && frames[i] == (if endImages.Some? && InEndWindow(e, endImages.value, i) then End(i - EndStart(e, endImages.value))
                         else if startImages.Some? && InStartWindow(startIndex, startImages.value, i) then Start(i - startIndex)
                         else if controlImages.Some? && i < controlImages.value then Control(i)
                         else Fill)
        && masks[i] == InpaintAt(inpaintMask, i) * (if Covered(startImages, endImages, startIndex, e, i) then 0.0 else 1.0)
  {
    if startImages.None? && endImages.None? && controlImages.Some? {
      frames, masks := ControlOnly(numFrames, controlImages.value);
      return;
    }
    var e := NormalizeEnd(numFrames, endIndex);
    frames := new Frame[numFrames](i => Fill);
    masks := new real[numFrames](i => 1.0);
    if startImages.Some? {
      PlaceStart(frames, masks, startIndex, startImages.value);
    }
    if endImages.Some? {
      PlaceEnd(frames, masks, e, endImages.value);
    }
    assert forall i :: 0 <= i < numFrames ==>
      masks[i] == (if Covered(startImages, endImages, startIndex, e, i) then 0.0 else 1.0);
    if controlImages.Some? {
      FillControl(frames, masks, controlImages.value);
    }
    if inpaintMask.Some? {
      var fitted := FitMask(inpaintMask.value, numFrames);
      ApplyMask(masks, fitted);
    }
  }
}
