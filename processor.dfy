/**
 * gmae/processor.py: the quad geometry, the shader-program build and the
 * frame loop of `Processor`.
 *
 * The OpenGL, GLFW and cv2 calls are opaque steps here.  The shader compiler
 * is a pair of functions giving each stage's outcome, the capture device is
 * the sequence of reads it will return, and the window and the GPU are
 * functions of the loop iteration: whether the window asks to close before
 * it, and which drawing step, if any, raises while it processes its frame.
 */
module Processing {
  import opened Wrappers

  // ----- quad geometry -----

  const VertexCount: nat := 4
  const ComponentsPerVertex: nat := 3

  /** `self.vertices`: x, y, z of the corners BL, BR, TR, TL. */
  const QuadVertices: seq<real> := [
    -1.0, -1.0, 0.0,
    1.0, -1.0, 0.0,
    1.0, 1.0, 0.0,
    -1.0, 1.0, 0.0]

  /** `self.indices`: two triangles over the four corners. */
  const QuadIndices: seq<nat> := [0, 1, 2, 0, 2, 3]

  /** Corner `i` as an (x, y, z) triple. */
  function Corner(i: nat): (p: (real, real, real))
    requires i < VertexCount
  {
    (QuadVertices[3 * i], QuadVertices[3 * i + 1], QuadVertices[3 * i + 2])
  }

  /**
   * Four corners of three components each, every x and y on the unit square's
   * border and z zero, in the order bottom-left, bottom-right, top-right,
   * top-left.
   */
  lemma QuadVerticesLayout()
    ensures |QuadVertices| == VertexCount * ComponentsPerVertex
    ensures forall i :: 0 <= i < VertexCount ==>
      Corner(i).0 in {-1.0, 1.0} && Corner(i).1 in {-1.0, 1.0} && Corner(i).2 == 0.0
    ensures Corner(0).0 == -1.0 && Corner(0).1 == -1.0
    ensures Corner(1).0 == 1.0 && Corner(1).1 == -1.0
    ensures Corner(2).0 == 1.0 && Corner(2).1 == 1.0
    ensures Corner(3).0 == -1.0 && Corner(3).1 == 1.0
  {
  }

  /** Twice the signed area of triangle (i, j, k) in the x-y plane. */
  function SignedArea2(i: nat, j: nat, k: nat): real
    requires i < VertexCount && j < VertexCount && k < VertexCount
  {
    (Corner(j).0 - Corner(i).0) * (Corner(k).1 - Corner(i).1)
    - (Corner(k).0 - Corner(i).0) * (Corner(j).1 - Corner(i).1)
  }

  /**
   * Six indices, all naming one of the four corners; the triangles (0, 1, 2)
   * and (0, 2, 3) share exactly the diagonal 0-2, are both wound
   * counter-clockwise and together cover the square (area 4).
   */
  lemma QuadIndicesFormSquare()
    ensures |QuadIndices| == 6
    ensures forall i :: 0 <= i < |QuadIndices| ==> QuadIndices[i] < VertexCount
    ensures QuadIndices[..3] == [0, 1, 2] && QuadIndices[3..] == [0, 2, 3]
    ensures {QuadIndices[0], QuadIndices[1], QuadIndices[2]} * {QuadIndices[3], QuadIndices[4], QuadIndices[5]} == {0, 2}
    ensures SignedArea2(QuadIndices[0], QuadIndices[1], QuadIndices[2]) > 0.0
    ensures SignedArea2(QuadIndices[3], QuadIndices[4], QuadIndices[5]) > 0.0
    ensures SignedArea2(QuadIndices[0], QuadIndices[1], QuadIndices[2])
          + SignedArea2(QuadIndices[3], QuadIndices[4], QuadIndices[5]) == 2.0 * 4.0
  {
  }

  // ----- shader program -----

  /** The two shader kinds `compileShader` is called with. */
  datatype ShaderKind = VertexShader | FragmentShader

  /** The steps of `_create_program`, in the order it tries them. */
  datatype BuildStep = CompileVertex | CompileFragment | LinkProgram

  /**
   * What one compiler call gives: a handle; a compilation failure
   * (`ShaderCompilationError`) with its message; or any other exception,
   * with its message.
   */
  datatype Outcome = Compiled(handle: nat) | CompileFailed(message: string) | Threw(message: string)

  /**
   * The error `_create_program` returns: the first argument of a
   * `ShaderCompilationError`, or the exception `compileProgram` raised.
   */
  datatype ProgramError = ShaderError(message: string) | LinkError(message: string)

  /**
   * The pair `(program, error)` `_create_program` returns, with the steps it
   * ran in order (`steps` records which compiler calls were made).
   */
  datatype Built = Built(program: Option<nat>, error: Option<ProgramError>, steps: seq<BuildStep>)

  /**
   * `_create_program`: compile the vertex shader, then the fragment shader,
   * then link them; the first failure ends the build with its error.
   * `compileShader` and `compileProgram` stand for `shaders.compileShader`
   * on the fixed sources and for `shaders.compileProgram`.  The shader
   * stages catch only `ShaderCompilationError`: any other exception they
   * raise leaves `_create_program` (Err, with its message); the link stage
   * catches every exception.
   */
  function CreateProgram(compileShader: ShaderKind -> Outcome, compileProgram: (nat, nat) -> Outcome)
    : (r: Result<Built, string>)
    ensures r.Err? <==>
      || compileShader(VertexShader).Threw?
      || (compileShader(VertexShader).Compiled? && compileShader(FragmentShader).Threw?)
    ensures compileShader(VertexShader).Threw? ==> r == Err(compileShader(VertexShader).message)
    ensures r.Ok? ==> (r.value.program.Some? <==> r.value.error.None?)
    ensures r.Ok? ==> (r.value.program.Some? <==>
      && compileShader(VertexShader).Compiled?
      && compileShader(FragmentShader).Compiled?
      && compileProgram(compileShader(VertexShader).handle, compileShader(FragmentShader).handle).Compiled?)
    ensures r.Ok? && r.value.program.Some? ==>
      r.value.program.value ==
        compileProgram(compileShader(VertexShader).handle, compileShader(FragmentShader).handle).handle
    ensures r.Ok? ==> r.value.steps <= [CompileVertex, CompileFragment, LinkProgram] && r.value.steps != []
    ensures compileShader(VertexShader).CompileFailed? ==>
      r == Ok(Built(None, Some(ShaderError(compileShader(VertexShader).message)), [CompileVertex]))
    ensures compileShader(VertexShader).Compiled? && compileShader(FragmentShader).CompileFailed? ==>
      r == Ok(Built(None, Some(ShaderError(compileShader(FragmentShader).message)), [CompileVertex, CompileFragment]))
    ensures r.Ok? ==> (LinkProgram in r.value.steps <==>
      compileShader(VertexShader).Compiled? && compileShader(FragmentShader).Compiled?)
  {
    var vertex := compileShader(VertexShader);
    if vertex.Threw? then Err(vertex.message)
    else if vertex.CompileFailed? then
      Ok(Built(None, Some(ShaderError(vertex.message)), [CompileVertex]))
    else
      var fragment := compileShader(FragmentShader);
      if fragment.Threw? then Err(fragment.message)
      else if fragment.CompileFailed? then
        Ok(Built(None, Some(ShaderError(fragment.message)), [CompileVertex, CompileFragment]))
      else
        var program := compileProgram(vertex.handle, fragment.handle);
        if !program.Compiled? then
          Ok(Built(None, Some(LinkError(program.message)), [CompileVertex, CompileFragment, LinkProgram]))
        else
          Ok(Built(Some(program.handle), None, [CompileVertex, CompileFragment, LinkProgram]))
  }

  /**
   * `if self.error:` in `run`: an exception object is always true, a
   * compiler message only when it is not empty.
   */
  function ErrorIsSet(error: Option<ProgramError>): (r: bool)
    ensures r ==> error.Some?
    ensures error.Some? ==> (r <==> error.value.LinkError? || error.value.message != "")
  {
    match error
    case None => false
    case Some(LinkError(_)) => true
    case Some(ShaderError(message)) => message != ""
  }

  /**
   * What `run` makes of a build that returned: a built program never makes
   * it give up, a failed link always does, and so does a shader failure with
   * a message; a shader failure with an empty message leaves no program yet
   * does not stop the loop.
   */
  lemma BuildDecidesGiveUp(compileShader: ShaderKind -> Outcome, compileProgram: (nat, nat) -> Outcome)
    ensures var r := CreateProgram(compileShader, compileProgram);
      r.Ok? && r.value.program.Some? ==> !ErrorIsSet(r.value.error)
    ensures var r := CreateProgram(compileShader, compileProgram);
      r.Ok? && r.value.program.None? && LinkProgram in r.value.steps ==> ErrorIsSet(r.value.error)
    ensures var r := CreateProgram(compileShader, compileProgram);
      compileShader(VertexShader) == CompileFailed("") ==>
        r.Ok? && r.value.program.None? && !ErrorIsSet(r.value.error)
  {
  }

  // ----- drawing one frame -----

  /** The guarded steps of `process`, in program order. */
  datatype DrawStep = LoadTexture | ClearScreen | UseProgram | SetUniforms | DrawQuad | SwapAndPoll

  const DrawSteps: seq<DrawStep> := [LoadTexture, ClearScreen, UseProgram, SetUniforms, DrawQuad, SwapAndPoll]

  /** Position of a step in DrawSteps. */
  function StepIndex(s: DrawStep): (i: nat)
    ensures i < |DrawSteps| && DrawSteps[i] == s
  {
    match s
    case LoadTexture => 0
    case ClearScreen => 1
    case UseProgram => 2
    case SetUniforms => 3
    case DrawQuad => 4
    case SwapAndPoll => 5
  }

  /**
   * The steps `process` runs when `fault` names the step that raises (None:
   * none does): every step up to and including the failing one, in order,
   * and none after it.
   */
  function StepsRun(fault: Option<DrawStep>): (s: seq<DrawStep>)
    ensures s <= DrawSteps
    ensures fault.None? ==> s == DrawSteps
    ensures fault.Some? ==> s != [] && s[|s| - 1] == fault.value && fault.value !in s[..|s| - 1]
  {
    if fault.None? then DrawSteps else DrawSteps[..StepIndex(fault.value) + 1]
  }

  /** An opaque captured image. */
  datatype Frame = Frame(pixels: seq<int>)

  /** One `capture.read()`: `(True, frame)` or `(False, None)`. */
  datatype CaptureRead = Grabbed(frame: Frame) | ReadFailed

  /** The read number `n` gives: past the end of the script the device reports failure. */
  function NthRead(capture: seq<CaptureRead>, n: nat): CaptureRead
  {
    if n < |capture| then capture[n] else ReadFailed
  }

  /** How `run` ended. */
  datatype RunEnd = GaveUp | WindowClosed | CaptureEnded | Raised(step: DrawStep)

  /** The frames `run` put on screen, how it ended and how many reads it had taken. */
  datatype RunTrace = RunTrace(presented: seq<Frame>, end: RunEnd, cursor: nat)

  /**
   * The loop of `run` from read `cursor` and iteration `i` on: stop when the
   * window asks to close, stop at the first failed read, otherwise process
   * the frame, propagating the exception of a failing step.
   */
  function RunLoop(capture: seq<CaptureRead>, cursor: nat, shouldClose: nat -> bool,
                   fault: nat -> Option<DrawStep>, i: nat): (t: RunTrace)
    decreases |capture| - cursor
  {
    if shouldClose(i) then RunTrace([], WindowClosed, cursor)
    else
      var read := NthRead(capture, cursor);
      if read.ReadFailed? then RunTrace([], CaptureEnded, cursor + 1)
      else if fault(i).Some? then RunTrace([], Raised(fault(i).value), cursor + 1)
      else
        var rest := RunLoop(capture, cursor + 1, shouldClose, fault, i + 1);
        RunTrace([read.frame] + rest.presented, rest.end, rest.cursor)
  }

  /**
   * The loop never gives up, and takes one read per frame it shows, plus
   * the read that ended it unless the window closed.
   */
  lemma {:induction false} RunLoopCounts(
    capture: seq<CaptureRead>, cursor: nat, shouldClose: nat -> bool, fault: nat -> Option<DrawStep>, i: nat)
    ensures var t := RunLoop(capture, cursor, shouldClose, fault, i);
      && t.end != GaveUp
      && t.cursor >= cursor + |t.presented|
      && (t.end == WindowClosed ==> t.cursor == cursor + |t.presented|)
      && (t.end != WindowClosed ==> t.cursor == cursor + |t.presented| + 1)
    decreases |capture| - cursor
  {
    if !shouldClose(i) && NthRead(capture, cursor).Grabbed? && fault(i).None? {
      RunLoopCounts(capture, cursor + 1, shouldClose, fault, i + 1);
    }
  }

  /** A pass that reads a frame and draws it without raising shows that frame before the rest of the loop. */
  lemma RunLoopContinues(
    capture: seq<CaptureRead>, cursor: nat, shouldClose: nat -> bool, fault: nat -> Option<DrawStep>, i: nat)
    requires !shouldClose(i) && NthRead(capture, cursor).Grabbed? && fault(i).None?
    ensures var t := RunLoop(capture, cursor, shouldClose, fault, i);
      var rest := RunLoop(capture, cursor + 1, shouldClose, fault, i + 1);
      t.presented == [NthRead(capture, cursor).frame] + rest.presented && t.end == rest.end && t.cursor == rest.cursor
  {
  }

  /** Moving the front frame of the rest onto what has been shown keeps the whole. */
  lemma MoveFront(shown: seq<Frame>, frame: Frame, rest: seq<Frame>)
    ensures shown + ([frame] + rest) == (shown + [frame]) + rest
  {
  }

  /**
   * Every frame the loop shows is the read at its position from the cursor,
   * and a loop that ends with the capture ended took a failed read last.
   */
  lemma {:induction false} RunLoopShowsReads(
    capture: seq<CaptureRead>, cursor: nat, shouldClose: nat -> bool, fault: nat -> Option<DrawStep>, i: nat)
    ensures var t := RunLoop(capture, cursor, shouldClose, fault, i);
      forall j :: 0 <= j < |t.presented| ==> NthRead(capture, cursor + j) == Grabbed(t.presented[j])
    ensures var t := RunLoop(capture, cursor, shouldClose, fault, i);
      t.end == CaptureEnded ==> t.cursor > 0 && NthRead(capture, t.cursor - 1).ReadFailed?
    decreases |capture| - cursor
  {
    if !shouldClose(i) && NthRead(capture, cursor).Grabbed? && fault(i).None? {
      RunLoopShowsReads(capture, cursor + 1, shouldClose, fault, i + 1);
      var rest := RunLoop(capture, cursor + 1, shouldClose, fault, i + 1);
      forall j | 1 <= j < 1 + |rest.presented|
        ensures NthRead(capture, cursor + j) == Grabbed(([NthRead(capture, cursor).frame] + rest.presented)[j])
      {
        assert NthRead(capture, cursor + 1 + (j - 1)) == Grabbed(rest.presented[j - 1]);
      }
    }
  }

  /** The frames of the reads before the first failed one. */
  function LeadingFrames(script: seq<CaptureRead>): (frames: seq<Frame>)
    ensures |frames| <= |script|
    ensures forall j :: 0 <= j < |frames| ==> script[j] == Grabbed(frames[j])
    ensures |frames| < |script| ==> script[|frames|].ReadFailed?
  {
    if script == [] || script[0].ReadFailed? then [] else [script[0].frame] + LeadingFrames(script[1..])
  }

  /**
   * With a window that stays open and a GPU that never raises, `run` shows
   * exactly the frames read before the first failed read, in order, and
   * then ends because the capture ended.
   */
  lemma {:induction false} RunShowsLeadingFrames(
    capture: seq<CaptureRead>, cursor: nat, shouldClose: nat -> bool, fault: nat -> Option<DrawStep>, i: nat)
    requires cursor <= |capture|
    requires forall n :: !shouldClose(n) && fault(n).None?
    ensures RunLoop(capture, cursor, shouldClose, fault, i).presented == LeadingFrames(capture[cursor..])
    ensures RunLoop(capture, cursor, shouldClose, fault, i).end == CaptureEnded
    ensures RunLoop(capture, cursor, shouldClose, fault, i).cursor == cursor + |LeadingFrames(capture[cursor..])| + 1
    decreases |capture| - cursor
  {
    if cursor < |capture| && capture[cursor].Grabbed? {
      RunShowsLeadingFrames(capture, cursor + 1, shouldClose, fault, i + 1);
      assert capture[cursor..][1..] == capture[cursor + 1..];
    }
  }

  /**
   * Whatever the window and the GPU do, `run` never shows more frames than
   * lead the capture, and what it shows is a prefix of them.
   */
  lemma {:induction false} RunShowsPrefixOfLeadingFrames(
    capture: seq<CaptureRead>, cursor: nat, shouldClose: nat -> bool, fault: nat -> Option<DrawStep>, i: nat)
    requires cursor <= |capture|
    ensures RunLoop(capture, cursor, shouldClose, fault, i).presented <= LeadingFrames(capture[cursor..])
    decreases |capture| - cursor
  {
    if cursor < |capture| && capture[cursor].Grabbed? && !shouldClose(i) && fault(i).None? {
      RunShowsPrefixOfLeadingFrames(capture, cursor + 1, shouldClose, fault, i + 1);
      assert capture[cursor..][1..] == capture[cursor + 1..];
    }
  }

  /** `Processor`: the program the build produced and what the loop has done. */
  class Processor {
    var program: Option<nat>
    var error: Option<ProgramError>
    /** The reads `self.capture` will return, in order. */
    var capture: seq<CaptureRead>
    /** How many reads have been taken. */
    var readCount: nat
    /** The frames swapped onto the window so far. */
    var presented: seq<Frame>

    /**
     * `Processor(device)`, as far as the build goes: `program, error` are the
     * result of `_create_program`; nothing has been read or shown yet.  When
     * `_create_program` raises, so does `__init__`, and no processor exists.
     */
    constructor (compileShader: ShaderKind -> Outcome, compileProgram: (nat, nat) -> Outcome,
                 capture: seq<CaptureRead>)
      requires CreateProgram(compileShader, compileProgram).Ok?
      ensures program == CreateProgram(compileShader, compileProgram).value.program
      ensures error == CreateProgram(compileShader, compileProgram).value.error
      ensures this.capture == capture && readCount == 0 && presented == []
    {
      var built := CreateProgram(compileShader, compileProgram).value;
      program := built.program;
      error := built.error;
      this.capture := capture;
      readCount := 0;
      presented := [];
    }

    /** `self.capture.read()`. */
    method ReadFrame() returns (r: CaptureRead)
      modifies this`readCount
      ensures r == NthRead(capture, old(readCount))
      ensures readCount == old(readCount) + 1
    {
      r := NthRead(capture, readCount);
      readCount := readCount + 1;
    }

    /**
     * `process(frame)`: run the steps in order; the step named by `fault`
     * raises and no later step runs.  A frame counts as on screen once its
     * swap-and-poll step (`swap_buffers` then `poll_events`) has completed.
     */
    method Process(frame: Frame, fault: Option<DrawStep>) returns (steps: seq<DrawStep>, raised: Option<DrawStep>)
      modifies this`presented
      ensures steps == StepsRun(fault)
      ensures raised == fault
      ensures presented == if fault.None? then old(presented) + [frame] else old(presented)
    {
      steps := [LoadTexture];
      raised := fault;
      if fault == Some(LoadTexture) { return; }
      steps := steps + [ClearScreen];
      if fault == Some(ClearScreen) { return; }
      steps := steps + [UseProgram];
      if fault == Some(UseProgram) { return; }
      steps := steps + [SetUniforms];
      if fault == Some(SetUniforms) { return; }
      steps := steps + [DrawQuad];
      if fault == Some(DrawQuad) { return; }
      steps := steps + [SwapAndPoll];
      if fault == Some(SwapAndPoll) { return; }
      presented := presented + [frame];
    }

    /**
     * One pass of `run`'s loop body: read a frame; stop at a failed read;
     * otherwise process it, stopping when a step raises.
     */
    method ReadAndProcess(fault: Option<DrawStep>) returns (stop: Option<RunEnd>)
      modifies this`readCount, this`presented
      ensures readCount == old(readCount) + 1
      ensures var read := NthRead(capture, old(readCount));
        stop == (if read.ReadFailed? then Some(CaptureEnded)
                 else if fault.Some? then Some(Raised(fault.value))
                 else None)
      ensures presented == if stop.None? then old(presented) + [NthRead(capture, old(readCount)).frame]
                           else old(presented)
    {
      var read := ReadFrame();
      if read.ReadFailed? {
        return Some(CaptureEnded);
      }
      var steps, raised := Process(read.frame, fault);
      stop := if raised.Some? then Some(Raised(raised.value)) else None;
    }

    /**
     * `run`: give up at once, reading nothing, when the build left an error
     * that tests true; otherwise loop while the window stays open, ending at the first failed
     * read or when processing a frame raises.
     */
    method Run(shouldClose: nat -> bool, fault: nat -> Option<DrawStep>) returns (end: RunEnd)
      modifies this`readCount, this`presented
      ensures ErrorIsSet(error) ==> end == GaveUp && readCount == old(readCount) && presented == old(presented)
      ensures !ErrorIsSet(error) ==>
        var t := RunLoop(capture, old(readCount), shouldClose, fault, 0);
        end == t.end && readCount == t.cursor && presented == old(presented) + t.presented
    {
      if ErrorIsSet(error) {
        return GaveUp;
      }
      ghost var whole := RunLoop(capture, readCount, shouldClose, fault, 0);
      ghost var rest := whole;
      ghost var shown: seq<Frame> := [];
      var i := 0;
      while !shouldClose(i)
        invariant rest == RunLoop(capture, readCount, shouldClose, fault, i)
        invariant whole.end == rest.end && whole.cursor == rest.cursor
        invariant whole.presented == shown + rest.presented
        invariant presented == old(presented) + shown
        decreases if readCount < |capture| then |capture| - readCount else 0
      {
        ghost var before := readCount;
        var stop := ReadAndProcess(fault(i));
        if stop.Some? {
          return stop.value;
        }
        ghost var frame := NthRead(capture, before).frame;
        RunLoopContinues(capture, before, shouldClose, fault, i);
        ghost var next := RunLoop(capture, readCount, shouldClose, fault, i + 1);
        MoveFront(shown, frame, next.presented);
        rest := next;
        shown := shown + [frame];
        i := i + 1;
      }
      end := WindowClosed;
    }
  }
}
