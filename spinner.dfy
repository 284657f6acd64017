/**
 * shex/spinner.py: the "thinking" animation, as a sequential object whose
 * operations are atomic steps. `write`, `stop`'s flag update and each spin
 * iteration hold the spinner's lock; `start` takes no lock but is only called
 * from the main thread, and `stop` joins the spin thread after the lock.
 * Time is an integer number of milliseconds supplied by the caller; what
 * reaches the terminal is recorded in two append-only logs.
 */
module Animation {

  /** The ten braille frames, drawn in turn. */
  const Glyphs: seq<char> := ['⠋', '⠙', '⠹', '⠸', '⠼', '⠴', '⠦', '⠧', '⠇', '⠏']

  /** A frame is drawn only when nothing else was written for more than this long. */
  const DebounceMs := 100

  /** `\r\033[K`: back to column 0 and erase the line. */
  const ClearLine := "\r\U{1B}[K"
  const ResetColor := "\U{1B}[0m"

  /** The glyph for the `i`-th iteration of the spin loop: `i % len(self.spinner)`. */
  function FrameIndex(i: nat): (k: nat)
    ensures k < |Glyphs|
    ensures i < |Glyphs| ==> k == i
  {
    i % |Glyphs|
  }

  /** What one spin iteration draws: `\r<glyph> <message>\033[K`. */
  function FrameText(i: nat, message: string): string {
    "\r" + [Glyphs[FrameIndex(i)]] + " " + message + "\U{1B}[K"
  }

  /** `time.time() - self.last_print_time > 0.1`, in milliseconds. */
  predicate DebounceElapsed(now: int, lastPrintTime: int) {
    now - lastPrintTime > DebounceMs
  }

  /**
   * The frames the spin loop draws when its iterations run at the clock
   * readings `times`, with nothing else written since `lastPrintTime`:
   * iteration `k` draws frame `k` exactly when the debounce window has passed.
   */
  function Frames(times: seq<int>, message: string, lastPrintTime: int): (r: seq<string>)
    ensures |r| <= |times|
    ensures (forall k :: 0 <= k < |times| ==> !DebounceElapsed(times[k], lastPrintTime)) <==> r == []
  {
    if times == [] then []
    else
      var n := |times| - 1;
      var r := Frames(times[..n], message, lastPrintTime);
      assert forall k :: 0 <= k < n ==> times[..n][k] == times[k];
      r + (if DebounceElapsed(times[n], lastPrintTime) then [FrameText(n, message)] else [])
  }

  /** The target of `write`: `sys.stdout` unless a stream is given. */
  datatype Stream = Stdout | Stderr

  class Spinner {
    var message: string
    var running: bool
    var visible: bool
    var lastPrintTime: int
    /** `self.thread is not None`. */
    var hasThread: bool
    const delayMs: nat
    /** What has been written to `sys.stdout` and to `sys.stderr`, in order. */
    var stdout: seq<string>
    var stderr: seq<string>
    /** How many background threads `start` has launched so far. */
    ghost var spawned: nat

    /**
     * The flags agree: the line is shown only while running, and a thread
     * handle is held exactly while running.
     */
    predicate Valid()
      reads this
    {
      (visible ==> running) && (hasThread <==> running)
    }

    /** `Spinner(message, delay)`: stopped, nothing shown, last print at time 0. */
    constructor (message: string, delayMs: nat)
      ensures Valid()
      ensures this.message == message && this.delayMs == delayMs
      ensures !running && !visible && !hasThread && lastPrintTime == 0
      ensures stdout == [] && stderr == [] && spawned == 0
    {
      this.message := message;
      this.delayMs := delayMs;
      running, visible, hasThread := false, false, false;
      lastPrintTime := 0;
      stdout, stderr := [], [];
      spawned := 0;
    }

    /**
     * `start(message)`: an empty `message` stands for `None`. While running,
     * only the message may change; otherwise a thread is launched.
     */
    method Start(msg: string)
      requires Valid()
      modifies this
      ensures Valid()
      ensures message == if msg != "" then msg else old(message)
      ensures old(running) ==>
                running && visible == old(visible) && hasThread && spawned == old(spawned)
      ensures !old(running) ==>
                running && !visible && hasThread && spawned == old(spawned) + 1
      ensures lastPrintTime == old(lastPrintTime)
      ensures stdout == old(stdout) && stderr == old(stderr)
    {
      if running {
        if msg != "" {
          message := msg;
        }
        return;
      }
      if msg != "" {
        message := msg;
      }
      running := true;
      hasThread := true;
      spawned := spawned + 1;
    }

    /** `stop()`: clear the line, mark stopped and hidden, join and drop the thread. */
    method Stop()
      requires Valid()
      modifies this
      ensures Valid()
      ensures !running && !visible && !hasThread
      ensures stdout == old(stdout) + [ClearLine]
      ensures message == old(message) && lastPrintTime == old(lastPrintTime)
      ensures stderr == old(stderr) && spawned == old(spawned)
    {
      running := false;
      visible := false;
      stdout := stdout + [ClearLine];
      if hasThread {
        hasThread := false;
      }
    }

    /**
     * `write(content, stream, color)` at time `now`; an empty `color` stands
     * for `None`. A stopped spinner writes nothing and changes nothing;
     * otherwise a shown frame is erased first and the content written,
     * wrapped in the color code and a reset when a color is given.
     */
    method Write(content: string, stream: Stream, color: string, now: int)
      requires Valid()
      modifies this
      ensures Valid()
      ensures !old(running) ==>
                stdout == old(stdout) && stderr == old(stderr) && visible == old(visible)
                && lastPrintTime == old(lastPrintTime)
      ensures old(running) ==>
                var erase := if old(visible) then [ClearLine] else [];
                var body := (if color != "" then [color] else []) + [content]
                            + (if color != "" then [ResetColor] else []);
                && !visible && lastPrintTime == now
                && (stream == Stdout ==> stdout == old(stdout) + erase + body && stderr == old(stderr))
                && (stream == Stderr ==> stdout == old(stdout) + erase && stderr == old(stderr) + body)
      ensures running == old(running) && hasThread == old(hasThread)
      ensures message == old(message) && spawned == old(spawned)
    {
      if !running {
        return;
      }
      if visible {
        stdout := stdout + [ClearLine];
        visible := false;
      }
      if color != "" {
        Emit(stream, color);
      }
      Emit(stream, content);
      if color != "" {
        Emit(stream, ResetColor);
      }
      lastPrintTime := now;
    }

    /** `stream.write(text)`. */
    method Emit(stream: Stream, text: string)
      modifies this`stdout, this`stderr
      ensures stream == Stdout ==> stdout == old(stdout) + [text] && stderr == old(stderr)
      ensures stream == Stderr ==> stderr == old(stderr) + [text] && stdout == old(stdout)
    {
      if stream == Stdout {
        stdout := stdout + [text];
      } else {
        stderr := stderr + [text];
      }
    }

    /**
     * `_spin`: iteration `k` of the loop runs at time `times[k]`. Nothing else
     * touches the spinner meanwhile, so a running spinner runs every
     * iteration and a stopped one none; `steps` is the number run.
     */
    method Spin(times: seq<int>) returns (steps: nat)
      requires Valid()
      modifies this`stdout, this`visible
      ensures Valid()
      ensures !running ==> steps == 0 && stdout == old(stdout) && visible == old(visible)
      ensures running ==>
                steps == |times|
                && stdout == old(stdout) + Frames(times, message, lastPrintTime)
                && visible == (old(visible) || Frames(times, message, lastPrintTime) != [])
    {
      var i := 0;
      while i < |times|
        invariant 0 <= i <= |times|
        invariant Valid()
        invariant !running ==> i == 0 && stdout == old(stdout) && visible == old(visible)
        invariant running ==>
                    stdout == old(stdout) + Frames(times[..i], message, lastPrintTime)
                    && visible == (old(visible) || Frames(times[..i], message, lastPrintTime) != [])
      {
        var more := SpinStep(i, times[i]);
        if !more {
          break;
        }
        assert times[..i + 1][..i] == times[..i];
        i := i + 1;
      }
      if running {
        assert times[..i] == times;
      }
      steps := i;
    }

    /**
     * One iteration of `_spin`, the `i`-th, at time `now`: if the spinner is
     * running and nothing was written within the debounce window, draw frame
     * `i` and mark the line shown; otherwise change nothing. `more` is the
     * loop guard `self.running`.
     */
    method SpinStep(i: nat, now: int) returns (more: bool)
      requires Valid()
      modifies this`stdout, this`visible
      ensures Valid()
      ensures more == running
      ensures running && DebounceElapsed(now, lastPrintTime) ==>
                visible && stdout == old(stdout) + [FrameText(i, message)]
      ensures !(running && DebounceElapsed(now, lastPrintTime)) ==>
                visible == old(visible) && stdout == old(stdout)
    {
      if !running {
        return false;
      }
      if now - lastPrintTime > DebounceMs {
        stdout := stdout + [FrameText(i, message)];
        visible := true;
      }
      return true;
    }
  }
}
