/** Stream objects, pipes and the selective-close helpers of pypsi/utils.py. */
module Streams {
  import opened Errors

  /** An abstract stream object: object identity, an OS file descriptor and an
      open flag that `close()` clears. Closing an already closed stream is a no-op. */
  class Stream {
    const fileno: int
    var isOpen: bool

    constructor (fileno: int)
      ensures this.fileno == fileno && isOpen
    {
      this.fileno := fileno;
      isOpen := true;
    }

    method Close()
      modifies this
      ensures !isOpen
    {
      isOpen := false;
    }
  }

  /** A pipe: an input (read) end and an output (write) end, closable independently. */
  datatype Pipe = Pipe(input: Stream, output: Stream) {

    /** `Pipe.close`: closes both ends. */
    method Close()
      modifies input, output
      ensures !input.isOpen && !output.isOpen
    {
      input.Close();
      output.Close();
    }
  }

  /** What a stream slot or a worker can hold: a Pipe, any other (truthy) stream
      object, or Python's `None`. */
  datatype IoObject = PipeObj(pipe: Pipe) | Plain(stream: Stream) | Nothing {
    predicate Truthy() { !Nothing? }
  }

  /** `Pipe(input, output)`. With both ends supplied the pipe wraps them; otherwise
      the constructor's `os.pipe()` branch runs, and `os` is never imported. */
  function NewPipe(input: Option<Stream>, output: Option<Stream>): (r: Result<Pipe>)
    ensures r.Ok? <==> input.Some? && output.Some?
    ensures r.Ok? ==> r.value.input == input.value && r.value.output == output.value
    ensures r.Err? ==> r.error == NameError
  {
    if input.Some? && output.Some? then Ok(Pipe(input.value, output.value)) else Err(NameError)
  }

  /** Which end of a pipe a selective-close helper closes. */
  datatype Side = InputSide | OutputSide

  /** The streams `close_input_pipe` (InputSide) or `close_output_pipe`
      (OutputSide) closes when handed `x`. */
  function ClosedBy(x: IoObject, side: Side): set<Stream>
  {
    match x
    case PipeObj(p) => if side == InputSide then {p.input} else {p.output}
    case Plain(s) => {s}
    case Nothing => {}
  }

  /** `close_input_pipe`: only the input end of a pipe, the whole of any other
      truthy object, nothing for `None`. The frame says nothing else changes. */
  method CloseInputPipe(x: IoObject)
    modifies ClosedBy(x, InputSide)
    ensures x.PipeObj? ==> !x.pipe.input.isOpen
    ensures x.PipeObj? && x.pipe.output != x.pipe.input ==> x.pipe.output.isOpen == old(x.pipe.output.isOpen)
    ensures x.Plain? ==> !x.stream.isOpen
  {
    match x
    case PipeObj(p) => p.input.Close();
    case Plain(s) => s.Close();
    case Nothing =>
  }

  /** `close_output_pipe`: the mirror image of `CloseInputPipe`. */
  method CloseOutputPipe(x: IoObject)
    modifies ClosedBy(x, OutputSide)
    ensures x.PipeObj? ==> !x.pipe.output.isOpen
    ensures x.PipeObj? && x.pipe.input != x.pipe.output ==> x.pipe.input.isOpen == old(x.pipe.input.isOpen)
    ensures x.Plain? ==> !x.stream.isOpen
  {
    match x
    case PipeObj(p) => p.output.Close();
    case Plain(s) => s.Close();
    case Nothing =>
  }

  /** Closing with either helper touches at most one stream, and touches none
      exactly when the object is `None`. */
  lemma ClosedByShape(x: IoObject, side: Side)
    ensures |ClosedBy(x, side)| == (if x.Truthy() then 1 else 0)
    ensures x.PipeObj? ==> ClosedBy(x, side) <= {x.pipe.input, x.pipe.output}
    ensures x.PipeObj? && x.pipe.input != x.pipe.output ==> ClosedBy(x, InputSide) !! ClosedBy(x, OutputSide)
  {
  }

  /** Reading `fileno` from an object: a plain stream has one; a Pipe defines no
      `fileno`, and neither does `None`, so reading it raises AttributeError. */
  function Fileno(x: IoObject): (r: Result<int>)
    ensures r.Ok? <==> x.Plain?
    ensures r.Ok? ==> r.value == x.stream.fileno
    ensures r.Err? ==> r.error == AttributeError
  {
    match x
    case Plain(s) => Ok(s.fileno)
    case _ => Err(AttributeError)
  }
}
