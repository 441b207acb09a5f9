/** The character streams a run writes to, and the tee that Qub's logging
    action puts in front of them so that everything also reaches a log file. */
module Streams {
  /** An in-memory character stream: everything written so far. */
  class TextStream {
    var text: string

    constructor ()
      ensures text == ""
    {
      text := "";
    }
  }

  /** VerboseCharacterToByteWriteStream: passes writes on to `inner` only
      while `isVerbose` holds. */
  class VerboseStream {
    const inner: TextStream
    var isVerbose: bool

    constructor (inner: TextStream, isVerbose: bool)
      ensures this.inner == inner && this.isVerbose == isVerbose
    {
      this.inner := inner;
      this.isVerbose := isVerbose;
    }
  }

  /** The log file of one run and whether its stream has been disposed. */
  class LogFile {
    var text: string
    var disposed: bool

    constructor ()
      ensures text == "" && !disposed
    {
      text := "";
      disposed := false;
    }
  }

  /** One write of a run: to the output stream or to the verbose stream. */
  datatype Message = Output(text: string) | Verbose(text: string)

  /** What message m adds to a stream that takes output writes when
      `takeOutput` and verbose writes when `takeVerbose`. */
  function Piece(m: Message, takeOutput: bool, takeVerbose: bool): string
  {
    match m
    case Output(s) => if takeOutput then s else ""
    case Verbose(s) => if takeVerbose then s else ""
  }

  /** The text such a stream receives from a whole transcript, in order. */
  function Received(transcript: seq<Message>, takeOutput: bool, takeVerbose: bool): string
  {
    if transcript == [] then ""
    else
      Received(transcript[..|transcript| - 1], takeOutput, takeVerbose)
        + Piece(transcript[|transcript| - 1], takeOutput, takeVerbose)
  }

  lemma ReceivedSnoc(t: seq<Message>, m: Message, takeOutput: bool, takeVerbose: bool)
    ensures Received(t + [m], takeOutput, takeVerbose)
         == Received(t, takeOutput, takeVerbose) + Piece(m, takeOutput, takeVerbose)
  {
    assert (t + [m])[..|t|] == t;
  }

  /** A stream receives the writes of two consecutive stretches one after
      the other. */
  lemma {:induction false} ReceivedAppend(a: seq<Message>, b: seq<Message>, takeOutput: bool, takeVerbose: bool)
    ensures Received(a + b, takeOutput, takeVerbose)
         == Received(a, takeOutput, takeVerbose) + Received(b, takeOutput, takeVerbose)
    decreases |b|
  {
    if b == [] {
      assert a + b == a;
    } else {
      var init, last := b[..|b| - 1], b[|b| - 1];
      assert b == init + [last];
      assert a + b == (a + init) + [last];
      ReceivedSnoc(a + init, last, takeOutput, takeVerbose);
      ReceivedAppend(a, init, takeOutput, takeVerbose);
      ReceivedSnoc(init, last, takeOutput, takeVerbose);
    }
  }

  /** The streams of one run (Qub's LogStreams): every output write goes to
      `output` and the log, every verbose write to the log and, while
      verbose, to `verbose.inner`. `output` and `verbose.inner` may be one
      and the same stream. */
  class LogStreams {
    const output: TextStream
    const verbose: VerboseStream
    const log: LogFile
    /** Every write made through these streams, in order. */
    ghost var transcript: seq<Message>
    ghost const outputBefore: string
    ghost const innerBefore: string
    /** Which writes each console stream receives, fixed when the streams
        are set up: `output` also takes verbose writes when it is the
        verbose stream's own target and that stream is on; `verbose.inner`
        takes output writes when it is `output`, and verbose writes while
        the verbose stream is on. */
    ghost const outputTakesVerbose: bool
    ghost const innerTakesOutput: bool
    ghost const innerTakesVerbose: bool

    ghost predicate Valid()
      reads this, output, verbose, verbose.inner, log
    {
      && outputTakesVerbose == (output == verbose.inner && verbose.isVerbose)
      && innerTakesOutput == (verbose.inner == output)
      && innerTakesVerbose == verbose.isVerbose
      && log.text == Received(transcript, true, true)
      && output.text == outputBefore + Received(transcript, true, outputTakesVerbose)
      && verbose.inner.text == innerBefore + Received(transcript, innerTakesOutput, innerTakesVerbose)
    }

    /** CommandLineLogsAction.addLogStream: a fresh, empty log file. */
    constructor (output: TextStream, verbose: VerboseStream)
      ensures this.output == output && this.verbose == verbose
      ensures fresh(log) && !log.disposed
      ensures transcript == [] && outputBefore == output.text && innerBefore == verbose.inner.text
      ensures outputTakesVerbose == (output == verbose.inner && verbose.isVerbose)
      ensures innerTakesOutput == (verbose.inner == output)
      ensures innerTakesVerbose == verbose.isVerbose
      ensures Valid()
    {
      this.output := output;
      this.verbose := verbose;
      log := new LogFile();
      transcript := [];
      outputBefore := output.text;
      innerBefore := verbose.inner.text;
      outputTakesVerbose := output == verbose.inner && verbose.isVerbose;
      innerTakesOutput := verbose.inner == output;
      innerTakesVerbose := verbose.isVerbose;
    }

    method WriteOutput(s: string)
      requires Valid()
      modifies this, output, verbose.inner, log
      ensures Valid() && transcript == old(transcript) + [Output(s)]
      ensures log.disposed == old(log.disposed)
    {
      ReceivedSnoc(transcript, Output(s), true, true);
      ReceivedSnoc(transcript, Output(s), true, outputTakesVerbose);
      ReceivedSnoc(transcript, Output(s), innerTakesOutput, innerTakesVerbose);
      output.text := output.text + s;
      log.text := log.text + s;
      transcript := transcript + [Output(s)];
    }

    method WriteVerbose(s: string)
      requires Valid()
      modifies this, output, verbose.inner, log
      ensures Valid() && transcript == old(transcript) + [Verbose(s)]
      ensures log.disposed == old(log.disposed)
    {
      ReceivedSnoc(transcript, Verbose(s), true, true);
      ReceivedSnoc(transcript, Verbose(s), true, outputTakesVerbose);
      ReceivedSnoc(transcript, Verbose(s), innerTakesOutput, innerTakesVerbose);
      if verbose.isVerbose {
        verbose.inner.text := verbose.inner.text + s;
      }
      log.text := log.text + s;
      transcript := transcript + [Verbose(s)];
    }

    /** Closing the log stream at the end of the try-with-resources block. */
    method Dispose()
      modifies log
      ensures log.disposed && log.text == old(log.text)
    {
      log.disposed := true;
    }
  }
}
