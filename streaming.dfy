/** The objects of src/lib/streaming.ts: the abort controller, the stream's
    reader, the async generator over it, the abort-aware wrapper, the `Stream`
    itself and the byte stream `toReadableStream` produces. Each method is
    proved to make exactly the step that module StreamSpec defines. */
module Streaming {
  import opened JsValues
  import opened StreamSpec

  /** An AbortController; its signal is its `aborted` flag. One controller
      may be shared by several parties, each of which can abort it. */
  class AbortController {
    var aborted: bool

    constructor ()
      ensures !aborted
    {
      aborted := false;
    }

    /** `abort()`: one-way, and idempotent. */
    method Abort()
      modifies this
      ensures aborted
    {
      aborted := true;
    }
  }

  /** The reader `readableStream.getReader()` returns. */
  class Reader {
    const script: seq<ReadEvent>
    var pos: nat
    var released: bool
    var releaseCalls: nat

    function View(): ReaderState
      reads this
    {
      ReaderState(script, pos, released, releaseCalls)
    }

    constructor (script: seq<ReadEvent>)
      ensures View() == ReaderState(script, 0, false, 0)
    {
      this.script := script;
      pos, released, releaseCalls := 0, false, 0;
    }

    method Read() returns (event: ReadEvent)
      modifies this
      ensures ReadResult(event, View()) == ReadNext(old(View()))
    {
      if released {
        event := Fail(ReleasedReaderError);
        return;
      }
      event := if pos < |script| then script[pos] else End;
      if event.Chunk? {
        pos := pos + 1;
      }
    }

    method ReleaseLock()
      modifies this
      ensures View() == Released(old(View()))
    {
      released, releaseCalls := true, releaseCalls + 1;
    }
  }

  /** The iterator a call of the stream's producer returns: for a stream
      made by `fromReadableStream`, the async generator over the shared
      reader. `hooks` says whether it has `return` and `throw`. */
  class SourceIterator {
    const reader: Reader
    const builtins: Builtins
    const hooks: Hooks
    var gen: GenState

    function View(): Source
      reads this, reader
    {
      Source(gen, reader.View())
    }

    constructor (reader: Reader, builtins: Builtins, hooks: Hooks)
      ensures this.reader == reader && this.builtins == builtins && this.hooks == hooks
      ensures gen == SuspendedStart
    {
      this.reader, this.builtins, this.hooks := reader, builtins, hooks;
      gen := SuspendedStart;
    }

    method Next() returns (out: Outcome)
      modifies this, reader
      ensures Step(out, View()) == GenNext(builtins, old(View()))
    {
      if gen == Completed {
        out := Done(Undefined);
        return;
      }
      var event := reader.Read();
      match event
      case Chunk(v) =>
        gen := SuspendedYield;
        out := Yield(TryParseData(builtins, v));
      case End =>
        reader.ReleaseLock();
        gen := Completed;
        out := Done(Undefined);
      case Fail(e) =>
        reader.ReleaseLock();
        gen := Completed;
        out := Threw(e);
    }

    method Return(v: Value) returns (out: Outcome)
      modifies this, reader
      ensures Step(out, View()) == GenReturn(old(View()), v)
    {
      if gen == SuspendedYield {
        reader.ReleaseLock();
      }
      gen := Completed;
      out := Done(v);
    }

    method Throw(e: Value) returns (out: Outcome)
      modifies this, reader
      ensures Step(out, View()) == GenThrow(old(View()), e)
    {
      if gen == SuspendedYield {
        reader.ReleaseLock();
      }
      gen := Completed;
      out := Threw(e);
    }
  }

  /** The object `[Symbol.asyncIterator]()` returns: the source iterator
      guarded by the stream's abort signal. */
  class AbortableIterator {
    const source: SourceIterator
    const signal: AbortController

    constructor (source: SourceIterator, signal: AbortController)
      ensures this.source == source && this.signal == signal
    {
      this.source, this.signal := source, signal;
    }

    /** `next()`. `abortedDuringRead` stands for an abort by any party while
        the underlying `next()` is pending. */
    method Next(abortedDuringRead: bool) returns (out: Outcome)
      modifies signal, source, source.reader
      ensures Answer(out, Session(signal.aborted, source.View()))
              == WrappedNext(source.builtins, Session(old(signal.aborted), old(source.View())), abortedDuringRead)
    {
      if signal.aborted {
        return Done(Undefined);
      }
      out := source.Next();
      if abortedDuringRead {
        signal.Abort();
      }
      if out.Threw? && signal.aborted {
        out := Done(Undefined);
      }
    }

    method Return(v: Value) returns (out: Outcome)
      modifies source, source.reader
      ensures Answer(out, Session(signal.aborted, source.View()))
              == WrappedReturn(source.hooks, Session(signal.aborted, old(source.View())), v)
    {
      if source.hooks.hasReturn {
        out := source.Return(v);
      } else {
        out := Done(Undefined);
      }
    }

    method Throw(e: Value) returns (out: Outcome)
      modifies source, source.reader
      ensures Answer(out, Session(signal.aborted, source.View()))
              == WrappedThrow(source.hooks, Session(signal.aborted, old(source.View())), e)
    {
      if source.hooks.hasThrow {
        out := source.Throw(e);
      } else {
        out := Done(Undefined);
      }
    }
  }

  /** `Stream<Item>`. Its producer makes a new source iterator over `reader`
      each time it runs; `producerCalls` counts the runs. */
  class Stream {
    const reader: Reader
    const builtins: Builtins
    const hooks: Hooks
    const controller: AbortController
    var producerCalls: nat

    /** `new Stream(iterator, controller?)`: the supplied controller if there
        is one, otherwise a fresh, unaborted one. */
    constructor (reader: Reader, builtins: Builtins, hooks: Hooks, controller: AbortController?)
      ensures this.reader == reader && this.builtins == builtins && this.hooks == hooks
      ensures controller != null ==> this.controller == controller
      ensures controller == null ==> fresh(this.controller) && !this.controller.aborted
      ensures producerCalls == 0
    {
      this.reader, this.builtins, this.hooks := reader, builtins, hooks;
      if controller != null {
        this.controller := controller;
      } else {
        this.controller := new AbortController();
      }
      producerCalls := 0;
    }

    /** `Stream.fromReadableStream(readableStream, controller?)`: takes the
        stream's reader and wraps the decoding generator over it. */
    static method FromReadableStream(script: seq<ReadEvent>, builtins: Builtins, controller: AbortController?)
      returns (s: Stream)
      ensures fresh(s) && fresh(s.reader)
      ensures s.reader.View() == ReaderState(script, 0, false, 0)
      ensures s.builtins == builtins && s.hooks == Hooks(true, true)
      ensures controller != null ==> s.controller == controller
      ensures controller == null ==> fresh(s.controller) && !s.controller.aborted
      ensures s.producerCalls == 0
    {
      var c := controller;
      if c == null {
        c := new AbortController();
      }
      var reader := new Reader(script);
      s := new Stream(reader, builtins, Hooks(true, true), c);
    }

    /** `[Symbol.asyncIterator]()`: runs the producer again on every call,
        so every iterator is a new generator over the same reader. */
    method AsyncIterator() returns (it: AbortableIterator)
      modifies this
      ensures fresh(it) && fresh(it.source)
      ensures it.signal == controller
      ensures it.source.reader == reader && it.source.builtins == builtins && it.source.hooks == hooks
      ensures it.source.gen == SuspendedStart
      ensures producerCalls == old(producerCalls) + 1
    {
      var source := new SourceIterator(reader, builtins, hooks);
      producerCalls := producerCalls + 1;
      it := new AbortableIterator(source, controller);
    }

    /** `toReadableStream()`: its `start` takes an iterator of this stream. */
    method ToReadableStream() returns (bytes: ByteSource)
      modifies this
      ensures fresh(bytes) && fresh(bytes.iter) && fresh(bytes.iter.source)
      ensures bytes.owner == this && bytes.builtins == builtins
      ensures bytes.iter.signal == controller
      ensures bytes.iter.source.reader == reader && bytes.iter.source.builtins == builtins
      ensures bytes.iter.source.hooks == hooks && bytes.iter.source.gen == SuspendedStart
      ensures bytes.chunks == [] && bytes.status == Readable
      ensures producerCalls == old(producerCalls) + 1
    {
      var it := AsyncIterator();
      bytes := new ByteSource(this, it, builtins);
    }

    /** `abort()`. */
    method Abort()
      modifies controller
      ensures controller.aborted
    {
      controller.Abort();
    }
  }

  /** The ReadableStream that `toReadableStream` returns: what its `pull`
      has enqueued so far, and whether it was closed or errored. */
  class ByteSource {
    const owner: Stream
    const iter: AbortableIterator
    const builtins: Builtins
    var chunks: seq<Bytes>
    var status: SinkStatus

    constructor (owner: Stream, iter: AbortableIterator, builtins: Builtins)
      ensures this.owner == owner && this.iter == iter && this.builtins == builtins
      ensures chunks == [] && status == Readable
    {
      this.owner, this.iter, this.builtins := owner, iter, builtins;
      chunks, status := [], Readable;
    }

    /** `pull(controller)`: one item becomes one framed chunk; the end
        closes the stream; an error errors it instead of being thrown. */
    method Pull(abortedDuringRead: bool)
      modifies this, iter.signal, iter.source, iter.source.reader
      ensures !old(status).Readable? ==>
                unchanged(this) && unchanged(iter.signal) && unchanged(iter.source) && unchanged(iter.source.reader)
      ensures old(status).Readable? ==>
                var a := WrappedNext(iter.source.builtins, Session(old(iter.signal.aborted), old(iter.source.View())), abortedDuringRead);
                && Session(iter.signal.aborted, iter.source.View()) == a.after
                && Sink(chunks, status) == Deliver(builtins, Sink(old(chunks), old(status)), a.out)
    {
      if !status.Readable? {
        return;
      }
      var out := iter.Next(abortedDuringRead);
      match out
      case Done(_) => status := Closed;
      case Yield(v) => chunks := chunks + [Frame(builtins, v)];
      case Threw(e) => status := Errored(e);
    }

    /** `cancel()`: ends the iterator through its `return`, then aborts the
        owning stream's controller, so the cancellation reaches inward. */
    method Cancel()
      modifies iter.source, iter.source.reader, owner.controller
      ensures iter.source.View() == WrappedReturn(iter.source.hooks, Session(false, old(iter.source.View())), Undefined).after.src
      ensures owner.controller.aborted
    {
      var _ := iter.Return(Undefined);
      owner.Abort();
    }
  }

  /** A `for await (const item of iterator)` consumer: pulls until told done.
      With no abort on the way, it receives one item per chunk in read order,
      then the end or the read error, and the lock is released exactly once. */
  method Collect(it: AbortableIterator) returns (items: seq<Value>, last: Outcome)
    requires !it.signal.aborted
    requires it.source.gen != Completed && !it.source.reader.released
    requires it.source.reader.pos <= |it.source.reader.script|
    modifies it.signal, it.source, it.source.reader
    ensures var rest := old(Rest(it.source.reader.View()));
            items == Items(it.source.builtins, rest) && last == Ending(rest)
    ensures !it.signal.aborted && it.source.gen == Completed
    ensures it.source.reader.released && it.source.reader.releaseCalls == old(it.source.reader.releaseCalls) + 1
  {
    var reader := it.source.reader;
    var b := it.source.builtins;
    ghost var rest0 := Rest(reader.View());
    ghost var calls0 := reader.releaseCalls;
    ghost var before := Session(it.signal.aborted, it.source.View());
    NextAdvances(b, before);
    items := [];
    last := it.Next(false);
    while last.Yield?
      invariant !it.signal.aborted
      invariant reader.pos <= |reader.script|
      invariant it.source.gen == (if last.Yield? then SuspendedYield else Completed)
      invariant last.Yield? ==> !reader.released && reader.releaseCalls == calls0
      invariant !last.Yield? ==> reader.released && reader.releaseCalls == calls0 + 1
      invariant last.Yield? ==>
                  && items + [last.value] + Items(b, Rest(reader.View())) == Items(b, rest0)
                  && Ending(Rest(reader.View())) == Ending(rest0)
      invariant !last.Yield? ==> items == Items(b, rest0) && last == Ending(rest0)
      decreases |reader.script| - reader.pos, if last.Yield? then 1 else 0
    {
      items := items + [last.value];
      before := Session(it.signal.aborted, it.source.View());
      NextAdvances(b, before);
      last := it.Next(false);
    }
  }

  /** Aborting mid-stream: the first item arrives, then, after `abort()`,
      the next call is done although the second chunk was never read; and
      the reader's lock is still held, since nothing released it. */
  method AbortMidStream(b: Builtins, first: Value, second: Value)
    returns (o1: Outcome, o2: Outcome, chunksRead: nat, lockReleased: bool)
    ensures o1 == Yield(TryParseData(b, first))
    ensures o2 == Done(Undefined)
    ensures chunksRead == 1
    ensures !lockReleased
  {
    var s := Stream.FromReadableStream([Chunk(first), Chunk(second), End], b, null);
    var it := s.AsyncIterator();
    o1 := it.Next(false);
    s.Abort();
    o2 := it.Next(false);
    chunksRead := s.reader.pos;
    lockReleased := s.reader.released;
  }

  /** Aborting a controller supplied from outside stops the stream before
      it reads anything. */
  method ExternalAbortStopsStream(b: Builtins, script: seq<ReadEvent>) returns (o: Outcome, chunksRead: nat)
    ensures o == Done(Undefined) && chunksRead == 0
  {
    var c := new AbortController();
    var s := Stream.FromReadableStream(script, b, c);
    var it := s.AsyncIterator();
    c.Abort();
    o := it.Next(false);
    chunksRead := s.reader.pos;
  }
}
