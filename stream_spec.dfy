/** The cancellable stream adapter (class `Stream` of src/lib/streaming.ts) as
    a pure state machine: the byte reader, the async generator that
    `fromReadableStream` builds over it, the abort-aware wrapper that
    `[Symbol.asyncIterator]` returns, and the byte sink that
    `toReadableStream` feeds. The classes in module Streaming are proved
    against these functions; the lemmas here state what the source promises
    over whole runs. */
module StreamSpec {
  import opened JsValues

  /** What one `reader.read()` settles with: a chunk, `{done: true}`, or a rejection. */
  datatype ReadEvent = Chunk(value: Value) | End | Fail(error: Value)

  /** What a call on an async iterator settles with: `{done: false, value}`,
      `{done: true, value}`, or a rejection with `error`. */
  datatype Outcome = Yield(value: Value) | Done(value: Value) | Threw(error: Value)

  /** The TypeError that `read()` rejects with once the reader's lock is released. */
  const ReleasedReaderError: Value := Opaque("TypeError: reader released")

  // ---------------------------------------------------------------------------
  // The reader: a script of events delivered in order, a read position, and
  // the lock state. `releaseCalls` counts calls of `releaseLock()`.

  datatype ReaderState = ReaderState(script: seq<ReadEvent>, pos: nat, released: bool, releaseCalls: nat)

  predicate InScript(r: ReaderState)
  {
    r.pos <= |r.script|
  }

  /** The event the next read delivers: the script runs out into `{done: true}`. */
  function Pending(r: ReaderState): ReadEvent
  {
    if r.pos < |r.script| then r.script[r.pos] else End
  }

  /** The events not read yet. */
  function Rest(r: ReaderState): seq<ReadEvent>
    requires InScript(r)
  {
    r.script[r.pos..]
  }

  datatype ReadResult = ReadResult(event: ReadEvent, reader: ReaderState)

  /** `reader.read()`: a chunk advances the position; the end and an error
      are sticky; a released reader rejects with a TypeError. */
  function ReadNext(r: ReaderState): ReadResult
  {
    if r.released then ReadResult(Fail(ReleasedReaderError), r)
    else match Pending(r)
      case Chunk(v) => ReadResult(Chunk(v), r.(pos := r.pos + 1))
      case other => ReadResult(other, r)
  }

  /** `reader.releaseLock()`; on a released reader it changes nothing but the count. */
  function Released(r: ReaderState): ReaderState
  {
    r.(released := true, releaseCalls := r.releaseCalls + 1)
  }

  // ---------------------------------------------------------------------------
  // tryParseData: the per-chunk decoder. It is total, so it never throws.

  function TryParseData(b: Builtins, v: Value): (r: Value)
    ensures !Truthy(v) ==> r == v
    ensures !IsUint8Array(v) ==> r == v
    ensures IsUint8Array(v) ==>
              var text := b.decodeUtf8(v.bytes);
              b.parseJson(text) == Some(r) || (b.parseJson(text) == None && r == Str(text))
  {
    if !Truthy(v) then v
    else if IsUint8Array(v) then
      var text := b.decodeUtf8(v.bytes);
      match b.parseJson(text)
      case Some(parsed) => parsed
      case None => Str(text)
    else v
  }

  // ---------------------------------------------------------------------------
  // The async generator `iterator()`: `while (true) { read; if done break;
  // yield tryParseData(value) }` inside `try { } finally { releaseLock() }`.

  datatype GenState = SuspendedStart | SuspendedYield | Completed

  datatype Source = Source(gen: GenState, reader: ReaderState)

  datatype Step = Step(out: Outcome, src: Source)

  /** `next()` on the generator: one turn of its loop. */
  function GenNext(b: Builtins, s: Source): (st: Step)
    ensures st.src.reader.script == s.reader.script
    ensures s.gen == Completed ==> st == Step(Done(Undefined), s)
    // a live generator answers with what its read delivered: the decoded
    // chunk, done at the end, or a rejection with the read's error
    ensures s.gen != Completed ==>
              st.out == match ReadNext(s.reader).event
                        case Chunk(v) => Yield(TryParseData(b, v))
                        case End => Done(Undefined)
                        case Fail(e) => Threw(e)
    ensures st.out.Yield? ==>
              && s.gen != Completed && !s.reader.released
              && st.src.gen == SuspendedYield
              && st.src.reader == s.reader.(pos := s.reader.pos + 1)
    ensures s.gen != Completed && !st.out.Yield? ==>
              && st.src.gen == Completed
              && st.src.reader.released
              && st.src.reader.pos == s.reader.pos
              && st.src.reader.releaseCalls == s.reader.releaseCalls + 1
  {
    match s.gen
    case Completed => Step(Done(Undefined), s)
    case _ =>
      var rr := ReadNext(s.reader);
      match rr.event
      case Chunk(v) => Step(Yield(TryParseData(b, v)), Source(SuspendedYield, rr.reader))
      case End => Step(Done(Undefined), Source(Completed, Released(rr.reader)))
      case Fail(e) => Step(Threw(e), Source(Completed, Released(rr.reader)))
  }

  /** `return(v)` on the generator: the `finally` runs only if the body was
      entered, that is, when the generator is paused at its `yield`. */
  function GenReturn(s: Source, v: Value): (st: Step)
    ensures st.out == Done(v) && st.src.gen == Completed
    ensures st.src.reader.pos == s.reader.pos && st.src.reader.script == s.reader.script
    ensures s.gen == SuspendedYield <==> st.src.reader.releaseCalls == s.reader.releaseCalls + 1
    // only a generator paused at its `yield` runs `finally`; the reader is otherwise untouched
    ensures st.src.reader == (if s.gen == SuspendedYield then Released(s.reader) else s.reader)
    ensures s.gen == SuspendedYield ==> st.src.reader.released
  {
    match s.gen
    case SuspendedStart => Step(Done(v), Source(Completed, s.reader))
    case SuspendedYield => Step(Done(v), Source(Completed, Released(s.reader)))
    case Completed => Step(Done(v), s)
  }

  /** `throw(e)` on the generator: the error is raised at the `yield`, the
      `finally` releases the lock, and the call rejects with `e`. */
  function GenThrow(s: Source, e: Value): (st: Step)
    ensures st.out == Threw(e) && st.src.gen == Completed
    ensures st.src.reader.pos == s.reader.pos && st.src.reader.script == s.reader.script
    ensures s.gen == SuspendedYield <==> st.src.reader.releaseCalls == s.reader.releaseCalls + 1
    // only a generator paused at its `yield` runs `finally`; the reader is otherwise untouched
    ensures st.src.reader == (if s.gen == SuspendedYield then Released(s.reader) else s.reader)
    ensures s.gen == SuspendedYield ==> st.src.reader.released
  {
    match s.gen
    case SuspendedStart => Step(Threw(e), Source(Completed, s.reader))
    case SuspendedYield => Step(Threw(e), Source(Completed, Released(s.reader)))
    case Completed => Step(Threw(e), s)
  }

  // ---------------------------------------------------------------------------
  // The wrapper returned by `[Symbol.asyncIterator]()`. `aborted` is the
  // signal of the stream's controller, which other parties may share.

  /** Which optional hooks the underlying iterator has. */
  datatype Hooks = Hooks(hasReturn: bool, hasThrow: bool)

  datatype Session = Session(aborted: bool, src: Source)

  datatype Answer = Answer(out: Outcome, after: Session)

  /** The wrapped `next()`. `abortedDuringRead` says whether some party
      aborted the signal while the underlying `next()` was pending. */
  function WrappedNext(b: Builtins, s: Session, abortedDuringRead: bool): (a: Answer)
    ensures s.aborted ==> a == Answer(Done(Undefined), s)
    ensures !s.aborted ==>
              && a.after == Session(abortedDuringRead, GenNext(b, s.src).src)
              && (GenNext(b, s.src).out.Threw? && abortedDuringRead ==> a.out == Done(Undefined))
              && (!GenNext(b, s.src).out.Threw? || !abortedDuringRead ==> a.out == GenNext(b, s.src).out)
  {
    if s.aborted then Answer(Done(Undefined), s)
    else
      var st := GenNext(b, s.src);
      var out := if st.out.Threw? && abortedDuringRead then Done(Undefined) else st.out;
      Answer(out, Session(abortedDuringRead, st.src))
  }

  /** The wrapped `return(v)`: `iterator.return?.(v) ?? {done: true}`. */
  function WrappedReturn(hooks: Hooks, s: Session, v: Value): (a: Answer)
    ensures hooks.hasReturn ==> a == Answer(GenReturn(s.src, v).out, s.(src := GenReturn(s.src, v).src))
    ensures !hooks.hasReturn ==> a == Answer(Done(Undefined), s)
  {
    if hooks.hasReturn then
      var st := GenReturn(s.src, v);
      Answer(st.out, s.(src := st.src))
    else Answer(Done(Undefined), s)
  }

  /** The wrapped `throw(e)`: `iterator.throw?.(e) ?? {done: true}`. */
  function WrappedThrow(hooks: Hooks, s: Session, e: Value): (a: Answer)
    ensures hooks.hasThrow ==> a == Answer(Threw(e), s.(src := GenThrow(s.src, e).src))
    ensures !hooks.hasThrow ==> a == Answer(Done(Undefined), s)
  {
    if hooks.hasThrow then
      var st := GenThrow(s.src, e);
      Answer(st.out, s.(src := st.src))
    else Answer(Done(Undefined), s)
  }

  // ---------------------------------------------------------------------------
  // Runs: a consumer's calls on the wrapper, one after the other.

  datatype Call = CallNext(abortedDuringRead: bool) | CallReturn(value: Value) | CallThrow(error: Value)

  function Apply(b: Builtins, hooks: Hooks, s: Session, c: Call): Answer
  {
    match c
    case CallNext(raced) => WrappedNext(b, s, raced)
    case CallReturn(v) => WrappedReturn(hooks, s, v)
    case CallThrow(e) => WrappedThrow(hooks, s, e)
  }

  datatype Trace = Trace(outs: seq<Outcome>, last: Session)

  /** The outcomes of `calls`, one per call, and the state after them. */
  function Run(b: Builtins, hooks: Hooks, s: Session, calls: seq<Call>): (t: Trace)
    ensures |t.outs| == |calls|
    decreases |calls|
  {
    if calls == [] then Trace([], s)
    else
      var a := Apply(b, hooks, s, calls[0]);
      var t := Run(b, hooks, a.after, calls[1..]);
      Trace([a.out] + t.outs, t.last)
  }

  /** `n` calls of `next()` with no abort racing them. */
  function Nexts(n: nat): (calls: seq<Call>)
  {
    seq(n, _ => CallNext(false))
  }

  /** Once the signal is aborted it stays aborted, no call reads from the
      reader again, every `next()` resolves to `{done: true}`, and a run of
      `next()` calls alone changes nothing at all (the lock stays held). */
  lemma {:induction false} AbortedRunReadsNothing(b: Builtins, hooks: Hooks, s: Session, calls: seq<Call>)
    requires s.aborted
    ensures var t := Run(b, hooks, s, calls);
            && t.last.aborted
            && t.last.src.reader.pos == s.src.reader.pos
            && t.last.src.reader.script == s.src.reader.script
            && (forall i :: 0 <= i < |calls| && calls[i].CallNext? ==> t.outs[i] == Done(Undefined))
            && ((forall i :: 0 <= i < |calls| ==> calls[i].CallNext?) ==> t.last == s)
    decreases |calls|
  {
    if calls != [] {
      var a := Apply(b, hooks, s, calls[0]);
      AbortedRunReadsNothing(b, hooks, a.after, calls[1..]);
      var t := Run(b, hooks, s, calls);
      var t' := Run(b, hooks, a.after, calls[1..]);
      assert t.outs == [a.out] + t'.outs;
      forall i | 0 <= i < |calls| && calls[i].CallNext?
        ensures t.outs[i] == Done(Undefined)
      {
        if i > 0 {
          assert calls[1..][i - 1] == calls[i];
        }
      }
      if forall i :: 0 <= i < |calls| ==> calls[i].CallNext? {
        assert forall i :: 0 <= i < |calls[1..]| ==> calls[1..][i] == calls[i + 1];
      }
    }
  }

  /** The lock discipline of one generator over its own reader: while the
      generator is live the lock is held, and it is released at most once. */
  predicate Disciplined(src: Source)
  {
    && src.reader.releaseCalls <= 1
    && (src.reader.released <==> src.reader.releaseCalls == 1)
    && (src.gen != Completed ==> src.reader.releaseCalls == 0)
  }

  /** Every sequence of calls, aborted or not, keeps the lock discipline. */
  lemma {:induction false} RunKeepsDiscipline(b: Builtins, hooks: Hooks, s: Session, calls: seq<Call>)
    requires Disciplined(s.src)
    ensures Disciplined(Run(b, hooks, s, calls).last.src)
    decreases |calls|
  {
    if calls != [] {
      var a := Apply(b, hooks, s, calls[0]);
      assert Disciplined(a.after.src);
      RunKeepsDiscipline(b, hooks, a.after, calls[1..]);
    }
  }

  // ---------------------------------------------------------------------------
  // What a run to the end delivers.

  /** The number of chunks read before the first end or error. */
  function ChunkCount(es: seq<ReadEvent>): nat
  {
    if es == [] || !es[0].Chunk? then 0 else 1 + ChunkCount(es[1..])
  }

  /** The items the generator yields for `es`: one decoded item per chunk,
      in order, up to the first end or error. */
  function Items(b: Builtins, es: seq<ReadEvent>): seq<Value>
  {
    if es == [] || !es[0].Chunk? then [] else [TryParseData(b, es[0].value)] + Items(b, es[1..])
  }

  /** How the run ends after the items: done, or the first read error. */
  function Ending(es: seq<ReadEvent>): Outcome
  {
    if es == [] then Done(Undefined)
    else match es[0]
      case Chunk(_) => Ending(es[1..])
      case End => Done(Undefined)
      case Fail(e) => Threw(e)
  }

  function Yields(items: seq<Value>): (outs: seq<Outcome>)
  {
    if items == [] then [] else [Yield(items[0])] + Yields(items[1..])
  }

  /** Reading one event off the rest of the script. */
  lemma RestStep(b: Builtins, r: ReaderState)
    requires InScript(r)
    ensures Pending(r).Chunk? ==>
              && r.pos < |r.script|
              && Items(b, Rest(r)) == [TryParseData(b, Pending(r).value)] + Items(b, Rest(r.(pos := r.pos + 1)))
              && Ending(Rest(r)) == Ending(Rest(r.(pos := r.pos + 1)))
              && ChunkCount(Rest(r)) == 1 + ChunkCount(Rest(r.(pos := r.pos + 1)))
    ensures !Pending(r).Chunk? ==>
              && Items(b, Rest(r)) == []
              && ChunkCount(Rest(r)) == 0
              && Ending(Rest(r)) == (if Pending(r).Fail? then Threw(Pending(r).error) else Done(Undefined))
  {
    if r.pos < |r.script| {
      assert Rest(r)[0] == r.script[r.pos];
      assert Rest(r)[1..] == r.script[r.pos + 1..];
    }
  }

  /** One `next()` with no abort, on a live generator whose lock is held:
      either the next item and a paused generator, or the end of the items,
      the way the run ends, and the lock released once. */
  lemma NextAdvances(b: Builtins, s: Session)
    requires !s.aborted && s.src.gen != Completed && !s.src.reader.released && InScript(s.src.reader)
    ensures var a := WrappedNext(b, s, false);
            var r, r' := s.src.reader, a.after.src.reader;
            && !a.after.aborted && InScript(r') && r'.script == r.script
            && (a.out.Yield? ==>
                  && a.after.src.gen == SuspendedYield
                  && !r'.released && r'.releaseCalls == r.releaseCalls && r'.pos == r.pos + 1
                  && Items(b, Rest(r)) == [a.out.value] + Items(b, Rest(r'))
                  && Ending(Rest(r)) == Ending(Rest(r')))
            && (!a.out.Yield? ==>
                  && a.after.src.gen == Completed
                  && r'.released && r'.releaseCalls == r.releaseCalls + 1
                  && Items(b, Rest(r)) == [] && a.out == Ending(Rest(r)))
  {
    RestStep(b, s.src.reader);
  }

  /** A consumer that calls `next()` until it is told done (and nobody
      aborts) sees one item per chunk, in read order, then the end or the
      read error; the reader's lock has been released exactly once. */
  lemma {:induction false} DrainYieldsChunksInOrder(b: Builtins, hooks: Hooks, s: Session)
    requires !s.aborted && s.src.gen != Completed && !s.src.reader.released && InScript(s.src.reader)
    ensures var rest := Rest(s.src.reader);
            var t := Run(b, hooks, s, Nexts(ChunkCount(rest) + 1));
            && t.outs == Yields(Items(b, rest)) + [Ending(rest)]
            && !t.last.aborted
            && t.last.src.gen == Completed
            && t.last.src.reader.released
            && t.last.src.reader.releaseCalls == s.src.reader.releaseCalls + 1
    decreases ChunkCount(Rest(s.src.reader))
  {
    var r := s.src.reader;
    RestStep(b, r);
    var n := ChunkCount(Rest(r));
    var calls := Nexts(n + 1);
    var a := WrappedNext(b, s, false);
    assert calls[0] == CallNext(false);
    assert calls[1..] == Nexts(n);
    if Pending(r).Chunk? {
      DrainYieldsChunksInOrder(b, hooks, a.after);
    } else {
      assert calls[1..] == [];
    }
  }

  // ---------------------------------------------------------------------------
  // toReadableStream: each `pull` asks the wrapper for one item and closes,
  // enqueues one framed chunk, or errors the stream.

  datatype SinkStatus = Readable | Closed | Errored(error: Value)

  /** The chunks enqueued so far and the state of the produced stream. */
  datatype Sink = Sink(chunks: seq<Bytes>, status: SinkStatus)

  /** `encoder.encode(JSON.stringify(value) + "\n")`. */
  function Frame(b: Builtins, v: Value): Bytes
  {
    b.encodeUtf8(JsonText(b, v) + "\n")
  }

  /** What one `pull` does with the wrapper's outcome. Errors go to the
      stream's error channel and are never thrown. The host never pulls a
      closed or errored stream, so those are left as they are. */
  function Deliver(b: Builtins, k: Sink, out: Outcome): (k': Sink)
    ensures !k.status.Readable? ==> k' == k
    ensures k.status.Readable? && out.Yield? ==> k' == Sink(k.chunks + [Frame(b, out.value)], Readable)
    ensures k.status.Readable? && out.Done? ==> k' == Sink(k.chunks, Closed)
    ensures k.status.Readable? && out.Threw? ==> k' == Sink(k.chunks, Errored(out.error))
  {
    if !k.status.Readable? then k
    else match out
      case Yield(v) => Sink(k.chunks + [Frame(b, v)], Readable)
      case Done(_) => Sink(k.chunks, Closed)
      case Threw(e) => Sink(k.chunks, Errored(e))
  }

  function Replay(b: Builtins, k: Sink, outs: seq<Outcome>): Sink
    decreases |outs|
  {
    if outs == [] then k else Replay(b, Deliver(b, k, outs[0]), outs[1..])
  }

  function Frames(b: Builtins, items: seq<Value>): seq<Bytes>
  {
    if items == [] then [] else [Frame(b, items[0])] + Frames(b, items[1..])
  }

  /** Pulling items and then the end enqueues one frame per item, in order,
      and closes the produced stream. */
  lemma {:induction false} PullsFrameEachItem(b: Builtins, prior: seq<Bytes>, items: seq<Value>)
    ensures Replay(b, Sink(prior, Readable), Yields(items) + [Done(Undefined)]) == Sink(prior + Frames(b, items), Closed)
    decreases |items|
  {
    if items == [] {
      assert Yields(items) + [Done(Undefined)] == [Done(Undefined)];
    } else {
      var outs := Yields(items) + [Done(Undefined)];
      assert outs[0] == Yield(items[0]);
      assert outs[1..] == Yields(items[1..]) + [Done(Undefined)];
      PullsFrameEachItem(b, prior + [Frame(b, items[0])], items[1..]);
      assert prior + [Frame(b, items[0])] + Frames(b, items[1..]) == prior + Frames(b, items);
    }
  }

  /** Exporting a stream whose source ends cleanly: the sink receives one
      frame per item the source's remaining chunks decode to, in order, and
      is then closed. */
  lemma ExportedStreamFramesEachChunk(b: Builtins, hooks: Hooks, s: Session)
    requires !s.aborted && s.src.gen != Completed && !s.src.reader.released && InScript(s.src.reader)
    requires Ending(Rest(s.src.reader)) == Done(Undefined)
    ensures var rest := Rest(s.src.reader);
            Replay(b, Sink([], Readable), Run(b, hooks, s, Nexts(ChunkCount(rest) + 1)).outs)
              == Sink(Frames(b, Items(b, rest)), Closed)
  {
    var rest := Rest(s.src.reader);
    DrainYieldsChunksInOrder(b, hooks, s);
    PullsFrameEachItem(b, [], Items(b, rest));
    assert [] + Frames(b, Items(b, rest)) == Frames(b, Items(b, rest));
  }

  /** The host codecs give back the framed line of `v`. A JSON text never
      starts with a byte order mark, which the default decoder would strip. */
  predicate FrameDecodes(b: Builtins, v: Value)
  {
    b.decodeUtf8(b.encodeUtf8(JsonText(b, v) + "\n")) == JsonText(b, v) + "\n"
  }

  /** `v` survives JSON.stringify followed by JSON.parse of the framed line. */
  predicate JsonRoundTrips(b: Builtins, v: Value)
  {
    b.stringifyJson(v).Some? && b.parseJson(b.stringifyJson(v).value + "\n") == Some(v)
  }

  /** The reader script of a stream whose bytes are `Frames(items)`, one chunk each. */
  function FramedScript(b: Builtins, items: seq<Value>): seq<ReadEvent>
  {
    if items == [] then [End] else [Chunk(Uint8(Frame(b, items[0])))] + FramedScript(b, items[1..])
  }

  /** Re-reading what `toReadableStream` produced with `fromReadableStream`
      gives back the items, whenever the codecs round-trip each of them. */
  lemma {:induction false} ReexportRoundTrip(b: Builtins, items: seq<Value>)
    requires forall i :: 0 <= i < |items| ==> FrameDecodes(b, items[i]) && JsonRoundTrips(b, items[i])
    ensures Items(b, FramedScript(b, items)) == items
    ensures Ending(FramedScript(b, items)) == Done(Undefined)
    decreases |items|
  {
    if items != [] {
      var v := items[0];
      assert FrameDecodes(b, v) && JsonRoundTrips(b, v);
      assert TryParseData(b, Uint8(Frame(b, v))) == v;
      assert FramedScript(b, items)[1..] == FramedScript(b, items[1..]);
      ReexportRoundTrip(b, items[1..]);
    }
  }

  // ---------------------------------------------------------------------------
  // Behaviour where the code differs from a natural reading of its design.

  /** A second iteration of the same stream runs the producer again over the
      same reader; once the first run released the lock, its first `next()`
      rejects with a TypeError (and calls `releaseLock()` a second time). */
  lemma SecondIterationRejects(b: Builtins, r: ReaderState)
    requires r.released
    ensures WrappedNext(b, Session(false, Source(SuspendedStart, r)), false)
            == Answer(Threw(ReleasedReaderError), Session(false, Source(Completed, Released(r))))
  {
  }

  /** An empty byte chunk is an object, hence truthy: it is decoded, and
      since JSON.parse("") throws, the item is the empty string. */
  lemma EmptyChunkBecomesEmptyText(b: Builtins)
    requires b.decodeUtf8([]) == "" && b.parseJson("") == None
    ensures TryParseData(b, Uint8([])) == Str("")
  {
  }
}
