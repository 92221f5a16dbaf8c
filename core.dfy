/**
 * The streaming encoder and the durable sink.
 *
 * Everything outside the core is one object, `World`: the stream of fallible batches
 * (`items`, of which `pos` have been pulled) and the file, its buffered writer and the
 * Parquet writer, whose calls are logged in `trace` in the order they are made. Which call
 * fails is decided by `fault`, from the call and everything logged before it; a pull never
 * fails by itself, since a failing source shows up as an error item.
 *
 * Each method is specified by a pure function that gives the run it performs: the events it
 * logs and its result. The lemmas below state what those runs guarantee.
 */
module Core {
  import opened Common
  import ParquetLib

  /** The ordered (name, type) signature of a batch; only its identity matters here. */
  datatype Schema = Schema(fields: seq<string>)

  /** A `RecordBatch`: its schema and its row count. */
  datatype Batch = Batch(schema: Schema, rows: nat)

  /** One call the core makes into the world. */
  datatype Event =
    | Pull                                                                     // the next stream element
    | Create(path: string)                                                     // creating the output file
    | Init(schema: Schema, options: Option<ParquetLib.ArrowWriterOptions>)     // building the Parquet writer
    | Write(batch: Batch)                                                      // writing one batch
    | Finish                                                                   // finishing the Parquet writer
    | BufFlush                                                                 // flushing the buffered writer
    | FileFlush                                                                // flushing the file
    | SyncData                                                                 // syncing the file's data

  /** Which call fails: `fault(h, e)` is the error call `e` meets after history `h`, if any. */
  type Fault = (seq<Event>, Event) -> Option<IoError>

  /** The answer to call `e` after history `h`. */
  function Outcome(fault: Fault, h: seq<Event>, e: Event): (r: Result<()>)
    ensures e.Pull? ==> r.Ok?
  {
    if e.Pull? then Ok(())
    else match fault(h, e)
      case None => Ok(())
      case Some(err) => Err(err)
  }

  /** Every call of `ev`, each made after `h` and the calls before it, succeeded. */
  predicate Clean(fault: Fault, h: seq<Event>, ev: seq<Event>)
    decreases |ev|
  {
    ev == [] || (Outcome(fault, h, ev[0]).Ok? && Clean(fault, h + [ev[0]], ev[1..]))
  }

  /** A run of the core: the calls made before the last one, the last call, and the result. */
  datatype Run = Run(steps: seq<Event>, last: Event, result: Result<()>)

  function Events(r: Run): seq<Event>
  {
    r.steps + [r.last]
  }

  function Then(ev: seq<Event>, r: Run): Run
  {
    Run(ev + r.steps, r.last, r.result)
  }

  /** A run stops at its first failure: all calls but the last succeeded, and the last one's answer is the result. */
  predicate FailFast(fault: Fault, h: seq<Event>, r: Run)
  {
    Clean(fault, h, r.steps) && (!r.last.Pull? ==> r.result == Outcome(fault, h + r.steps, r.last))
  }

  /** The batches the stream yields before its first error. */
  function Batches(items: seq<Result<Batch>>): seq<Batch>
  {
    if items == [] || items[0].Err? then [] else [items[0].value] + Batches(items[1..])
  }

  /** The stream's first error, if it has one. */
  function SourceError(items: seq<Result<Batch>>): Option<IoError>
  {
    if items == [] then None
    else if items[0].Err? then Some(items[0].error)
    else SourceError(items[1..])
  }

  /** The batches handed to the Parquet writer, in order. */
  function Writes(ev: seq<Event>): seq<Batch>
  {
    if ev == [] then [] else (if ev[0].Write? then [ev[0].batch] else []) + Writes(ev[1..])
  }

  /** A call into the Parquet writer: the only calls that produce file content. */
  predicate WriterCall(e: Event)
  {
    e.Init? || e.Write? || e.Finish?
  }

  // ---------------------------------------------------------------------------
  // Specifications of the four operations

  /** `write_batch_all`, on the items not yet pulled. */
  function WriteAllRun(rest: seq<Result<Batch>>, fault: Fault, h: seq<Event>): Run
    decreases |rest|
  {
    if rest == [] then
      Run([Pull], Finish, Outcome(fault, h + [Pull], Finish))
    else match rest[0]
      case Err(e) => Run([], Pull, Err(e))
      case Ok(b) =>
        var w := Outcome(fault, h + [Pull], Write(b));
        if w.Err? then Run([Pull], Write(b), w)
        else Then([Pull, Write(b)], WriteAllRun(rest[1..], fault, h + [Pull, Write(b)]))
  }

  /** `_batch2parquet`: initialise from the first batch's schema, write it, then write the rest. */
  function InnerRun(b1st: Batch, rest: seq<Result<Batch>>, opts: Option<ParquetLib.ArrowWriterOptions>,
                    fault: Fault, h: seq<Event>): Run
  {
    var init := Init(b1st.schema, opts);
    var i := Outcome(fault, h, init);
    if i.Err? then Run([], init, i)
    else
      var w := Outcome(fault, h + [init], Write(b1st));
      if w.Err? then Run([init], Write(b1st), w)
      else Then([init, Write(b1st)], WriteAllRun(rest, fault, h + [init, Write(b1st)]))
  }

  /** `batch2parquet`: pull the first element and dispatch on it. */
  function EncodeRun(items: seq<Result<Batch>>, opts: Option<ParquetLib.ArrowWriterOptions>,
                     fault: Fault, h: seq<Event>): Run
  {
    if items == [] then Run([], Pull, Ok(()))
    else match items[0]
      case Err(e) => Run([], Pull, Err(e))
      case Ok(b) => Then([Pull], InnerRun(b, items[1..], opts, fault, h + [Pull]))
  }

  /** The end of `batch2parquet_file`: flush the buffered writer, flush the file, sync only when asked. */
  function FlushRun(fsync: bool, fault: Fault, h: seq<Event>): Run
  {
    var bf := Outcome(fault, h, BufFlush);
    if bf.Err? then Run([], BufFlush, bf)
    else
      var ff := Outcome(fault, h + [BufFlush], FileFlush);
      if ff.Err? || !fsync then Run([BufFlush], FileFlush, ff)
      else Run([BufFlush, FileFlush], SyncData, Outcome(fault, h + [BufFlush, FileFlush], SyncData))
  }

  /** `batch2parquet_file`: create, encode, then flush and maybe sync. */
  function FileRun(items: seq<Result<Batch>>, opts: Option<ParquetLib.ArrowWriterOptions>, path: string,
                   fsync: bool, fault: Fault, h: seq<Event>): Run
  {
    var c := Outcome(fault, h, Create(path));
    if c.Err? then Run([], Create(path), c)
    else
      var enc := EncodeRun(items, opts, fault, h + [Create(path)]);
      if enc.result.Err? then Then([Create(path)], enc)
      else Then([Create(path)] + Events(enc), FlushRun(fsync, fault, h + ([Create(path)] + Events(enc))))
  }

  // ---------------------------------------------------------------------------
  // Facts about event sequences

  lemma {:induction false} CleanAppend(fault: Fault, h: seq<Event>, a: seq<Event>, b: seq<Event>)
    ensures Clean(fault, h, a + b) <==> Clean(fault, h, a) && Clean(fault, h + a, b)
    decreases |a|
  {
    if a == [] {
      assert a + b == b;
      assert h + a == h;
    } else {
      assert (a + b)[0] == a[0];
      assert (a + b)[1..] == a[1..] + b;
      assert h + a == (h + [a[0]]) + a[1..];
      CleanAppend(fault, h + [a[0]], a[1..], b);
    }
  }

  lemma CleanOne(fault: Fault, h: seq<Event>, x: Event)
    requires Outcome(fault, h, x).Ok?
    ensures Clean(fault, h, [x])
  {
    assert [x][1..] == [];
  }

  lemma CleanPair(fault: Fault, h: seq<Event>, x: Event, y: Event)
    requires Outcome(fault, h, x).Ok? && Outcome(fault, h + [x], y).Ok?
    ensures Clean(fault, h, [x, y])
  {
    CleanOne(fault, h + [x], y);
    assert [x, y][1..] == [y];
  }

  /** A run that stops at its first failure succeeded exactly when its last call did. */
  lemma CleanEvents(fault: Fault, h: seq<Event>, r: Run)
    requires Clean(fault, h, r.steps)
    ensures Clean(fault, h, Events(r)) <==> Outcome(fault, h + r.steps, r.last).Ok?
  {
    CleanAppend(fault, h, r.steps, [r.last]);
  }

  lemma {:induction false} WritesAppend(a: seq<Event>, b: seq<Event>)
    ensures Writes(a + b) == Writes(a) + Writes(b)
    decreases |a|
  {
    if a == [] {
      assert a + b == b;
    } else {
      assert (a + b)[0] == a[0];
      assert (a + b)[1..] == a[1..] + b;
      WritesAppend(a[1..], b);
    }
  }

  // ---------------------------------------------------------------------------
  // What the runs guarantee

  /** `write_batch_all` stops at the first error, from the stream or from a write. */
  lemma {:induction false} WriteAllFailFast(rest: seq<Result<Batch>>, fault: Fault, h: seq<Event>)
    ensures FailFast(fault, h, WriteAllRun(rest, fault, h))
    ensures var r := WriteAllRun(rest, fault, h);
      r.last.Pull? ==> r.result.Err? && SourceError(rest) == Some(r.result.error)
    decreases |rest|
  {
    if rest == [] {
      CleanOne(fault, h, Pull);
    } else if rest[0].Ok? {
      var b := rest[0].value;
      CleanOne(fault, h, Pull);
      if Outcome(fault, h + [Pull], Write(b)).Ok? {
        var h' := h + [Pull, Write(b)];
        WriteAllFailFast(rest[1..], fault, h');
        CleanPair(fault, h, Pull, Write(b));
        ThenFailFast(fault, h, [Pull, Write(b)], WriteAllRun(rest[1..], fault, h'));
      }
    }
  }

  /**
   * `write_batch_all` hands the writer a prefix of the stream's batches, in order, and
   * finishes the writer only after the stream ended cleanly with every batch written.
   */
  lemma {:induction false} WriteAllWrites(rest: seq<Result<Batch>>, fault: Fault, h: seq<Event>)
    ensures var r := WriteAllRun(rest, fault, h);
      && Writes(Events(r)) <= Batches(rest)
      && (r.result.Ok? ==> r.last == Finish)
      && (r.last == Finish ==> SourceError(rest).None? && Writes(Events(r)) == Batches(rest))
      && (r.last.Pull? ==> Writes(Events(r)) == Batches(rest))
    decreases |rest|
  {
    if rest == [] {
      assert Writes([Pull, Finish]) == [];
    } else if rest[0].Err? {
      assert Writes([Pull]) == [];
    } else {
      var b := rest[0].value;
      assert Writes([Write(b)]) == [b];
      assert Writes([Pull, Write(b)]) == [b];
      if Outcome(fault, h + [Pull], Write(b)).Ok? {
        var h' := h + [Pull, Write(b)];
        var r' := WriteAllRun(rest[1..], fault, h');
        WriteAllWrites(rest[1..], fault, h');
        assert Events(WriteAllRun(rest, fault, h)) == [Pull, Write(b)] + Events(r');
        WritesAppend([Pull, Write(b)], Events(r'));
      }
    }
  }

  /** `write_batch_all` only pulls and writes, and its last call is a pull, a write or `finish`. */
  lemma {:induction false} WriteAllCalls(rest: seq<Result<Batch>>, fault: Fault, h: seq<Event>)
    ensures var r := WriteAllRun(rest, fault, h);
      && (forall e | e in r.steps :: e.Pull? || e.Write?)
      && (r.last.Pull? || r.last.Write? || r.last.Finish?)
    decreases |rest|
  {
    if rest != [] && rest[0].Ok? {
      var b := rest[0].value;
      if Outcome(fault, h + [Pull], Write(b)).Ok? {
        WriteAllCalls(rest[1..], fault, h + [Pull, Write(b)]);
      }
    }
  }

  lemma EventsThen(ev: seq<Event>, r: Run)
    ensures Events(Then(ev, r)) == ev + Events(r)
  {
  }

  /** Calls that all succeeded, followed by a run that stops at its first failure, stop at their first failure. */
  lemma ThenFailFast(fault: Fault, h: seq<Event>, ev: seq<Event>, r: Run)
    requires Clean(fault, h, ev) && FailFast(fault, h + ev, r)
    ensures FailFast(fault, h, Then(ev, r))
  {
    CleanAppend(fault, h, ev, r.steps);
    assert h + (ev + r.steps) == (h + ev) + r.steps;
  }

  /** `_batch2parquet` stops at the first error, from initialisation, a write, the stream or `finish`. */
  lemma InnerFailFast(b1st: Batch, rest: seq<Result<Batch>>, opts: Option<ParquetLib.ArrowWriterOptions>,
                      fault: Fault, h: seq<Event>)
    ensures FailFast(fault, h, InnerRun(b1st, rest, opts, fault, h))
    ensures var r := InnerRun(b1st, rest, opts, fault, h);
      r.last.Pull? ==> r.result.Err? && SourceError(rest) == Some(r.result.error)
  {
    var init := Init(b1st.schema, opts);
    assert Clean(fault, h, []);
    assert h + [] == h;
    if Outcome(fault, h, init).Ok? {
      assert Clean(fault, h + [init], []);
      assert Clean(fault, h, [init]);
      if Outcome(fault, h + [init], Write(b1st)).Ok? {
        assert Clean(fault, h + [init] + [Write(b1st)], []);
        assert Clean(fault, h + [init], [Write(b1st)]);
        CleanAppend(fault, h, [init], [Write(b1st)]);
        assert [init] + [Write(b1st)] == [init, Write(b1st)];
        WriteAllFailFast(rest, fault, h + [init, Write(b1st)]);
        ThenFailFast(fault, h, [init, Write(b1st)], WriteAllRun(rest, fault, h + [init, Write(b1st)]));
      }
    }
  }

  /**
   * `batch2parquet` stops at the first error. A pull is its last call only when the stream was
   * empty (and the result is `Ok`) or the first element was an error (and the result is that error).
   */
  lemma EncodeFailFast(items: seq<Result<Batch>>, opts: Option<ParquetLib.ArrowWriterOptions>, fault: Fault, h: seq<Event>)
    ensures FailFast(fault, h, EncodeRun(items, opts, fault, h))
    ensures var r := EncodeRun(items, opts, fault, h);
      && (r.last.Pull? && r.result.Err? ==> SourceError(items) == Some(r.result.error))
      && (r.last.Pull? && r.result.Ok? ==> items == [])
  {
    assert Clean(fault, h, []);
    if items != [] && items[0].Ok? {
      var b := items[0].value;
      assert Clean(fault, h + [Pull], []);
      assert Clean(fault, h, [Pull]);
      InnerFailFast(b, items[1..], opts, fault, h + [Pull]);
      ThenFailFast(fault, h, [Pull], InnerRun(b, items[1..], opts, fault, h + [Pull]));
    }
  }

  /** `_batch2parquet` writes the first batch, then a prefix of the rest, and finishes only after writing all of it. */
  lemma InnerWrites(b1st: Batch, rest: seq<Result<Batch>>, opts: Option<ParquetLib.ArrowWriterOptions>,
                    fault: Fault, h: seq<Event>)
    ensures var r := InnerRun(b1st, rest, opts, fault, h);
      && Writes(Events(r)) <= [b1st] + Batches(rest)
      && (r.result.Ok? ==> r.last == Finish)
      && (r.last == Finish ==> SourceError(rest).None? && Writes(Events(r)) == [b1st] + Batches(rest))
      && (r.last.Pull? ==> Writes(Events(r)) == [b1st] + Batches(rest))
  {
    var r := InnerRun(b1st, rest, opts, fault, h);
    var init := Init(b1st.schema, opts);
    assert Writes([Write(b1st)]) == [b1st];
    assert Writes([init, Write(b1st)]) == [b1st];
    if Outcome(fault, h, init).Err? {
      assert Events(r) == [init];
      assert Writes([init]) == [];
    } else if Outcome(fault, h + [init], Write(b1st)).Err? {
      assert Events(r) == [init, Write(b1st)];
    } else {
      var w := WriteAllRun(rest, fault, h + [init, Write(b1st)]);
      WriteAllWrites(rest, fault, h + [init, Write(b1st)]);
      EventsThen([init, Write(b1st)], w);
      WritesAppend([init, Write(b1st)], Events(w));
    }
  }

  /**
   * `batch2parquet` hands the writer a prefix of the stream's batches, in order, first batch
   * first; it succeeds only when the stream has no error, and on a non-empty stream only after
   * `finish`, which it calls only once every batch has been written.
   */
  lemma EncodeWrites(items: seq<Result<Batch>>, opts: Option<ParquetLib.ArrowWriterOptions>, fault: Fault, h: seq<Event>)
    ensures var r := EncodeRun(items, opts, fault, h);
      && Writes(Events(r)) <= Batches(items)
      && (r.result.Ok? ==> SourceError(items).None? && (items == [] || r.last == Finish))
      && (r.last == Finish ==> SourceError(items).None? && Writes(Events(r)) == Batches(items))
      && (r.last.Pull? ==> Writes(Events(r)) == Batches(items))
  {
    var r := EncodeRun(items, opts, fault, h);
    if items == [] || items[0].Err? {
      assert Events(r) == [Pull];
      assert Writes([Pull]) == [];
    } else {
      var b := items[0].value;
      var inner := InnerRun(b, items[1..], opts, fault, h + [Pull]);
      InnerWrites(b, items[1..], opts, fault, h + [Pull]);
      assert Batches(items) == [b] + Batches(items[1..]);
      assert SourceError(items) == SourceError(items[1..]);
      EventsThen([Pull], inner);
      WritesAppend([Pull], Events(inner));
      assert Writes([Pull]) == [];
    }
  }

  /**
   * `batch2parquet` initialises the writer at most once: never on an empty stream or a first
   * error, and otherwise right after the first pull, with the first batch's schema and the given
   * options, before any write. `finish` can only be its last call.
   */
  lemma EncodeLifecycle(items: seq<Result<Batch>>, opts: Option<ParquetLib.ArrowWriterOptions>, fault: Fault, h: seq<Event>)
    ensures var r := EncodeRun(items, opts, fault, h);
      && (items == [] || items[0].Err? ==> Events(r) == [Pull])
      && (items != [] && items[0].Ok? ==>
            && |Events(r)| >= 2
            && Events(r)[..2] == [Pull, Init(items[0].value.schema, opts)]
            && (forall e | e in Events(r)[2..] :: e.Pull? || e.Write? || e.Finish?))
      && (forall e | e in r.steps :: !e.Finish?)
      && (forall e | e in Events(r) :: e.Pull? || WriterCall(e))
  {
    var r := EncodeRun(items, opts, fault, h);
    if items != [] && items[0].Ok? {
      var b := items[0].value;
      var init := Init(b.schema, opts);
      var h1 := h + [Pull];
      if Outcome(fault, h1, init).Err? {
        assert Events(r) == [Pull, init];
        assert Events(r)[2..] == [];
      } else if Outcome(fault, h1 + [init], Write(b)).Err? {
        assert Events(r) == [Pull, init, Write(b)];
        assert Events(r)[2..] == [Write(b)];
      } else {
        var w := WriteAllRun(items[1..], fault, h1 + [init, Write(b)]);
        WriteAllCalls(items[1..], fault, h1 + [init, Write(b)]);
        LifecycleAfterInit(init, b, w);
      }
    }
  }

  /** An initialisation and a first write in front of a run that only pulls and writes, ending in a pull, a write or `finish`. */
  lemma LifecycleAfterInit(init: Event, b: Batch, w: Run)
    requires init.Init?
    requires forall e | e in w.steps :: e.Pull? || e.Write?
    requires w.last.Pull? || w.last.Write? || w.last.Finish?
    ensures var r := Then([Pull], Then([init, Write(b)], w));
      && |Events(r)| >= 2
      && Events(r)[..2] == [Pull, init]
      && (forall e | e in Events(r)[2..] :: e.Pull? || e.Write? || e.Finish?)
      && (forall e | e in r.steps :: !e.Finish?)
      && (forall e | e in Events(r) :: e.Pull? || WriterCall(e))
  {
    var r := Then([Pull], Then([init, Write(b)], w));
    assert r.steps == [Pull, init, Write(b)] + w.steps;
    assert Events(r) == [Pull, init, Write(b)] + Events(w);
    assert Events(r)[2..] == [Write(b)] + Events(w);
  }

  /** `batch2parquet` returns `Ok` exactly when the stream has no error and every call it made succeeded. */
  lemma EncodeOk(items: seq<Result<Batch>>, opts: Option<ParquetLib.ArrowWriterOptions>, fault: Fault, h: seq<Event>)
    ensures var r := EncodeRun(items, opts, fault, h);
      r.result.Ok? <==> SourceError(items).None? && Clean(fault, h, Events(r))
  {
    var r := EncodeRun(items, opts, fault, h);
    EncodeFailFast(items, opts, fault, h);
    EncodeWrites(items, opts, fault, h);
    CleanEvents(fault, h, r);
  }

  /** The flushes stop at the first failure; a sync happens only when asked, after both flushes succeeded. */
  lemma FlushFailFast(fsync: bool, fault: Fault, h: seq<Event>)
    ensures var r := FlushRun(fsync, fault, h);
      && FailFast(fault, h, r)
      && !r.last.Pull?
      && (r.result.Ok? ==> Events(r) == [BufFlush, FileFlush] + (if fsync then [SyncData] else []))
      && (SyncData in Events(r) ==> fsync && r.last == SyncData)
      && (forall e | e in Events(r) :: e.BufFlush? || e.FileFlush? || e.SyncData?)
  {
    assert Clean(fault, h, []);
    assert h + [] == h;
    if Outcome(fault, h, BufFlush).Ok? {
      assert Clean(fault, h + [BufFlush], []);
      assert Clean(fault, h, [BufFlush]);
      if Outcome(fault, h + [BufFlush], FileFlush).Ok? && fsync {
        assert Clean(fault, h + [BufFlush] + [FileFlush], []);
        assert Clean(fault, h + [BufFlush], [FileFlush]);
        CleanAppend(fault, h, [BufFlush], [FileFlush]);
        assert [BufFlush] + [FileFlush] == [BufFlush, FileFlush];
      }
    }
  }

  /**
   * `batch2parquet_file` stops at its first failure: every call but the last succeeded and the
   * last one's answer is the result, unless the last call is a pull, whose result is the stream's
   * first error. It succeeds only on a stream without errors.
   */
  lemma FileFailFast(items: seq<Result<Batch>>, opts: Option<ParquetLib.ArrowWriterOptions>, path: string,
                     fsync: bool, fault: Fault, h: seq<Event>)
    ensures FailFast(fault, h, FileRun(items, opts, path, fsync, fault, h))
    ensures var r := FileRun(items, opts, path, fsync, fault, h);
      && (r.last.Pull? ==> r.result.Err? && SourceError(items) == Some(r.result.error))
      && (r.result.Ok? ==> SourceError(items).None?)
  {
    var create := Create(path);
    assert Clean(fault, h, []);
    assert h + [] == h;
    if Outcome(fault, h, create).Ok? {
      var h1 := h + [create];
      var enc := EncodeRun(items, opts, fault, h1);
      assert Clean(fault, h1, []);
      assert Clean(fault, h, [create]);
      EncodeFailFast(items, opts, fault, h1);
      EncodeWrites(items, opts, fault, h1);
      if enc.result.Err? {
        ThenFailFast(fault, h, [create], enc);
      } else {
        var done := [create] + Events(enc);
        EncodeOk(items, opts, fault, h1);
        CleanAppend(fault, h, [create], Events(enc));
        FlushFailFast(fsync, fault, h + done);
        ThenFailFast(fault, h, done, FlushRun(fsync, fault, h + done));
      }
    }
  }

  /** `batch2parquet_file` returns `Ok` exactly when the stream has no error and every call it made succeeded. */
  lemma FileOk(items: seq<Result<Batch>>, opts: Option<ParquetLib.ArrowWriterOptions>, path: string,
               fsync: bool, fault: Fault, h: seq<Event>)
    ensures var r := FileRun(items, opts, path, fsync, fault, h);
      r.result.Ok? <==> SourceError(items).None? && Clean(fault, h, Events(r))
  {
    var r := FileRun(items, opts, path, fsync, fault, h);
    FileFailFast(items, opts, path, fsync, fault, h);
    CleanEvents(fault, h, r);
  }

  /**
   * The calls of `batch2parquet_file`: it creates the file first; on success it has encoded,
   * flushed the buffered writer, flushed the file and, only when `fsync` is set, synced it, in
   * that order; no flush or sync follows a failed encoding; a sync is always the last call.
   */
  lemma FileCalls(items: seq<Result<Batch>>, opts: Option<ParquetLib.ArrowWriterOptions>, path: string,
                  fsync: bool, fault: Fault, h: seq<Event>)
    ensures var r := FileRun(items, opts, path, fsync, fault, h);
      var enc := EncodeRun(items, opts, fault, h + [Create(path)]);
      && Events(r)[0] == Create(path)
      && (r.result.Ok? ==>
            Events(r) == [Create(path)] + Events(enc) + [BufFlush, FileFlush] + (if fsync then [SyncData] else []))
      && (enc.result.Err? ==> forall e | e in Events(r) :: !e.BufFlush? && !e.FileFlush? && !e.SyncData?)
      && (SyncData in Events(r) ==> fsync && r.last == SyncData)
  {
    var r := FileRun(items, opts, path, fsync, fault, h);
    var create := Create(path);
    if Outcome(fault, h, create).Ok? {
      var enc := EncodeRun(items, opts, fault, h + [create]);
      EncodeLifecycle(items, opts, fault, h + [create]);
      EventsThen([create], enc);
      assert SyncData !in Events(enc);
      if enc.result.Ok? {
        var done := [create] + Events(enc);
        FlushFailFast(fsync, fault, h + done);
        EventsThen(done, FlushRun(fsync, fault, h + done));
      }
    }
  }

  /**
   * On an empty stream `batch2parquet_file` never calls the Parquet writer, so the file receives
   * no bytes; it still creates the file, flushes both layers and syncs when asked, and succeeds
   * exactly when those calls do.
   */
  lemma FileEmpty(opts: Option<ParquetLib.ArrowWriterOptions>, path: string, fsync: bool, fault: Fault, h: seq<Event>)
    ensures var r := FileRun([], opts, path, fsync, fault, h);
      && (forall e | e in Events(r) :: !WriterCall(e))
      && (r.result.Ok? <==> Clean(fault, h, Events(r)))
      && (r.result.Ok? ==> Events(r) == [Create(path), Pull, BufFlush, FileFlush] + (if fsync then [SyncData] else []))
  {
    FileOk([], opts, path, fsync, fault, h);
    FileCalls([], opts, path, fsync, fault, h);
  }

  lemma {:induction false} CleanWithoutFaults(fault: Fault, h: seq<Event>, ev: seq<Event>)
    requires forall h', e :: fault(h', e) == None
    ensures Clean(fault, h, ev)
    decreases |ev|
  {
    if ev != [] {
      CleanWithoutFaults(fault, h + [ev[0]], ev[1..]);
    }
  }

  /**
   * When no call fails, `batch2parquet_file` hands every batch before the stream's first error
   * to the writer, in order, and its result is that error, or `Ok` when there is none.
   */
  lemma FileWithoutFaults(items: seq<Result<Batch>>, opts: Option<ParquetLib.ArrowWriterOptions>, path: string,
                          fsync: bool, fault: Fault, h: seq<Event>)
    requires forall h', e :: fault(h', e) == None
    ensures var r := FileRun(items, opts, path, fsync, fault, h);
      r.result == (if SourceError(items).None? then Ok(()) else Err(SourceError(items).value))
    ensures var enc := EncodeRun(items, opts, fault, h + [Create(path)]);
      Writes(Events(enc)) == Batches(items)
  {
    var r := FileRun(items, opts, path, fsync, fault, h);
    FileOk(items, opts, path, fsync, fault, h);
    FileFailFast(items, opts, path, fsync, fault, h);
    CleanWithoutFaults(fault, h, Events(r));
    CleanWithoutFaults(fault, h, r.steps + [r.last]);
    assert Outcome(fault, h + r.steps, r.last).Ok?;
    var enc := EncodeRun(items, opts, fault, h + [Create(path)]);
    EncodeWrites(items, opts, fault, h + [Create(path)]);
    EncodeFailFast(items, opts, fault, h + [Create(path)]);
    EncodeLifecycle(items, opts, fault, h + [Create(path)]);
    if SourceError(items).None? {
      CleanWithoutFaults(fault, h + [Create(path)], Events(enc));
      EncodeOk(items, opts, fault, h + [Create(path)]);
      assert Outcome(fault, h + [Create(path)] + enc.steps, enc.last).Ok?;
    } else {
      assert Outcome(fault, h + [Create(path)] + enc.steps, enc.last).Ok?;
    }
  }

  /** One pull, then one write of the batch pulled, for each batch in turn. */
  function Paired(bs: seq<Batch>): seq<Event>
  {
    if bs == [] then [] else [Pull, Write(bs[0])] + Paired(bs[1..])
  }

  /** The pull-and-write rounds hand the writer exactly their batches. */
  lemma {:induction false} WritesPaired(bs: seq<Batch>)
    ensures Writes(Paired(bs)) == bs
    decreases |bs|
  {
    if bs != [] {
      WritesPaired(bs[1..]);
      WritesAppend([Pull, Write(bs[0])], Paired(bs[1..]));
      assert Writes([Write(bs[0])]) == [bs[0]];
      assert Writes([Pull, Write(bs[0])]) == [bs[0]];
    }
  }

  /** How `write_batch_all` ends, after its last whole pull-and-write round. */
  function Tail(last: Event): seq<Event>
  {
    if last.Write? then [] else if last.Finish? then [Pull, Finish] else [Pull]
  }

  /**
   * `write_batch_all` never reads ahead: each round pulls one element and writes it before the
   * next pull, and the run ends with the last round's write, a pull that returned an error, or
   * the pull that found the stream exhausted followed by `finish`.
   */
  lemma {:induction false} WriteAllPaced(rest: seq<Result<Batch>>, fault: Fault, h: seq<Event>)
    ensures var r := WriteAllRun(rest, fault, h);
      Events(r) == Paired(Writes(Events(r))) + Tail(r.last)
    decreases |rest|
  {
    var r := WriteAllRun(rest, fault, h);
    if rest == [] {
      PacedEnd(Pull, Finish, r.result);
    } else if rest[0].Err? {
      PacedEnd(Pull, Pull, r.result);
    } else {
      var b := rest[0].value;
      if Outcome(fault, h + [Pull], Write(b)).Err? {
        PacedEnd(Pull, Write(b), r.result);
      } else {
        var h' := h + [Pull, Write(b)];
        WriteAllPaced(rest[1..], fault, h');
        PacedRound(b, WriteAllRun(rest[1..], fault, h'));
      }
    }
  }

  /** The three ways a run of `write_batch_all` can end after its last whole round are paced. */
  lemma PacedEnd(first: Event, last: Event, result: Result<()>)
    requires first == Pull && (last.Pull? || last.Finish? || last.Write?)
    ensures var r := if last.Pull? then Run([], last, result) else Run([first], last, result);
      Events(r) == Paired(Writes(Events(r))) + Tail(r.last)
  {
    if last.Pull? {
      assert Events(Run([], last, result)) == [Pull];
      assert Writes([Pull]) == [];
    } else if last.Finish? {
      assert Events(Run([first], last, result)) == [Pull, Finish];
      assert Writes([Finish]) == [];
      assert Writes([Pull, Finish]) == [];
    } else {
      var b := last.batch;
      assert Events(Run([first], last, result)) == [Pull, Write(b)];
      WritesRound(b, []);
      assert [Pull, Write(b)] + [] == [Pull, Write(b)];
      assert Paired([b]) == [Pull, Write(b)] + Paired([]);
    }
  }

  /** Putting one more pull-and-write round in front of a paced run keeps it paced. */
  lemma PacedRound(b: Batch, r: Run)
    requires Events(r) == Paired(Writes(Events(r))) + Tail(r.last)
    ensures Events(Then([Pull, Write(b)], r)) == Paired(Writes(Events(Then([Pull, Write(b)], r)))) + Tail(r.last)
  {
    EventsThen([Pull, Write(b)], r);
    WritesRound(b, Events(r));
    var ws := Writes(Events(r));
    PairedCons(b, ws);
    assert [Pull, Write(b)] + (Paired(ws) + Tail(r.last)) == [Pull, Write(b)] + Paired(ws) + Tail(r.last);
  }

  lemma WritesRound(b: Batch, ev: seq<Event>)
    ensures Writes([Pull, Write(b)] + ev) == [b] + Writes(ev)
  {
    WritesAppend([Pull, Write(b)], ev);
    assert Writes([Write(b)]) == [b];
    assert Writes([Pull, Write(b)]) == [b];
  }

  lemma PairedCons(b: Batch, bs: seq<Batch>)
    ensures Paired([b] + bs) == [Pull, Write(b)] + Paired(bs)
  {
    assert ([b] + bs)[1..] == bs;
  }

  /** When no call fails and the stream has no error, `write_batch_all` writes each batch right after pulling it, then finishes. */
  lemma {:induction false} WriteAllWithoutFaults(rest: seq<Result<Batch>>, fault: Fault, h: seq<Event>)
    requires forall h', e :: fault(h', e) == None
    requires SourceError(rest).None?
    ensures WriteAllRun(rest, fault, h) == Run(Paired(Batches(rest)) + [Pull], Finish, Ok(()))
    decreases |rest|
  {
    if rest != [] {
      var b := rest[0].value;
      var w := WriteAllRun(rest[1..], fault, h + [Pull, Write(b)]);
      WriteAllWithoutFaults(rest[1..], fault, h + [Pull, Write(b)]);
      assert Paired(Batches(rest)) == [Pull, Write(b)] + Paired(Batches(rest[1..]));
      assert [Pull, Write(b)] + (Paired(Batches(rest[1..])) + [Pull]) == Paired(Batches(rest)) + [Pull];
    }
  }

  /** When no call fails and the rest of the stream has no error, `_batch2parquet` initialises, writes every batch and finishes. */
  lemma InnerWithoutFaults(b: Batch, rest: seq<Result<Batch>>, opts: Option<ParquetLib.ArrowWriterOptions>,
                           fault: Fault, h: seq<Event>)
    requires forall h', e :: fault(h', e) == None
    requires SourceError(rest).None?
    ensures InnerRun(b, rest, opts, fault, h)
            == Run([Init(b.schema, opts), Write(b)] + Paired(Batches(rest)) + [Pull], Finish, Ok(()))
  {
    var init := Init(b.schema, opts);
    assert Outcome(fault, h, init) == Ok(());
    assert Outcome(fault, h + [init], Write(b)) == Ok(());
    WriteAllWithoutFaults(rest, fault, h + [init, Write(b)]);
    var p := Paired(Batches(rest));
    assert [init, Write(b)] + (p + [Pull]) == [init, Write(b)] + p + [Pull];
  }

  /** When no call fails and the stream is non-empty and has no error, `batch2parquet` initialises, writes every batch and finishes. */
  lemma EncodeWithoutFaults(items: seq<Result<Batch>>, opts: Option<ParquetLib.ArrowWriterOptions>, fault: Fault, h: seq<Event>)
    requires forall h', e :: fault(h', e) == None
    requires items != [] && SourceError(items).None?
    ensures EncodeRun(items, opts, fault, h)
            == Run([Pull, Init(items[0].value.schema, opts), Write(items[0].value)] + Paired(Batches(items[1..])) + [Pull],
                   Finish, Ok(()))
  {
    var b := items[0].value;
    assert SourceError(items[1..]).None?;
    var inner := InnerRun(b, items[1..], opts, fault, h + [Pull]);
    assert EncodeRun(items, opts, fault, h) == Then([Pull], inner);
    InnerWithoutFaults(b, items[1..], opts, fault, h + [Pull]);
    var p := Paired(Batches(items[1..]));
    AssociatePull(Init(b.schema, opts), Write(b), p);
  }

  lemma AssociatePull(x: Event, y: Event, p: seq<Event>)
    ensures [Pull] + ([x, y] + p + [Pull]) == [Pull, x, y] + p + [Pull]
  {
  }

  /** The flushes and the optional sync all succeed when no call fails. */
  lemma FlushWithoutFaults(fsync: bool, fault: Fault, h: seq<Event>)
    requires forall h', e :: fault(h', e) == None
    ensures FlushRun(fsync, fault, h)
            == if fsync then Run([BufFlush, FileFlush], SyncData, Ok(())) else Run([BufFlush], FileFlush, Ok(()))
  {
    assert Outcome(fault, h, BufFlush) == Ok(());
    assert Outcome(fault, h + [BufFlush], FileFlush) == Ok(());
    assert Outcome(fault, h + [BufFlush, FileFlush], SyncData) == Ok(());
  }

  /**
   * When no call fails and the stream is non-empty and has no error, `batch2parquet_file`
   * creates the file, initialises the writer from the first batch, writes every batch right
   * after pulling it, finishes, flushes both layers and syncs when asked, and succeeds.
   */
  lemma FileTraceWithoutFaults(items: seq<Result<Batch>>, opts: Option<ParquetLib.ArrowWriterOptions>, path: string,
                               fsync: bool, fault: Fault, h: seq<Event>)
    requires forall h', e :: fault(h', e) == None
    requires items != [] && SourceError(items).None?
    ensures var r := FileRun(items, opts, path, fsync, fault, h);
      && r.result == Ok(())
      && Events(r) == [Create(path), Pull, Init(items[0].value.schema, opts), Write(items[0].value)]
                      + Paired(Batches(items[1..])) + [Pull, Finish, BufFlush, FileFlush]
                      + (if fsync then [SyncData] else [])
      && Writes(Events(r)) == Batches(items)
  {
    var create := Create(path);
    assert Outcome(fault, h, create) == Ok(());
    var enc := EncodeRun(items, opts, fault, h + [create]);
    EncodeWithoutFaults(items, opts, fault, h + [create]);
    var done := [create] + Events(enc);
    var flush := FlushRun(fsync, fault, h + done);
    FlushWithoutFaults(fsync, fault, h + done);
    assert enc.result == Ok(());
    assert FileRun(items, opts, path, fsync, fault, h) == Then(done, flush);
    ThenAssembles(create, enc, flush, Init(items[0].value.schema, opts), Write(items[0].value),
                  Paired(Batches(items[1..])), if fsync then [SyncData] else []);
    TraceWrites(path, Init(items[0].value.schema, opts), items[0].value, Batches(items[1..]), fsync);
  }

  /** The batches a successful, fault-free file run hands the writer. */
  lemma TraceWrites(path: string, init: Event, b: Batch, bs: seq<Batch>, fsync: bool)
    requires init.Init?
    ensures Writes([Create(path), Pull, init, Write(b)] + Paired(bs) + [Pull, Finish, BufFlush, FileFlush]
                   + (if fsync then [SyncData] else []))
            == [b] + bs
  {
    var lead := [Create(path), Pull, init, Write(b)];
    var close := [Pull, Finish, BufFlush, FileFlush] + (if fsync then [SyncData] else []);
    assert Writes(lead[3..]) == [b];
    assert Writes(lead[2..]) == [b];
    assert Writes(lead[1..]) == [b];
    assert Writes(lead) == [b];
    assert Writes(close[4..]) == [];
    assert Writes(close[3..]) == [];
    assert Writes(close[2..]) == [];
    assert Writes(close[1..]) == [];
    assert Writes(close) == [];
    WritesPaired(bs);
    WritesAppend(lead, Paired(bs));
    WritesAppend(lead + Paired(bs), close);
    assert lead + Paired(bs) + close
        == [Create(path), Pull, init, Write(b)] + Paired(bs) + [Pull, Finish, BufFlush, FileFlush] + (if fsync then [SyncData] else []);
  }

  /** The events of a file run assembled from its encoding run and its flush run. */
  lemma ThenAssembles(first: Event, r: Run, s: Run, a: Event, b: Event, mid: seq<Event>, sync: seq<Event>)
    requires r.steps == [Pull, a, b] + mid + [Pull] && r.last == Finish
    requires Events(s) == [BufFlush, FileFlush] + sync
    ensures Events(Then([first] + Events(r), s)) == [first, Pull, a, b] + mid + [Pull, Finish, BufFlush, FileFlush] + sync
  {
    EventsThen([first] + Events(r), s);
  }

  // ---------------------------------------------------------------------------
  // The world and the four operations

  class World {
    /** The stream's elements, in order. */
    const items: seq<Result<Batch>>
    /** Which call into the file, the buffered writer or the Parquet writer fails. */
    const fault: Fault
    /** How many elements have been pulled. */
    var pos: nat
    /** Every call made so far, in order. */
    var trace: seq<Event>

    ghost predicate Valid()
      reads this
    {
      pos <= |items|
    }

    constructor (items: seq<Result<Batch>>, fault: Fault)
      ensures Valid() && this.items == items && this.fault == fault
      ensures pos == 0 && trace == []
    {
      this.items := items;
      this.fault := fault;
      pos := 0;
      trace := [];
    }

    /** `b.next().await`: the next element, or `None` once the stream is exhausted. */
    method Next() returns (r: Option<Result<Batch>>)
      requires Valid()
      modifies this
      ensures Valid() && trace == old(trace) + [Pull]
      ensures old(pos) < |items| ==> r == Some(items[old(pos)]) && pos == old(pos) + 1
      ensures old(pos) == |items| ==> r == None && pos == old(pos)
    {
      trace := trace + [Pull];
      if pos < |items| {
        r := Some(items[pos]);
        pos := pos + 1;
      } else {
        r := None;
      }
    }

    /** One call into the file, the buffered writer or the Parquet writer. */
    method Perform(e: Event) returns (r: Result<()>)
      requires Valid() && !e.Pull?
      modifies this
      ensures Valid() && pos == old(pos) && trace == old(trace) + [e]
      ensures r == Outcome(fault, old(trace), e)
    {
      r := Outcome(fault, trace, e);
      trace := trace + [e];
    }
  }

  lemma ThenThen(a: seq<Event>, b: seq<Event>, r: Run)
    ensures Then(a, Then(b, r)) == Then(a + b, r)
  {
    assert a + (b + r.steps) == (a + b) + r.steps;
  }

  /** One successful write unfolds `write_batch_all` by one element. */
  lemma WriteAllStep(rest: seq<Result<Batch>>, fault: Fault, h: seq<Event>)
    requires rest != [] && rest[0].Ok? && Outcome(fault, h + [Pull], Write(rest[0].value)).Ok?
    ensures WriteAllRun(rest, fault, h)
         == Then([Pull, Write(rest[0].value)], WriteAllRun(rest[1..], fault, h + [Pull, Write(rest[0].value)]))
  {
  }

  /** The loop of `write_batch_all` leaves through the pull that finds the stream exhausted, then `finish`. */
  lemma WriteAllExhausted(h0: seq<Event>, done: seq<Event>, fault: Fault, h: seq<Event>, r: Result<()>)
    requires r == Outcome(fault, h + [Pull], Finish)
    ensures Then(done, WriteAllRun([], fault, h)).result == r
    ensures h0 + Events(Then(done, WriteAllRun([], fault, h))) == h0 + done + [Pull] + [Finish]
  {
  }

  /** The loop of `write_batch_all` leaves through a pull that returned an error. */
  lemma WriteAllSourceError(h0: seq<Event>, done: seq<Event>, rest: seq<Result<Batch>>, fault: Fault, h: seq<Event>)
    requires rest != [] && rest[0].Err?
    ensures Then(done, WriteAllRun(rest, fault, h)).result == Err(rest[0].error)
    ensures h0 + Events(Then(done, WriteAllRun(rest, fault, h))) == h0 + done + [Pull]
  {
  }

  /** The loop of `write_batch_all` leaves through a failed write. */
  lemma WriteAllWriteFails(h0: seq<Event>, done: seq<Event>, rest: seq<Result<Batch>>, fault: Fault, h: seq<Event>)
    requires rest != [] && rest[0].Ok? && Outcome(fault, h + [Pull], Write(rest[0].value)).Err?
    ensures Then(done, WriteAllRun(rest, fault, h)).result == Outcome(fault, h + [Pull], Write(rest[0].value))
    ensures h0 + Events(Then(done, WriteAllRun(rest, fault, h))) == h0 + done + [Pull] + [Write(rest[0].value)]
  {
  }

  /** A successful round of the loop of `write_batch_all` moves one pull and one write into what is done. */
  lemma WriteAllRound(h0: seq<Event>, done: seq<Event>, rest: seq<Result<Batch>>, fault: Fault, h: seq<Event>)
    requires rest != [] && rest[0].Ok? && Outcome(fault, h + [Pull], Write(rest[0].value)).Ok?
    ensures var step := [Pull, Write(rest[0].value)];
      && Then(done, WriteAllRun(rest, fault, h)) == Then(done + step, WriteAllRun(rest[1..], fault, h + [Pull] + [Write(rest[0].value)]))
      && h0 + done + [Pull] + [Write(rest[0].value)] == h0 + (done + step)
  {
    var step := [Pull, Write(rest[0].value)];
    WriteAllStep(rest, fault, h);
    ThenThen(done, step, WriteAllRun(rest[1..], fault, h + step));
    assert h + [Pull] + [Write(rest[0].value)] == h + step;
  }

  /** `write_batch_all`: write every remaining batch in order, stop at the first error, then finish. */
  method WriteBatchAll(w: World) returns (r: Result<()>)
    requires w.Valid()
    modifies w
    ensures w.Valid()
    ensures var run := WriteAllRun(w.items[old(w.pos)..], w.fault, old(w.trace));
      w.trace == old(w.trace) + Events(run) && r == run.result
    ensures r.Ok? ==> w.pos == |w.items|
  {
    ghost var h0 := w.trace;
    ghost var total := WriteAllRun(w.items[w.pos..], w.fault, w.trace);
    ghost var done: seq<Event> := [];
    assert total == Then(done, total);
    // One round per element, until a pull finds the stream exhausted.
    while true
      invariant w.Valid()
      invariant w.trace == h0 + done
      invariant total == Then(done, WriteAllRun(w.items[w.pos..], w.fault, w.trace))
      decreases |w.items| - w.pos
    {
      ghost var h := w.trace;
      ghost var rest := w.items[w.pos..];
      var next := w.Next();
      if next.None? {
        assert rest == [];
        // The stream ended cleanly: finish the writer.
        r := w.Perform(Finish);
        WriteAllExhausted(h0, done, w.fault, h, r);
        return;
      }
      assert rest[0] == next.value && rest[1..] == w.items[w.pos..];
      var rb := next.value;
      if rb.Err? {
        // The element is an error: return it.
        WriteAllSourceError(h0, done, rest, w.fault, h);
        return Err(rb.error);
      }
      var written := w.Perform(Write(rb.value));
      if written.Err? {
        // The write failed: return its error.
        WriteAllWriteFails(h0, done, rest, w.fault, h);
        return written;
      }
      WriteAllRound(h0, done, rest, w.fault, h);
      done := done + [Pull, Write(rb.value)];
    }
  }

  /** `_batch2parquet`: initialise the writer from the first batch's schema, write it, write the rest. */
  method BatchToParquetInner(w: World, b1st: Batch, opts: Option<ParquetLib.ArrowWriterOptions>) returns (r: Result<()>)
    requires w.Valid()
    modifies w
    ensures w.Valid()
    ensures var run := InnerRun(b1st, w.items[old(w.pos)..], opts, w.fault, old(w.trace));
      w.trace == old(w.trace) + Events(run) && r == run.result
  {
    ghost var h := w.trace;
    var init := w.Perform(Init(b1st.schema, opts));
    if init.Err? {
      return init;
    }
    var first := w.Perform(Write(b1st));
    if first.Err? {
      assert w.trace == h + [Init(b1st.schema, opts), Write(b1st)];
      return first;
    }
    ghost var h1 := w.trace;
    assert h1 == h + [Init(b1st.schema, opts), Write(b1st)];
    r := WriteBatchAll(w);
    EventsThen([Init(b1st.schema, opts), Write(b1st)], WriteAllRun(w.items[old(w.pos)..], w.fault, h1));
  }

  /** `batch2parquet`: nothing on an empty stream, the error of a failing first element, else encode. */
  method BatchToParquet(w: World, opts: Option<ParquetLib.ArrowWriterOptions>) returns (r: Result<()>)
    requires w.Valid()
    modifies w
    ensures w.Valid()
    ensures var run := EncodeRun(w.items[old(w.pos)..], opts, w.fault, old(w.trace));
      w.trace == old(w.trace) + Events(run) && r == run.result
  {
    ghost var p, h := w.pos, w.trace;
    var b1st := w.Next();
    match b1st
    case None =>
      assert w.items[p..] == [];
      r := Ok(());
    case Some(b1) =>
      ghost var items := w.items[p..];
      assert items[0] == w.items[p] && items[1..] == w.items[w.pos..];
      if b1.Err? {
        r := Err(b1.error);
      } else {
        r := BatchToParquetInner(w, b1.value, opts);
        EventsThen([Pull], InnerRun(b1.value, items[1..], opts, w.fault, h + [Pull]));
      }
  }

  /** `batch2parquet_file` after a failed encoding. */
  lemma FileEncodeFails(items: seq<Result<Batch>>, opts: Option<ParquetLib.ArrowWriterOptions>, path: string,
                        fsync: bool, fault: Fault, h: seq<Event>)
    requires Outcome(fault, h, Create(path)).Ok?
    requires EncodeRun(items, opts, fault, h + [Create(path)]).result.Err?
    ensures var enc := EncodeRun(items, opts, fault, h + [Create(path)]);
      var r := FileRun(items, opts, path, fsync, fault, h);
      && r.result == enc.result
      && h + Events(r) == h + [Create(path)] + Events(enc)
  {
    var enc := EncodeRun(items, opts, fault, h + [Create(path)]);
    EventsThen([Create(path)], enc);
  }

  /** `batch2parquet_file` after a successful encoding: what is left is the flush run. */
  lemma FileEncoded(items: seq<Result<Batch>>, opts: Option<ParquetLib.ArrowWriterOptions>, path: string,
                    fsync: bool, fault: Fault, h: seq<Event>)
    requires Outcome(fault, h, Create(path)).Ok?
    requires EncodeRun(items, opts, fault, h + [Create(path)]).result.Ok?
    ensures var hb := h + [Create(path)] + Events(EncodeRun(items, opts, fault, h + [Create(path)]));
      var r := FileRun(items, opts, path, fsync, fault, h);
      var tail := FlushRun(fsync, fault, hb);
      && r.result == tail.result
      && h + Events(r) == hb + Events(tail)
  {
    var enc := EncodeRun(items, opts, fault, h + [Create(path)]);
    var done := [Create(path)] + Events(enc);
    assert h + done == h + [Create(path)] + Events(enc);
    var tail := FlushRun(fsync, fault, h + done);
    EventsThen(done, tail);
    assert h + (done + Events(tail)) == h + done + Events(tail);
  }

  /** Each way the flushes of `batch2parquet_file` can end, with the calls in the order they are made. */
  lemma FlushExits(fsync: bool, fault: Fault, hb: seq<Event>)
    ensures var t := FlushRun(fsync, fault, hb);
      var bf := Outcome(fault, hb, BufFlush);
      var ff := Outcome(fault, hb + [BufFlush], FileFlush);
      var sd := Outcome(fault, hb + [BufFlush] + [FileFlush], SyncData);
      && (bf.Err? ==> t.result == bf && hb + Events(t) == hb + [BufFlush])
      && (bf.Ok? && (ff.Err? || !fsync) ==> t.result == ff && hb + Events(t) == hb + [BufFlush] + [FileFlush])
      && (bf.Ok? && ff.Ok? && fsync ==> t.result == sd && hb + Events(t) == hb + [BufFlush] + [FileFlush] + [SyncData])
  {
    assert hb + [BufFlush] + [FileFlush] == hb + [BufFlush, FileFlush];
    assert hb + [BufFlush, FileFlush, SyncData] == hb + [BufFlush] + [FileFlush] + [SyncData];
    assert hb + [BufFlush, FileFlush] == hb + [BufFlush] + [FileFlush];
  }

  /** `batch2parquet_file`: create the file, encode into it, flush both layers, sync only when asked. */
  method BatchToParquetFile(w: World, opts: Option<ParquetLib.ArrowWriterOptions>, path: string, fsync: bool)
    returns (r: Result<()>)
    requires w.Valid()
    modifies w
    ensures w.Valid()
    ensures var run := FileRun(w.items[old(w.pos)..], opts, path, fsync, w.fault, old(w.trace));
      w.trace == old(w.trace) + Events(run) && r == run.result
  {
    ghost var h := w.trace;
    ghost var items := w.items[w.pos..];
    var created := w.Perform(Create(path));
    if created.Err? {
      return created;
    }
    ghost var enc := EncodeRun(items, opts, w.fault, h + [Create(path)]);
    var encoded := BatchToParquet(w, opts);
    if encoded.Err? {
      FileEncodeFails(items, opts, path, fsync, w.fault, h);
      return encoded;
    }
    FileEncoded(items, opts, path, fsync, w.fault, h);
    ghost var hb := w.trace;
    FlushExits(fsync, w.fault, hb);
    var bufFlushed := w.Perform(BufFlush);
    if bufFlushed.Err? {
      return bufFlushed;
    }
    var fileFlushed := w.Perform(FileFlush);
    if fileFlushed.Err? {
      return fileFlushed;
    }
    if fsync {
      var synced := w.Perform(SyncData);
      if synced.Err? {
        return synced;
      }
    }
    r := Ok(());
  }
}
