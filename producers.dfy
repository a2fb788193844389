/** The goroutines of requestMultipartFolder and requestMultipartReaders
    (internal/apiclient/requests.go), run sequentially: walk a folder or drain
    a queue into form parts, add the `request` field, close the multipart
    writer and the pipe, latching the first error on the way.

    Each producer is a method over the `Body` and `Latch` objects, proved
    against a specification function (WalkSpec, DrainSpec, FolderSpec,
    QueueSpec); the lemmas below state what those functions promise. */
module Producers {
  import opened Base
  import opened Multipart

  /** What filepath.Walk hands to the callback for one path. */
  datatype WalkEntry =
    | Unreadable(err: Error)                              // the callback's err argument is non-nil
    | Directory                                           // info.IsDir()
    | RegularFile(rel: Result<string>, file: Result<Source>) // filepath.Rel, then os.OpenFile

  /** The callback's effect on the body, its return value, and whether it
      opened a file (which its deferred Close then closes). */
  datatype Visited = Visited(wire: Wire, err: Option<Error>, fileOpened: bool)

  /** The filepath.Walk callback (requests.go lines 159-201). */
  function Visit(w: Wire, e: WalkEntry, encode: string -> string): Visited
  {
    match e
    case Unreadable(err) => Visited(w, Some(err), false)
    case Directory => Visited(w, None, false)
    case RegularFile(rel, file) =>
      if rel.Fail? then Visited(w, Some(rel.err), false)
      else
        var s := CreatePart(w, FileField, Some(encode(rel.value)));
        if s.err.Some? then Visited(s.wire, s.err, false)
        else if file.Fail? then Visited(s.wire, Some(file.err), false)
        else
          var c := Copy(s.wire, file.value);
          Visited(c.wire, if c.err == Some(EOF) then None else c.err, true)
  }

  /** The outcome of filepath.Walk: the body, the error the walk returned, and
      the indices of the entries whose file was opened and closed. */
  datatype Walked = Walked(wire: Wire, err: Option<Error>, closed: seq<nat>)

  /** filepath.Walk over `entries`, in walk order: the first error the
      callback returns ends the walk. */
  function WalkSpec(w0: Wire, entries: seq<WalkEntry>, encode: string -> string): Walked
    decreases |entries|
  {
    if entries == [] then Walked(w0, None, [])
    else
      var prev := WalkSpec(w0, entries[..|entries| - 1], encode);
      if prev.err.Some? then prev
      else
        var v := Visit(prev.wire, entries[|entries| - 1], encode);
        Walked(v.wire, v.err, prev.closed + if v.fileOpened then [|entries| - 1] else [])
  }

  /** Once the walk has failed, later entries change nothing: they are never visited. */
  lemma {:induction false} WalkStopsAtError(w0: Wire, entries: seq<WalkEntry>, k: nat, encode: string -> string)
    requires k <= |entries| && WalkSpec(w0, entries[..k], encode).err.Some?
    ensures WalkSpec(w0, entries, encode) == WalkSpec(w0, entries[..k], encode)
    decreases |entries| - k
  {
    if k < |entries| {
      assert entries[..k + 1][..k] == entries[..k];
      WalkStopsAtError(w0, entries, k + 1, encode);
    } else {
      assert entries[..k] == entries;
    }
  }

  /** filepath.Walk driving the callback. */
  method Walk(body: Body, entries: seq<WalkEntry>, encode: string -> string) returns (err: Option<Error>, closed: seq<nat>)
    modifies body
    ensures Walked(body.State(), err, closed) == WalkSpec(old(body.State()), entries, encode)
    ensures body.pipeClosed == old(body.pipeClosed)
  {
    ghost var w0 := body.State();
    err, closed := None, [];
    var i := 0;
    assert entries[..0] == [];
    while i < |entries|
      invariant 0 <= i <= |entries|
      invariant err.None? && Walked(body.State(), err, closed) == WalkSpec(w0, entries[..i], encode)
      invariant body.pipeClosed == old(body.pipeClosed)
    {
      assert entries[..i + 1][..i] == entries[..i];
      var fileOpened;
      err, fileOpened := VisitEntry(body, entries[i], encode);
      if fileOpened {
        closed := closed + [i];
      }
      if err.Some? {
        WalkStopsAtError(w0, entries, i + 1, encode);
        return;
      }
      i := i + 1;
    }
    assert entries[..i] == entries;
  }

  /** The callback: skip directories, otherwise create the `file` part named
      with the encoded relative path, open the file and copy it in chunks. */
  method VisitEntry(body: Body, e: WalkEntry, encode: string -> string) returns (err: Option<Error>, fileOpened: bool)
    modifies body
    ensures Visited(body.State(), err, fileOpened) == Visit(old(body.State()), e, encode)
    ensures body.pipeClosed == old(body.pipeClosed)
  {
    match e
    case Unreadable(x) =>
      return Some(x), false;
    case Directory =>
      return None, false;
    case RegularFile(rel, file) =>
      if rel.Fail? {
        return Some(rel.err), false;
      }
      err := body.CreateFormFile(FileField, encode(rel.value));
      if err.Some? {
        return err, false;
      }
      if file.Fail? {
        return Some(file.err), false;
      }
      // The deferred f.Close() runs on both returns below.
      fileOpened := true;
      err := CopyChunks(body, file.value);
      if err != Some(EOF) {
        return err, true;
      }
      return None, true;
  }

  /** A `*models.MultipartItem` sent on the channel: a file name and its reader. */
  datatype Item = Item(filename: string, r: Source)

  /** The F1 loop after some dequeues: the body, the loop's `err` variable,
      whether the loop has ended, and the indices of the readers closed. */
  datatype Drained = Drained(wire: Wire, err: Option<Error>, stopped: bool, closed: seq<nat>)

  /** An error that ends the F1 loop and is latched (io.EOF only ends one item). */
  predicate Failed(err: Option<Error>) {
    err.Some? && err != Some(EOF)
  }

  /** The F1 loop over the values received on the channel, in order (None is
      the nil sentinel): every dequeued item gets a `file` part named with the
      encoded file name, its reader is copied in and closed; a failed part
      creation or copy ends the loop. */
  function DrainSpec(w0: Wire, queue: seq<Option<Item>>, encode: string -> string): Drained
    decreases |queue|
  {
    if queue == [] then Drained(w0, None, false, [])
    else
      var i := |queue| - 1;
      var prev := DrainSpec(w0, queue[..i], encode);
      if prev.stopped then prev
      else if queue[i].None? then prev.(stopped := true)
      else Receive(prev, i, queue[i].value, encode)
  }

  /** One pass of the F1 loop for item `i`: create its part, copy its reader
      in, close the reader; a failure ends the loop. */
  function Receive(prev: Drained, i: nat, x: Item, encode: string -> string): Drained {
    var s := CreatePart(prev.wire, FileField, Some(encode(x.filename)));
    if s.err.Some? then Drained(s.wire, s.err, true, prev.closed + [i])
    else
      var c := Copy(s.wire, x.r);
      Drained(c.wire, c.err, c.err != Some(EOF), prev.closed + [i])
  }

  /** A received item is closed once and leaves `err` non-nil; the loop goes
      on exactly when the reader ends in io.EOF and the part fits, and the
      part then holds the whole reader. */
  lemma ReceiveClean(prev: Drained, i: nat, x: Item, encode: string -> string)
    ensures var d := Receive(prev, i, x, encode);
      && d.closed == prev.closed + [i] && d.err.Some? && (d.stopped <==> Failed(d.err))
      && (!d.stopped <==> EndOf(x.r) == EOF && Fits(prev.wire.room, 1 + |x.r.data|))
      && (!d.stopped ==> d.wire == prev.wire.(parts := prev.wire.parts + [Part(FileField, Some(encode(x.filename)), x.r.data)],
                                              room := Spend(prev.wire.room, 1 + |x.r.data|)))
  {
    if Fits(prev.wire.room, 1) {
      ExtendFresh(prev.wire.parts, Part(FileField, Some(encode(x.filename)), []), x.r.data);
    }
  }

  /** Once the loop has ended, later values are never received. */
  lemma {:induction false} DrainStopsAtStop(w0: Wire, queue: seq<Option<Item>>, k: nat, encode: string -> string)
    requires k <= |queue| && DrainSpec(w0, queue[..k], encode).stopped
    ensures DrainSpec(w0, queue, encode) == DrainSpec(w0, queue[..k], encode)
    decreases |queue| - k
  {
    if k < |queue| {
      assert queue[..k + 1][..k] == queue[..k];
      DrainStopsAtStop(w0, queue, k + 1, encode);
    } else {
      assert queue[..k] == queue;
    }
  }

  /** The whole output of a producer goroutine: the body as the server
      receives it, the error latched in `writeErr`, and the closed readers. */
  datatype Produced = Produced(wire: Wire, latched: Option<Error>, closed: seq<nat>)

  /** What both goroutines do after their loop: the `request` field when the
      loop left `err` nil and the marshalled body is non-empty, then the
      closing boundary; `offers` are the errors passed on to setErr, in order. */
  datatype Tail = Tail(wire: Wire, offers: seq<Option<Error>>)

  function Epilogue(w: Wire, loopErrNil: bool, bod: seq<byte>): Tail {
    var f := if loopErrNil && |bod| > 0 then AddField(w, RequestField, bod) else Step(w, None);
    var fin := Finish(f.wire);
    Tail(fin.wire, [f.err, fin.err])
  }

  /** The goroutine of requestMultipartFolder. */
  function FolderSpec(w0: Wire, entries: seq<WalkEntry>, bod: seq<byte>, encode: string -> string): Produced {
    var walk := WalkSpec(w0, entries, encode);
    var t := Epilogue(walk.wire, walk.err.None?, bod);
    Produced(t.wire, FirstError([walk.err] + t.offers + [None]), walk.closed)
  }

  /** The goroutine of requestMultipartReaders. The field is guarded by the
      loop's own `err`, which every completed item leaves at io.EOF. */
  function QueueSpec(w0: Wire, queue: seq<Option<Item>>, bod: seq<byte>, encode: string -> string): Produced {
    var d := DrainSpec(w0, queue, encode);
    var t := Epilogue(d.wire, d.err.None?, bod);
    Produced(t.wire, FirstError([if Failed(d.err) then d.err else None] + t.offers + [None]), d.closed)
  }

  /** Everything after the loop: the guarded `request` field, formWriter.Close
      and bodyWriter.Close, each error offered to setErr. */
  method Finalize(body: Body, latch: Latch, loopErrNil: bool, bod: seq<byte>)
    requires latch.Valid()
    modifies body, latch
    ensures latch.Valid() && body.pipeClosed
    ensures var t := Epilogue(old(body.State()), loopErrNil, bod);
      body.State() == t.wire && latch.writeErr == FirstError([old(latch.writeErr)] + t.offers + [None])
  {
    // `offers` lists the latched error before the call, then every error offered since.
    ghost var offers := [latch.writeErr];
    assert offers[1..] == [];
    var f := Step(body.State(), None);
    if loopErrNil && |bod| > 0 {
      var err := body.WriteField(RequestField, bod);
      f := Step(body.State(), err);
      if err.Some? {
        latch.Set(err);
      }
    }
    FirstErrorAppend(offers, f.err);
    offers := offers + [f.err];
    var e := body.Close();
    latch.Set(e);
    FirstErrorAppend(offers, e);
    offers := offers + [e];
    e := body.ClosePipe();
    latch.Set(e);
    FirstErrorAppend(offers, e);
    offers := offers + [e];
    assert f == if loopErrNil && |bod| > 0 then AddField(old(body.State()), RequestField, bod) else Step(old(body.State()), None);
    assert offers == [old(latch.writeErr)] + [f.err, Finish(f.wire).err] + [None];
  }

  /** The goroutine of requestMultipartFolder, run to completion. */
  method ProduceFolder(body: Body, latch: Latch, entries: seq<WalkEntry>, bod: seq<byte>, encode: string -> string)
    returns (closed: seq<nat>)
    requires latch.Valid() && latch.writeErr.None?
    modifies body, latch
    ensures latch.Valid() && body.pipeClosed
    ensures Produced(body.State(), latch.writeErr, closed) == FolderSpec(old(body.State()), entries, bod, encode)
  {
    var err;
    err, closed := Walk(body, entries, encode);
    latch.Set(err);
    Finalize(body, latch, err.None?, bod);
  }

  /** The goroutine of requestMultipartReaders, run to completion. The F1
      loop must end: the channel delivers the nil sentinel or an item fails
      first; a channel that does neither blocks the goroutine for ever. */
  method ProduceQueue(body: Body, latch: Latch, queue: seq<Option<Item>>, bod: seq<byte>, encode: string -> string)
    returns (closed: seq<nat>)
    requires DrainSpec(body.State(), queue, encode).stopped
    requires latch.Valid() && latch.writeErr.None?
    modifies body, latch
    ensures latch.Valid() && body.pipeClosed
    ensures Produced(body.State(), latch.writeErr, closed) == QueueSpec(old(body.State()), queue, bod, encode)
  {
    ghost var w0 := body.State();
    var err: Option<Error> := None;
    closed := [];
    var i := 0;
    assert queue[..0] == [];
    while true
      invariant i <= |queue|
      invariant i == |queue| ==> DrainSpec(w0, queue[..i], encode).stopped
      invariant Drained(body.State(), err, false, closed) == DrainSpec(w0, queue[..i], encode)
      invariant latch.Valid() && latch.writeErr.None?
      decreases |queue| - i
    {
      assert queue[..|queue|] == queue;
      assert queue[..i + 1][..i] == queue[..i];
      ghost var prev := Drained(body.State(), err, false, closed);
      var item := queue[i];
      if item.None? {
        assert Drained(body.State(), err, true, closed) == DrainSpec(w0, queue[..i + 1], encode);
        break;
      }
      assert DrainSpec(w0, queue[..i + 1], encode) == Receive(prev, i, item.value, encode);
      err := body.CreateFormFile(FileField, encode(item.value.filename));
      if err.Some? {
        closed := closed + [i];  // item.R.Close()
        latch.Set(err);
        assert Drained(body.State(), err, true, closed) == Receive(prev, i, item.value, encode);
        break;
      }
      err := CopyChunks(body, item.value.r);
      closed := closed + [i];  // item.R.Close()
      assert Drained(body.State(), err, err != Some(EOF), closed) == Receive(prev, i, item.value, encode);
      if err != Some(EOF) {
        latch.Set(err);
        break;
      }
      i := i + 1;
    }
    assert Drained(body.State(), err, true, closed) == DrainSpec(w0, queue[..i + 1], encode);
    DrainStopsAtStop(w0, queue, i + 1, encode);
    Finalize(body, latch, err.None?, bod);
  }

  // ----- What the folder walk promises -----

  /** An entry the walk passes without an error: a directory, or a regular
      file whose relative path and open succeed and whose reader ends in io.EOF. */
  predicate Clean(e: WalkEntry) {
    match e
    case Unreadable(_) => false
    case Directory => true
    case RegularFile(rel, file) => rel.Ok? && file.Ok? && EndOf(file.value) == EOF
  }

  predicate AllClean(entries: seq<WalkEntry>) {
    forall i :: 0 <= i < |entries| ==> Clean(entries[i])
  }

  /** The pipe units the part of an entry takes: its header and its bytes. */
  function EntryCost(e: WalkEntry): nat {
    if e.RegularFile? && e.file.Ok? then 1 + |e.file.value.data| else 0
  }

  /** The part a readable regular file becomes. */
  function EntryParts(e: WalkEntry, encode: string -> string): seq<Part> {
    if e.RegularFile? && e.rel.Ok? && e.file.Ok? then [Part(FileField, Some(encode(e.rel.value)), e.file.value.data)] else []
  }

  function WalkCost(entries: seq<WalkEntry>): nat {
    if entries == [] then 0 else WalkCost(entries[..|entries| - 1]) + EntryCost(entries[|entries| - 1])
  }

  /** One `file` part per regular file, in walk order. */
  function WalkParts(entries: seq<WalkEntry>, encode: string -> string): seq<Part> {
    if entries == [] then [] else WalkParts(entries[..|entries| - 1], encode) + EntryParts(entries[|entries| - 1], encode)
  }

  /** The indices of the regular files, in walk order. */
  function RegularIndices(entries: seq<WalkEntry>): seq<nat> {
    if entries == [] then []
    else RegularIndices(entries[..|entries| - 1]) + if entries[|entries| - 1].RegularFile? then [|entries| - 1] else []
  }

  /** The callback returns nil exactly for a clean entry whose part fits; the
      part then holds the whole file, and only a regular file was opened. */
  lemma VisitClean(w: Wire, e: WalkEntry, encode: string -> string)
    ensures var v := Visit(w, e, encode);
      && (v.err.None? <==> Clean(e) && Fits(w.room, EntryCost(e)))
      && (v.err.None? ==> v.wire == w.(parts := w.parts + EntryParts(e, encode), room := Spend(w.room, EntryCost(e)))
                          && v.fileOpened == e.RegularFile?)
  {
    if e.RegularFile? && e.rel.Ok? && Fits(w.room, 1) && e.file.Ok? {
      ExtendFresh(w.parts, Part(FileField, Some(encode(e.rel.value)), []), e.file.value.data);
    }
  }

  /** The walk returns nil exactly when every entry is clean and all parts fit
      in the pipe; the body then holds one `file` part per regular file, in
      walk order, and every regular file was opened and closed once. */
  lemma {:induction false} WalkSucceeds(w0: Wire, entries: seq<WalkEntry>, encode: string -> string)
    ensures var r := WalkSpec(w0, entries, encode);
      && (r.err.None? <==> AllClean(entries) && Fits(w0.room, WalkCost(entries)))
      && (r.err.None? ==> r.wire == w0.(parts := w0.parts + WalkParts(entries, encode), room := Spend(w0.room, WalkCost(entries)))
                          && r.closed == RegularIndices(entries))
    decreases |entries|
  {
    if entries != [] {
      var init := entries[..|entries| - 1];
      var e := entries[|entries| - 1];
      WalkSucceeds(w0, init, encode);
      var prev := WalkSpec(w0, init, encode);
      assert AllClean(entries) <==> AllClean(init) && Clean(e) by {
        assert forall i :: 0 <= i < |init| ==> init[i] == entries[i];
      }
      var r := WalkSpec(w0, entries, encode);
      assert WalkCost(entries) == WalkCost(init) + EntryCost(e);
      if prev.err.None? {
        var v := Visit(prev.wire, e, encode);
        VisitClean(prev.wire, e, encode);
        assert r == Walked(v.wire, v.err, prev.closed + if v.fileOpened then [|entries| - 1] else []);
        assert Fits(prev.wire.room, EntryCost(e)) <==> Fits(w0.room, WalkCost(entries));
        if v.err.None? {
          assert WalkParts(entries, encode) == WalkParts(init, encode) + EntryParts(e, encode);
          assert RegularIndices(entries) == RegularIndices(init) + if e.RegularFile? then [|entries| - 1] else [];
        }
      } else {
        assert r == prev;
      }
    }
  }

  /** `closed` lists regular files of `entries`, each once, in walk order. */
  predicate ClosesRegularOnce(closed: seq<nat>, entries: seq<WalkEntry>) {
    forall j :: 0 <= j < |closed| ==> closed[j] < |entries| && entries[closed[j]].RegularFile? && (j > 0 ==> closed[j - 1] < closed[j])
  }

  /** Every file the walk opened is closed exactly once: the closed indices
      are regular files, in strictly increasing order. */
  lemma {:induction false} WalkClosesOnce(w0: Wire, entries: seq<WalkEntry>, encode: string -> string)
    ensures ClosesRegularOnce(WalkSpec(w0, entries, encode).closed, entries)
    decreases |entries|
  {
    if entries != [] {
      var n := |entries| - 1;
      var init := entries[..n];
      WalkClosesOnce(w0, init, encode);
      var prev := WalkSpec(w0, init, encode);
      if prev.err.None? {
        var v := Visit(prev.wire, entries[n], encode);
        assert v.fileOpened ==> entries[n].RegularFile?;
        var c := prev.closed + if v.fileOpened then [n] else [];
        forall j | 0 <= j < |c|
          ensures c[j] < |entries| && entries[c[j]].RegularFile? && (j > 0 ==> c[j - 1] < c[j])
        {
          if j < |prev.closed| {
            assert c[j] == prev.closed[j] && init[c[j]] == entries[c[j]];
          }
          if 0 < j < |prev.closed| {
            assert c[j - 1] == prev.closed[j - 1];
          }
          if j == |prev.closed| && j > 0 {
            assert c[j - 1] == prev.closed[j - 1] < |init|;
          }
        }
        assert WalkSpec(w0, entries, encode).closed == c;
      } else {
        forall j | 0 <= j < |prev.closed| ensures entries[prev.closed[j]] == init[prev.closed[j]] { }
      }
    }
  }

  // ----- The epilogue and the latched error -----

  function RequestCost(bod: seq<byte>): nat {
    if |bod| > 0 then 1 + |bod| else 0
  }

  /** The `request` part of a non-empty marshalled body. */
  function RequestParts(bod: seq<byte>): seq<Part> {
    if |bod| > 0 then [Part(RequestField, None, bod)] else []
  }

  /** After the loop, nothing fails exactly when the field (if wanted) and the
      closing boundary fit; the field is then the last part. */
  lemma EpilogueClean(w: Wire, loopErrNil: bool, bod: seq<byte>)
    ensures var t := Epilogue(w, loopErrNil, bod);
      var cost := (if loopErrNil then RequestCost(bod) else 0) + 1;
      && |t.offers| == 2
      && (t.offers[0].None? && t.offers[1].None? <==> Fits(w.room, cost))
      && (Fits(w.room, cost) ==> t.wire == Wire(w.parts + (if loopErrNil then RequestParts(bod) else []), Spend(w.room, cost), true))
  {
    AddFieldWrites(w, RequestField, bod);
  }

  /** The error latched by a goroutine is nil exactly when every offer was. */
  lemma LatchedNone(first: Option<Error>, t: Tail)
    requires |t.offers| == 2
    ensures FirstError([first] + t.offers + [None]).None? <==> first.None? && t.offers[0].None? && t.offers[1].None?
    ensures first.Some? ==> FirstError([first] + t.offers + [None]) == first
  {
    var offers := [first] + t.offers + [None];
    FirstErrorIsFirst(offers);
    assert offers[0] == first && offers[1] == t.offers[0] && offers[2] == t.offers[1] && offers[3] == None;
  }

  /** A folder upload latches nothing exactly when every entry is clean and
      everything fits; the server then receives one `file` part per regular
      file in walk order, the `request` field last, and the closing boundary. */
  lemma FolderUploadsAll(w0: Wire, entries: seq<WalkEntry>, bod: seq<byte>, encode: string -> string)
    ensures var p := FolderSpec(w0, entries, bod, encode);
      && (p.latched.None? <==>
            AllClean(entries) && Fits(w0.room, WalkCost(entries) + RequestCost(bod) + 1))
      && (p.latched.None? ==>
            p.wire.parts == w0.parts + WalkParts(entries, encode) + RequestParts(bod)
            && p.wire.finished && p.closed == RegularIndices(entries))
  {
    var walk := WalkSpec(w0, entries, encode);
    var t := Epilogue(walk.wire, walk.err.None?, bod);
    WalkSucceeds(w0, entries, encode);
    LatchedNone(walk.err, t);
    if walk.err.None? {
      EpilogueClean(walk.wire, true, bod);
      assert walk.wire.room == Spend(w0.room, WalkCost(entries));
      assert Fits(walk.wire.room, RequestCost(bod) + 1) <==> Fits(w0.room, WalkCost(entries) + RequestCost(bod) + 1);
    } else {
      assert !(AllClean(entries) && Fits(w0.room, WalkCost(entries)));
    }
  }

  /** A failed walk is the error latched, and no `request` field follows it. */
  lemma FolderLatchesWalkError(w0: Wire, entries: seq<WalkEntry>, bod: seq<byte>, encode: string -> string)
    requires WalkSpec(w0, entries, encode).err.Some?
    ensures var p := FolderSpec(w0, entries, bod, encode);
      p.latched == WalkSpec(w0, entries, encode).err && p.wire.parts == WalkSpec(w0, entries, encode).wire.parts
  {
    var walk := WalkSpec(w0, entries, encode);
    LatchedNone(walk.err, Epilogue(walk.wire, false, bod));
  }

  // ----- What the queue drain promises -----

  /** The shape of the F1 loop's progress: the readers closed are those of
      items 0, 1, ..., in order, each once; `err` is nil only before the first
      item; a failure ends the loop; a loop ended without failure ended on the
      sentinel right after the last item; a loop still running consumed every value. */
  lemma {:induction false} DrainShape(w0: Wire, queue: seq<Option<Item>>, encode: string -> string)
    ensures var d := DrainSpec(w0, queue, encode);
      && |d.closed| <= |queue|
      && (forall j :: 0 <= j < |d.closed| ==> d.closed[j] == j && queue[j].Some?)
      && (d.err.None? <==> |d.closed| == 0)
      && (Failed(d.err) ==> d.stopped)
      && (d.stopped && !Failed(d.err) ==> |d.closed| < |queue| && queue[|d.closed|].None?)
      && (!d.stopped ==> |d.closed| == |queue|)
    decreases |queue|
  {
    if queue != [] {
      var i := |queue| - 1;
      var init := queue[..i];
      DrainShape(w0, init, encode);
      assert forall j :: 0 <= j < i ==> init[j] == queue[j];
      var prev := DrainSpec(w0, init, encode);
      var d := DrainSpec(w0, queue, encode);
      if !prev.stopped && queue[i].Some? {
        assert d.closed == prev.closed + [i];
        assert forall j :: 0 <= j < |prev.closed| ==> d.closed[j] == prev.closed[j];
      }
    }
  }

  /** The first value received is an item: the loop leaves `err` non-nil, so
      no `request` field is written whatever the marshalled body. */
  lemma QueueSkipsRequestField(w0: Wire, queue: seq<Option<Item>>, bod: seq<byte>, encode: string -> string)
    requires queue != [] && queue[0].Some?
    ensures QueueSpec(w0, queue, bod, encode).wire.parts == DrainSpec(w0, queue, encode).wire.parts
  {
    DrainShape(w0, queue, encode);
  }

  /** The sentinel comes first: no part is created, no reader is closed, and
      the `request` field is written when it fits. */
  lemma QueueSentinelFirst(w0: Wire, queue: seq<Option<Item>>, bod: seq<byte>, encode: string -> string)
    requires queue != [] && queue[0].None?
    ensures var p := QueueSpec(w0, queue, bod, encode);
      && p.closed == []
      && (p.latched.None? <==> Fits(w0.room, RequestCost(bod) + 1))
      && (p.latched.None? ==> p.wire.parts == w0.parts + RequestParts(bod) && p.wire.finished)
  {
    assert queue[..1][..0] == [];
    DrainStopsAtStop(w0, queue, 1, encode);
    var d := DrainSpec(w0, queue, encode);
    EpilogueClean(w0, true, bod);
    LatchedNone(None, Epilogue(w0, true, bod));
  }

  /** A failed part creation or copy is the error latched, and nothing but
      the closing boundary is written after it. */
  lemma QueueLatchesFailure(w0: Wire, queue: seq<Option<Item>>, bod: seq<byte>, encode: string -> string)
    requires Failed(DrainSpec(w0, queue, encode).err)
    ensures var p := QueueSpec(w0, queue, bod, encode);
      p.latched == DrainSpec(w0, queue, encode).err && p.wire.parts == DrainSpec(w0, queue, encode).wire.parts
  {
    var d := DrainSpec(w0, queue, encode);
    LatchedNone(d.err, Epilogue(d.wire, false, bod));
  }

  /** Every value is an item whose reader ends in io.EOF. */
  predicate ItemsClean(queue: seq<Option<Item>>) {
    queue == [] || (ItemsClean(queue[..|queue| - 1]) && queue[|queue| - 1].Some? && EndOf(queue[|queue| - 1].value.r) == EOF)
  }

  function ItemsCost(queue: seq<Option<Item>>): nat {
    if queue == [] then 0
    else ItemsCost(queue[..|queue| - 1]) + if queue[|queue| - 1].Some? then 1 + |queue[|queue| - 1].value.r.data| else 0
  }

  /** One `file` part per item, in the order received. */
  function ItemParts(queue: seq<Option<Item>>, encode: string -> string): seq<Part> {
    if queue == [] then []
    else
      var x := queue[|queue| - 1];
      ItemParts(queue[..|queue| - 1], encode) + if x.Some? then [Part(FileField, Some(encode(x.value.filename)), x.value.r.data)] else []
  }

  /** A clean item received after `cost` units and `parts` went through
      adds its own part and spends its own units. */
  lemma ReceiveAfter(w0: Wire, prev: Drained, i: nat, x: Item, cost: nat, parts: seq<Part>, encode: string -> string)
    requires Fits(w0.room, cost) && prev.wire == w0.(parts := w0.parts + parts, room := Spend(w0.room, cost))
    ensures var d := Receive(prev, i, x, encode);
      && (!d.stopped <==> EndOf(x.r) == EOF && Fits(w0.room, cost + (1 + |x.r.data|)))
      && (!d.stopped ==> d.wire == w0.(parts := w0.parts + (parts + [Part(FileField, Some(encode(x.filename)), x.r.data)]),
                                       room := Spend(w0.room, cost + (1 + |x.r.data|))))
  {
    ReceiveClean(prev, i, x, encode);
    var p := Part(FileField, Some(encode(x.filename)), x.r.data);
    assert w0.parts + parts + [p] == w0.parts + (parts + [p]);
  }

  /** Over items only, the loop keeps running exactly when every reader ends
      in io.EOF and all parts fit; the body then holds every item's data, in order. */
  lemma {:induction false} DrainSucceeds(w0: Wire, queue: seq<Option<Item>>, encode: string -> string)
    requires forall j :: 0 <= j < |queue| ==> queue[j].Some?
    ensures var d := DrainSpec(w0, queue, encode);
      && (!d.stopped <==> ItemsClean(queue) && Fits(w0.room, ItemsCost(queue)))
      && (!d.stopped ==> d.wire == w0.(parts := w0.parts + ItemParts(queue, encode), room := Spend(w0.room, ItemsCost(queue))))
    decreases |queue|
  {
    if queue != [] {
      var i := |queue| - 1;
      var init := queue[..i];
      assert queue[i].Some?;
      var x := queue[i].value;
      assert forall j :: 0 <= j < |init| ==> init[j].Some? by {
        assert forall j :: 0 <= j < |init| ==> init[j] == queue[j];
      }
      DrainSucceeds(w0, init, encode);
      var prev := DrainSpec(w0, init, encode);
      var cost := 1 + |x.r.data|;
      assert ItemsCost(queue) == ItemsCost(init) + cost;
      assert ItemsClean(queue) <==> ItemsClean(init) && EndOf(x.r) == EOF;
      var d := DrainSpec(w0, queue, encode);
      if !prev.stopped {
        assert d == Receive(prev, i, x, encode);
        ReceiveAfter(w0, prev, i, x, ItemsCost(init), ItemParts(init, encode), encode);
        assert ItemParts(queue, encode) == ItemParts(init, encode) + [Part(FileField, Some(encode(x.filename)), x.r.data)];
      } else {
        assert d == prev;
      }
    }
  }

  /** The values up to the sentinel at `k` are items: the upload latches
      nothing exactly when every reader ends in io.EOF and everything fits;
      the server then receives the items' parts in order, the `request` field
      only when no item came before the sentinel, and the closing boundary,
      and readers 0 to k-1 were each closed once. */
  lemma QueueUploadsAll(w0: Wire, queue: seq<Option<Item>>, k: nat, bod: seq<byte>, encode: string -> string)
    requires k < |queue| && queue[k].None? && forall j :: 0 <= j < k ==> queue[j].Some?
    ensures var p := QueueSpec(w0, queue, bod, encode);
      && (p.latched.None? <==>
            ItemsClean(queue[..k]) && Fits(w0.room, ItemsCost(queue[..k]) + (if k == 0 then RequestCost(bod) else 0) + 1))
      && (p.latched.None? ==>
            && p.wire.parts == w0.parts + ItemParts(queue[..k], encode) + (if k == 0 then RequestParts(bod) else [])
            && p.wire.finished
            && |p.closed| == k && forall j :: 0 <= j < k ==> p.closed[j] == j)
  {
    var pre := queue[..k];
    assert queue[..k + 1][..k] == pre;
    DrainSucceeds(w0, pre, encode);
    DrainShape(w0, pre, encode);
    var dk := DrainSpec(w0, pre, encode);
    if !dk.stopped {
      DrainStopsAtStop(w0, queue, k + 1, encode);
      var d := DrainSpec(w0, queue, encode);
      assert d == dk.(stopped := true);
      EpilogueClean(dk.wire, k == 0, bod);
      LatchedNone(None, Epilogue(dk.wire, k == 0, bod));
    } else {
      DrainStopsAtStop(w0, queue, k, encode);
      LatchedNone(dk.err, Epilogue(dk.wire, false, bod));
    }
  }
}
