/** The producer side of the two multipart uploads of internal/apiclient/requests.go
    (requestMultipartFolder and requestMultipartReaders), with the goroutine
    collapsed into a sequential run.

    The multipart writer and the pipe it writes into are one object, `Body`.
    The HTTP transport on the other end of the pipe is represented by `room`:
    the number of units it still reads before closing its end (None: it reads
    everything). A part header costs one unit, every byte of part data one
    unit and the closing boundary one unit; a write that does not fit delivers
    what fits and fails with io.ErrClosedPipe, as io.Pipe does once its reader
    is closed. */
module Multipart {
  import opened Base

  /** The CopyN chunk size of both upload loops: 5 MiB. */
  const ChunkSize: nat := 1024 * 1024 * 5
  /** Form field name of every uploaded file. */
  const FileField: string := "file"
  /** Form field name of the JSON request body sent with an upload. */
  const RequestField: string := "request"

  /** One form part as the server receives it. `filename` is set for the
      parts made by CreateFormFile and absent for WriteField. */
  datatype Part = Part(field: string, filename: Option<string>, data: seq<byte>)

  /** A readable byte source: it yields `data`, then either io.EOF or `fault`. */
  datatype Source = Source(data: seq<byte>, fault: Option<Error>)

  /** The error a read returns once a source is exhausted. */
  function EndOf(src: Source): Error {
    if src.fault.Some? then src.fault.value else EOF
  }

  /** The state of the multipart body as a value: the parts written so far,
      the room left in the pipe, and whether the closing boundary was written. */
  datatype Wire = Wire(parts: seq<Part>, room: Option<nat>, finished: bool)

  /** The state after one writer operation, and the error it returned. */
  datatype Step = Step(wire: Wire, err: Option<Error>)

  predicate Fits(room: Option<nat>, k: nat) {
    room.None? || k <= room.value
  }

  function Spend(room: Option<nat>, k: nat): Option<nat>
    requires Fits(room, k)
  {
    if room.None? then None else Some(room.value - k)
  }

  /** Appends `data` to the part being written (the last one). */
  function Extend(parts: seq<Part>, data: seq<byte>): seq<Part>
    requires parts != []
  {
    parts[..|parts| - 1] + [parts[|parts| - 1].(data := parts[|parts| - 1].data + data)]
  }

  lemma ExtendNothing(parts: seq<Part>)
    requires parts != []
    ensures Extend(parts, []) == parts
  {
    assert parts[|parts| - 1].data + [] == parts[|parts| - 1].data;
  }

  lemma ExtendTwice(parts: seq<Part>, a: seq<byte>, b: seq<byte>)
    requires parts != []
    ensures Extend(Extend(parts, a), b) == Extend(parts, a + b)
  {
    var p := Extend(parts, a);
    assert p[..|p| - 1] == parts[..|parts| - 1];
    assert p[|p| - 1].data + b == parts[|parts| - 1].data + (a + b);
  }

  /** Writing into a part just created fills exactly that part. */
  lemma ExtendFresh(parts: seq<Part>, p: Part, data: seq<byte>)
    requires p.data == []
    ensures Extend(parts + [p], data) == parts + [p.(data := data)]
  {
    assert (parts + [p])[..|parts|] == parts;
    assert p.data + data == data;
  }

  /** multipart.Writer.CreatePart: writes the header of a new part. */
  function CreatePart(w: Wire, field: string, filename: Option<string>): (s: Step)
    ensures s.err.None? <==> Fits(w.room, 1)
    ensures s.err.None? ==> s.wire.parts == w.parts + [Part(field, filename, [])]
    ensures s.err.Some? ==> s.err == Some(ErrClosedPipe) && s.wire == w
  {
    if Fits(w.room, 1) then Step(w.(parts := w.parts + [Part(field, filename, [])], room := Spend(w.room, 1)), None)
    else Step(w, Some(ErrClosedPipe))
  }

  /** Writing `data` into the current part: everything arrives, or what fits
      arrives and the write fails with io.ErrClosedPipe. */
  function WriteData(w: Wire, data: seq<byte>): (s: Step)
    requires w.parts != []
    ensures s.err.None? <==> Fits(w.room, |data|)
    ensures s.err.None? ==> s.wire == w.(parts := Extend(w.parts, data), room := Spend(w.room, |data|))
    ensures s.err.Some? ==>
      && s.err == Some(ErrClosedPipe) && w.room.Some? && w.room.value < |data|
      && s.wire == w.(parts := Extend(w.parts, data[..w.room.value]), room := Some(0))
  {
    if Fits(w.room, |data|) then Step(w.(parts := Extend(w.parts, data), room := Spend(w.room, |data|)), None)
    else Step(w.(parts := Extend(w.parts, data[..w.room.value]), room := Some(0)), Some(ErrClosedPipe))
  }

  /** multipart.Writer.WriteField: a part without a filename holding `value`. */
  function AddField(w: Wire, name: string, value: seq<byte>): Step {
    var s := CreatePart(w, name, None);
    if s.err.Some? then s else WriteData(s.wire, value)
  }

  /** WriteField succeeds exactly when the header and the value fit, and then
      the value is a new last part without a filename. */
  lemma AddFieldWrites(w: Wire, name: string, value: seq<byte>)
    ensures var s := AddField(w, name, value);
      && (s.err.None? <==> Fits(w.room, 1 + |value|))
      && (s.err.None? ==> s.wire == w.(parts := w.parts + [Part(name, None, value)], room := Spend(w.room, 1 + |value|)))
  {
    if Fits(w.room, 1) {
      ExtendFresh(w.parts, Part(name, None, []), value);
    }
  }

  /** multipart.Writer.Close: writes the closing boundary. */
  function Finish(w: Wire): (s: Step)
    ensures s.wire.parts == w.parts
    ensures s.err.None? <==> s.wire.finished && Fits(w.room, 1)
  {
    if Fits(w.room, 1) then Step(w.(room := Spend(w.room, 1), finished := true), None)
    else Step(w.(finished := false), Some(ErrClosedPipe))
  }

  /** What copying a whole source into the current part amounts to: the data
      is written, then the loop ends on the error the source ends with (io.EOF
      for a clean end), unless the write itself failed. */
  function Copy(w: Wire, src: Source): (s: Step)
    requires w.parts != []
    ensures s.wire == WriteData(w, src.data).wire
    ensures Fits(w.room, |src.data|) ==> s.err == Some(EndOf(src))
    ensures !Fits(w.room, |src.data|) ==> s.err == Some(ErrClosedPipe)
  {
    var s := WriteData(w, src.data);
    if s.err.Some? then s else Step(s.wire, Some(EndOf(src)))
  }

  /** The first non-nil error among those offered, in order. */
  function FirstError(offers: seq<Option<Error>>): Option<Error> {
    if offers == [] then None
    else if offers[0].Some? then offers[0]
    else FirstError(offers[1..])
  }

  /** Offering one more error changes the latched one only if none was latched. */
  lemma {:induction false} FirstErrorAppend(offers: seq<Option<Error>>, e: Option<Error>)
    ensures FirstError(offers + [e]) == if FirstError(offers).Some? then FirstError(offers) else e
    decreases |offers|
  {
    if offers == [] {
      assert [] + [e] == [e];
      assert [e][1..] == [];
    } else {
      assert (offers + [e])[0] == offers[0];
      assert (offers + [e])[1..] == offers[1..] + [e];
      FirstErrorAppend(offers[1..], e);
    }
  }

  /** Once an error is latched, no later offer changes it. */
  lemma {:induction false} FirstErrorKept(offers: seq<Option<Error>>, later: seq<Option<Error>>)
    requires FirstError(offers).Some?
    ensures FirstError(offers + later) == FirstError(offers)
    decreases |later|
  {
    if later != [] {
      var init := later[..|later| - 1];
      assert offers + later == (offers + init) + [later[|later| - 1]];
      FirstErrorKept(offers, init);
      FirstErrorAppend(offers + init, later[|later| - 1]);
    } else {
      assert offers + later == offers;
    }
  }

  /** The latched error is an offered one, every offer before it was nil, and
      nothing is latched only when every offer was nil. */
  lemma {:induction false} FirstErrorIsFirst(offers: seq<Option<Error>>)
    ensures FirstError(offers).None? <==> forall i :: 0 <= i < |offers| ==> offers[i].None?
    ensures FirstError(offers).Some? ==>
      exists i :: 0 <= i < |offers| && offers[i] == FirstError(offers)
        && forall j :: 0 <= j < i ==> offers[j].None?
    decreases |offers|
  {
    if offers != [] && offers[0].None? {
      FirstErrorIsFirst(offers[1..]);
      if FirstError(offers).Some? {
        var i :| 0 <= i < |offers[1..]| && offers[1..][i] == FirstError(offers[1..])
          && forall j :: 0 <= j < i ==> offers[1..][j].None?;
        assert offers[i + 1] == FirstError(offers);
        forall j | 0 <= j < i + 1 ensures offers[j].None? {
          if j > 0 { assert offers[j] == offers[1..][j - 1]; }
        }
      } else {
        forall i | 0 <= i < |offers| ensures offers[i].None? {
          if i > 0 { assert offers[i] == offers[1..][i - 1]; }
        }
      }
    } else if offers != [] {
      assert offers[0] == FirstError(offers);
    }
  }

  /** The `writeErr` variable with its `sync.Once`: `setErr` keeps the first
      non-nil error it is given. `offers` records every call, in order. */
  class Latch {
    var writeErr: Option<Error>
    var done: bool
    ghost var offers: seq<Option<Error>>

    ghost predicate Valid()
      reads this
    {
      writeErr == FirstError(offers) && (done <==> writeErr.Some?)
    }

    constructor()
      ensures Valid() && offers == [] && writeErr == None
    {
      writeErr := None;
      done := false;
      offers := [];
    }

    /** setErr */
    method Set(err: Option<Error>)
      requires Valid()
      modifies this
      ensures Valid() && offers == old(offers) + [err]
      ensures writeErr == if old(writeErr).Some? then old(writeErr) else err
    {
      if err.Some? {
        if !done {
          done := true;
          writeErr := err;
        }
      }
      FirstErrorAppend(offers, err);
      offers := offers + [err];
    }
  }

  /** The multipart writer together with the writing end of the pipe. */
  class Body {
    var parts: seq<Part>
    var room: Option<nat>
    var finished: bool
    var pipeClosed: bool

    function State(): Wire
      reads this
    {
      Wire(parts, room, finished)
    }

    constructor(room: Option<nat>)
      ensures State() == Wire([], room, false) && !pipeClosed
    {
      parts := [];
      this.room := room;
      finished := false;
      pipeClosed := false;
    }

    method CreateFormFile(field: string, filename: string) returns (err: Option<Error>)
      modifies this
      ensures Step(State(), err) == CreatePart(old(State()), field, Some(filename))
      ensures pipeClosed == old(pipeClosed)
    {
      if room.None? || 1 <= room.value {
        parts := parts + [Part(field, Some(filename), [])];
        room := Spend(room, 1);
        err := None;
      } else {
        err := Some(ErrClosedPipe);
      }
    }

    /** Write on the writer of the current part; `n` bytes arrive. */
    method Write(data: seq<byte>) returns (n: nat, err: Option<Error>)
      requires parts != []
      modifies this
      ensures Step(State(), err) == WriteData(old(State()), data)
      ensures n <= |data| && parts == Extend(old(parts), data[..n])
      ensures err.None? ==> n == |data|
      ensures pipeClosed == old(pipeClosed)
    {
      if room.None? || |data| <= room.value {
        n := |data|;
        err := None;
      } else {
        n := room.value;
        err := Some(ErrClosedPipe);
      }
      assert data[..n] == if err.None? then data else data[..room.value];
      parts := Extend(parts, data[..n]);
      room := if err.None? then Spend(room, n) else Some(0);
    }

    method WriteField(name: string, value: seq<byte>) returns (err: Option<Error>)
      modifies this
      ensures Step(State(), err) == AddField(old(State()), name, value)
      ensures pipeClosed == old(pipeClosed)
    {
      if room.None? || 1 <= room.value {
        parts := parts + [Part(name, None, [])];
        room := Spend(room, 1);
        var n;
        n, err := Write(value);
      } else {
        err := Some(ErrClosedPipe);
      }
    }

    /** formWriter.Close */
    method Close() returns (err: Option<Error>)
      modifies this
      ensures Step(State(), err) == Finish(old(State()))
      ensures pipeClosed == old(pipeClosed)
    {
      if room.None? || 1 <= room.value {
        room := Spend(room, 1);
        finished := true;
        err := None;
      } else {
        finished := false;
        err := Some(ErrClosedPipe);
      }
    }

    /** bodyWriter.Close: io.PipeWriter.Close always returns nil. */
    method ClosePipe() returns (err: Option<Error>)
      modifies this
      ensures err.None? && pipeClosed && State() == old(State())
    {
      pipeClosed := true;
      err := None;
    }
  }

  /** io.CopyN(part, src, n) with the source already read up to `pos`: it
      moves min(n, what is left) bytes; it reports no error only when it moved
      all n, and otherwise the write error or the error the source ends with. */
  method CopyN(body: Body, src: Source, pos: nat, n: nat) returns (written: nat, err: Option<Error>)
    requires body.parts != [] && pos <= |src.data|
    modifies body
    ensures var k := if n < |src.data| - pos then n else |src.data| - pos;
      var s := WriteData(old(body.State()), src.data[pos..pos + k]);
      && body.State() == s.wire
      && (s.err.Some? ==> err == s.err)
      && (s.err.None? ==> written == k && err == if k == n then None else Some(EndOf(src)))
    ensures body.pipeClosed == old(body.pipeClosed)
  {
    var k := if n < |src.data| - pos then n else |src.data| - pos;
    if k > 0 {
      var w, e := body.Write(src.data[pos..pos + k]);
      if e.Some? {
        return w, e;
      }
    } else {
      assert src.data[pos..pos + k] == [];
      ExtendNothing(body.parts);
      assert body.State() == body.State().(room := Spend(body.room, 0));
    }
    if k == n {
      return n, None;
    }
    return k, Some(EndOf(src));
  }

  /** The body after the first `pos` bytes of `src` were written into the current part. */
  function CopiedSoFar(w0: Wire, src: Source, pos: nat): Wire
    requires w0.parts != [] && pos <= |src.data| && Fits(w0.room, pos)
  {
    w0.(parts := Extend(w0.parts, src.data[..pos]), room := Spend(w0.room, pos))
  }

  /** One chunk of the copy loop: written in full it moves the copy forward;
      cut short it leaves the body as one write of the whole source would. */
  lemma ChunkStep(w0: Wire, src: Source, pos: nat, k: nat)
    requires w0.parts != [] && pos + k <= |src.data| && Fits(w0.room, pos)
    ensures var s := WriteData(CopiedSoFar(w0, src, pos), src.data[pos..pos + k]);
      && (s.err.None? ==> Fits(w0.room, pos + k) && s.wire == CopiedSoFar(w0, src, pos + k))
      && (s.err.Some? ==> s == WriteData(w0, src.data))
  {
    var before := CopiedSoFar(w0, src, pos);
    var chunk := src.data[pos..pos + k];
    var s := WriteData(before, chunk);
    if s.err.Some? {
      assert src.data[..pos] + chunk[..before.room.value] == src.data[..pos + before.room.value];
      ExtendTwice(w0.parts, src.data[..pos], chunk[..before.room.value]);
    } else {
      assert src.data[..pos] + chunk == src.data[..pos + k];
      ExtendTwice(w0.parts, src.data[..pos], chunk);
    }
  }

  /** The copy loop ends once the source is exhausted. */
  lemma CopyComplete(w0: Wire, src: Source)
    requires w0.parts != [] && Fits(w0.room, |src.data|)
    ensures Copy(w0, src) == Step(CopiedSoFar(w0, src, |src.data|), Some(EndOf(src)))
  {
    assert src.data[..|src.data|] == src.data;
  }

  /** The chunked copy loop (`for { n, err := io.CopyN(part, r, 5 MiB) ... }`):
      it delivers the whole source, in order, exactly as one write of all of
      it would, and ends on io.EOF, the source's read error or the pipe's
      write error. */
  method CopyChunks(body: Body, src: Source) returns (err: Option<Error>)
    requires body.parts != []
    modifies body
    ensures Step(body.State(), err) == Copy(old(body.State()), src)
    ensures body.pipeClosed == old(body.pipeClosed)
  {
    ghost var w0 := body.State();
    var pos := 0;
    assert src.data[..0] == [];
    ExtendNothing(w0.parts);
    while true
      invariant pos <= |src.data| && Fits(w0.room, pos)
      invariant body.State() == CopiedSoFar(w0, src, pos)
      invariant body.pipeClosed == old(body.pipeClosed)
      decreases |src.data| - pos
    {
      ghost var k := if ChunkSize < |src.data| - pos then ChunkSize else |src.data| - pos;
      ChunkStep(w0, src, pos, k);
      var n, e := CopyN(body, src, pos, ChunkSize);
      if e.Some? {
        if Fits(w0.room, |src.data|) {
          CopyComplete(w0, src);
        }
        err := e;
        return;
      }
      if n == 0 {
        err := e;
        return;
      }
      pos := pos + n;
    }
  }
}
