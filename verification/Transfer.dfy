/** One guarded write, and a payload written a chunk at a time. */
module Transfer {
  import opened Ble

  /** How a backend write ends. `late` says the bound had already fired when the
      backend raised; `Hangs` never returns by itself. */
  datatype WriteEnd = Completes | Fails(error: Error, late: bool) | Hangs | Interrupted

  datatype WriteScript = WriteScript(end: WriteEnd, drops: bool)

  /** What the environment does around one chunk: the write, the `on_chunk`
      callback (which may raise, or see the link go), and the gap. */
  datatype ChunkScript = ChunkScript(
    write: WriteScript,
    callback: Option<Error>,
    callbackDrops: bool,
    gapDrops: bool,
    gapInterrupted: bool)

  function EventOf(client: Client, event: DropEvent?): DropEvent? {
    if event == null then client.registered else event
  }

  /** The drop check in front of a write, then the write is on its way. */
  method StartWrite(client: Client, data: Bytes, step: string, event: DropEvent?) returns (started: bool)
    modifies client
    ensures started == !IsSet(EventOf(client, event))
    ensures client.issued == old(client.issued) + (if started then [Issue(data, false)] else [])
    ensures client.written == old(client.written)
  {
    var ev := EventOf(client, event);
    if ev != null && ev.isSet {
      return false;
    }
    client.issued := client.issued + [Issue(data, ev != null && ev.isSet)];
    return true;
  }

  /** What a write that ended as `end` means, with the link known `down` or not by then. */
  ghost predicate Means<T>(r: Result<T>, end: WriteEnd, bounded: bool, down: bool, step: string) {
    && (r.Returned? <==> end == Completes)
    && (r.Unfinished? <==> end == Hangs && !bounded)
    && (end == Interrupted ==> r == Raised(CancelledError))
    && (end.Fails? && (end.error != TimeoutError || !end.late) ==> r == Raised(end.error))
    && ((end == Hangs && bounded) || (end.Fails? && end.late && end.error == TimeoutError) ==>
          r == Raised(if down then SessionDropped(step) else WriteTimeout(step)))
  }

  /** The write ends; a bound that fired is renamed, anything else passes unchanged. */
  method FinishWrite(client: Client, data: Bytes, step: string, bounded: bool, event: DropEvent?, end: WriteEnd)
    returns (r: Result<()>)
    modifies client
    ensures Means(r, end, bounded, IsSet(EventOf(client, event)), step)
    ensures client.written == old(client.written) + (if r.Returned? then [data] else [])
    ensures client.issued == old(client.issued)
  {
    var ev := EventOf(client, event);
    var expired, raised := false, CancelledError;
    match end {
      case Completes =>
        client.written := client.written + [data];
        return Returned(());
      case Interrupted =>
        return Raised(CancelledError);
      case Hangs =>
        if !bounded { return Unfinished; }
        expired, raised := true, TimeoutError;
      case Fails(e, late) =>
        expired, raised := late, e;
    }
    if raised != TimeoutError || !expired {
      return Raised(raised);
    }
    if ev != null && ev.isSet {
      return Raised(SessionDropped(step));
    }
    return Raised(WriteTimeout(step));
  }

  /** The bound is the link's failure if that is known to be down. */
  function BoundError(down: bool, step: string): Error {
    if down then SessionDropped(step) else WriteTimeout(step)
  }

  method GuardedWrite(client: Client, data: Bytes, step: string, bounded: bool, event: DropEvent?, w: WriteScript)
    returns (r: Result<()>)
    modifies client, EventOf(client, event)
    ensures var ev := EventOf(client, event); ev != null ==> ev.isSet == (old(IsSet(ev)) || w.drops)
    ensures old(IsSet(EventOf(client, event))) ==>
      r == Raised(SessionDropped(step)) && client.issued == old(client.issued) && client.written == old(client.written)
    ensures !old(IsSet(EventOf(client, event))) ==>
      && client.issued == old(client.issued) + [Issue(data, false)]
      && client.written == old(client.written) + (if r.Returned? then [data] else [])
      && Means(r, w.end, bounded, IsSet(EventOf(client, event)), step)
    ensures !old(IsSet(EventOf(client, event))) ==>
      match w.end
      case Completes => r.Returned?
      case Interrupted => r == Raised(CancelledError)
      case Hangs => if bounded then r == Raised(BoundError(IsSet(EventOf(client, event)), step)) else r == Unfinished
      case Fails(error, late) =>
        r == Raised(if error == TimeoutError && late then BoundError(IsSet(EventOf(client, event)), step) else error)
  {
    var ev := EventOf(client, event);
    var started := StartWrite(client, data, step, event);
    if w.drops && ev != null { ev.isSet := true; }
    if !started { return Raised(SessionDropped(step)); }
    r := FinishWrite(client, data, step, bounded, event, w.end);
  }

  // ── Slicing ──────────────────────────────────────────────────────────────

  /** The consecutive slices of `data`, `size` bytes each, the last one shorter. */
  function Pieces(data: Bytes, size: nat): (r: seq<Bytes>)
    requires size >= 1
    decreases |data|
  {
    if data == [] then []
    else if |data| <= size then [data]
    else [data[..size]] + Pieces(data[size..], size)
  }

  /** The slices are what a transfer needs them to be: together the data, each of
      the full size but the last, and no more of them than that takes. */
  lemma {:induction false} PiecesPartition(data: Bytes, size: nat)
    requires size >= 1
    ensures var p := Pieces(data, size);
      Join(p) == data && (|p| - 1) * size < |data| <= |p| * size && FullButLast(p, size)
  {
    PiecesJoin(data, size);
    PiecesCount(data, size);
  }

  /** Each part has some bytes, at most `size`, and exactly that but for the last. */
  predicate FullButLast(parts: seq<Bytes>, size: nat) {
    && (forall i :: 0 <= i < |parts| ==> 1 <= |parts[i]| <= size)
    && (forall i :: 0 <= i < |parts| - 1 ==> |parts[i]| == size)
  }

  lemma {:induction false} PiecesJoin(data: Bytes, size: nat)
    requires size >= 1
    ensures Join(Pieces(data, size)) == data && FullButLast(Pieces(data, size), size)
    decreases |data|
  {
    hide FullButLast, Join;
    if |data| > size {
      PiecesJoin(data[size..], size);
      OnePartMore(data[..size], Pieces(data[size..], size), size);
      assert data[..size] + data[size..] == data;
    } else {
      OnePart(data, size);
    }
  }

  lemma {:induction false} OnePartMore(first: Bytes, rest: seq<Bytes>, size: nat)
    requires size >= 1 && |first| == size && FullButLast(rest, size)
    ensures FullButLast([first] + rest, size) && Join([first] + rest) == first + Join(rest)
  {
    assert ([first] + rest)[1..] == rest;
    forall i | 0 < i < |rest| + 1 ensures ([first] + rest)[i] == rest[i - 1] {}
  }

  lemma {:induction false} OnePart(data: Bytes, size: nat)
    requires |data| <= size
    ensures var parts := if data == [] then [] else [data]; Join(parts) == data && FullButLast(parts, size)
  {
    if data != [] { assert [data][1..] == [] && data + [] == data; }
  }

  lemma {:induction false} PiecesCount(data: Bytes, size: nat)
    requires size >= 1
    ensures (|Pieces(data, size)| - 1) * size < |data| <= |Pieces(data, size)| * size
    decreases |data|
  {
    if |data| > size {
      var n := |Pieces(data[size..], size)|;
      PiecesCount(data[size..], size);
      OneMore(n, size);
      OneMore(n - 1, size);
    }
  }

  lemma {:induction false} OneMore(n: int, size: nat)
    ensures (n + 1) * size == n * size + size
  {}

  /** The first `k` slices are exactly the first `k * size` bytes. */
  lemma {:induction false} PiecesPrefix(data: Bytes, size: nat, k: nat)
    requires size >= 1 && k <= |Pieces(data, size)|
    ensures Join(Pieces(data, size)[..k]) == data[..if k * size <= |data| then k * size else |data|]
    decreases k
  {
    if k == 0 {
    } else if |data| <= size {
      assert Pieces(data, size)[..1] == [data];
      assert [data][1..] == [];
      assert k * size >= size;
    } else {
      var rest := data[size..];
      PiecesPrefix(rest, size, k - 1);
      assert Pieces(data, size)[..k] == [data[..size]] + Pieces(rest, size)[..k - 1];
      assert k * size == (k - 1) * size + size;
    }
  }

  function Cut(data: Bytes, size: nat, offset: nat): Bytes
    requires offset <= |data|
  {
    data[offset..if offset + size <= |data| then offset + size else |data|]
  }

  /** Slice number `i` is what a loop over offsets `0, size, 2 * size, ...` cuts out. */
  lemma {:induction false} PieceAt(data: Bytes, size: nat, i: nat, offset: nat)
    requires size >= 1 && offset == i * size
    ensures i < |Pieces(data, size)| <==> offset < |data|
    ensures offset < |data| ==> Pieces(data, size)[i] == Cut(data, size, offset)
    decreases i
  {
    if i == 0 {
      if 0 < |data| <= size { assert Cut(data, size, 0) == data; }
    } else {
      OneLess(i, size);
      if |data| > size {
        PieceAt(data[size..], size, i - 1, offset - size);
        assert offset < |data| ==> Cut(data[size..], size, offset - size) == Cut(data, size, offset);
      }
    }
  }

  lemma {:induction false} OneLess(i: nat, size: nat)
    requires i >= 1
    ensures (i - 1) * size == i * size - size >= 0
  {
    assert (i - 1) * size >= 0;
  }

  /** The bytes of write number `i`. */
  function Framed(data: Bytes, size: nat, wrap: Option<(nat, Bytes) -> Bytes>, i: nat): Bytes
    requires size >= 1 && i < |Pieces(data, size)|
  {
    var piece := Pieces(data, size)[i];
    if wrap.Some? then wrap.value(i * size, piece) else piece
  }

  /** The bytes of the first `n` writes. */
  function FirstWrites(data: Bytes, size: nat, wrap: Option<(nat, Bytes) -> Bytes>, n: nat): seq<Bytes>
    requires size >= 1 && n <= |Pieces(data, size)|
  {
    if n == 0 then [] else FirstWrites(data, size, wrap, n - 1) + [Framed(data, size, wrap, n - 1)]
  }

  /** Each write holds the slice at its place, framed by `wrap` with the number of bytes
      in all the slices before it. */
  lemma {:induction false} WroteAddressed(
      was: seq<Bytes>, data: Bytes, size: nat, wrap: Option<(nat, Bytes) -> Bytes>, n: nat, written: seq<Bytes>, i: nat)
    requires Wrote(was, data, size, wrap, n, written) && i < n
    ensures var offset := |Join(Pieces(data, size)[..i])|;
      && offset == i * size < |data| && |written| == |was| + n
      && var slice := data[offset..if offset + size <= |data| then offset + size else |data|];
         written[|was| + i] == if wrap.Some? then wrap.value(offset, slice) else slice
  {
    hide Pieces;
    PieceAt(data, size, i, i * size);
    PiecesPrefix(data, size, i);
    FirstWriteAt(data, size, wrap, n, i);
  }

  lemma {:induction false} FirstWriteAt(
      data: Bytes, size: nat, wrap: Option<(nat, Bytes) -> Bytes>, n: nat, i: nat)
    requires size >= 1 && i < n <= |Pieces(data, size)|
    ensures |FirstWrites(data, size, wrap, n)| == n
    ensures FirstWrites(data, size, wrap, n)[i] == Framed(data, size, wrap, i)
  {
    hide Pieces, Framed;
    if i < n - 1 {
      FirstWriteAt(data, size, wrap, n - 1, i);
    } else if i > 0 {
      FirstWriteAt(data, size, wrap, n - 1, i - 1);
    }
  }

  /** The calls of the first `n` writes, each made with the link not known to be down. */
  function Issues(writes: seq<Bytes>): seq<Issue> {
    seq(|writes|, i requires 0 <= i < |writes| => Issue(writes[i], false))
  }

  // ── write_chunks ─────────────────────────────────────────────────────────

  /** What follows a write that returned: the callback, then the gap. */
  function Afterwards(gap: bool, env: ChunkScript): Result<()> {
    if env.callback.Some? then Raised(env.callback.value)
    else if gap && env.gapInterrupted then Raised(CancelledError)
    else Returned(())
  }

  /** The link goes somewhere in a round that went through. */
  predicate Drops(gap: bool, env: ChunkScript) {
    env.write.drops || env.callbackDrops || (gap && env.gapDrops)
  }

  /** One round of the loop, from the drop check to the end of the gap. `wrote`
      says whether the write returned, and with it whether `on_chunk` ran. */
  method SendChunk(client: Client, chunk: Bytes, step: string, gap: bool, bounded: bool, env: ChunkScript)
    returns (r: Result<()>, wrote: bool)
    modifies client, client.registered
    ensures wrote <==> !old(IsSet(client.registered)) && env.write.end == Completes
    ensures client.written == old(client.written) + (if wrote then [chunk] else [])
    ensures client.issued == old(client.issued) + (if old(IsSet(client.registered)) then [] else [Issue(chunk, false)])
    ensures old(IsSet(client.registered)) ==> IsSet(client.registered) && r == Raised(SessionDropped(step))
    ensures !old(IsSet(client.registered)) && !wrote ==>
      !r.Returned? && Means(r, env.write.end, bounded, IsSet(client.registered), step)
    ensures wrote ==> r == Afterwards(gap, env)
    ensures wrote ==>
      if env.callback.Some? then r == Raised(env.callback.value)
      else if gap && env.gapInterrupted then r == Raised(CancelledError) else r == Returned(())
    ensures r.Returned? ==> (IsSet(client.registered) <==> client.registered != null && Drops(gap, env))
    ensures r.Returned? && client.registered != null ==>
      (client.registered.isSet <==> env.write.drops || env.callbackDrops || (gap && env.gapDrops))
  {
    var event := client.registered;
    if event != null && event.isSet {
      return Raised(SessionDropped(step)), false;
    }
    r := GuardedWrite(client, chunk, step, bounded, event, env.write);
    if !r.Returned? { return r, false; }
    if env.callbackDrops && event != null { event.isSet := true; }
    if env.callback.Some? { return Raised(env.callback.value), true; }
    if gap {
      if env.gapDrops && event != null { event.isSet := true; }
      if env.gapInterrupted { return Raised(CancelledError), true; }
    }
    return Returned(()), true;
  }

  /** `was`, and then the first `n` writes. */
  predicate Wrote(
      was: seq<Bytes>, data: Bytes, size: nat, wrap: Option<(nat, Bytes) -> Bytes>, n: nat, written: seq<Bytes>)
  {
    size >= 1 && n <= |Pieces(data, size)| && written == was + FirstWrites(data, size, wrap, n)
  }

  lemma {:induction false} WroteNothing(
      was: seq<Bytes>, data: Bytes, size: nat, wrap: Option<(nat, Bytes) -> Bytes>)
    requires size >= 1
    ensures Wrote(was, data, size, wrap, 0, was)
  {
    assert was + [] == was;
  }

  lemma {:induction false} WroteCount(
      was: seq<Bytes>, data: Bytes, size: nat, wrap: Option<(nat, Bytes) -> Bytes>, n: nat, written: seq<Bytes>)
    requires Wrote(was, data, size, wrap, n, written)
    ensures n <= |Pieces(data, size)|
  {}

  lemma {:induction false} WroteNext(
      was: seq<Bytes>, data: Bytes, size: nat, wrap: Option<(nat, Bytes) -> Bytes>, n: nat, written: seq<Bytes>)
    requires Wrote(was, data, size, wrap, n, written) && n < |Pieces(data, size)|
    ensures Wrote(was, data, size, wrap, n + 1, written + [Framed(data, size, wrap, n)])
  {}

  /** `was`, and then the calls of the first `n` writes. */
  predicate Called(
      was: seq<Issue>, data: Bytes, size: nat, wrap: Option<(nat, Bytes) -> Bytes>, n: nat, issued: seq<Issue>)
  {
    size >= 1 && n <= |Pieces(data, size)| && issued == was + Issues(FirstWrites(data, size, wrap, n))
  }

  lemma {:induction false} CalledNothing(
      was: seq<Issue>, data: Bytes, size: nat, wrap: Option<(nat, Bytes) -> Bytes>)
    requires size >= 1
    ensures Called(was, data, size, wrap, 0, was)
  {
    assert was + [] == was;
  }

  lemma {:induction false} CalledNext(
      was: seq<Issue>, data: Bytes, size: nat, wrap: Option<(nat, Bytes) -> Bytes>, n: nat, issued: seq<Issue>)
    requires Called(was, data, size, wrap, n, issued) && n < |Pieces(data, size)|
    ensures |issued| == |was| + n
    ensures Called(was, data, size, wrap, n + 1, issued + [Issue(Framed(data, size, wrap, n), false)])
  {
    hide Pieces, Framed;
    var init := FirstWrites(data, size, wrap, n);
    if n > 0 { FirstWriteAt(data, size, wrap, n, 0); }
    assert Issues(init + [Framed(data, size, wrap, n)]) == Issues(init) + [Issue(Framed(data, size, wrap, n), false)];
  }

  /** The first `n` rounds went through. */
  predicate WentThrough(script: nat -> ChunkScript, gap: bool, n: nat) {
    forall i :: 0 <= i < n ==> script(i).write.end == Completes && Afterwards(gap, script(i)) == Returned(())
  }

  /** Why a transfer that did not return stopped after `done` writes: what followed
      the last of them, the drop check in front of the next one, if there was one
      `more`, so that was not `issued`, or the next one itself. */
  ghost predicate Stopped(
      r: Result<nat>, done: nat, more: bool, issued: bool, gap: bool, bounded: bool, down: bool, step: string,
      script: nat -> ChunkScript)
  {
    || (!issued && done > 0 && r.Raised? && Afterwards(gap, script(done - 1)) == Raised(r.error))
    || (!issued && more && r == Raised(SessionDropped(step)) && down)
    || (issued && script(done).write.end != Completes && Means(r, script(done).write.end, bounded, down, step))
  }

  /** In none of the first `n` rounds did the link go. */
  predicate StaysUp(script: nat -> ChunkScript, gap: bool, n: int) {
    forall i :: 0 <= i < n ==> !Drops(gap, script(i))
  }

  /** Frames the slice at `offset` and sends it. `now` counts the writes that have
      returned by the end of the round, `stop` is how the transfer ends if it ends here. */
  method SendNext(
      client: Client, data: Bytes, size: nat, step: string, wrap: Option<(nat, Bytes) -> Bytes>,
      gap: bool, bounded: bool, script: nat -> ChunkScript, offset: nat, done: nat,
      ghost was: seq<Bytes>, ghost calls: seq<Issue>)
    returns (stop: Option<Result<nat>>, now: nat)
    requires size >= 1 && offset == done * size < |data|
    requires Wrote(was, data, size, wrap, done, client.written) && Called(calls, data, size, wrap, done, client.issued)
    modifies client, client.registered
    ensures now == done || now == done + 1
    ensures Wrote(was, data, size, wrap, now, client.written)
    ensures |client.issued| == |old(client.issued)| + (if old(IsSet(client.registered)) then 0 else 1)
    ensures Called(calls, data, size, wrap, |client.issued| - |old(client.issued)| + done, client.issued)
    ensures old(IsSet(client.registered)) ==>
      && IsSet(client.registered) && stop == Some(Raised(SessionDropped(step)))
      && now == done && client.issued == old(client.issued)
    ensures stop.Some? ==>
      && !stop.value.Returned?
      && Stopped(stop.value, now, now < |Pieces(data, size)|, |client.issued| > |old(client.issued)| + now - done,
                 gap, bounded, IsSet(client.registered), step, script)
    ensures stop.None? ==> (IsSet(client.registered) <==> client.registered != null && Drops(gap, script(done)))
    ensures now > done ==> script(done).write.end == Completes
    ensures stop.None? ==> now > done && Afterwards(gap, script(done)) == Returned(())
  {
    hide Wrote, Called, Pieces;
    PieceAt(data, size, done, offset);
    WroteNext(was, data, size, wrap, done, client.written);
    CalledNext(calls, data, size, wrap, done, client.issued);
    var chunk := Cut(data, size, offset);
    if wrap.Some? {
      chunk := wrap.value(offset, chunk);
    }
    assert chunk == Framed(data, size, wrap, done);
    assert client.written + [] == client.written && client.issued + [] == client.issued;
    var sent, wrote := SendChunk(client, chunk, step, gap, bounded, script(done));
    now := if wrote then done + 1 else done;
    stop := if sent.Raised? then Some(Raised(sent.error)) else if sent.Unfinished? then Some(Unfinished) else None;
  }

  /** `done` is how many writes returned, `seen` what `on_chunk` was called with. */
  method WriteChunks(
      client: Client, data: Bytes, size: int, step: string, wrap: Option<(nat, Bytes) -> Bytes>,
      gap: bool, bounded: bool, script: nat -> ChunkScript)
    returns (r: Result<nat>, done: nat, seen: seq<nat>)
    modifies client, client.registered
    ensures size < 1 ==> r == Raised(ValueError) && done == 0 && client.issued == old(client.issued)
    ensures size >= 1 ==> Wrote(old(client.written), data, size, wrap, done, client.written)
    ensures |seen| == done && forall i :: 0 <= i < done ==> seen[i] == i + 1
    ensures r.Returned? ==> size >= 1 && r.value == done == |Pieces(data, size)|
    ensures size >= 1 && !r.Returned? ==>
      Stopped(r, done, done < |Pieces(data, size)|, |client.issued| > |old(client.issued)| + done,
              gap, bounded, IsSet(client.registered), step, script)
    ensures client.registered != null ==> StaysUp(script, gap, |client.issued| - |old(client.issued)| - 1)
    ensures WentThrough(script, gap, if r.Returned? || done == 0 then done else done - 1)
    ensures |old(client.issued)| + done <= |client.issued| <= |old(client.issued)| + done + 1
    ensures size >= 1 ==>
      Called(old(client.issued), data, size, wrap, |client.issued| - |old(client.issued)|, client.issued)
    ensures old(IsSet(client.registered)) ==> client.issued == old(client.issued)
    ensures old(IsSet(client.registered)) && size >= 1 && data != [] ==> r == Raised(SessionDropped(step))
  {
    hide Stopped, Pieces, Framed, Drops, Afterwards, Wrote, Called;
    done, seen := 0, [];
    if size < 1 {
      return Raised(ValueError), 0, [];
    }
    var offset := 0;
    WroteNothing(client.written, data, size, wrap);
    CalledNothing(client.issued, data, size, wrap);
    while offset < |data|
      invariant offset == done * size
      invariant Wrote(old(client.written), data, size, wrap, done, client.written)
      invariant |seen| == done && forall i :: 0 <= i < done ==> seen[i] == i + 1
      invariant WentThrough(script, gap, done)
      invariant |client.issued| == |old(client.issued)| + done
      invariant Called(old(client.issued), data, size, wrap, done, client.issued)
      invariant client.registered != null ==> StaysUp(script, gap, done - 1)
      invariant done > 0 ==> (IsSet(client.registered) <==> client.registered != null && Drops(gap, script(done - 1)))
      invariant old(IsSet(client.registered)) ==>
        done == 0 && IsSet(client.registered) && client.issued == old(client.issued)
      decreases |data| - offset
    {
      PieceAt(data, size, done, offset);
      var stop, now := SendNext(client, data, size, step, wrap, gap, bounded, script, offset, done,
        old(client.written), old(client.issued));
      if now > done { seen := seen + [now]; }
      done := now;
      if stop.Some? { return stop.value, done, seen; }
      offset := offset + size;
    }
    PieceAt(data, size, done, offset);
    WroteCount(old(client.written), data, size, wrap, done, client.written);
    return Returned(done), done, seen;
  }

  /** Unframed, the first `done` writes are the first `done * size` bytes of the data. */
  lemma {:induction false} ProgressBytes(data: Bytes, size: nat, done: nat)
    requires size >= 1 && done <= |Pieces(data, size)|
    ensures Join(FirstWrites(data, size, None, done)) == data[..if done * size <= |data| then done * size else |data|]
  {
    FirstPieces(data, size, done);
    PiecesPrefix(data, size, done);
  }

  lemma {:induction false} FirstPieces(data: Bytes, size: nat, n: nat)
    requires size >= 1 && n <= |Pieces(data, size)|
    ensures FirstWrites(data, size, None, n) == Pieces(data, size)[..n]
  {
    if n > 0 {
      FirstPieces(data, size, n - 1);
      assert Pieces(data, size)[..n] == Pieces(data, size)[..n - 1] + [Pieces(data, size)[n - 1]];
    }
  }
}
