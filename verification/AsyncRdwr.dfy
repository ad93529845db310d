/** Reading or writing a whole buffer as a transfer that is resumed whenever the descriptor becomes ready
    (src/async_rdwr.c). */
module AsyncRdwr {
  import opened IoTypes

  type Byte = bv8

  /** rw_ctx with what it points at: `cursor` is ctx->buf as an offset into the caller's memory, `calls`
      counts the calls of the caller's handler, `live` tells whether the context is still scheduled, `wire`
      are the bytes that went over the descriptor, in order. */
  datatype Rw = Rw(op: WaitType, nbytes: nat, cursor: nat, transferred: nat, errc: ErrCode, calls: nat, live: bool,
                   buffer: seq<Byte>, wire: seq<Byte>)

  /** What the surroundings do in one invocation of rw_impl: the status with which the service calls it, the
      outcome of read() or write(), and the answer of iosvc_sched when the rest is scheduled.  The
      outcome is an error, or `data`; only the part that was asked for can be transferred. */
  datatype Turn = Turn(status: ErrCode, failed: bool, data: seq<Byte>, resched: ErrCode)

  /** The return value of read() or write(). */
  function Result(c: Rw, t: Turn): int {
    if t.failed then -1 else if |t.data| < c.nbytes then |t.data| else c.nbytes
  }

  predicate InBounds(c: Rw) { c.cursor + c.nbytes <= |c.buffer| }

  /** `n` bytes move between the descriptor and the memory at the cursor. */
  function Moved(c: Rw, t: Turn, n: nat): Rw
    requires InBounds(c) && n <= c.nbytes && n <= |t.data|
  {
    if c.op == WaitRead then
      c.(buffer := c.buffer[..c.cursor] + t.data[..n] + c.buffer[c.cursor + n..], wire := c.wire + t.data[..n])
    else c.(wire := c.wire + c.buffer[c.cursor..c.cursor + n])
  }

  function Completed(c: Rw, errc: ErrCode): Rw { c.(errc := errc, calls := c.calls + 1, live := false) }

  /** rw_impl */
  function Turned(c: Rw, t: Turn): Rw
    requires InBounds(c)
  {
    if t.status != EioOk then Completed(c, t.status)
    else
      var n := Result(c, t);
      if n <= 0 then Completed(c, if n == 0 then EioEof else EioSyserr)
      else
        var c1 := Moved(c, t, n).(transferred := c.transferred + n, nbytes := c.nbytes - n, cursor := c.cursor + n,
          errc := EioOk);
        if c1.nbytes == 0 then Completed(c1, EioOk)
        else if t.resched != EioOk then Completed(c1, t.resched)
        else c1
  }

  /** The state right after async_rw_sched. */
  function Begun(op: WaitType, buffer: seq<Byte>, start: nat, request: nat, sched: ErrCode): Rw {
    Rw(op, request, start, 0, EioOk, 0, sched == EioOk, buffer, [])
  }

  /** What holds of every transfer between two invocations. */
  predicate TransferOk(c: Rw, op: WaitType, buffer: seq<Byte>, start: nat, request: nat) {
    && c.op == op && start + request <= |buffer| == |c.buffer|
    && c.transferred + c.nbytes == request && c.cursor == start + c.transferred
    && c.wire == c.buffer[start..c.cursor]
    && c.buffer[..start] == buffer[..start] && c.buffer[c.cursor..] == buffer[c.cursor..]
    && (op != WaitRead ==> c.buffer == buffer)
    && (c.live ==> c.calls == 0 && (request > 0 ==> c.nbytes > 0))
    && c.calls <= 1
    && (c.calls == 1 ==> (c.errc == EioOk <==> request > 0 && c.nbytes == 0))
  }

  lemma MovedOk(c: Rw, t: Turn, n: nat, buffer: seq<Byte>, start: nat, request: nat)
    requires TransferOk(c, c.op, buffer, start, request) && n <= c.nbytes && n <= |t.data|
    ensures
      var c1 := Moved(c, t, n);
      && |c1.buffer| == |buffer| && c1.wire == c1.buffer[start..c.cursor + n]
      && c1.buffer[..start] == buffer[..start] && c1.buffer[c.cursor + n..] == buffer[c.cursor + n..]
      && (c.op != WaitRead ==> c1.buffer == buffer)
  {
    var c1, x, y := Moved(c, t, n), c.cursor, c.cursor + n;
    assert c.buffer[y..] == c.buffer[x..][n..] && buffer[y..] == buffer[x..][n..];
    if c.op == WaitRead {
      MovedInto(c.buffer, t.data[..n], start, x);
    } else {
      assert c.buffer[start..y] == c.buffer[start..x] + c.buffer[x..y];
    }
  }

  lemma MovedInto(b: seq<Byte>, d: seq<Byte>, start: nat, x: nat)
    requires start <= x && x + |d| <= |b|
    ensures
      var b1 := b[..x] + d + b[x + |d|..];
      |b1| == |b| && b1[start..x + |d|] == b[start..x] + d && b1[..start] == b[..start] && b1[x + |d|..] == b[x + |d|..]
  {
  }

  lemma TurnedOk(c: Rw, t: Turn, op: WaitType, buffer: seq<Byte>, start: nat, request: nat)
    requires TransferOk(c, op, buffer, start, request) && c.live
    ensures InBounds(c) && TransferOk(Turned(c, t), op, buffer, start, request)
    ensures !Turned(c, t).live ==> Turned(c, t).calls == 1
  {
    hide Moved;
    var n := Result(c, t);
    if t.status == EioOk && n > 0 {
      MovedOk(c, t, n, buffer, start, request);
      MovedKeeps(c, t, n);
    }
  }

  lemma MovedKeeps(c: Rw, t: Turn, n: nat)
    requires InBounds(c) && n <= c.nbytes && n <= |t.data|
    ensures var c1 := Moved(c, t, n); c1 == c.(buffer := c1.buffer, wire := c1.wire)
  {
  }

  lemma MovedErrc(c: Rw, t: Turn, errc: ErrCode)
    requires InBounds(c)
    ensures
      var n, d := Result(c, t), c.(errc := errc);
      n == Result(d, t) && (n > 0 ==> Moved(d, t, n) == Moved(c, t, n).(errc := errc))
  {
  }

  /** A whole transfer: invocation after invocation while it is scheduled. */
  function Played(c: Rw, turns: seq<Turn>): Rw
    decreases |turns|
  {
    if turns == [] || !c.live || !InBounds(c) then c else Played(Turned(c, turns[0]), turns[1..])
  }

  lemma {:induction false} PlayedOk(c: Rw, turns: seq<Turn>, op: WaitType, buffer: seq<Byte>, start: nat, request: nat)
    requires TransferOk(c, op, buffer, start, request) && (!c.live ==> c.calls == 1)
    ensures var d := Played(c, turns); TransferOk(d, op, buffer, start, request) && (!d.live ==> d.calls == 1)
    decreases |turns|
  {
    if turns != [] && c.live {
      TurnedOk(c, turns[0], op, buffer, start, request);
      PlayedOk(Turned(c, turns[0]), turns[1..], op, buffer, start, request);
    }
  }

  /** For every sequence of partial transfers: the count moved and the count left make up the request, the
      cursor is where it should be, the handler is called once if the operation completes and not before,
      and it completes with EIO_OK if and only if the whole of a non-empty request went over the descriptor
      as consecutive chunks. */
  lemma TransferLaw(op: WaitType, buffer: seq<Byte>, start: nat, request: nat, turns: seq<Turn>)
    requires start + request <= |buffer|
    ensures
      var c := Played(Begun(op, buffer, start, request, EioOk), turns);
      && |c.buffer| == |buffer| && c.transferred + c.nbytes == request && c.cursor == start + c.transferred
      && c.calls == (if c.live then 0 else 1)
      && |c.wire| == c.transferred && c.wire == c.buffer[start..start + c.transferred]
      && (!c.live ==> (c.errc == EioOk <==> request > 0 && c.transferred == request))
      && (op != WaitRead ==> c.buffer == buffer)
      && c.buffer[..start] == buffer[..start] && c.buffer[c.cursor..] == buffer[c.cursor..]
  {
    PlayedOk(Begun(op, buffer, start, request, EioOk), turns, op, buffer, start, request);
  }

  // ---------- which turn ends a transfer, and how ----------

  /** A turn in which bytes move and the rest can be scheduled. */
  predicate Going(t: Turn) { t.status == EioOk && !t.failed && t.data != [] && t.resched == EioOk }

  /** What the descriptor offers or takes in these turns. */
  function Offered(turns: seq<Turn>): seq<Byte> {
    if turns == [] then [] else Offered(turns[..|turns| - 1]) + turns[|turns| - 1].data
  }

  lemma {:induction false} PlayedCat(c: Rw, turns: seq<Turn>, t: Turn)
    ensures Played(c, turns + [t]) == Played(Played(c, turns), [t])
    decreases |turns|
  {
    if turns == [] {
      assert turns + [t] == [t];
    } else if c.live && InBounds(c) {
      assert (turns + [t])[1..] == turns[1..] + [t];
      PlayedCat(Turned(c, turns[0]), turns[1..], t);
    }
  }

  lemma OneTurn(c: Rw, t: Turn)
    requires c.live && InBounds(c)
    ensures Played(c, [t]) == Turned(c, t)
  {
    assert [t][1..] == [];
  }

  /** Something moves in this turn. */
  predicate Moves(c: Rw, t: Turn) { t.status == EioOk && !t.failed && t.data != [] && c.nbytes > 0 }

  lemma TurnDecides(c: Rw, t: Turn)
    requires c.live && InBounds(c)
    ensures
      var d := Turned(c, t);
      && d.op == c.op
      && (!Moves(c, t) ==>
            && !d.live && d.transferred == c.transferred && d.wire == c.wire
            && d.errc == if t.status != EioOk then t.status else if t.failed then EioSyserr else EioEof)
      && (Moves(c, t) && |t.data| >= c.nbytes ==>
            && !d.live && d.transferred == c.transferred + c.nbytes && d.errc == EioOk
            && (c.op == WaitRead ==> d.wire == c.wire + t.data[..c.nbytes]))
      && (Moves(c, t) && |t.data| < c.nbytes ==>
            && d.transferred == c.transferred + |t.data| && (d.live <==> t.resched == EioOk) && d.errc == t.resched
            && (c.op == WaitRead ==> d.wire == c.wire + t.data))
  {
    assert t.data[..|t.data|] == t.data;
  }

  /** A transfer that is still going on. */
  predicate GoneOn(c: Rw, op: WaitType, request: nat, offered: seq<Byte>) {
    && c.live && InBounds(c) && c.op == op && c.errc == EioOk && c.transferred == |offered|
    && c.transferred + c.nbytes == request && (op == WaitRead ==> c.wire == offered)
  }

  lemma GoneFurther(c: Rw, t: Turn, op: WaitType, buffer: seq<Byte>, start: nat, request: nat, offered: seq<Byte>)
    requires GoneOn(c, op, request, offered) && Going(t) && |offered| + |t.data| < request
    requires TransferOk(Played(c, [t]), op, buffer, start, request)
    ensures GoneOn(Played(c, [t]), op, request, offered + t.data)
  {
    hide Played, Turned;
    OneTurn(c, t);
    TurnDecides(c, t);
  }

  /** As long as bytes move and some are left, the transfer goes on with all that was offered. */
  lemma {:induction false} GoesOn(op: WaitType, buffer: seq<Byte>, start: nat, request: nat, turns: seq<Turn>)
    requires start + request <= |buffer| && (forall t :: t in turns ==> Going(t))
    requires turns == [] || |Offered(turns)| < request
    ensures GoneOn(Played(Begun(op, buffer, start, request, EioOk), turns), op, request, Offered(turns))
    decreases |turns|
  {
    hide Turned, TransferOk;
    if turns == [] {
    } else {
      hide Played, GoneOn;
      var before, t := turns[..|turns| - 1], turns[|turns| - 1];
      var b := Begun(op, buffer, start, request, EioOk);
      assert turns == before + [t];
      GoesOn(op, buffer, start, request, before);
      PlayedOk(b, turns, op, buffer, start, request);
      PlayedCat(b, before, t);
      assert Offered(turns) == Offered(before) + t.data;
      GoneFurther(Played(b, before), t, op, buffer, start, request, Offered(before));
    }
  }

  /** After turns in which bytes moved, the next one decides: an error of the service or of the descriptor, or its
      end, completes the operation with that status, EIO_SYSERR or EIO_EOF and moves nothing; otherwise as much as
      is offered and still asked for moves, and the operation completes with EIO_OK exactly when that is all, with
      the error of iosvc_sched when the rest is refused, and goes on otherwise. */
  lemma NextTurnDecides(op: WaitType, buffer: seq<Byte>, start: nat, request: nat, turns: seq<Turn>, t: Turn)
    requires start + request <= |buffer| && (forall t :: t in turns ==> Going(t))
    requires turns == [] || |Offered(turns)| < request
    ensures
      var c, sofar := Played(Begun(op, buffer, start, request, EioOk), turns + [t]), |Offered(turns)|;
      var moves := t.status == EioOk && !t.failed && t.data != [] && request > 0;
      && (!moves ==>
            && !c.live && c.transferred == sofar
            && c.errc == if t.status != EioOk then t.status else if t.failed then EioSyserr else EioEof)
      && (moves && sofar + |t.data| >= request ==> !c.live && c.transferred == request && c.errc == EioOk)
      && (moves && sofar + |t.data| < request ==>
            c.transferred == sofar + |t.data| && (c.live <==> t.resched == EioOk) && c.errc == t.resched)
      && (op == WaitRead ==>
            c.transferred <= |Offered(turns + [t])| && c.wire == Offered(turns + [t])[..c.transferred])
  {
    hide Played, Turned;
    var b := Begun(op, buffer, start, request, EioOk);
    var c, d := Played(b, turns), Offered(turns);
    GoesOn(op, buffer, start, request, turns);
    PlayedCat(b, turns, t);
    OneTurn(c, t);
    TurnDecides(c, t);
    assert (turns + [t])[..|turns|] == turns && Offered(turns + [t]) == d + t.data;
    assert c.nbytes <= |t.data| ==> (d + t.data)[..|d| + c.nbytes] == d + t.data[..c.nbytes];
    assert (d + t.data)[..|d|] == d && (d + t.data)[..|d| + |t.data|] == d + t.data;
  }

  /** A request for nothing is answered with EIO_EOF as soon as the descriptor is ready. */
  lemma NothingRequested(op: WaitType, buffer: seq<Byte>, start: nat, t: Turn)
    requires start <= |buffer| && t.status == EioOk && !t.failed
    ensures
      var c := Played(Begun(op, buffer, start, 0, EioOk), [t]);
      !c.live && c.calls == 1 && c.transferred == 0 && c.errc == EioEof
  {
    var c := Begun(op, buffer, start, 0, EioOk);
    assert Played(c, [t]) == Played(Turned(c, t), []);
  }

  /** The context on the heap, the counters it points at and the caller's memory. */
  class RwCtx {
    const opType: WaitType
    const memory: array<Byte>
    var nbytes: nat
    var buf: nat
    var transferred: nat
    var errc: ErrCode
    var live: bool

    ghost var calls: nat
    ghost var wire: seq<Byte>

    ghost function View(): Rw
      reads this, memory
    {
      Rw(opType, nbytes, buf, transferred, errc, calls, live, memory[..], wire)
    }

    /** async_rw_sched; `sched` is the answer of iosvc_sched.  A refused operation never calls the handler. */
    constructor (op: WaitType, mem: array<Byte>, start: nat, request: nat, sched: ErrCode)
      requires start + request <= mem.Length
      ensures View() == Begun(op, mem[..], start, request, sched) && memory == mem
    {
      opType, memory, buf, nbytes, transferred, errc, live := op, mem, start, request, 0, EioOk, sched == EioOk;
      calls, wire := 0, [];
    }

    /** read() into, or write() out of, the memory at the cursor. */
    method Transfer(t: Turn) returns (n: int)
      requires InBounds(View())
      modifies this`wire, memory
      ensures n == Result(View(), t) && n <= nbytes
      ensures View() == if n > 0 then Moved(old(View()), t, n) else old(View())
    {
      if t.failed {
        return -1;
      }
      n := if |t.data| < nbytes then |t.data| else nbytes;
      if n == 0 {
        return;
      }
      ghost var before := memory[..];
      if opType == WaitRead {
        forall i | 0 <= i < n {
          memory[buf + i] := t.data[i];
        }
        assert memory[..] == before[..buf] + t.data[..n] + before[buf + n..];
        wire := wire + t.data[..n];
      } else {
        wire := wire + memory[buf..buf + n];
        assert before[buf..buf + n] == memory[buf..buf + n];
      }
    }

    /** rw_impl */
    method RwImpl(t: Turn)
      requires live && InBounds(View())
      modifies this, memory
      ensures View() == Turned(old(View()), t)
    {
      hide Moved;
      ghost var c := View();
      errc := t.status;
      if errc == EioOk {
        var n := Transfer(t);
        MovedErrc(c, t, EioOk);
        if n <= 0 {
          errc := if n == 0 then EioEof else EioSyserr;
        } else {
          transferred, nbytes, buf := transferred + n, nbytes - n, buf + n;
          if nbytes > 0 {
            if t.resched != EioOk {
              errc := t.resched;
            } else {
              return;
            }
          }
        }
      }
      calls := calls + 1;
      live := false;
    }

    /** rw_some_impl: a single attempt, after which the handler is called in any case. */
    method RwSomeImpl(t: Turn)
      requires live && InBounds(View()) && transferred == 0
      modifies this, memory
      ensures transferred <= old(nbytes) && buf == old(buf)
      ensures !live && calls == old(calls) + 1 && wire == old(wire) + memory[buf..buf + transferred]
      ensures (errc != EioOk ==> transferred == 0)
      ensures errc == if t.status != EioOk then t.status else if t.failed then EioSyserr else EioOk
      ensures errc == EioOk ==> transferred == (if |t.data| < old(nbytes) then |t.data| else old(nbytes))
      ensures opType == WaitRead && errc == EioOk ==> memory[buf..buf + transferred] == t.data[..transferred]
      ensures memory[..buf] == old(memory[..buf]) && memory[buf + transferred..] == old(memory[..])[buf + transferred..]
      ensures opType != WaitRead ==> memory[..] == old(memory[..])
    {
      errc := t.status;
      if errc == EioOk {
        var n := Transfer(t);
        if n < 0 {
          errc := EioSyserr;
          transferred := 0;
        } else {
          transferred := n;
        }
      }
      calls := calls + 1;
      live := false;
    }
  }
}
