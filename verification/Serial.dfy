/** The receive ring as the program runs it (src/serial.c): a circular buffer with
    its head and tail, the unwrite and scan loops, and the multiplexer's flags, all
    changed in place. Each method is proved against the operation on the queue. */
module Serial {
  import opened SerialLines

  /** Index i behind t in a ring of n, one lap at most: the source masks with n - 1,
      n a power of two. */
  function Slot(t: nat, i: nat, n: nat): (k: nat)
    requires t < n && i <= n
    ensures k < n
  {
    if t + i < n then t + i else t + i - n
  }

  /** The k bytes from the tail on. */
  function Unroll(d: seq<byte>, t: nat, k: nat): (q: seq<byte>)
    requires t < |d| && k <= |d|
    ensures |q| == k
  {
    seq(k, i requires 0 <= i < k => d[Slot(t, i, |d|)])
  }

  lemma UnrollAppend(d: seq<byte>, t: nat, k: nat, b: byte)
    requires t < |d| && k < |d|
    ensures Unroll(d[Slot(t, k, |d|) := b], t, k + 1) == Unroll(d, t, k) + [b]
  {
  }

  lemma UnrollDrop(d: seq<byte>, t: nat, k: nat)
    requires t < |d| && 0 < k <= |d|
    ensures Unroll(d, t, k)[1..] == Unroll(d, Slot(t, 1, |d|), k - 1)
    ensures Unroll(d, t, k)[0] == d[t]
  {
  }

  lemma UnrollNone(d: seq<byte>, t: nat)
    requires t < |d|
    ensures Unroll(d, t, Count(t, t, |d|)) == []
  {
  }

  lemma UnrollPop(d: seq<byte>, t: nat, k: nat)
    requires t < |d| && 0 < k <= |d|
    ensures Unroll(d, t, k)[..k - 1] == Unroll(d, t, k - 1)
    ensures Unroll(d, t, k)[k - 1] == d[Slot(t, k - 1, |d|)]
  {
  }

  /** The number of bytes between tail and head. */
  function Count(head: nat, tail: nat, n: nat): (k: nat)
    requires head < n && tail < n
    ensures k < n && Slot(tail, k, n) == head
  {
    if head >= tail then head - tail else head + n - tail
  }

  lemma CountUp(head: nat, tail: nat, n: nat)
    requires head < n && tail < n && n >= 2
    ensures var h := Slot(head, 1, n);
            if h == tail then Count(head, tail, n) + 1 == n else Count(h, tail, n) == Count(head, tail, n) + 1
  {
  }

  lemma CountDown(head: nat, tail: nat, n: nat)
    requires head < n && tail < n && n >= 2 && head != tail
    ensures var h := Slot(head, n - 1, n);
            Count(h, tail, n) == Count(head, tail, n) - 1 && Slot(tail, Count(head, tail, n) - 1, n) == h
    ensures Count(head, Slot(tail, 1, n), n) == Count(head, tail, n) - 1
  {
  }

  class Ring {
    const data: array<byte>
    var head: nat
    var tail: nat
    var discarding: bool
    var overrun: bool
    var senderMidline: bool
    var readMidline: bool
    var senderEol: byte
    var injActive: bool
    var injLeft: nat
    var injFirst: bool
    var injDue: bool
    var injSaved: int
    var hold: bool
    var lineOpen: bool

    ghost predicate Valid()
      reads this
    {
      data.Length >= 2 && head < data.Length && tail < data.Length
    }

    ghost function Contents(): seq<byte>
      reads this, data
      requires Valid()
    {
      Unroll(data[..], tail, Count(head, tail, data.Length))
    }

    ghost function State(): Rx
      reads this, data
      requires Valid()
    {
      Rx(data.Length, Contents(), discarding, overrun, senderMidline, readMidline, senderEol,
         injActive, injLeft, injFirst, injDue, injSaved, hold, lineOpen)
    }

    constructor (size: nat)
      requires size >= 2
      ensures Valid() && fresh(data) && data.Length == size && State().q == []
      ensures Initial(Port(State(), 0, Resting))
    {
      data := new byte[size](_ => 0);
      head, tail := 0, 0;
      discarding, overrun, senderMidline, readMidline, senderEol := false, false, false, false, LF;
      injActive, injLeft, injFirst, injDue, injSaved, hold, lineOpen := false, 0, false, false, 0, false, false;
    }

    /** One byte behind the head; the caller has seen that there is room. */
    method Push(b: byte)
      requires Valid() && Slot(head, 1, data.Length) != tail
      modifies data, this`head
      ensures Valid() && Contents() == old(Contents()) + [b]
    {
      var n := data.Length;
      ghost var k := Count(head, tail, n);
      CountUp(head, tail, n);
      UnrollAppend(data[..], tail, k, b);
      ghost var was := data[..];
      data[head] := b;
      assert data[..] == was[head := b];
      head := Slot(head, 1, n);
    }

    /** The partial line unwritten back to the last end of line. */
    method UnwriteLine()
      requires Valid()
      modifies this`head
      ensures Valid() && Contents() == Unwrite(old(Contents()))
    {
      var n := data.Length;
      while head != tail
        invariant Valid() && Unwrite(Contents()) == Unwrite(old(Contents()))
        decreases Count(head, tail, n)
      {
        var last := Slot(head, n - 1, n);
        CountDown(head, tail, n);
        UnrollPop(data[..], tail, Count(head, tail, n));
        if IsEol(data[last]) { break; }
        head := last;
      }
    }

    /** A byte of the sender. */
    method RxByte(b: byte)
      requires Valid()
      modifies this, data
      ensures Valid() && State() == Store(old(State()), b)
    {
      hide Unroll, Unwrite, IsEol, Slot, Count;
      if discarding {
        if IsEol(b) { discarding := false; }
        return;
      }
      CountUp(head, tail, data.Length);
      if Slot(head, 1, data.Length) == tail {
        Overrun(b);
      } else {
        Keep(b);
      }
    }

    /** A byte into a full ring: its line is dropped whole. */
    method Overrun(b: byte)
      requires Valid()
      modifies this`head, this`overrun, this`discarding, this`senderMidline
      ensures Valid() && State() == old(State()).(q := Unwrite(old(Contents())), overrun := true,
                                                   discarding := !IsEol(b), senderMidline := false)
    {
      hide Unroll, Unwrite, IsEol, Slot, Count;
      UnwriteLine();
      overrun, discarding, senderMidline := true, !IsEol(b), false;
    }

    /** A byte behind the head, and what it says of the sender's line. */
    method Keep(b: byte)
      requires Valid() && Slot(head, 1, data.Length) != tail
      modifies data, this`head, this`senderEol, this`senderMidline
      ensures Valid() && State() == old(State()).(q := old(Contents()) + [b], senderMidline := !IsEol(b),
                                                   senderEol := if IsEol(b) then b else old(senderEol))
    {
      hide Unroll, IsEol, Slot, Count;
      Push(b);
      senderMidline := !IsEol(b);
      if IsEol(b) { senderEol := b; }
    }

    /** The byte at the tail taken. */
    method Advance() returns (b: byte)
      requires Valid() && head != tail
      modifies this`tail
      ensures Valid() && b == old(Contents())[0] && Contents() == old(Contents())[1..]
    {
      UnrollDrop(data[..], tail, Count(head, tail, data.Length));
      CountDown(head, tail, data.Length);
      b := data[tail];
      tail := Slot(tail, 1, data.Length);
    }

    /** The gate's view of the byte at the tail. */
    method HeldBack() returns (held: bool)
      requires Valid() && head != tail
      ensures State().q != [] && held == Held(State())
    {
      UnrollDrop(data[..], tail, Count(head, tail, data.Length));
      var b := data[tail];
      held := hold && injLeft == 0 && b != CAN && !(IsEol(b) && !readMidline);
    }

    /** The flags behind a byte read. */
    method MarkRead(b: byte, err: int)
      modifies this`readMidline, this`lineOpen, this`injFirst, this`injSaved, this`injLeft, this`injDue
      ensures readMidline == !IsEol(b) && lineOpen == (old(lineOpen) || (old(injLeft) == 0 && !IsEol(b)))
      ensures injLeft == (if old(injLeft) == 0 then 0 else old(injLeft) - 1)
      ensures injFirst == (old(injFirst) && old(injLeft) == 0)
      ensures injSaved == (if old(injLeft) > 0 && old(injFirst) then err else old(injSaved))
      ensures injDue == (old(injDue) || old(injLeft) == 1)
    {
      var injected := injLeft > 0;
      readMidline := !IsEol(b);
      if !injected && readMidline { lineOpen := true; }
      if injLeft > 0 {
        if injFirst {
          injFirst := false;
          injSaved := err;
        }
        injLeft := injLeft - 1;
        if injLeft == 0 { injDue := true; }
      }
    }

    /** The core's read: -1 when there is nothing for it. err is its held error. */
    method GetC(err: int) returns (c: int)
      requires Valid()
      modifies this
      ensures Valid()
      ensures c == -1 <==> !CanGet(old(State()))
      ensures c != -1 ==> c == old(Contents())[0] && State() == Get(old(State()), err)
      ensures c == -1 ==> State() == old(State())
    {
      hide Unroll, IsEol, Count;
      if tail == head {
        UnrollNone(data[..], tail);
        return -1;
      }
      var held := HeldBack();
      if held { return -1; }
      c := Take(err);
    }

    method Take(err: int) returns (b: byte)
      requires Valid() && head != tail && CanGet(State())
      modifies this
      ensures Valid() && b == old(Contents())[0] && State() == Get(old(State()), err)
    {
      hide Unroll, IsEol, Count;
      b := Advance();
      MarkRead(b, err);
    }

    /** The flags of a dropped queue; tells whether an injected line went with it. */
    method DropFlags() returns (told: bool)
      modifies this`discarding, this`senderMidline, this`readMidline, this`lineOpen
      modifies this`injActive, this`injDue, this`injLeft
      ensures told == old(injActive)
      ensures !discarding && !senderMidline && !readMidline && !lineOpen && !injActive
      ensures injDue == (old(injDue) && !told) && injLeft == (if told then 0 else old(injLeft))
    {
      discarding, senderMidline, readMidline, lineOpen := false, false, false, false;
      told := injActive;
      if injActive {
        injActive, injDue := false, false;
        injLeft := 0;
      }
    }

    /** Everything queued dropped; tells whether an injected line went with it. */
    method RxFlush() returns (told: bool)
      requires Valid()
      modifies this
      ensures Valid() && told == old(injActive) && State() == SerialLines.Flush(old(State()))
    {
      hide Unroll, Count;
      tail := head;
      UnrollNone(data[..], tail);
      told := DropFlags();
    }

    method RxCancel() returns (told: bool)
      requires Valid()
      modifies this, data
      ensures Valid() && told == old(injActive) && State() == SerialLines.Cancel(old(State()))
    {
      told := RxFlush();
      assert Contents() == [];
      Push(CAN);
      assert Contents() == [CAN];
    }

    /** A whole line into an empty ring, ended the sender's way. */
    method InjectLine(line: seq<byte>) returns (ok: bool)
      requires Valid()
      modifies this, data
      ensures Valid() && ok == CanInject(old(State()), line) && State() == SerialLines.Inject(old(State()), line)
    {
      hide Unroll;
      var n := data.Length;
      var free := n - 1 - Count(head, tail, n);
      if injActive || senderMidline || discarding || |line| == 0 || head != tail || |line| + 1 > free {
        assert |Contents()| == Count(head, tail, n);
        return false;
      }
      assert Contents() == [];
      var i := 0;
      while i <= |line|
        invariant 0 <= i <= |line| + 1 && Valid()
        invariant Contents() == (line + [senderEol])[..i]
        invariant State() == old(State()).(q := Contents())
      {
        CountUp(head, tail, n);
        Push(if i < |line| then line[i] else senderEol);
        i := i + 1;
      }
      assert (line + [senderEol])[..i] == line + [senderEol];
      MarkInjected(|line| + 1);
      ok := true;
    }

    method MarkInjected(n: nat)
      modifies this`injLeft, this`injActive, this`injFirst, this`injDue
      ensures injLeft == n && injActive && injFirst && !injDue
    {
      injLeft := n;
      injActive, injFirst := true, true;
      injDue := false;
    }

    /** The status hook: where the status goes, and the error the core holds on. */
    method StatusMessage(err: int, run: Run) returns (toSender: bool, held: int)
      requires Valid()
      modifies this`injActive, this`injDue, this`lineOpen
      ensures Valid() && toSender == !old(injDue)
      ensures Port(State(), held, Resting) == AfterStatus(Port(old(State()), err, run), err)
    {
      hide Unroll;
      if injDue {
        injActive, injDue := false, false;
        return false, injSaved;
      }
      lineOpen := false;
      return true, err;
    }

    /** Whether the sender has more than empty lines behind an injected one. */
    method SenderPending() returns (r: bool)
      requires Valid() && injLeft <= |Contents()|
      ensures r <==> exists i :: injLeft <= i < |Contents()| && !IsEol(Contents()[i])
    {
      var n := data.Length;
      var k := injLeft;
      var p := Slot(tail, k, n);
      while p != head
        invariant injLeft <= k <= |Contents()| && p == Slot(tail, k, n)
        invariant forall i :: injLeft <= i < k ==> IsEol(Contents()[i])
        decreases |Contents()| - k
      {
        assert Contents()[k] == data[p];
        if !IsEol(data[p]) { return true; }
        p := Slot(p, 1, n);
        k := k + 1;
      }
      r := false;
    }
  }
}
