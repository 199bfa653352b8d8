/** The handshake with the controller as a log of bus events, and the
    busy-flag input the controller presents on DB7 (UK_lcd.h:94-108).

    The value on the data pins (`DTPIN`) is hardware; it is modelled as the
    sequence of values that successive reads return. A busy check reads it
    until one sample has DB7 low, so it finishes exactly when a "ready"
    sample is still to come. */
module Protocol {
  import opened Bits

  /** One observable step on the bus.
      - BusyCheck: RS, RW, the level of En and the data-bus direction
        register while the busy flag was polled, and the pin values it
        sampled.
      - Transfer: RS, RW, the level of En, the data-bus direction register
        and the data port at the moment the controller latched them.
      - Delay: a fixed wait between two steps, in microseconds. */
  datatype Event =
    | BusyCheck(rs: bool, rw: bool, en: bool, busDir: bv8, samples: seq<bv8>)
    | Transfer(rs: bool, rw: bool, en: bool, busDir: bv8, data: bv8)
    | Delay(us: nat)

  /** The number of samples in p on which the controller reports ready. */
  function ReadyCount(p: seq<bv8>): nat {
    if p == [] then 0 else (if Bit(p[0], DB7) then 0 else 1) + ReadyCount(p[1..])
  }

  lemma {:induction false} ReadyCountAppend(a: seq<bv8>, b: seq<bv8>)
    ensures ReadyCount(a + b) == ReadyCount(a) + ReadyCount(b)
  {
    if a == [] {
      assert a + b == b;
    } else {
      assert (a + b)[1..] == a[1..] + b;
      ReadyCountAppend(a[1..], b);
    }
  }

  /** The index of the sample that ends a busy poll: the first with DB7 low. */
  function FirstReady(p: seq<bv8>): (k: nat)
    requires ReadyCount(p) > 0
    ensures k < |p| && !Bit(p[k], DB7)
    ensures forall j :: 0 <= j < k ==> Bit(p[j], DB7)
  {
    if !Bit(p[0], DB7) then 0 else 1 + FirstReady(p[1..])
  }

  /** The samples one busy check reads. */
  function Polled(p: seq<bv8>): (s: seq<bv8>)
    requires ReadyCount(p) > 0
    ensures |s| > 0 && !Bit(s[|s| - 1], DB7)
    ensures ReadyCount(s) == 1
  {
    var s := p[..FirstReady(p) + 1];
    PollHasOneReady(s);
    s
  }

  lemma {:induction false} PollHasOneReady(s: seq<bv8>)
    requires |s| > 0 && !Bit(s[|s| - 1], DB7)
    requires forall j :: 0 <= j < |s| - 1 ==> Bit(s[j], DB7)
    ensures ReadyCount(s) == 1
  {
    if |s| > 1 {
      PollHasOneReady(s[1..]);
    }
  }

  /** The samples left for later reads after one busy check. */
  function AfterBusy(p: seq<bv8>): (q: seq<bv8>)
    requires ReadyCount(p) > 0
    ensures |q| < |p|
    ensures ReadyCount(q) == ReadyCount(p) - 1
  {
    var q := p[FirstReady(p) + 1..];
    assert p == Polled(p) + q;
    ReadyCountAppend(Polled(p), q);
    q
  }

  /** The samples left after n busy checks. */
  function AfterChecks(p: seq<bv8>, n: nat): (q: seq<bv8>)
    requires ReadyCount(p) >= n
    ensures ReadyCount(q) == ReadyCount(p) - n
    ensures |q| <= |p|
  {
    if n == 0 then p else AfterChecks(AfterBusy(p), n - 1)
  }

  /** One more check after n checks is n + 1 checks. */
  lemma {:induction false} AfterChecksStep(p: seq<bv8>, n: nat)
    requires ReadyCount(p) > n
    ensures AfterChecks(p, n + 1) == AfterBusy(AfterChecks(p, n))
  {
    if n > 0 {
      AfterChecksStep(AfterBusy(p), n - 1);
    }
  }

  /** The event a busy check logs when the pins will show p: instruction
      register selected, read mode, En high, data bus as input, and the
      samples up to the first one with DB7 low. */
  function BusyEvent(p: seq<bv8>): (e: Event)
    requires ReadyCount(p) > 0
    ensures IsReadyCheck(e)
  {
    BusyCheck(false, true, true, 0x00, Polled(p))
  }

  /** A busy check that was issued as the controller requires (instruction
      register, read mode, En high, data bus released) and ended on a ready
      sample. */
  predicate IsReadyCheck(e: Event) {
    e.BusyCheck? && !e.rs && e.rw && e.en && e.busDir == 0x00
    && |e.samples| > 0 && !Bit(e.samples[|e.samples| - 1], DB7)
  }

  /** A transfer latched while En was high, with the data bus driven in
      write mode and released in read mode. */
  predicate WellDirected(e: Event)
    requires e.Transfer?
  {
    e.en && e.busDir == if e.rw then 0x00 else 0xFF
  }

  /** The handshake discipline: every transfer has a ready busy check before
      it, with no other transfer in between, and is latched while En is high
      with the data bus pointing the way RW says. `armed` tells whether such a check has been
      seen since the last transfer. */
  predicate Synchronized(t: seq<Event>, armed: bool) {
    if t == [] then true
    else match t[0]
      case BusyCheck(_, _, _, _, _) => Synchronized(t[1..], armed || IsReadyCheck(t[0]))
      case Transfer(_, _, _, _, _) => armed && WellDirected(t[0]) && Synchronized(t[1..], false)
      case Delay(_) => Synchronized(t[1..], armed)
  }

  /** One step of Synchronized, for a log written as its first event and the rest. */
  lemma SynchronizedCons(e: Event, t: seq<Event>, armed: bool)
    ensures Synchronized([e] + t, armed) <==>
      match e
      case BusyCheck(_, _, _, _, _) => Synchronized(t, armed || IsReadyCheck(e))
      case Transfer(_, _, _, _, _) => armed && WellDirected(e) && Synchronized(t, false)
      case Delay(_) => Synchronized(t, armed)
  {
    assert ([e] + t)[0] == e && ([e] + t)[1..] == t;
  }

  /** A busy check, any waits, one write with the bus driven, any waits:
      the block every instruction or character write of the driver is. */
  lemma CheckedWrite(p: seq<bv8>, gap: seq<Event>, rs: bool, x: bv8, tail: seq<Event>)
    requires ReadyCount(p) > 0
    requires forall k :: 0 <= k < |gap| ==> gap[k].Delay?
    requires forall k :: 0 <= k < |tail| ==> tail[k].Delay?
    ensures Synchronized([BusyEvent(p)] + (gap + ([Transfer(rs, false, true, 0xFF, x)] + tail)), false)
  {
    var w := [Transfer(rs, false, true, 0xFF, x)] + tail;
    OnlyDelays(tail, false);
    SynchronizedCons(Transfer(rs, false, true, 0xFF, x), tail, true);
    DelaysThen(gap, w, true);
    SynchronizedCons(BusyEvent(p), gap + w, false);
  }

  /** Appending a busy check and one write with the bus driven keeps a log
      synchronized. */
  lemma AppendWrite(t: seq<Event>, p: seq<bv8>, rs: bool, x: bv8)
    requires Synchronized(t, false) && ReadyCount(p) > 0
    ensures Synchronized(t + [BusyEvent(p)] + [Transfer(rs, false, true, 0xFF, x)], false)
  {
    CheckedWrite(p, [], rs, x, []);
    assert [BusyEvent(p)] + ([] + ([Transfer(rs, false, true, 0xFF, x)] + [])) == [BusyEvent(p)] + [Transfer(rs, false, true, 0xFF, x)];
    SynchronizedAppend(t, [BusyEvent(p)] + [Transfer(rs, false, true, 0xFF, x)], false);
    assert t + [BusyEvent(p)] + [Transfer(rs, false, true, 0xFF, x)] == t + ([BusyEvent(p)] + [Transfer(rs, false, true, 0xFF, x)]);
  }

  /** Appending a busy check with no write keeps a log synchronized. */
  lemma AppendCheck(t: seq<Event>, p: seq<bv8>)
    requires Synchronized(t, false) && ReadyCount(p) > 0
    ensures Synchronized(t + [BusyEvent(p)], false)
  {
    CheckOnly(p, []);
    assert [BusyEvent(p)] + [] == [BusyEvent(p)];
    SynchronizedAppend(t, [BusyEvent(p)], false);
  }

  /** Appending a wait keeps a log synchronized. */
  lemma AppendDelay(t: seq<Event>, us: nat, armed: bool)
    requires Synchronized(t, armed)
    ensures Synchronized(t + [Delay(us)], armed)
  {
    OnlyDelays([Delay(us)], false);
    SynchronizedAppend(t, [Delay(us)], armed);
  }

  /** A busy check and any waits after it, with no write. */
  lemma CheckOnly(p: seq<bv8>, tail: seq<Event>)
    requires ReadyCount(p) > 0
    requires forall k :: 0 <= k < |tail| ==> tail[k].Delay?
    ensures Synchronized([BusyEvent(p)] + tail, false)
  {
    OnlyDelays(tail, true);
    SynchronizedCons(BusyEvent(p), tail, false);
  }

  /** A log of waits only keeps the discipline from any state. */
  lemma {:induction false} OnlyDelays(t: seq<Event>, armed: bool)
    requires forall k :: 0 <= k < |t| ==> t[k].Delay?
    ensures Synchronized(t, armed)
  {
    if t != [] {
      OnlyDelays(t[1..], armed);
    }
  }

  /** Waits in front of a log change nothing. */
  lemma {:induction false} DelaysThen(d: seq<Event>, t: seq<Event>, armed: bool)
    requires forall k :: 0 <= k < |d| ==> d[k].Delay?
    requires Synchronized(t, armed)
    ensures Synchronized(d + t, armed)
  {
    if d != [] {
      DelaysThen(d[1..], t, armed);
      assert (d + t)[0] == d[0] && (d + t)[1..] == d[1..] + t;
    } else {
      assert d + t == t;
    }
  }

  /** A log that is synchronized from some state is synchronized from the armed one. */
  lemma {:induction false} SynchronizedMonotone(t: seq<Event>, armed: bool)
    requires Synchronized(t, armed)
    ensures Synchronized(t, true)
  {
    if t != [] {
      match t[0]
      case BusyCheck(_, _, _, _, _) => SynchronizedMonotone(t[1..], armed || IsReadyCheck(t[0]));
      case Transfer(_, _, _, _, _) =>
      case Delay(_) => SynchronizedMonotone(t[1..], armed);
    }
  }

  /** Appending a log that is synchronized on its own keeps a log synchronized. */
  lemma {:induction false} SynchronizedAppend(a: seq<Event>, b: seq<Event>, armed: bool)
    requires Synchronized(a, armed) && Synchronized(b, false)
    ensures Synchronized(a + b, armed)
  {
    if a == [] {
      assert a + b == b;
      if armed {
        SynchronizedMonotone(b, false);
      }
    } else {
      assert (a + b)[0] == a[0] && (a + b)[1..] == a[1..] + b;
      match a[0]
      case BusyCheck(_, _, _, _, _) => SynchronizedAppend(a[1..], b, armed || IsReadyCheck(a[0]));
      case Transfer(_, _, _, _, _) => SynchronizedAppend(a[1..], b, false);
      case Delay(_) => SynchronizedAppend(a[1..], b, armed);
    }
  }

  /** The data bytes of the log's transfers, in order. */
  function DataOf(t: seq<Event>): seq<bv8> {
    if t == [] then []
    else (if t[0].Transfer? then [t[0].data] else []) + DataOf(t[1..])
  }

  /** One step of DataOf, for a log written as its first event and the rest. */
  lemma DataOfCons(e: Event, t: seq<Event>)
    ensures DataOf([e] + t) == (if e.Transfer? then [e.data] else []) + DataOf(t)
  {
    assert ([e] + t)[0] == e && ([e] + t)[1..] == t;
  }
}
