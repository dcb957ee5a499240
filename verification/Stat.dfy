/** The traffic counters and the ticker of src/stat.rs. */
module Stat {
  const WIDTH: nat := 0x1_0000_0000_0000_0000

  /** A 64-bit counter; additions wrap around. */
  type u64 = n: int | 0 <= n < WIDTH

  function WrapAdd(a: u64, n: nat): u64 {
    (a + n) % WIDTH
  }

  datatype Event = Tx(n: nat) | Rx(n: nat) | Tick

  /** The two counters, and what they were at the last tick. */
  datatype Counters = Counters(tx: u64, rx: u64, lastTx: u64, lastRx: u64)

  const START := Counters(0, 0, 0, 0)

  function Step(c: Counters, e: Event): Counters {
    match e
    case Tx(n) => c.(tx := WrapAdd(c.tx, n))
    case Rx(n) => c.(rx := WrapAdd(c.rx, n))
    case Tick => c.(lastTx := c.tx, lastRx := c.rx)
  }

  /** What a tick prints: for each direction, whether its counter moved. */
  function Flags(c: Counters): (bool, bool) {
    (c.tx != c.lastTx, c.rx != c.lastRx)
  }

  function Run(c: Counters, events: seq<Event>): Counters {
    if events == [] then c else Step(Run(c, events[..|events| - 1]), events[|events| - 1])
  }

  function Line(flags: (bool, bool)): string {
    "STAT tx=" + (if flags.0 then "1" else "0") + " rx=" + (if flags.1 then "1" else "0")
  }

  class Ticker {
    var txBytes: u64
    var rxBytes: u64
    var lastTx: u64
    var lastRx: u64

    function Contents(): Counters
      reads this
    {
      Counters(txBytes, rxBytes, lastTx, lastRx)
    }

    constructor ()
      ensures Contents() == START
    {
      txBytes, rxBytes, lastTx, lastRx := 0, 0, 0, 0;
    }

    method CountTx(n: nat)
      modifies this
      ensures Contents() == Step(old(Contents()), Tx(n))
    {
      txBytes := WrapAdd(txBytes, n);
    }

    method CountRx(n: nat)
      modifies this
      ensures Contents() == Step(old(Contents()), Rx(n))
    {
      rxBytes := WrapAdd(rxBytes, n);
    }

    /** One round of the ticker. */
    method OneTick() returns (line: string)
      modifies this
      ensures line == Line(Flags(old(Contents())))
      ensures Contents() == Step(old(Contents()), Tick)
    {
      var curTx, curRx := txBytes, rxBytes;
      var txFlag, rxFlag := curTx != lastTx, curRx != lastRx;
      line := "STAT tx=" + (if txFlag then "1" else "0") + " rx=" + (if rxFlag then "1" else "0");
      lastTx, lastRx := curTx, curRx;
    }
  }

  // ---------------------------------------------------------------- what the flags mean

  /** The bytes counted since the last tick. */
  function Since(events: seq<Event>, tx: bool): nat {
    if events == [] || events[|events| - 1].Tick? then 0
    else
      var e := events[|events| - 1];
      Since(events[..|events| - 1], tx) + (if (tx && e.Tx?) || (!tx && e.Rx?) then e.n else 0)
  }

  /** All the bytes counted. */
  function Total(events: seq<Event>, tx: bool): nat {
    if events == [] then 0
    else
      var e := events[|events| - 1];
      Total(events[..|events| - 1], tx) + (if (tx && e.Tx?) || (!tx && e.Rx?) then e.n else 0)
  }

  lemma WrapSum(a: nat, b: nat)
    ensures (a % WIDTH + b) % WIDTH == (a + b) % WIDTH
  {
    var q := a / WIDTH;
    Multiple(a % WIDTH + b, q);
    assert a + b == a % WIDTH + b + q * WIDTH;
  }

  lemma {:induction false} Multiple(a: nat, q: nat)
    ensures (a + q * WIDTH) % WIDTH == a % WIDTH
  {
    if q > 0 {
      Multiple(a, q - 1);
      assert a + q * WIDTH == (a + (q - 1) * WIDTH) + WIDTH;
    }
  }

  /** A counter that was `last` at the last tick and has counted `total` bytes, `since` of them after it. */
  predicate Holds(counter: u64, last: u64, total: nat, since: nat) {
    counter == total % WIDTH && counter == WrapAdd(last, since)
  }

  lemma HoldsMore(counter: u64, last: u64, total: nat, since: nat, n: nat)
    requires Holds(counter, last, total, since)
    ensures Holds(WrapAdd(counter, n), last, total + n, since + n)
  {
    WrapSum(total, n);
    WrapSum(last + since, n);
  }

  lemma HoldsAtTick(counter: u64, last: u64, total: nat, since: nat)
    requires Holds(counter, last, total, since)
    ensures Holds(counter, counter, total, 0)
  {
  }

  /** The counters hold the totals, wrapped, and differ from the last tick's by what was counted since. */
  lemma {:induction false} CountersHoldTotals(events: seq<Event>)
    ensures var c := Run(START, events);
      && Holds(c.tx, c.lastTx, Total(events, true), Since(events, true))
      && Holds(c.rx, c.lastRx, Total(events, false), Since(events, false))
    decreases |events|
  {
    if events != [] {
      var before, e := events[..|events| - 1], events[|events| - 1];
      CountersHoldTotals(before);
      var c := Run(START, before);
      hide WrapAdd, Holds;
      match e
      case Tx(n) => HoldsMore(c.tx, c.lastTx, Total(before, true), Since(before, true), n);
      case Rx(n) => HoldsMore(c.rx, c.lastRx, Total(before, false), Since(before, false), n);
      case Tick =>
        HoldsAtTick(c.tx, c.lastTx, Total(before, true), Since(before, true));
        HoldsAtTick(c.rx, c.lastRx, Total(before, false), Since(before, false));
    } else {
      assert Holds(0, 0, 0, 0);
    }
  }

  lemma WrapMoves(a: u64, n: nat)
    ensures WrapAdd(a, n) != a <==> n % WIDTH != 0
  {
    WrapSum(n, a);
  }

  /**
   A flag is set exactly if the bytes counted since the last tick are not a multiple of 2^64, and the line printed
   says so, sent bytes first.
   */
  lemma FlagsTellTraffic(events: seq<Event>)
    ensures Flags(Run(START, events)) == (Since(events, true) % WIDTH != 0, Since(events, false) % WIDTH != 0)
    ensures var sent := Since(events, true) % 0x1_0000_0000_0000_0000;
      var received := Since(events, false) % 0x1_0000_0000_0000_0000;
      && (sent == 0 && received == 0 <==> Line(Flags(Run(START, events))) == "STAT tx=0 rx=0")
      && (sent == 0 && received != 0 <==> Line(Flags(Run(START, events))) == "STAT tx=0 rx=1")
      && (sent != 0 && received == 0 <==> Line(Flags(Run(START, events))) == "STAT tx=1 rx=0")
      && (sent != 0 && received != 0 <==> Line(Flags(Run(START, events))) == "STAT tx=1 rx=1")
  {
    CountersHoldTotals(events);
    var c := Run(START, events);
    WrapMoves(c.lastTx, Since(events, true));
    WrapMoves(c.lastRx, Since(events, false));
    LineSays(Flags(c));
  }

  lemma LineSays(flags: (bool, bool))
    ensures Line(flags) ==
      if flags.0 then (if flags.1 then "STAT tx=1 rx=1" else "STAT tx=1 rx=0")
      else if flags.1 then "STAT tx=0 rx=1" else "STAT tx=0 rx=0"
  {
  }
}
