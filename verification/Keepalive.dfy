/** The ping timer of a peer connection: when it closes, and when it never does. */
module Keepalive {

  const TICK_MS := 2000
  const TIMEOUT_MS := 8000

  /** What the timer looks at: whether the socket is open, and the time of the last bytes. */
  datatype Line = Line(open: bool, last: int)

  datatype Beat = Arrive(at: int) | Tick(at: int)

  function Beaten(line: Line, beat: Beat): Line {
    match beat
    case Arrive(at) => if line.open then Line(true, at) else line
    case Tick(at) => Line(line.open && at - line.last <= TIMEOUT_MS, line.last)
  }

  function Run(line: Line, beats: seq<Beat>): Line
    decreases beats
  {
    if beats == [] then line else Run(Beaten(line, beats[0]), beats[1..])
  }

  /** Times do not decrease, and ticks fall exactly on the timer's grid, the next one at `tick`. */
  predicate OnTime(beats: seq<Beat>, now: int, tick: int) {
    beats == [] ||
    match beats[0]
    case Arrive(at) => now <= at <= tick && OnTime(beats[1..], at, tick)
    case Tick(at) => at == tick && OnTime(beats[1..], at, tick + TICK_MS)
  }

  /** The next tick after an on-time run. */
  function NextTick(beats: seq<Beat>, tick: int): int {
    if beats == [] then tick else NextTick(beats[1..], if beats[0].Tick? then tick + TICK_MS else tick)
  }

  /** The time of the tick that closed the line, if one did. */
  function ClosedAt(line: Line, beats: seq<Beat>): (at: seq<int>)
    ensures |at| <= 1
    decreases beats
  {
    if beats == [] || !line.open then []
    else if !Beaten(line, beats[0]).open then [beats[0].at]
    else ClosedAt(Beaten(line, beats[0]), beats[1..])
  }

  /**
   * Over every run: a line is closed only more than 8000 ms and at most 10000 ms after its last
   * activity, and it is still open only while the next tick is at most 10000 ms after it. So a
   * connection silent since `a` is closed at some c with 8000 < c - a <= 10000.
   */
  lemma {:induction false} CloseWindow(line: Line, beats: seq<Beat>, now: int, tick: int)
    requires line.open && line.last <= now <= tick <= line.last + TIMEOUT_MS + TICK_MS
    requires OnTime(beats, now, tick)
    ensures var end := Run(line, beats);
            var closed := ClosedAt(line, beats);
            && end.open == (closed == [])
            && (end.open ==> NextTick(beats, tick) <= end.last + TIMEOUT_MS + TICK_MS)
            && (!end.open ==> end.last + TIMEOUT_MS < closed[0] <= end.last + TIMEOUT_MS + TICK_MS)
    decreases beats
  {
    if beats != [] {
      var next := Beaten(line, beats[0]);
      if next.open {
        CloseWindow(next, beats[1..], beats[0].at, if beats[0].Tick? then tick + TICK_MS else tick);
      } else {
        StaysClosed(next, beats[1..]);
      }
    }
  }

  lemma {:induction false} StaysClosed(line: Line, beats: seq<Beat>)
    requires !line.open
    ensures Run(line, beats) == line
    decreases beats
  {
    if beats != [] { StaysClosed(Beaten(line, beats[0]), beats[1..]); }
  }

  /** Bytes keep coming: gaps of at most 8000 ms, and none that outlasts the last arrival. */
  predicate Lively(beats: seq<Beat>, last: int, end: int) {
    if beats == [] then end <= last + TIMEOUT_MS
    else beats[0].at <= end &&
         if beats[0].Arrive? then beats[0].at <= last + TIMEOUT_MS && Lively(beats[1..], beats[0].at, end)
         else Lively(beats[1..], last, end)
  }

  lemma {:induction false} LivelyBound(beats: seq<Beat>, last: int, end: int, now: int, tick: int)
    requires beats != [] && OnTime(beats, now, tick) && now <= tick && Lively(beats, last, end)
    ensures beats[0].at <= last + TIMEOUT_MS
  {
    if beats[0].Tick? && |beats| > 1 {
      LivelyBound(beats[1..], last, end, tick, tick + TICK_MS);
    }
  }

  /** A connection whose gaps never exceed 8000 ms is never closed by the timer. */
  lemma {:induction false} LivelyStaysOpen(line: Line, beats: seq<Beat>, end: int, now: int, tick: int)
    requires line.open && now <= tick && OnTime(beats, now, tick) && Lively(beats, line.last, end)
    ensures Run(line, beats).open
    decreases beats
  {
    if beats != [] {
      LivelyBound(beats, line.last, end, now, tick);
      LivelyStaysOpen(Beaten(line, beats[0]), beats[1..], end, beats[0].at,
                      if beats[0].Tick? then tick + TICK_MS else tick);
    }
  }
}
