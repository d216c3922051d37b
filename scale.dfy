/**
 * The two-scale Modbus reader (Components/Services/ModbusScaleService.cs):
 * connection flags, a bounded window of the last readings per scale, the
 * stability test over that window, and how two 16-bit holding registers
 * are laid out as the four bytes of a 32-bit float.
 */
module Scales {
  const HistorySize: nat := 5
  const DefaultStabilityTolerance: real := 0.005
  const MinStableSamples: nat := 3

  // ---------------------------------------------------------------------
  // The reading window
  // ---------------------------------------------------------------------

  /** The last `n` elements of `s`, or all of it when shorter. */
  function LastN<T>(s: seq<T>, n: nat): (r: seq<T>)
    ensures |r| == if |s| < n then |s| else n
    ensures forall k :: 0 <= k < |r| ==> r[k] == s[|s| - |r| + k]
  {
    if |s| <= n then s else s[|s| - n..]
  }

  /** The window after one `UpdateWeightHistory`: append, then drop the oldest on overflow. */
  function Pushed(history: seq<real>, newWeight: real): seq<real> {
    var h := history + [newWeight];
    if |h| > HistorySize then h[1..] else h
  }

  /** Pushing onto the window of a stream gives the window of the longer stream. */
  lemma PushedLastN(s: seq<real>, w: real)
    ensures Pushed(LastN(s, HistorySize), w) == LastN(s + [w], HistorySize)
  {
    if |s| > HistorySize {
      assert (s[|s| - HistorySize..] + [w])[1..] == (s + [w])[|s| + 1 - HistorySize..];
    }
  }

  /** A window that holds at most five readings keeps the rest of them in order and the new one last. */
  lemma PushedSpec(history: seq<real>, w: real)
    requires |history| <= HistorySize
    ensures |Pushed(history, w)| <= HistorySize
    ensures Pushed(history, w)[|Pushed(history, w)| - 1] == w
    ensures |history| < HistorySize ==> Pushed(history, w) == history + [w]
    ensures |history| == HistorySize ==> Pushed(history, w) == history[1..] + [w]
  {
  }

  /** The window after feeding `readings`, one at a time, into `history`. */
  function Fed(history: seq<real>, readings: seq<real>): seq<real> {
    if |readings| == 0 then history
    else Pushed(Fed(history, readings[..|readings| - 1]), readings[|readings| - 1])
  }

  /** Feeding one more reading pushes it onto the window. */
  lemma FedStep(readings: seq<real>, i: nat)
    requires i < |readings|
    ensures Fed([], readings[..i + 1]) == Pushed(Fed([], readings[..i]), readings[i])
  {
    assert readings[..i + 1][..i] == readings[..i];
  }

  /**
   * Fed into a window of at most five, a stream leaves the last five
   * values of the window followed by the stream; from empty, the last
   * min(n, 5) readings.
   */
  lemma {:induction false} FedIsLastN(history: seq<real>, readings: seq<real>)
    requires |history| <= HistorySize
    ensures Fed(history, readings) == LastN(history + readings, HistorySize)
    decreases |readings|
  {
    if |readings| == 0 {
      assert history + readings == history;
    } else {
      var init := readings[..|readings| - 1];
      var w := readings[|readings| - 1];
      assert readings == init + [w];
      assert (history + init) + [w] == history + readings;
      FedIsLastN(history, init);
      PushedLastN(history + init, w);
      assert Fed(history, readings) == Pushed(LastN(history + init, HistorySize), w);
    }
  }

  lemma HistoryOfReadings(readings: seq<real>)
    ensures Fed([], readings) == LastN(readings, HistorySize)
    ensures |Fed([], readings)| == if |readings| < HistorySize then |readings| else HistorySize
  {
    FedIsLastN([], readings);
    assert [] + readings == readings;
  }

  // ---------------------------------------------------------------------
  // Stability
  // ---------------------------------------------------------------------

  function SeqMax(s: seq<real>): (r: real)
    requires |s| > 0
    ensures forall k :: 0 <= k < |s| ==> s[k] <= r
    ensures exists k :: 0 <= k < |s| && s[k] == r
  {
    if |s| == 1 then s[0]
    else
      var m := SeqMax(s[..|s| - 1]);
      assert forall k :: 0 <= k < |s| - 1 ==> s[..|s| - 1][k] == s[k];
      if s[|s| - 1] > m then s[|s| - 1] else m
  }

  function SeqMin(s: seq<real>): (r: real)
    requires |s| > 0
    ensures forall k :: 0 <= k < |s| ==> r <= s[k]
    ensures exists k :: 0 <= k < |s| && s[k] == r
  {
    if |s| == 1 then s[0]
    else
      var m := SeqMin(s[..|s| - 1]);
      assert forall k :: 0 <= k < |s| - 1 ==> s[..|s| - 1][k] == s[k];
      if s[|s| - 1] < m then s[|s| - 1] else m
  }

  /** `IsScale1Stable` / `IsScale2Stable` on one window: enough samples and a narrow range. */
  predicate IsStable(history: seq<real>, tolerance: real := DefaultStabilityTolerance) {
    |history| >= MinStableSamples && SeqMax(history) - SeqMin(history) <= tolerance
  }

  /** Stable exactly when there are three samples and no two of them differ by more than the tolerance. */
  lemma IsStableSpec(history: seq<real>, tolerance: real)
    ensures IsStable(history, tolerance) <==>
      |history| >= MinStableSamples
      && forall i, j :: 0 <= i < |history| && 0 <= j < |history| ==> history[i] - history[j] <= tolerance
  {
    if |history| >= MinStableSamples {
      var hi := SeqMax(history);
      var lo := SeqMin(history);
      var i :| 0 <= i < |history| && history[i] == hi;
      var j :| 0 <= j < |history| && history[j] == lo;
      assert history[i] - history[j] == hi - lo;
    }
  }

  /** A constant window of three or more readings is stable at any non-negative tolerance. */
  lemma SteadyIsStable(history: seq<real>, tolerance: real)
    requires |history| >= MinStableSamples && tolerance >= 0.0
    requires forall k :: 0 <= k < |history| ==> history[k] == history[0]
    ensures IsStable(history, tolerance)
  {
    IsStableSpec(history, tolerance);
  }

  // ---------------------------------------------------------------------
  // Register layout
  // ---------------------------------------------------------------------

  function Low(r: bv16): bv8 { (r & 0xFF) as bv8 }
  function High(r: bv16): bv8 { ((r >> 8) & 0xFF) as bv8 }

  /** The bytes handed to `BitConverter.ToSingle`: the second register first, each low byte first. */
  function RegisterBytes(r0: bv16, r1: bv16): (b: seq<bv8>)
    ensures |b| == 4
  {
    [Low(r1), High(r1), Low(r0), High(r0)]
  }

  /** The two registers behind four bytes. */
  function RegistersOf(b: seq<bv8>): (bv16, bv16)
    requires |b| == 4
  {
    ((b[2] as bv16) | ((b[3] as bv16) << 8), (b[0] as bv16) | ((b[1] as bv16) << 8))
  }

  /** The layout loses nothing: registers and bytes determine each other. */
  lemma RegisterBytesRoundTrip(r0: bv16, r1: bv16, b: seq<bv8>)
    requires |b| == 4
    ensures RegistersOf(RegisterBytes(r0, r1)) == (r0, r1)
    ensures RegisterBytes(RegistersOf(b).0, RegistersOf(b).1) == b
  {
  }

  /**
   * Read as a little-endian 32-bit word, the bytes put the first register in
   * the high half: the float's bit pattern is r0 followed by r1.
   */
  function LittleEndianWord(b: seq<bv8>): bv32
    requires |b| == 4
  {
    (b[0] as bv32) | ((b[1] as bv32) << 8) | ((b[2] as bv32) << 16) | ((b[3] as bv32) << 24)
  }

  lemma RegisterBytesWordOrder(r0: bv16, r1: bv16)
    ensures LittleEndianWord(RegisterBytes(r0, r1)) == ((r0 as bv32) << 16) | (r1 as bv32)
  {
  }

  // ---------------------------------------------------------------------
  // The service
  // ---------------------------------------------------------------------

  /** One holding-register read: the two registers, or a Modbus error. */
  datatype RegisterRead = Registers(r0: bv16, r1: bv16) | ReadFailed

  /** One pass of the polling loop: what each scale's registers returned. */
  datatype Poll = Poll(scale1: RegisterRead, scale2: RegisterRead)

  /** `ReadScaleWeightAsync`'s value: 0 when disconnected or on error, else the decoded float. */
  function DecodedWeight(plcConnected: bool, read: RegisterRead, toSingle: seq<bv8> -> real): real {
    if !plcConnected || read.ReadFailed? then 0.0 else toSingle(RegisterBytes(read.r0, read.r1))
  }

  function Scale1Readings(plcConnected: bool, polls: seq<Poll>, toSingle: seq<bv8> -> real): (r: seq<real>)
    ensures |r| == |polls|
    ensures forall k :: 0 <= k < |polls| ==> r[k] == DecodedWeight(plcConnected, polls[k].scale1, toSingle)
  {
    seq(|polls|, k requires 0 <= k < |polls| => DecodedWeight(plcConnected, polls[k].scale1, toSingle))
  }

  function Scale2Readings(plcConnected: bool, polls: seq<Poll>, toSingle: seq<bv8> -> real): (r: seq<real>)
    ensures |r| == |polls|
    ensures forall k :: 0 <= k < |polls| ==> r[k] == DecodedWeight(plcConnected, polls[k].scale2, toSingle)
  {
    seq(|polls|, k requires 0 <= k < |polls| => DecodedWeight(plcConnected, polls[k].scale2, toSingle))
  }

  /** A `List<decimal>` of readings, updated in place. */
  class WeightHistory {
    var items: seq<real>

    constructor ()
      ensures items == []
    {
      items := [];
    }

    method Add(w: real)
      modifies this
      ensures items == old(items) + [w]
    {
      items := items + [w];
    }

    method RemoveAt0()
      requires |items| > 0
      modifies this
      ensures items == old(items)[1..]
    {
      items := items[1..];
    }

    method Clear()
      modifies this
      ensures items == []
    {
      items := [];
    }

    /** `new List<decimal>(history)`: a copy that leaves the list as it is. */
    method Copy() returns (s: seq<real>)
      ensures s == items
    {
      s := items;
    }
  }

  class ModbusScaleService {
    var scale1Weight: real
    var scale2Weight: real
    var scale1Connected: bool
    var scale2Connected: bool
    /** Whether a PLC client exists and reports itself connected. */
    var plcConnected: bool
    const scale1History: WeightHistory
    const scale2History: WeightHistory

    ghost predicate Valid()
      reads this
    {
      scale1History != scale2History
    }

    constructor ()
      ensures Valid() && fresh(scale1History) && fresh(scale2History)
      ensures scale1History.items == [] && scale2History.items == []
      ensures !plcConnected && !scale1Connected && !scale2Connected
      ensures scale1Weight == 0.0 && scale2Weight == 0.0
    {
      scale1Weight := 0.0;
      scale2Weight := 0.0;
      scale1Connected := false;
      scale2Connected := false;
      plcConnected := false;
      scale1History := new WeightHistory();
      scale2History := new WeightHistory();
    }

    /**
     * `ConnectAsync`, with whether the TCP connection comes up as input. The
     * test reads cannot fail (the read returns 0 instead of throwing), so a
     * connected PLC marks both scales connected.
     */
    method Connect(plcComesUp: bool) returns (ok: bool)
      modifies this
      ensures plcConnected == plcComesUp
      ensures scale1Connected == plcComesUp && scale2Connected == plcComesUp
      ensures ok == (scale1Connected || scale2Connected)
      ensures scale1Weight == old(scale1Weight) && scale2Weight == old(scale2Weight)
    {
      scale1Connected := false;
      scale2Connected := false;
      plcConnected := plcComesUp;
      if plcConnected {
        scale1Connected := true;
        scale2Connected := true;
        return scale1Connected || scale2Connected;
      }
      return false;
    }

    /** `ReadScaleWeightAsync`, with the float conversion as a parameter. */
    method ReadScaleWeight(read: RegisterRead, toSingle: seq<bv8> -> real) returns (w: real)
      ensures w == DecodedWeight(plcConnected, read, toSingle)
      ensures !plcConnected ==> w == 0.0
    {
      if !plcConnected {
        return 0.0;
      }
      match read
      case ReadFailed => w := 0.0;
      case Registers(r0, r1) =>
        var bytes := [Low(r1), High(r1), Low(r0), High(r0)];
        w := toSingle(bytes);
    }

    /** `UpdateWeightHistory`. */
    method UpdateWeightHistory(history: WeightHistory, newWeight: real)
      modifies history
      ensures history.items == Pushed(old(history.items), newWeight)
    {
      history.Add(newWeight);
      if |history.items| > HistorySize {
        history.RemoveAt0();
      }
    }

    /** One pass of the polling loop: each connected scale is read and its window pushed. */
    method PollOnce(poll: Poll, toSingle: seq<bv8> -> real)
      requires Valid()
      modifies this, scale1History, scale2History
      ensures plcConnected == old(plcConnected)
      ensures scale1Connected == old(scale1Connected) && scale2Connected == old(scale2Connected)
      ensures scale1History.items == if scale1Connected
        then Pushed(old(scale1History.items), DecodedWeight(plcConnected, poll.scale1, toSingle))
        else old(scale1History.items)
      ensures scale2History.items == if scale2Connected
        then Pushed(old(scale2History.items), DecodedWeight(plcConnected, poll.scale2, toSingle))
        else old(scale2History.items)
      ensures scale1Weight == if scale1Connected
        then DecodedWeight(plcConnected, poll.scale1, toSingle)
        else old(scale1Weight)
      ensures scale2Weight == if scale2Connected
        then DecodedWeight(plcConnected, poll.scale2, toSingle)
        else old(scale2Weight)
    {
      if scale1Connected {
        scale1Weight := ReadScaleWeight(poll.scale1, toSingle);
        UpdateWeightHistory(scale1History, scale1Weight);
      }
      if scale2Connected {
        scale2Weight := ReadScaleWeight(poll.scale2, toSingle);
        UpdateWeightHistory(scale2History, scale2Weight);
      }
    }

    /** The reading loop of `StartReadingAsync`, from empty windows, one pass per poll. */
    method PollAll(polls: seq<Poll>, toSingle: seq<bv8> -> real)
      requires Valid()
      requires scale1History.items == [] && scale2History.items == []
      modifies this, scale1History, scale2History
      ensures plcConnected == old(plcConnected)
      ensures scale1Connected == old(scale1Connected) && scale2Connected == old(scale2Connected)
      ensures scale1History.items ==
        if scale1Connected then LastN(Scale1Readings(plcConnected, polls, toSingle), HistorySize) else []
      ensures scale2History.items ==
        if scale2Connected then LastN(Scale2Readings(plcConnected, polls, toSingle), HistorySize) else []
      ensures scale1Weight == if scale1Connected && |polls| > 0
        then DecodedWeight(plcConnected, polls[|polls| - 1].scale1, toSingle)
        else old(scale1Weight)
      ensures scale2Weight == if scale2Connected && |polls| > 0
        then DecodedWeight(plcConnected, polls[|polls| - 1].scale2, toSingle)
        else old(scale2Weight)
    {
      ghost var readings1 := Scale1Readings(plcConnected, polls, toSingle);
      ghost var readings2 := Scale2Readings(plcConnected, polls, toSingle);
      var i := 0;
      while i < |polls|
        invariant 0 <= i <= |polls|
        invariant plcConnected == old(plcConnected)
        invariant scale1Connected == old(scale1Connected) && scale2Connected == old(scale2Connected)
        invariant scale1History.items == (if scale1Connected then Fed([], readings1[..i]) else [])
        invariant scale2History.items == (if scale2Connected then Fed([], readings2[..i]) else [])
        invariant scale1Weight == if scale1Connected && i > 0 then readings1[i - 1] else old(scale1Weight)
        invariant scale2Weight == if scale2Connected && i > 0 then readings2[i - 1] else old(scale2Weight)
      {
        PollOnce(polls[i], toSingle);
        FedStep(readings1, i);
        FedStep(readings2, i);
        i := i + 1;
      }
      assert readings1[..|polls|] == readings1;
      assert readings2[..|polls|] == readings2;
      HistoryOfReadings(readings1);
      HistoryOfReadings(readings2);
    }

    /**
     * `StartReadingAsync` over the polls it makes before it is cancelled.
     * Refused when the PLC is not connected; otherwise both windows start
     * empty and each connected scale's window ends as its last five readings.
     */
    method StartReading(polls: seq<Poll>, toSingle: seq<bv8> -> real) returns (started: bool)
      requires Valid()
      modifies this, scale1History, scale2History
      ensures started == old(plcConnected)
      ensures plcConnected == old(plcConnected)
      ensures scale1Connected == old(scale1Connected) && scale2Connected == old(scale2Connected)
      ensures !started ==> (scale1History.items == old(scale1History.items)
        && scale2History.items == old(scale2History.items)
        && scale1Weight == old(scale1Weight) && scale2Weight == old(scale2Weight))
      ensures started ==> (scale1History.items ==
        if scale1Connected then LastN(Scale1Readings(plcConnected, polls, toSingle), HistorySize) else [])
      ensures started ==> (scale2History.items ==
        if scale2Connected then LastN(Scale2Readings(plcConnected, polls, toSingle), HistorySize) else [])
      ensures started && scale1Connected && |polls| > 0 ==>
        scale1Weight == DecodedWeight(plcConnected, polls[|polls| - 1].scale1, toSingle)
      ensures started && scale2Connected && |polls| > 0 ==>
        scale2Weight == DecodedWeight(plcConnected, polls[|polls| - 1].scale2, toSingle)
      ensures !scale1Connected || |polls| == 0 ==> scale1Weight == old(scale1Weight)
      ensures !scale2Connected || |polls| == 0 ==> scale2Weight == old(scale2Weight)
    {
      if !plcConnected {
        return false;
      }
      scale1History.Clear();
      scale2History.Clear();
      PollAll(polls, toSingle);
      return true;
    }

    function IsScale1Stable(tolerance: real := DefaultStabilityTolerance): bool
      reads this, scale1History
    {
      IsStable(scale1History.items, tolerance)
    }

    function IsScale2Stable(tolerance: real := DefaultStabilityTolerance): bool
      reads this, scale2History
    {
      IsStable(scale2History.items, tolerance)
    }

    method GetScale1History() returns (h: seq<real>)
      ensures h == scale1History.items
    {
      h := scale1History.Copy();
    }

    method GetScale2History() returns (h: seq<real>)
      ensures h == scale2History.items
    {
      h := scale2History.Copy();
    }

    /** `Disconnect`: both flags down, both windows emptied, the client dropped. */
    method Disconnect()
      requires Valid()
      modifies this, scale1History, scale2History
      ensures !scale1Connected && !scale2Connected && !plcConnected
      ensures scale1History.items == [] && scale2History.items == []
      ensures scale1Weight == old(scale1Weight) && scale2Weight == old(scale2Weight)
    {
      scale1Connected := false;
      scale2Connected := false;
      scale1History.Clear();
      scale2History.Clear();
      plcConnected := false;
    }
  }

  /** Just after a disconnect or the start of polling neither scale can be stable. */
  lemma EmptyWindowUnstable(tolerance: real)
    ensures !IsStable([], tolerance)
  {
  }
}
