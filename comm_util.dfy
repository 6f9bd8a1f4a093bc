/**
 * The tile-to-tile serial protocol: a request is the sync header 7F FF FF FF
 * followed by a 4-byte command, and a response is the header, a 4-byte command
 * and, for a state, two 4-byte floats.
 *
 * A UART is a queue of received bytes and a log of written ones. Time is counted
 * in poll rounds of one millisecond: each `sleep` of the wait loops is one
 * round, during which the bytes scheduled for that round arrive. The 4-byte
 * floats are opaque words, packed and unpacked by a `FloatCodec`.
 */
module CommUtil {
  import opened Wrappers
  import opened MpyEnum
  import QuStates

  type Byte = b: int | 0 <= b < 256

  /** The four bytes of a packed float. */
  type Word = w: seq<Byte> | |w| == 4 witness [0, 0, 0, 0]

  /** `ustruct.pack('f', x)` and `ustruct.unpack('f', w)[0]`. */
  datatype FloatCodec = FloatCodec(pack: real -> Word, unpack: Word -> real)

  /** `Comm._MsgHeader`, sent before every frame. */
  const SYNC: seq<Byte> := [0x7F, 0xFF, 0xFF, 0xFF]

  // `OpCode`
  const QUANTUM_STATE_REQUEST: Byte := 0x01
  const COMPONENT_TYPE_REQUEST: Byte := 0x02
  const COMPONENT_TYPE_CHANGE_REQUEST: Byte := 0x03
  const QUANTUM_STATE_RESPONSE: Byte := 0x81
  const COMPONENT_TYPE_RESPONSE: Byte := 0x82

  /** `DataFormatEnum.THETA_PHI` */
  const THETA_PHI: Byte := 1

  // ---------------------------------------------------------------------------
  // The byte line

  /** What a UART will deliver: the bytes received so far, then one chunk per future poll round. */
  datatype Line = Line(incoming: seq<Byte>, arrivals: seq<seq<Byte>>)

  function Flatten(chunks: seq<seq<Byte>>): seq<Byte> {
    if chunks == [] then [] else chunks[0] + Flatten(chunks[1..])
  }

  /** Every byte the line will ever deliver, in order. */
  function Stream(l: Line): seq<Byte> {
    l.incoming + Flatten(l.arrivals)
  }

  function ChunkBytes(chunks: seq<seq<Byte>>): nat {
    if chunks == [] then 0 else |chunks[0]| + ChunkBytes(chunks[1..])
  }

  /** How many bytes the line will ever deliver. */
  function Size(l: Line): nat {
    |l.incoming| + ChunkBytes(l.arrivals)
  }

  /** One poll round passes: the next chunk is received. */
  function AfterSleep(l: Line): (r: Line)
    ensures Size(r) == Size(l)
    ensures |r.arrivals| == if l.arrivals == [] then 0 else |l.arrivals| - 1
  {
    if l.arrivals == [] then l
    else Line(l.incoming + l.arrivals[0], l.arrivals[1..])
  }

  /** Sleeping only receives: the bytes to come are the same and none already received is lost. */
  lemma SleepKeepsStream(l: Line)
    ensures Stream(AfterSleep(l)) == Stream(l)
    ensures l.incoming <= AfterSleep(l).incoming
  {
    if l.arrivals != [] {
      assert Flatten(l.arrivals) == l.arrivals[0] + Flatten(l.arrivals[1..]);
    }
  }

  /** The line after k poll rounds. */
  function Sleeps(l: Line, k: nat): Line
    decreases k
  {
    if k == 0 then l else Sleeps(AfterSleep(l), k - 1)
  }

  /** A serial port: `machine.UART` on the tile, `serial.Serial` on the monitor. */
  class Uart {
    var incoming: seq<Byte>
    var arrivals: seq<seq<Byte>>
    var written: seq<Byte>

    constructor (received: seq<Byte>, schedule: seq<seq<Byte>>)
      ensures incoming == received && arrivals == schedule && written == []
    {
      incoming, arrivals, written := received, schedule, [];
    }

    function View(): Line
      reads this
    {
      Line(incoming, arrivals)
    }

    /** `any()` / `in_waiting`: the number of bytes ready to read. */
    method Available() returns (n: nat)
      ensures n == |incoming|
    {
      n := |incoming|;
    }

    /** `read(n)`: up to n of the received bytes. */
    method Read(n: nat) returns (data: seq<Byte>)
      modifies this
      ensures var k := if n <= |old(incoming)| then n else |old(incoming)|;
              data == old(incoming)[..k] && incoming == old(incoming)[k..]
      ensures arrivals == old(arrivals) && written == old(written)
    {
      var k := if n <= |incoming| then n else |incoming|;
      data := incoming[..k];
      incoming := incoming[k..];
    }

    method Write(data: seq<Byte>)
      modifies this
      ensures written == old(written) + data
      ensures incoming == old(incoming) && arrivals == old(arrivals)
    {
      written := written + data;
    }

    /** `time.sleep` for one poll round. */
    method Sleep()
      modifies this
      ensures View() == AfterSleep(old(View())) && written == old(written)
    {
      if arrivals != [] {
        incoming := incoming + arrivals[0];
        arrivals := arrivals[1..];
      }
    }
  }

  // ---------------------------------------------------------------------------
  // waitForPattern

  /** How many leading bytes of the input agree with the pattern. */
  function MatchLength(input: seq<Byte>, pattern: seq<Byte>): (c: nat)
    ensures c <= |input| && c <= |pattern|
  {
    if |input| == 0 || |pattern| == 0 || input[0] != pattern[0] then 0
    else 1 + MatchLength(input[1..], pattern[1..])
  }

  /** MatchLength is the length of the longest common prefix. */
  lemma {:induction false} MatchLengthIsCommonPrefix(input: seq<Byte>, pattern: seq<Byte>)
    ensures var c := MatchLength(input, pattern);
      && c <= |input| && c <= |pattern| && input[..c] == pattern[..c]
      && (c < |input| && c < |pattern| ==> input[c] != pattern[c])
  {
    if |input| != 0 && |pattern| != 0 && input[0] == pattern[0] {
      MatchLengthIsCommonPrefix(input[1..], pattern[1..]);
      var c := MatchLength(input, pattern);
      assert input[..c] == [input[0]] + input[1..][..c - 1];
      assert pattern[..c] == [pattern[0]] + pattern[1..][..c - 1];
    }
  }

  /**
   * The bytes one round of the inner loop reads: the pattern when it is all
   * there; otherwise the agreeing bytes and the first byte that disagrees,
   * or every received byte when they run out first.
   */
  function RoundTake(input: seq<Byte>, pattern: seq<Byte>): (n: nat)
    ensures n <= |input|
  {
    var c := MatchLength(input, pattern);
    if c < |pattern| && c < |input| then c + 1 else c
  }

  /** A round matches when the whole (non-empty) pattern was read. */
  predicate RoundMatched(input: seq<Byte>, pattern: seq<Byte>) {
    |pattern| > 0 && MatchLength(input, pattern) == |pattern|
  }

  /** One pass of the inner loop of `waitForPattern`: whether it matched, the line afterwards and the bytes it read. */
  function Round(l: Line, pattern: seq<Byte>): (r: (bool, Line, seq<Byte>))
    ensures r.1.arrivals == l.arrivals && |r.1.incoming| == |l.incoming| - |r.2|
  {
    var take := RoundTake(l.incoming, pattern);
    (RoundMatched(l.incoming, pattern), Line(l.incoming[take..], l.arrivals), l.incoming[..take])
  }

  /** A round reads a prefix of what was received, and matches exactly when that prefix is the (non-empty) pattern. */
  lemma RoundReadsPrefix(l: Line, pattern: seq<Byte>)
    ensures var r := Round(l, pattern);
      && Stream(l) == r.2 + Stream(r.1)
      && r.1.incoming == l.incoming[|r.2|..]
      && (r.0 <==> |pattern| > 0 && r.2 == pattern)
  {
    var take := RoundTake(l.incoming, pattern);
    var read := l.incoming[..take];
    assert Round(l, pattern).2 == read;
    assert l.incoming == read + l.incoming[take..];
    MatchLengthIsCommonPrefix(l.incoming, pattern);
  }

  /** The outcome of `waitForPattern`; `Hang` is a wait without timeout that can never end. */
  datatype Wait = Matched | TimedOut | Hang

  /**
   * `waitForPattern(uart, pattern, timeout)` from round `elapsed` on: the outcome,
   * the line afterwards and the bytes read. Every round that does not match
   * sleeps; with a timeout of t > 0 rounds the t-th such sleep gives up.
   */
  function WaitPattern(l: Line, pattern: seq<Byte>, timeout: nat, elapsed: nat): (r: (Wait, Line, seq<Byte>))
    requires timeout == 0 || elapsed < timeout
    decreases Size(l), |l.arrivals|, if timeout == 0 then 0 else timeout - elapsed
  {
    var (matched, rest, read) := Round(l, pattern);
    if matched then
      (Matched, rest, read)
    else if read == [] && l.arrivals == [] && timeout == 0 then
      (Hang, l, [])
    else
      var slept := AfterSleep(rest);
      if timeout > 0 && elapsed + 1 >= timeout then
        (TimedOut, slept, read)
      else
        var r := WaitPattern(slept, pattern, timeout, if timeout > 0 then elapsed + 1 else 0);
        (r.0, r.1, read + r.2)
  }

  /** s ends with p. */
  predicate EndsWith(s: seq<Byte>, p: seq<Byte>) {
    |p| <= |s| && s[|s| - |p|..] == p
  }

  /** Bytes put in front keep a suffix a suffix. */
  lemma SuffixOfJoin(a: seq<Byte>, b: seq<Byte>, p: seq<Byte>)
    requires EndsWith(b, p)
    ensures EndsWith(a + b, p)
  {
    assert (a + b)[|a + b| - |p|..] == b[|b| - |p|..];
  }

  /** One round of a wait that neither matches, hangs nor times out: the rest of the wait follows the sleep. */
  lemma WaitPatternStep(l: Line, pattern: seq<Byte>, timeout: nat, elapsed: nat)
    requires timeout == 0 || elapsed < timeout
    requires !Round(l, pattern).0
    requires !(Round(l, pattern).2 == [] && l.arrivals == [] && timeout == 0)
    requires !(timeout > 0 && elapsed + 1 >= timeout)
    ensures var r := WaitPattern(AfterSleep(Round(l, pattern).1), pattern, timeout, if timeout > 0 then elapsed + 1 else 0);
      WaitPattern(l, pattern, timeout, elapsed) == (r.0, r.1, Round(l, pattern).2 + r.2)
  {
  }

  /** Waiting loses no byte: what it read, then what is left, is what the line delivers. */
  lemma {:induction false} WaitPatternKeepsStream(l: Line, pattern: seq<Byte>, timeout: nat, elapsed: nat)
    requires timeout == 0 || elapsed < timeout
    ensures var r := WaitPattern(l, pattern, timeout, elapsed); Stream(l) == r.2 + Stream(r.1)
    decreases Size(l), |l.arrivals|, if timeout == 0 then 0 else timeout - elapsed
  {
    var (matched, rest, read) := Round(l, pattern);
    RoundReadsPrefix(l, pattern);
    if !matched && !(read == [] && l.arrivals == [] && timeout == 0) {
      var slept := AfterSleep(rest);
      SleepKeepsStream(rest);
      if !(timeout > 0 && elapsed + 1 >= timeout) {
        var e := if timeout > 0 then elapsed + 1 else 0;
        WaitPatternKeepsStream(slept, pattern, timeout, e);
        WaitPatternStep(l, pattern, timeout, elapsed);
        var r := WaitPattern(slept, pattern, timeout, e);
        assert read + (r.2 + Stream(r.1)) == (read + r.2) + Stream(r.1);
      }
    }
  }

  /** A wait without timeout never times out; one with a timeout never hangs. */
  lemma {:induction false} WaitPatternEnds(l: Line, pattern: seq<Byte>, timeout: nat, elapsed: nat)
    requires timeout == 0 || elapsed < timeout
    ensures var r := WaitPattern(l, pattern, timeout, elapsed);
      (timeout == 0 ==> r.0 != TimedOut) && (timeout > 0 ==> r.0 != Hang)
    decreases Size(l), |l.arrivals|, if timeout == 0 then 0 else timeout - elapsed
  {
    var (matched, rest, read) := Round(l, pattern);
    if !matched && !(read == [] && l.arrivals == [] && timeout == 0) && !(timeout > 0 && elapsed + 1 >= timeout) {
      var slept := AfterSleep(rest);
      WaitPatternEnds(slept, pattern, timeout, if timeout > 0 then elapsed + 1 else 0);
    }
  }

  /** A wait that matched has just read the pattern. */
  lemma {:induction false} WaitPatternMatchEndsOnPattern(l: Line, pattern: seq<Byte>, timeout: nat, elapsed: nat)
    requires timeout == 0 || elapsed < timeout
    ensures var r := WaitPattern(l, pattern, timeout, elapsed);
      r.0 == Matched ==> |pattern| > 0 && EndsWith(r.2, pattern)
    decreases Size(l), |l.arrivals|, if timeout == 0 then 0 else timeout - elapsed
  {
    var (matched, rest, read) := Round(l, pattern);
    RoundReadsPrefix(l, pattern);
    if matched {
      assert read[|read| - |pattern|..] == read;
    } else if !(read == [] && l.arrivals == [] && timeout == 0) && !(timeout > 0 && elapsed + 1 >= timeout) {
      var slept := AfterSleep(rest);
      var e := if timeout > 0 then elapsed + 1 else 0;
      WaitPatternMatchEndsOnPattern(slept, pattern, timeout, e);
      WaitPatternStep(l, pattern, timeout, elapsed);
      var r := WaitPattern(slept, pattern, timeout, e);
      if r.0 == Matched {
        SuffixOfJoin(read, r.2, pattern);
      }
    }
  }

  /** The prefix the input shares with the pattern, told by where they first differ. */
  lemma MatchLengthIs(input: seq<Byte>, pattern: seq<Byte>, c: nat)
    requires c <= |input| && c <= |pattern| && input[..c] == pattern[..c]
    requires c == |input| || c == |pattern| || input[c] != pattern[c]
    ensures MatchLength(input, pattern) == c
  {
    MatchLengthIsCommonPrefix(input, pattern);
  }

  /** The inner loop of `waitForPattern`: reads byte by byte until the pattern is complete or a byte disagrees. */
  method ReadRound(uart: Uart, pattern: seq<Byte>) returns (matched: bool, taken: nat)
    modifies uart
    ensures (matched, uart.View()) == (Round(old(uart.View()), pattern).0, Round(old(uart.View()), pattern).1)
    ensures taken == |Round(old(uart.View()), pattern).2|
    ensures uart.written == old(uart.written)
  {
    ghost var l := uart.View();
    RoundReadsPrefix(l, pattern);
    taken := 0;
    for i := 0 to |pattern|
      invariant i <= |l.incoming| && uart.incoming == l.incoming[i..] && l.incoming[..i] == pattern[..i]
      invariant uart.arrivals == l.arrivals && uart.written == old(uart.written)
      invariant taken == i && (i < |pattern| || |pattern| == 0)
    {
      var avail := uart.Available();
      if avail >= 1 {
        var data := uart.Read(1);
        assert data[0] == l.incoming[i];
        taken := taken + 1;
        if data[0] != pattern[i] {
          MatchLengthIs(l.incoming, pattern, i);
          return false, taken;
        }
        assert l.incoming[..i + 1] == l.incoming[..i] + [data[0]];
        assert pattern[..i + 1] == pattern[..i] + [pattern[i]];
      } else {
        MatchLengthIs(l.incoming, pattern, i);
        return false, taken;
      }
      if i == |pattern| - 1 {
        MatchLengthIs(l.incoming, pattern, |pattern|);
        return true, taken;
      }
    }
    MatchLengthIs(l.incoming, pattern, 0);
    matched := false;
  }

  /** `waitForPattern`: rounds of byte-by-byte comparison separated by one-round sleeps. */
  method WaitForPattern(uart: Uart, pattern: seq<Byte>, timeout: nat) returns (r: Wait)
    modifies uart
    ensures (r, uart.View()) == (WaitPattern(old(uart.View()), pattern, timeout, 0).0, WaitPattern(old(uart.View()), pattern, timeout, 0).1)
    ensures uart.written == old(uart.written)
  {
    var elapsed := 0;
    while true
      invariant timeout == 0 || elapsed < timeout
      invariant uart.written == old(uart.written)
      invariant WaitPattern(uart.View(), pattern, timeout, elapsed).0 == WaitPattern(old(uart.View()), pattern, timeout, 0).0
      invariant WaitPattern(uart.View(), pattern, timeout, elapsed).1 == WaitPattern(old(uart.View()), pattern, timeout, 0).1
      decreases Size(uart.View()), |uart.arrivals|, if timeout == 0 then 0 else timeout - elapsed
    {
      ghost var l := uart.View();
      var matched, taken := ReadRound(uart, pattern);
      if matched {
        return Matched;
      }
      if taken == 0 && uart.arrivals == [] && timeout == 0 {
        return Hang;
      }
      uart.Sleep();
      if timeout > 0 {
        elapsed := elapsed + 1;
        if elapsed >= timeout {
          return TimedOut;
        }
      }
    }
  }

  /** A frame that starts with the header is found by the first round, whatever the timeout. */
  lemma SyncedFrameIsFound(tail: seq<Byte>, arrivals: seq<seq<Byte>>, timeout: nat)
    ensures WaitPattern(Line(SYNC + tail, arrivals), SYNC, timeout, 0) == (Matched, Line(tail, arrivals), SYNC)
  {
    MatchLengthIs(SYNC + tail, SYNC, 4);
    assert (SYNC + tail)[4..] == tail;
  }

  /** Only 0xFF bytes on a quiet line: the header is never found. */
  lemma {:induction false} NoHeaderAmongFFs(l: Line, timeout: nat, elapsed: nat)
    requires timeout == 0 || elapsed < timeout
    requires l.arrivals == [] && forall i :: 0 <= i < |l.incoming| ==> l.incoming[i] == 0xFF
    ensures WaitPattern(l, SYNC, timeout, elapsed).0 != Matched
    decreases |l.incoming|, if timeout == 0 then 0 else timeout - elapsed
  {
    var (matched, rest, read) := Round(l, SYNC);
    if l.incoming != [] {
      MatchLengthIs(l.incoming, SYNC, 0);
    } else {
      MatchLengthIs(l.incoming, SYNC, 0);
    }
    if !matched && !(read == [] && l.arrivals == [] && timeout == 0) && !(timeout > 0 && elapsed + 1 >= timeout) {
      NoHeaderAmongFFs(AfterSleep(rest), timeout, if timeout > 0 then elapsed + 1 else 0);
    }
  }

  /**
   * A stray 0x7F just before a header hides the header: the first round reads
   * 7F 7F as a mismatch at the second byte and the rest never lines up.
   */
  lemma StrayByteHidesHeader(timeout: nat)
    ensures WaitPattern(Line([0x7F] + SYNC, []), SYNC, timeout, 0).0 != Matched
  {
    var l := Line([0x7F] + SYNC, []);
    assert l.incoming == [0x7F, 0x7F, 0xFF, 0xFF, 0xFF];
    MatchLengthIs(l.incoming, SYNC, 1);
    assert RoundTake(l.incoming, SYNC) == 2;
    assert l.incoming[2..] == [0xFF, 0xFF, 0xFF] && l.incoming[..2] == [0x7F, 0x7F];
    assert !RoundMatched(l.incoming, SYNC);
    var rest := Line([0xFF, 0xFF, 0xFF], []);
    assert Round(l, SYNC) == (false, rest, [0x7F, 0x7F]);
    if timeout != 1 {
      NoHeaderAmongFFs(rest, timeout, if timeout > 0 then 1 else 0);
    }
  }

  // ---------------------------------------------------------------------------
  // waitForBytes

  /**
   * `waitForBytes(uart, n, timeout)` from round `lapse` on: check, and otherwise
   * sleep one round and give up once `timeout` rounds have passed.
   */
  function BytesWait(l: Line, n: nat, timeout: nat, lapse: nat): (r: (bool, Line))
    requires lapse == 0 || lapse < timeout
    ensures r.0 ==> n <= |r.1.incoming|
    decreases timeout - lapse
  {
    if n <= |l.incoming| then (true, l)
    else if lapse + 1 >= timeout then (false, AfterSleep(l))
    else BytesWait(AfterSleep(l), n, timeout, lapse + 1)
  }

  /** The last round at which `waitForBytes` still checks. */
  function LastCheck(timeout: nat): nat {
    if timeout <= 1 then 0 else timeout - 1
  }

  /** Waiting for bytes never reads any: the line delivers the same bytes afterwards. */
  lemma {:induction false} BytesWaitKeepsStream(l: Line, n: nat, timeout: nat, lapse: nat)
    requires lapse == 0 || lapse < timeout
    ensures Stream(BytesWait(l, n, timeout, lapse).1) == Stream(l)
    decreases timeout - lapse
  {
    SleepKeepsStream(l);
    if n > |l.incoming| && lapse + 1 < timeout {
      BytesWaitKeepsStream(AfterSleep(l), n, timeout, lapse + 1);
    }
  }

  lemma {:induction false} SleepsGrow(l: Line, k: nat)
    ensures l.incoming <= Sleeps(l, k).incoming
    decreases k
  {
    if k > 0 {
      SleepKeepsStream(l);
      SleepsGrow(AfterSleep(l), k - 1);
    }
  }

  /** `waitForBytes` succeeds exactly when n bytes are there by its last check. */
  lemma {:induction false} BytesWaitSucceedsIff(l: Line, n: nat, timeout: nat, lapse: nat)
    requires lapse == 0 || lapse < timeout
    ensures lapse <= LastCheck(timeout)
    ensures BytesWait(l, n, timeout, lapse).0 <==> n <= |Sleeps(l, LastCheck(timeout) - lapse).incoming|
    decreases timeout - lapse
  {
    SleepsGrow(l, LastCheck(timeout) - lapse);
    if n > |l.incoming| && lapse + 1 < timeout {
      BytesWaitSucceedsIff(AfterSleep(l), n, timeout, lapse + 1);
    }
  }

  /** `waitForBytes`: poll the byte count, one round of sleep between checks. */
  method WaitForBytes(uart: Uart, n: nat, timeout: nat) returns (ok: bool)
    modifies uart
    ensures (ok, uart.View()) == BytesWait(old(uart.View()), n, timeout, 0)
    ensures uart.written == old(uart.written)
  {
    var lapse := 0;
    while true
      invariant lapse == 0 || lapse < timeout
      invariant BytesWait(uart.View(), n, timeout, lapse) == BytesWait(old(uart.View()), n, timeout, 0)
      invariant uart.written == old(uart.written)
      decreases timeout - lapse
    {
      var avail := uart.Available();
      if avail >= n {
        return true;
      }
      uart.Sleep();
      lapse := lapse + 1;
      if lapse >= timeout {
        return false;
      }
    }
  }

  // ---------------------------------------------------------------------------
  // Frames

  /** The command of `sendStateRequest`: one qubit, theta-phi format, revision 0. */
  const STATE_REQUEST: seq<Byte> := [QUANTUM_STATE_REQUEST, 1, THETA_PHI, 0]

  /** The whole frame `sendStateRequest` writes. */
  const STATE_REQUEST_FRAME: seq<Byte> := SYNC + STATE_REQUEST

  /** The command of `sendComponentTypeRequest`. */
  const TYPE_REQUEST: seq<Byte> := [COMPONENT_TYPE_REQUEST, 0, 0, 0]

  /** The command of `sendComponentTypeChangeRequest(typeId)`. */
  function TypeChangeRequest(typeId: Byte): seq<Byte> {
    [COMPONENT_TYPE_CHANGE_REQUEST, typeId, 0, 0]
  }

  /** The command heading a state response; two packed floats follow it. */
  const STATE_RESPONSE: seq<Byte> := [QUANTUM_STATE_RESPONSE, 1, THETA_PHI, 0]

  /** The command answering a component type request. */
  function TypeResponse(typeValue: Byte): seq<Byte> {
    [COMPONENT_TYPE_RESPONSE, typeValue, 0, 0]
  }

  function Repeat(frame: seq<Byte>, k: nat): seq<Byte> {
    if k == 0 then [] else Repeat(frame, k - 1) + frame
  }

  lemma RepeatOnce(log: seq<Byte>, frame: seq<Byte>, k: nat)
    ensures log + Repeat(frame, k) + frame == log + Repeat(frame, k + 1)
  {
    assert Repeat(frame, k + 1) == Repeat(frame, k) + frame;
  }

  datatype CommError = ConnectionError | ValueError | StructError | NameError | Blocked

  /** The name `serviceRequest` writes to the configuration file for a type id: the first member with that code, else UNDEFINED. */
  function TypeName(typeId: int): (name: string)
    ensures name != "UNDEFINED" ==> exists i :: 0 <= i < |QuStates.GateTypes| && QuStates.GateTypes[i] == EnumValue(name, typeId)
  {
    match NameOf(QuStates.GateTypes, typeId)
    case Some(n) => n
    case None => "UNDEFINED"
  }

  // ---------------------------------------------------------------------------
  // The input indicator

  /** The colour the indicator was last asked for: open (blue), valid (green) or invalid (red). */
  datatype Signal = Off | OpenInput | ValidInput | InvalidInput

  /** `Indicator`: an LED on the tile, nothing on a PC. */
  class Indicator {
    const hasLed: bool
    var signal: Signal

    constructor (onTile: bool)
      ensures hasLed == onTile && signal == Off
    {
      hasLed, signal := onTile, Off;
    }

    /** `showOpenInput` and `showValidInput`, and `showInvalidInput` as intended. */
    method Show(s: Signal)
      modifies this
      ensures signal == s
    {
      signal := s;
    }

    /** `showInvalidInput` as written: NameError where there is an LED, red asked for otherwise. */
    method ShowInvalidInput() returns (r: Result<(), CommError>)
      modifies this
      ensures r.Err? <==> ShowInvalidInputAsWritten(hasLed).Err?
      ensures r.Err? ==> r.error == NameError && signal == old(signal)
      ensures r.Ok? ==> signal == ShowInvalidInputAsWritten(hasLed).value
    {
      if hasLed {
        return Err(NameError);
      }
      signal := InvalidInput;
      r := Ok(());
    }
  }

  /**
   * `showInvalidInput` as written: where an LED is present it calls `setColor`
   * on an undefined name `led`, which raises NameError; on a PC red is asked
   * for with no LED to show it.
   */
  function ShowInvalidInputAsWritten(hasLed: bool): (r: Result<Signal, CommError>)
    ensures r.Err? <==> hasLed
    ensures r.Err? ==> r.error == NameError
    ensures r.Ok? ==> r.value == InvalidInput
  {
    if hasLed then Err(NameError) else Ok(InvalidInput)
  }

  // ---------------------------------------------------------------------------
  // Decoding

  /** The 12 bytes after a state response's header: valid only under the response opcode. */
  function DecodeStateResponse(codec: FloatCodec, data: seq<Byte>): (r: ((real, real), Signal))
    requires |data| == 12
    ensures r.1 == ValidInput <==> data[0] == QUANTUM_STATE_RESPONSE
    ensures r.1 != ValidInput ==> r == ((0.0, 0.0), InvalidInput)
  {
    if data[0] == QUANTUM_STATE_RESPONSE then
      ((codec.unpack(data[4..8]), codec.unpack(data[8..12])), ValidInput)
    else
      ((0.0, 0.0), InvalidInput)
  }


  /** The request loop's result: whether a header came back, the line afterwards, and the requests sent. */
  datatype Sync = Sync(synced: bool, line: Line, sent: nat)

  /** The request loop of `requestInputState`. */
  function SyncAttempts(l: Line, timeLapse: nat): (r: Sync)
    requires timeLapse == 0 || timeLapse == 5 || timeLapse == 10
    ensures 1 <= r.sent && timeLapse + 5 * r.sent <= 15
    ensures !r.synced ==> timeLapse + 5 * r.sent == 15
    decreases 10 - timeLapse
  {
    var w := WaitPattern(l, SYNC, 5, 0);
    if w.0 == Matched then Sync(true, w.1, 1)
    else if timeLapse < 10 then
      var r := SyncAttempts(w.1, timeLapse + 5);
      r.(sent := r.sent + 1)
    else Sync(false, w.1, 1)
  }

  /** One turn of the request loop. */
  lemma SyncStep(l: Line, timeLapse: nat)
    requires timeLapse == 0 || timeLapse == 5 || timeLapse == 10
    ensures var w := WaitPattern(l, SYNC, 5, 0);
      SyncAttempts(l, timeLapse) ==
        if w.0 == Matched then Sync(true, w.1, 1)
        else if timeLapse < 10 then SyncAttempts(w.1, timeLapse + 5).(sent := SyncAttempts(w.1, timeLapse + 5).sent + 1)
        else Sync(false, w.1, 1)
  {
  }

  /** An outcome of the request loop with n earlier requests counted in. */
  function After(r: Sync, n: nat): Sync {
    r.(sent := r.sent + n)
  }

  /** The loop's goal after one more request, in each of its three outcomes. */
  lemma SyncAdvance(l: Line, timeLapse: nat, sent: nat, goal: Sync)
    requires timeLapse == 0 || timeLapse == 5 || timeLapse == 10
    requires goal == After(SyncAttempts(l, timeLapse), sent)
    ensures var w := WaitPattern(l, SYNC, 5, 0);
      && (w.0 == Matched ==> goal == Sync(true, w.1, sent + 1))
      && (w.0 != Matched && timeLapse < 10 ==> goal == After(SyncAttempts(w.1, timeLapse + 5), sent + 1))
      && (w.0 != Matched && timeLapse == 10 ==> goal == Sync(false, w.1, sent + 1))
  {
    SyncStep(l, timeLapse);
  }

  /**
   * What `requestInputState` makes of the line once a header came back: the
   * result, the signal, and the line afterwards. `hasLed` and `shown` are the
   * indicator's: a reply under another opcode raises NameError where there is
   * an LED, and the indicator keeps the signal it showed.
   */
  function ResponseOutcome(codec: FloatCodec, hasLed: bool, shown: Signal, l: Line): (r: (Result<(real, real), CommError>, Signal, Line))
    ensures r.0.Err? ==> hasLed && r.0.error == NameError && r.1 == shown
    ensures r.0.Ok? ==> r.1 != Off
    ensures r.1 != ValidInput && r.0.Ok? ==> r.0.value == (0.0, 0.0)
  {
    var (_, l1) := BytesWait(l, 12, 10, 0);
    if 12 <= |l1.incoming| then
      var (res, signal) := ShownResponse(codec, hasLed, shown, l1.incoming[..12]);
      (res, signal, Line(l1.incoming[12..], l1.arrivals))
    else
      (Ok((0.0, 0.0)), OpenInput, l1)
  }

  /** The 12 bytes of a response decoded and shown on the indicator: the result and the signal afterwards. */
  function ShownResponse(codec: FloatCodec, hasLed: bool, shown: Signal, data: seq<Byte>): (r: (Result<(real, real), CommError>, Signal))
    requires |data| == 12
    ensures r.0.Err? <==> hasLed && data[0] != QUANTUM_STATE_RESPONSE
    ensures r.0.Err? ==> r.0.error == NameError && r.1 == shown
    ensures r.0.Ok? ==> r == (Ok(DecodeStateResponse(codec, data).0), DecodeStateResponse(codec, data).1)
  {
    var (state, signal) := DecodeStateResponse(codec, data);
    if signal == ValidInput then (Ok(state), signal)
    else
      match ShowInvalidInputAsWritten(hasLed)
      case Ok(red) => (Ok(state), red)
      case Err(e) => (Err(e), shown)
  }

  /**
   * `requestInputState(raiseException)` on a line, with the indicator's
   * `hasLed` and current signal: result, indicator signal, line afterwards
   * and requests sent.
   */
  function RequestOutcome(codec: FloatCodec, raiseException: bool, hasLed: bool, shown: Signal, l: Line): (r: (Result<(real, real), CommError>, Signal, Line, nat))
    ensures 1 <= r.3 <= 3
    ensures r.0.Err? ==> (raiseException && r.0.error == ConnectionError && r.1 == OpenInput && r.3 == 3)
                         || (hasLed && r.0.error == NameError && r.1 == shown)
    ensures r.1 != ValidInput && r.0.Ok? ==> r.0.value == (0.0, 0.0)
    ensures r.0.Ok? ==> r.1 != Off
  {
    var sync := SyncAttempts(l, 0);
    if !sync.synced then
      (if raiseException then Err(ConnectionError) else Ok((0.0, 0.0)), OpenInput, sync.line, sync.sent)
    else
      var (res, signal, l2) := ResponseOutcome(codec, hasLed, shown, sync.line);
      (res, signal, l2, sync.sent)
  }

  /** The callbacks a `Comm` owner registered; the values they return are passed at the time of the call. */
  datatype Hooks = Hooks(quantumState: bool, componentType: bool, replaceOperator: bool)

  /** What serving one command does: the reply written, the name saved to the configuration file, and the result. */
  datatype Served = Served(reply: seq<Byte>, saved: Option<string>, result: Result<Option<string>, CommError>)

  /** The command dispatch of `serviceRequest`; `Ok(Some(name))` asks the owner to replace its operator. */
  function Serve(codec: FloatCodec, cmd: seq<Byte>, hooks: Hooks, state: (real, real), typeValue: int): (s: Served)
    requires |cmd| == 4
  {
    if cmd[0] == QUANTUM_STATE_REQUEST then
      if hooks.quantumState then Served(SYNC + STATE_RESPONSE + codec.pack(state.0) + codec.pack(state.1), None, Ok(None))
      else Served(SYNC + STATE_RESPONSE, None, Err(ValueError))
    else if cmd[0] == COMPONENT_TYPE_REQUEST then
      if !hooks.componentType then Served(SYNC, None, Err(ValueError))
      else if 0 <= typeValue < 256 then Served(SYNC + TypeResponse(typeValue), None, Ok(None))
      else Served(SYNC, None, Err(ValueError))
    else if cmd[0] == COMPONENT_TYPE_CHANGE_REQUEST then
      var name := TypeName(cmd[1]);
      Served([], Some(name), if hooks.replaceOperator then Ok(Some(name)) else Ok(None))
    else
      Served([], None, Ok(None))
  }

  /**
   * The first half of `serviceRequest`: wait for a header, then for four bytes,
   * and read them if they are there. `Hang` when no header can ever come.
   */
  function ServiceReceive(l: Line): (r: (Wait, Option<seq<Byte>>, Line))
    ensures r.1.Some? ==> |r.1.value| == 4
  {
    var (w, l1, _) := WaitPattern(l, SYNC, 0, 0);
    if w == Hang then (Hang, None, l1)
    else
      var (_, l2) := BytesWait(l1, 4, 10, 0);
      if |l2.incoming| < 4 then (w, None, l2)
      else (w, Some(l2.incoming[..4]), Line(l2.incoming[4..], l2.arrivals))
  }

  /** `serviceRequest` on a line: what it served and the line afterwards. */
  function ServiceOutcome(codec: FloatCodec, l: Line, hooks: Hooks, state: (real, real), typeValue: int): (r: (Served, Line))
  {
    var (w, cmd, l1) := ServiceReceive(l);
    if w == Hang then (Served([], None, Err(Blocked)), l1)
    else if cmd.None? then (Served([], None, Ok(None)), l1)
    else (Serve(codec, cmd.value, hooks, state, typeValue), l1)
  }

  /** What the monitor's message thread hands to a registered callback. */
  datatype Update = StateUpdate(theta: real, phi: real, data: int) | GateTypeUpdate(typeId: int, data: int)

  /**
   * The first half of a pass of `messageServiceRoutine`: a header within ten
   * rounds, then four bytes within ten rounds, or nothing.
   */
  function MessageReceive(l: Line): (r: (Option<seq<Byte>>, Line))
    ensures r.0.Some? ==> |r.0.value| == 4
  {
    var (w, l1, _) := WaitPattern(l, SYNC, 10, 0);
    if w != Matched then (None, l1)
    else
      var (ok, l2) := BytesWait(l1, 4, 10, 0);
      if !ok then (None, l2)
      else (Some(l2.incoming[..4]), Line(l2.incoming[4..], l2.arrivals))
  }

  /** The eight payload bytes of a state response, or fewer when the line runs dry. */
  function PayloadReceive(l: Line): (r: (seq<Byte>, Line))
    ensures |r.0| <= 8
  {
    var (_, l1) := BytesWait(l, 8, 10, 0);
    var k := if 8 <= |l1.incoming| then 8 else |l1.incoming|;
    (l1.incoming[..k], Line(l1.incoming[k..], l1.arrivals))
  }

  /** The rest of a state response: its payload decoded, for the state callback if one is set. */
  function StateOutcome(codec: FloatCodec, l: Line, onState: Option<int>): (r: (Result<Option<Update>, CommError>, Line, Option<Signal>))
  {
    var (payload, l1) := PayloadReceive(l);
    if |payload| < 8 then (Err(StructError), l1, None)
    else
      var update := if onState.Some? then Some(StateUpdate(codec.unpack(payload[..4]), codec.unpack(payload[4..]), onState.value)) else None;
      (Ok(update), l1, Some(ValidInput))
  }

  /** One pass of `messageServiceRoutine`'s loop: the callback made (if any), the line afterwards and the signal shown. */
  function MessageOutcome(codec: FloatCodec, l: Line, onState: Option<int>, onType: Option<int>): (r: (Result<Option<Update>, CommError>, Line, Option<Signal>))
  {
    var (head, l1) := MessageReceive(l);
    if head.None? then (Ok(None), l1, None)
    else if head.value[0] == QUANTUM_STATE_RESPONSE then StateOutcome(codec, l1, onState)
    else if head.value[0] == COMPONENT_TYPE_RESPONSE then
      (Ok(if onType.Some? then Some(GateTypeUpdate(head.value[1], onType.value)) else None), l1, None)
    else
      (Ok(None), l1, None)
  }

  /** `GateTypes.name` by a search over the members, as `serviceRequest` does it. */
  method ResolveTypeName(typeId: int) returns (name: string)
    ensures name == TypeName(typeId)
  {
    var members := QuStates.GateTypes;
    for i := 0 to |members|
      invariant forall j :: 0 <= j < i ==> members[j].value != typeId
    {
      if members[i].value == typeId {
        NameOfFirst(members, typeId, i);
        return members[i].name;
      }
    }
    name := "UNDEFINED";
  }

  /** The first member carrying a value names it. */
  lemma NameOfFirst(members: seq<EnumValue<int>>, v: int, i: nat)
    requires i < |members| && members[i].value == v
    requires forall j :: 0 <= j < i ==> members[j].value != v
    ensures NameOf(members, v) == Some(members[i].name)
  {
    var r := NameOf(members, v);
    var k :| 0 <= k < |members| && members[k] == EnumValue(r.value, v)
             && forall j :: 0 <= j < k ==> members[j].value != v;
    assert k == i;
  }

  /** The file `gate.cfg`: the gate type name last written to it, if any. */
  class ConfigFile {
    var contents: Option<string>

    constructor (initial: Option<string>)
      ensures contents == initial
    {
      contents := initial;
    }

    method Write(text: string)
      modifies this
      ensures contents == Some(text)
    {
      contents := Some(text);
    }
  }

  /** `Comm`: a tile's two UARTs (or the monitor's one) and the callbacks its owner registered. */
  class Comm {
    const uartIn: Uart
    const uartOut: Uart
    const indicator: Indicator
    var hooks: Hooks
    /** The data passed to the input-state callback, when one is registered. */
    var onInputState: Option<int>
    /** The data passed to the gate-type callback, when one is registered. */
    var onGateType: Option<int>
    var running: bool

    /**
     * The indicator is the class attribute, one `Indicator` shared by every
     * `Comm`. On a PC the message thread starts with the object; on a tile
     * there is none.
     */
    constructor (inPort: Uart, outPort: Uart, shared: Indicator, onTile: bool)
      ensures uartIn == inPort && uartOut == outPort && indicator == shared
      ensures hooks == Hooks(false, false, false) && onInputState == None && onGateType == None
      ensures running == !onTile
    {
      uartIn, uartOut := inPort, outPort;
      indicator := shared;
      hooks := Hooks(false, false, false);
      onInputState, onGateType := None, None;
      running := !onTile;
    }

    method SetStateRequestCallback()
      modifies this
      ensures hooks == old(hooks).(quantumState := true)
      ensures onInputState == old(onInputState) && onGateType == old(onGateType) && running == old(running)
    {
      hooks := hooks.(quantumState := true);
    }

    method SetComponentTypeRequestCallback()
      modifies this
      ensures hooks == old(hooks).(componentType := true)
      ensures onInputState == old(onInputState) && onGateType == old(onGateType) && running == old(running)
    {
      hooks := hooks.(componentType := true);
    }

    method SetReplaceOperatorCallback()
      modifies this
      ensures hooks == old(hooks).(replaceOperator := true)
      ensures onInputState == old(onInputState) && onGateType == old(onGateType) && running == old(running)
    {
      hooks := hooks.(replaceOperator := true);
    }

    method SetUpdateInputStateCallback(callbackData: int)
      modifies this
      ensures onInputState == Some(callbackData)
      ensures hooks == old(hooks) && onGateType == old(onGateType) && running == old(running)
    {
      onInputState := Some(callbackData);
    }

    method SetUpdateGateTypeCallback(callbackData: int)
      modifies this
      ensures onGateType == Some(callbackData)
      ensures hooks == old(hooks) && onInputState == old(onInputState) && running == old(running)
    {
      onGateType := Some(callbackData);
    }

    method SendSync(uart: Uart)
      modifies uart
      ensures uart.written == old(uart.written) + SYNC && uart.View() == old(uart.View())
    {
      uart.Write(SYNC);
    }

    method SendStateRequest(uart: Uart)
      modifies uart
      ensures uart.written == old(uart.written) + STATE_REQUEST_FRAME && uart.View() == old(uart.View())
    {
      SendSync(uart);
      uart.Write(STATE_REQUEST);
    }

    method SendComponentTypeRequest(uart: Uart)
      modifies uart
      ensures uart.written == old(uart.written) + SYNC + TYPE_REQUEST && uart.View() == old(uart.View())
    {
      SendSync(uart);
      uart.Write(TYPE_REQUEST);
    }

    /** The header goes out before the id is checked: an id that is not a byte leaves a bare header behind. */
    method SendComponentTypeChangeRequest(typeId: int, uart: Uart) returns (r: Result<(), CommError>)
      modifies uart
      ensures r.Ok? <==> 0 <= typeId < 256
      ensures r.Ok? ==> uart.written == old(uart.written) + SYNC + TypeChangeRequest(typeId)
      ensures r.Err? ==> r.error == ValueError && uart.written == old(uart.written) + SYNC
      ensures uart.View() == old(uart.View())
    {
      SendSync(uart);
      if !(0 <= typeId < 256) {
        return Err(ValueError);
      }
      uart.Write(TypeChangeRequest(typeId));
      r := Ok(());
    }

    method SendFloat(codec: FloatCodec, uart: Uart, value: real)
      modifies uart
      ensures uart.written == old(uart.written) + codec.pack(value) && uart.View() == old(uart.View())
    {
      uart.Write(codec.pack(value));
    }

    /** One turn of the request loop: a state request, then five rounds of waiting for a header. */
    method RequestOnce() returns (found: Wait)
      modifies uartIn
      ensures found == WaitPattern(old(uartIn.View()), SYNC, 5, 0).0
      ensures uartIn.View() == WaitPattern(old(uartIn.View()), SYNC, 5, 0).1
      ensures uartIn.written == old(uartIn.written) + STATE_REQUEST_FRAME
    {
      SendStateRequest(uartIn);
      found := WaitForPattern(uartIn, SYNC, 5);
    }

    /** The request loop of `requestInputState`: at most three requests, five rounds apart. */
    method Synchronise() returns (synced: bool, ghost sent: nat)
      modifies uartIn
      ensures Sync(synced, uartIn.View(), sent) == SyncAttempts(old(uartIn.View()), 0)
      ensures uartIn.written == old(uartIn.written) + Repeat(STATE_REQUEST_FRAME, sent)
    {
      ghost var goal := SyncAttempts(uartIn.View(), 0);
      sent := 0;
      var timeLapse := 0;
      while true
        invariant (timeLapse == 0 || timeLapse == 5 || timeLapse == 10) && timeLapse == 5 * sent
        invariant goal == After(SyncAttempts(uartIn.View(), timeLapse), sent)
        invariant uartIn.written == old(uartIn.written) + Repeat(STATE_REQUEST_FRAME, sent)
        decreases 10 - timeLapse
      {
        ghost var before := uartIn.View();
        var found := RequestOnce();
        RepeatOnce(old(uartIn.written), STATE_REQUEST_FRAME, sent);
        SyncAdvance(before, timeLapse, sent, goal);
        sent := sent + 1;
        if found == Matched {
          return true, sent;
        } else if timeLapse < 10 {
          timeLapse := timeLapse + 5;
        } else {
          return false, sent;
        }
      }
    }

    /** The response check of `requestInputState`: decode the 12 bytes and show the outcome. */
    method ShowResponse(codec: FloatCodec, data: seq<Byte>) returns (r: Result<(real, real), CommError>)
      requires |data| == 12
      modifies indicator
      ensures (r, indicator.signal) == ShownResponse(codec, indicator.hasLed, old(indicator.signal), data)
    {
      var (state, signal) := DecodeStateResponse(codec, data);
      if signal == ValidInput {
        indicator.Show(signal);
      } else {
        var shown := indicator.ShowInvalidInput();
        if shown.Err? {
          return Err(shown.error);
        }
      }
      r := Ok(state);
    }

    /** The reading half of `requestInputState`, once a header came back. */
    method ReadStateResponse(codec: FloatCodec) returns (r: Result<(real, real), CommError>)
      modifies uartIn, indicator
      ensures (r, indicator.signal, uartIn.View()) == ResponseOutcome(codec, indicator.hasLed, old(indicator.signal), old(uartIn.View()))
      ensures uartIn.written == old(uartIn.written)
    {
      var ready := WaitForBytes(uartIn, 12, 10);
      var avail := uartIn.Available();
      if avail >= 12 {
        var data := uartIn.Read(12);
        r := ShowResponse(codec, data);
      } else {
        indicator.Show(OpenInput);
        r := Ok((0.0, 0.0));
      }
    }

    /** `requestInputState`: up to three requests for the state of the tile on the input side. */
    method RequestInputState(codec: FloatCodec, raiseException: bool) returns (r: Result<(real, real), CommError>)
      modifies uartIn, indicator
      ensures var o := RequestOutcome(codec, raiseException, indicator.hasLed, old(indicator.signal), old(uartIn.View()));
        r == o.0 && indicator.signal == o.1 && uartIn.View() == o.2
        && uartIn.written == old(uartIn.written) + Repeat(STATE_REQUEST_FRAME, o.3)
    {
      var synced, sent := Synchronise();
      if !synced {
        indicator.Show(OpenInput);
        if raiseException {
          return Err(ConnectionError);
        }
        return Ok((0.0, 0.0));
      }
      r := ReadStateResponse(codec);
    }

    /** The first half of `serviceRequest`; `Hang` stands for a wait that never returns. */
    method ReceiveRequest() returns (w: Wait, cmd: Option<seq<Byte>>)
      modifies uartOut
      ensures (w, cmd, uartOut.View()) == ServiceReceive(old(uartOut.View()))
      ensures uartOut.written == old(uartOut.written)
    {
      w := WaitForPattern(uartOut, SYNC, 0);
      if w == Hang {
        return w, None;
      }
      var ready := WaitForBytes(uartOut, 4, 10);
      var avail := uartOut.Available();
      if avail >= 4 {
        var data := uartOut.Read(4);
        return w, Some(data);
      }
      cmd := None;
    }

    /** The command dispatch of `serviceRequest`. */
    method Answer(codec: FloatCodec, cmd: seq<Byte>, state: (real, real), componentType: EnumValue<int>, config: ConfigFile)
      returns (r: Result<Option<string>, CommError>)
      requires |cmd| == 4
      modifies uartOut, config
      ensures var served := Serve(codec, cmd, hooks, state, componentType.value);
        r == served.result && uartOut.written == old(uartOut.written) + served.reply
        && config.contents == (if served.saved.Some? then served.saved else old(config.contents))
      ensures uartOut.View() == old(uartOut.View())
    {
      r := Ok(None);
      if cmd[0] == QUANTUM_STATE_REQUEST {
        SendSync(uartOut);
        uartOut.Write(STATE_RESPONSE);
        if hooks.quantumState {
          SendFloat(codec, uartOut, state.0);
          SendFloat(codec, uartOut, state.1);
        } else {
          r := Err(ValueError);
        }
      } else if cmd[0] == COMPONENT_TYPE_REQUEST {
        SendSync(uartOut);
        if !hooks.componentType {
          return Err(ValueError);
        }
        var typeValue := componentType.value;
        if !(0 <= typeValue < 256) {
          return Err(ValueError);
        }
        uartOut.Write(TypeResponse(typeValue));
      } else if cmd[0] == COMPONENT_TYPE_CHANGE_REQUEST {
        var name := ResolveTypeName(cmd[1]);
        config.Write(name);
        if hooks.replaceOperator {
          r := Ok(Some(name));
        }
      }
    }

    /**
     * `serviceRequest`: wait (without timeout) for a header on the output side
     * and answer the command behind it.
     */
    method ServiceRequest(codec: FloatCodec, state: (real, real), componentType: EnumValue<int>, config: ConfigFile)
      returns (r: Result<Option<string>, CommError>)
      modifies uartOut, config
      ensures var (served, l) := ServiceOutcome(codec, old(uartOut.View()), hooks, state, componentType.value);
        r == served.result && uartOut.View() == l && uartOut.written == old(uartOut.written) + served.reply
        && config.contents == (if served.saved.Some? then served.saved else old(config.contents))
    {
      var w, cmd := ReceiveRequest();
      if w == Hang {
        return Err(Blocked);
      }
      if cmd.None? {
        return Ok(None);
      }
      r := Answer(codec, cmd.value, state, componentType, config);
    }

    /** The first half of a pass of `messageServiceRoutine`. */
    method ReceiveMessage() returns (head: Option<seq<Byte>>)
      modifies uartIn
      ensures (head, uartIn.View()) == MessageReceive(old(uartIn.View()))
      ensures uartIn.written == old(uartIn.written)
    {
      var found := WaitForPattern(uartIn, SYNC, 10);
      if found != Matched {
        return None;
      }
      var ready := WaitForBytes(uartIn, 4, 10);
      if !ready {
        return None;
      }
      var data := uartIn.Read(4);
      head := Some(data);
    }

    /** The payload of a state response: `waitForBytes(8)` and `read(8)`. */
    method ReceivePayload() returns (payload: seq<Byte>)
      modifies uartIn
      ensures (payload, uartIn.View()) == PayloadReceive(old(uartIn.View()))
      ensures uartIn.written == old(uartIn.written)
    {
      var ready := WaitForBytes(uartIn, 8, 10);
      payload := uartIn.Read(8);
    }

    /** The state response branch of `messageServiceRoutine`: read the two floats, light the LED, call back. */
    method HandleStateResponse(codec: FloatCodec) returns (r: Result<Option<Update>, CommError>)
      modifies uartIn, indicator
      ensures var o := StateOutcome(codec, old(uartIn.View()), onInputState);
        r == o.0 && uartIn.View() == o.1 && uartIn.written == old(uartIn.written)
        && indicator.signal == (if o.2.Some? then o.2.value else old(indicator.signal))
    {
      var payload := ReceivePayload();
      if |payload| < 8 {
        return Err(StructError);
      }
      assert payload[0..4] == payload[..4] && payload[4..8] == payload[4..];
      var theta, phi := codec.unpack(payload[0..4]), codec.unpack(payload[4..8]);
      indicator.Show(ValidInput);
      r := Ok(None);
      if onInputState.Some? {
        r := Ok(Some(StateUpdate(theta, phi, onInputState.value)));
      }
    }

    /** One pass of `messageServiceRoutine` on the monitor: decode a response and hand it to its callback. */
    method MessageServiceStep(codec: FloatCodec) returns (r: Result<Option<Update>, CommError>)
      modifies uartIn, indicator
      ensures var o := MessageOutcome(codec, old(uartIn.View()), onInputState, onGateType);
        r == o.0 && uartIn.View() == o.1 && uartIn.written == old(uartIn.written)
        && indicator.signal == (if o.2.Some? then o.2.value else old(indicator.signal))
    {
      r := Ok(None);
      var head := ReceiveMessage();
      if head.None? {
        return;
      }
      if head.value[0] == QUANTUM_STATE_RESPONSE {
        r := HandleStateResponse(codec);
      } else if head.value[0] == COMPONENT_TYPE_RESPONSE {
        if onGateType.Some? {
          r := Ok(Some(GateTypeUpdate(head.value[1], onGateType.value)));
        }
      }
    }

    /** `stop`: the message thread leaves its loop. */
    method Stop()
      modifies this
      ensures !running
      ensures hooks == old(hooks) && onInputState == old(onInputState) && onGateType == old(onGateType)
    {
      running := false;
    }
  }

  // ---------------------------------------------------------------------------
  // Both ends of the line

  /** Any request frame on the server's line is read whole and served. */
  lemma RequestIsServed(codec: FloatCodec, cmd: seq<Byte>, hooks: Hooks, state: (real, real), typeValue: int)
    requires |cmd| == 4
    ensures ServiceOutcome(codec, Line(SYNC + cmd, []), hooks, state, typeValue)
            == (Serve(codec, cmd, hooks, state, typeValue), Line([], []))
  {
    SyncedFrameIsFound(cmd, [], 0);
    assert cmd[..4] == cmd && cmd[4..] == [];
  }

  /**
   * The state a server sends is the state the requester returns, provided
   * the two floats survive packing.
   */
  lemma ServedStateIsReceived(codec: FloatCodec, hooks: Hooks, state: (real, real), typeValue: int, raiseException: bool, hasLed: bool, shown: Signal)
    requires hooks.quantumState
    requires codec.unpack(codec.pack(state.0)) == state.0 && codec.unpack(codec.pack(state.1)) == state.1
    ensures var reply := Serve(codec, STATE_REQUEST, hooks, state, typeValue).reply;
      RequestOutcome(codec, raiseException, hasLed, shown, Line(reply, [])) == (Ok(state), ValidInput, Line([], []), 1)
  {
    var tail := STATE_RESPONSE + codec.pack(state.0) + codec.pack(state.1);
    assert SYNC + STATE_RESPONSE + codec.pack(state.0) + codec.pack(state.1) == SYNC + tail;
    SyncedFrameIsFound(tail, [], 5);
    assert tail[..12] == tail && tail[12..] == [];
    assert tail[4..8] == codec.pack(state.0) && tail[8..12] == codec.pack(state.1);
  }

  /**
   * A reply of the right length under any other opcode: on a tile, where the
   * indicator has an LED, `requestInputState` raises NameError and the LED
   * keeps its colour; on a PC it asks for red and returns (0, 0).
   */
  lemma WrongReplyRaisesOnTile(codec: FloatCodec, data: seq<Byte>, raiseException: bool, shown: Signal)
    requires |data| == 12 && data[0] != QUANTUM_STATE_RESPONSE
    ensures RequestOutcome(codec, raiseException, true, shown, Line(SYNC + data, [])) == (Err(NameError), shown, Line([], []), 1)
    ensures RequestOutcome(codec, raiseException, false, shown, Line(SYNC + data, [])) == (Ok((0.0, 0.0)), InvalidInput, Line([], []), 1)
  {
    SyncedFrameIsFound(data, [], 5);
    assert data[..12] == data && data[12..] == [];
  }

  /** The monitor's message thread delivers a served state to its callback. */
  lemma ServedStateIsDelivered(codec: FloatCodec, hooks: Hooks, state: (real, real), typeValue: int, data: int, onType: Option<int>)
    requires hooks.quantumState
    requires codec.unpack(codec.pack(state.0)) == state.0 && codec.unpack(codec.pack(state.1)) == state.1
    ensures var reply := Serve(codec, STATE_REQUEST, hooks, state, typeValue).reply;
      MessageOutcome(codec, Line(reply, []), Some(data), onType)
        == (Ok(Some(StateUpdate(state.0, state.1, data))), Line([], []), Some(ValidInput))
  {
    var payload := codec.pack(state.0) + codec.pack(state.1);
    var tail := STATE_RESPONSE + payload;
    assert SYNC + STATE_RESPONSE + codec.pack(state.0) + codec.pack(state.1) == SYNC + tail;
    SyncedFrameIsFound(tail, [], 10);
    assert tail[..4] == STATE_RESPONSE && tail[4..] == payload;
    assert payload[..8] == payload && payload[8..] == [];
    assert payload[..4] == codec.pack(state.0) && payload[4..] == codec.pack(state.1);
  }

  /** The monitor's message thread delivers a served component type to its callback. */
  lemma ServedTypeIsDelivered(codec: FloatCodec, hooks: Hooks, state: (real, real), typeValue: Byte, data: int, onState: Option<int>)
    requires hooks.componentType
    ensures var reply := Serve(codec, TYPE_REQUEST, hooks, state, typeValue).reply;
      MessageOutcome(codec, Line(reply, []), onState, Some(data))
        == (Ok(Some(GateTypeUpdate(typeValue, data))), Line([], []), None)
  {
    var t := TypeResponse(typeValue);
    assert Serve(codec, TYPE_REQUEST, hooks, state, typeValue).reply == SYNC + t;
    SyncedFrameIsFound(t, [], 10);
    assert BytesWait(Line(t, []), 4, 10, 0) == (true, Line(t, []));
    assert t[..4] == t && t[4..] == [];
    assert MessageReceive(Line(SYNC + t, [])) == (Some(t), Line([], []));
  }
}
