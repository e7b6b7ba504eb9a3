/** The ASCII commands the program writes to the sensor. Each is one line
    ended by a carriage return and a line feed; two of them carry a decimal
    integer. */
module Commands {
  import opened Results
  import opened Decimal

  const CRLF: string := "\r\n"

  const CHECK_BATTERY: string := "meas:batt?\r\n"
  const GET_STREAM_METHOD: string := "conf:stream:meth?\r\n"
  const GET_STREAM: string := "stream:bank1?\r\n"

  const PACKET_SIZE_PREFIX: string := "conf:bank1:pack "
  const CAPACITANCE_PREFIX: string := "meas:ch"
  const CAPACITANCE_SUFFIX: string := ":cap?\r\n"

  /** What the device's line reader needs: the command ends with CR LF and
      holds no other CR or LF, so it is read as exactly one line. */
  predicate Framed(cmd: string)
  {
    && |cmd| >= 2
    && cmd[|cmd| - 2..] == CRLF
    && forall i :: 0 <= i < |cmd| - 2 ==> cmd[i] != '\r' && cmd[i] != '\n'
  }

  /** The command that selects ASCII (0) or binary (1) streaming. */
  function SetStreamMethod(ascii: bool): string
  {
    if ascii then "conf:stream:meth 0\r\n" else "conf:stream:meth 1\r\n"
  }

  /** The device's reading of a stream-method command: whether it selects ASCII. */
  function StreamMethodIsAscii(cmd: string): Option<bool>
  {
    if cmd == "conf:stream:meth 0\r\n" then Some(true)
    else if cmd == "conf:stream:meth 1\r\n" then Some(false)
    else None
  }

  /** The command that switches streaming on (1) or off (0). */
  function SetStream(stream: bool): string
  {
    if stream then "stream:bank1 1\r\n" else "stream:bank1 0\r\n"
  }

  /** The device's reading of a stream on/off command. */
  function StreamFlag(cmd: string): Option<bool>
  {
    if cmd == "stream:bank1 1\r\n" then Some(true)
    else if cmd == "stream:bank1 0\r\n" then Some(false)
    else None
  }

  /** The command that sets the packet size: `str(size)` after the prefix. */
  function SetPacketSize(size: int): string
  {
    PACKET_SIZE_PREFIX + IntToDecimal(size) + CRLF
  }

  /** The device's reading of a packet-size command: the integer between the
      prefix and the line end. */
  function PacketSizeArgument(cmd: string): Option<int>
  {
    if |cmd| >= |PACKET_SIZE_PREFIX| + 2
      && cmd[..|PACKET_SIZE_PREFIX|] == PACKET_SIZE_PREFIX
      && cmd[|cmd| - 2..] == CRLF
    then ParseInt(cmd[|PACKET_SIZE_PREFIX|..|cmd| - 2])
    else None
  }

  /** The command that queries the capacitance of one channel: `str(channel)`
      between "meas:ch" and ":cap?". */
  function MeasureCapacitance(channel: int): string
  {
    CAPACITANCE_PREFIX + IntToDecimal(channel) + CAPACITANCE_SUFFIX
  }

  /** The device's reading of a capacitance query: the channel number between
      the prefix and the suffix. */
  function CapacitanceChannel(cmd: string): Option<int>
  {
    if |cmd| >= |CAPACITANCE_PREFIX| + |CAPACITANCE_SUFFIX|
      && cmd[..|CAPACITANCE_PREFIX|] == CAPACITANCE_PREFIX
      && cmd[|cmd| - |CAPACITANCE_SUFFIX|..] == CAPACITANCE_SUFFIX
    then ParseInt(cmd[|CAPACITANCE_PREFIX|..|cmd| - |CAPACITANCE_SUFFIX|])
    else None
  }

  /** Each command is one line, and the device reads back the setting it
      was built from. */
  lemma SetStreamMethodRoundTrip(ascii: bool)
    ensures Framed(SetStreamMethod(ascii))
    ensures StreamMethodIsAscii(SetStreamMethod(ascii)) == Some(ascii)
  {
  }

  lemma SetStreamRoundTrip(stream: bool)
    ensures Framed(SetStream(stream))
    ensures StreamFlag(SetStream(stream)) == Some(stream)
  {
  }

  lemma SetPacketSizeRoundTrip(size: int)
    ensures Framed(SetPacketSize(size))
    ensures PacketSizeArgument(SetPacketSize(size)) == Some(size)
  {
    var digits := IntToDecimal(size);
    IntToDecimalRoundTrip(size);
    var cmd := SetPacketSize(size);
    assert cmd[|PACKET_SIZE_PREFIX|..|cmd| - 2] == digits;
    assert cmd[|cmd| - 2..] == CRLF;
  }

  lemma MeasureCapacitanceRoundTrip(channel: int)
    ensures Framed(MeasureCapacitance(channel))
    ensures CapacitanceChannel(MeasureCapacitance(channel)) == Some(channel)
  {
    var digits := IntToDecimal(channel);
    IntToDecimalRoundTrip(channel);
    var cmd := MeasureCapacitance(channel);
    assert cmd[|CAPACITANCE_PREFIX|..|cmd| - |CAPACITANCE_SUFFIX|] == digits;
    assert cmd[|cmd| - |CAPACITANCE_SUFFIX|..] == CAPACITANCE_SUFFIX;
    assert cmd[|cmd| - 2..] == CRLF;
  }

  /** The fixed queries are single CR LF-terminated lines too. */
  lemma QueriesFramed()
    ensures Framed(CHECK_BATTERY) && Framed(GET_STREAM_METHOD) && Framed(GET_STREAM)
  {
  }

  /** Different arguments give different commands, so the device can tell
      every setting apart. */
  lemma EncodersInjective(a: int, b: int, p: bool, q: bool)
    ensures SetPacketSize(a) == SetPacketSize(b) ==> a == b
    ensures MeasureCapacitance(a) == MeasureCapacitance(b) ==> a == b
    ensures SetStream(p) == SetStream(q) ==> p == q
    ensures SetStreamMethod(p) == SetStreamMethod(q) ==> p == q
  {
    SetPacketSizeRoundTrip(a);
    SetPacketSizeRoundTrip(b);
    MeasureCapacitanceRoundTrip(a);
    MeasureCapacitanceRoundTrip(b);
  }

  /** The defaults the source uses: packet size 3, channel 1. */
  lemma DefaultCommands()
    ensures SetPacketSize(3) == "conf:bank1:pack 3\r\n"
    ensures MeasureCapacitance(1) == "meas:ch1:cap?\r\n"
    ensures SetPacketSize(-2) == "conf:bank1:pack -2\r\n"
  {
  }
}
