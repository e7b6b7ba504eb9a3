/** The `Sensor` object: the serial connection to the breath sensor as the
    program sees it. A write appends a command to the log of sent commands; a
    readline consumes the next line the device sends. */
module Device {
  import opened Results
  import opened Codec
  import Commands

  class Sensor {
    /** The lines the device sends, in order. The read timeout is infinite and
        the device is taken to answer every read. */
    const incoming: nat -> string
    /** How many lines have been read so far. */
    var cursor: nat
    /** Every command written so far, in order. */
    var sent: seq<string>

    /** A fresh connection: nothing written, nothing read. */
    constructor (incoming: nat -> string)
      ensures this.incoming == incoming
      ensures cursor == 0 && sent == []
    {
      this.incoming := incoming;
      cursor := 0;
      sent := [];
    }

    /** `conn.readline()`: the next line from the device. */
    method ReadLine() returns (line: string)
      modifies this
      ensures line == incoming(old(cursor))
      ensures cursor == old(cursor) + 1 && sent == old(sent)
    {
      line := incoming(cursor);
      cursor := cursor + 1;
    }

    /** One write of the command followed by one line read; the line read is
        the answer. */
    method SendCommand(cmd: string) returns (response: string)
      modifies this
      ensures sent == old(sent) + [cmd]
      ensures cursor == old(cursor) + 1
      ensures response == incoming(old(cursor))
    {
      sent := sent + [cmd];
      response := ReadLine();
    }

    method CheckBattery()
      modifies this
      ensures sent == old(sent) + [Commands.CHECK_BATTERY] && cursor == old(cursor) + 1
    {
      var _ := SendCommand(Commands.CHECK_BATTERY);
    }

    method GetStreamMethod()
      modifies this
      ensures sent == old(sent) + [Commands.GET_STREAM_METHOD] && cursor == old(cursor) + 1
    {
      var _ := SendCommand(Commands.GET_STREAM_METHOD);
    }

    method SetStreamMethod(ascii: bool)
      modifies this
      ensures sent == old(sent) + [Commands.SetStreamMethod(ascii)] && cursor == old(cursor) + 1
    {
      var _ := SendCommand(Commands.SetStreamMethod(ascii));
    }

    method SetStream(stream: bool)
      modifies this
      ensures sent == old(sent) + [Commands.SetStream(stream)] && cursor == old(cursor) + 1
    {
      var _ := SendCommand(Commands.SetStream(stream));
    }

    method GetStream()
      modifies this
      ensures sent == old(sent) + [Commands.GET_STREAM] && cursor == old(cursor) + 1
    {
      var _ := SendCommand(Commands.GET_STREAM);
    }

    method SetPacketSize(size: int)
      modifies this
      ensures sent == old(sent) + [Commands.SetPacketSize(size)] && cursor == old(cursor) + 1
    {
      var _ := SendCommand(Commands.SetPacketSize(size));
    }

    method MeasureCapacitance(channel: int)
      modifies this
      ensures sent == old(sent) + [Commands.MeasureCapacitance(channel)] && cursor == old(cursor) + 1
    {
      var _ := SendCommand(Commands.MeasureCapacitance(channel));
    }

    /** `read_stream`: read one line and decode it; nothing is written. */
    method ReadStream() returns (frame: Result<Frame>)
      modifies this
      ensures frame == Decode(incoming(old(cursor)))
      ensures cursor == old(cursor) + 1 && sent == old(sent)
    {
      var line := ReadLine();
      frame := Decode(line);
    }
  }
}
