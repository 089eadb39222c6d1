/** The `SerialPlotter` object: its acquisition fields and one method per user
    action. Each method updates the fields in place and its contract says the
    new fields are those of the matching step function of module Session
    applied to the old ones. The serial device is abstracted: the outcome of
    opening it, each line read from it, and the log of lines written to it. */
module Plotter {
  import opened Session
  import opened Export

  class SerialPlotter {
    var port: Port
    var isReading: bool
    var data: seq<Row>
    // the running session's x_data and y_data
    var xData: seq<int>
    var yData: seq<int>
    // the control lines written to the device, oldest first
    ghost var written: seq<string>
    // close_program has destroyed the window and exited
    var exited: bool

    ghost function Snapshot(): State
      reads this
    {
      State(port, isReading, data, xData, yData, written, exited)
    }

    ghost predicate Valid()
      reads this
    {
      Inv(Snapshot())
    }

    constructor ()
      ensures Valid() && Snapshot() == Initial
    {
      port, isReading, data := NoPort, false, [];
      xData, yData, written, exited := [], [], [], false;
      InitialInv();
    }

    /** `ok` is whether opening the port at 9600 baud succeeded. */
    method ConnectSerial(ok: bool)
      requires Valid() && !exited
      modifies this
      ensures Valid() && Snapshot() == ConnectStep(old(Snapshot()), ok)
    {
      ActionsPreserveInv(Snapshot(), ok);
      if ok {
        port := Open;
      }
    }

    method StartReading()
      requires Valid() && !exited
      modifies this
      ensures Valid() && Snapshot() == StartStep(old(Snapshot()))
    {
      ActionsPreserveInv(Snapshot(), false);
      if port == NoPort {
        return;
      }
      data := [];
      isReading := true;
      // the new read thread starts with empty x_data and y_data
      xData, yData := [], [];
      written := written + [START];
    }

    /** One pass of the read_serial loop body; `line` is None when decoding or
        integer parsing failed. */
    method OnLine(line: Option<int>)
      requires Valid() && isReading && !exited
      modifies this
      ensures Valid() && isReading && !exited
      ensures Snapshot() == LineStep(old(Snapshot()), line)
    {
      LinePreservesInv(Snapshot(), line);
      match line
      case None =>
      case Some(value) =>
        xData := xData + [|xData| + 1];
        yData := yData + [value];
        data := data + [Row(|xData|, value)];
    }

    /** The read_serial loop over the lines that arrive while the flag holds. */
    method ReadSerial(lines: seq<Option<int>>)
      requires Valid() && isReading && !exited
      modifies this
      ensures Valid() && isReading && !exited
      ensures Snapshot() == RunLines(old(Snapshot()), lines)
    {
      for i := 0 to |lines|
        invariant Valid() && isReading && !exited
        invariant Snapshot() == RunLines(old(Snapshot()), lines[..i])
      {
        assert lines[..i + 1][..i] == lines[..i];
        OnLine(lines[i]);
      }
      assert lines[..|lines|] == lines;
    }

    method StopReading()
      requires Valid() && !exited
      modifies this
      ensures Valid() && Snapshot() == StopStep(old(Snapshot()))
    {
      ActionsPreserveInv(Snapshot(), false);
      if isReading {
        isReading := false;
        if port != NoPort {
          written := written + [STOP];
        }
      }
    }

    /** `path` is the answer of the save dialog, "" when it was cancelled.
        Returns the file written, None when nothing was written. */
    method SaveToCsv(path: string) returns (file: Option<CsvFile>)
      requires !exited
      ensures file.Some? <==> data != [] && path != ""
      ensures file.Some? ==> file.value.path == path && file.value.rows == CsvRows(data)
    {
      file := None;
      if data != [] {
        if path != "" {
          file := Some(CsvFile(path, CsvRows(data)));
        }
      }
    }

    method CloseProgram()
      requires Valid() && !exited
      modifies this
      ensures Valid() && Snapshot() == CloseStep(old(Snapshot()))
    {
      ActionsPreserveInv(Snapshot(), false);
      StopReading();
      if port != NoPort {
        port := Closed;
      }
      exited := true;
    }
  }
}
