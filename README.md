# Serial plotter acquisition session, in Dafny

This project models the acquisition logic of the `SerialPlotter` desktop utility (`test/seri.py`). The utility connects to a serial device and starts a read loop. The loop turns each integer line into a numbered sample `[index, value]`. Stop ends the session, save writes the samples as CSV rows, and close stops everything and exits. The Tk window, the chart and the device itself are abstracted away. What remains is a sequential state machine over the object's fields:

- `serial_port`, modelled as `Port = NoPort | Open | Closed`;
- `is_reading`;
- `data`;
- the running session's `x_data`/`y_data`;
- a ghost log of the control lines written to the device;
- an `exited` flag recording that `close_program` has ended the process.

Files:

- `session.dfy` (module `Session`): the state as a datatype and one step function per action. It holds the invariant every reachable state keeps and the lemmas that state what each action does.
- `export.dfy` (module `Export`): the rows `save_to_csv` hands to the CSV writer. A parser reads them back, and a round-trip lemma ties the two together.
- `plotter.dfy` (module `Plotter`): class `SerialPlotter` with the source's fields and one method per user action. Each method updates the fields in place. Its contract says the new fields are the matching `Session` step applied to the old ones, and that the object invariant `Valid()` still holds. `ReadSerial` is the `read_serial` loop over a sequence of input lines, with `OnLine` as its body.

Abstractions:

- Opening the port becomes a boolean input to `ConnectSerial`: whether `serial.Serial(...)` succeeded.
- Each line read becomes an `Option<int>`. `None` stands for a line whose decoding or `int()` parse failed.
- The save dialog's answer becomes the `path` parameter of `SaveToCsv`. `""` means the dialog was cancelled.
- Writes to the device are appended to the ghost log `written`.

Two details of the code that the model keeps:

- The buffer is not cleared by a connect. Only `start_reading` clears it.
- The `x_data`/`y_data` lists belong to the read thread that `start_reading` launches. The model therefore resets them in `StartReading`, and `ReadSerial` models only the loop that follows.

## Model

| member | source | states |
|---|---|---|
| Session.Indices | test/seri.py:66-74 | the x-coordinates built by appending `len(x_data) + 1` are exactly 1..n |
| Session.Rows | test/seri.py:74-93 | the rows appended for values v1..vn are exactly `[i, vi]` for i = 1..n, in order |
| Session.Accepted | test/seri.py:69-96 | the values kept from a run of lines are at most as many as the lines |
| Session.RunLines | test/seri.py:65-96 | the read loop keeps running and changes neither the port nor the control-line log nor the exit state; it adds one value per accepted line |
| Session.InitialInv | test/seri.py:38-40 | the freshly constructed object (no port, not reading, empty data) satisfies the invariant |
| Session.LinePreservesInv | test/seri.py:71-96 | one loop iteration keeps the buffer equal to the numbered values and keeps the loop running |
| Session.ActionsPreserveInv | test/seri.py:42-121 | connect, start, stop and close each keep the invariant: reading only with an open port, the buffer numbered 1..n |
| Session.ConnectOutcome | test/seri.py:42-48 | a successful connect only sets an open port; a failed connect changes nothing, so a prior connection is kept |
| Session.StartWithoutPort | test/seri.py:50-53 | start without a connection changes no field and writes nothing |
| Session.StartWithPort | test/seri.py:55-63 | start with a connection empties the buffer, sets the reading flag and writes exactly "START\n" |
| Session.RejectedLine | test/seri.py:71-96 | a line that fails decoding or parsing leaves x_data, y_data and data unchanged and the loop keeps running |
| Session.AcceptedLine | test/seri.py:74-93 | an accepted value v appends `[k, v]` with k one more than the rows already saved, and appends k to x_data |
| Session.SessionValues | test/seri.py:69-96 | the loop records exactly the accepted values, in arrival order |
| Session.SessionKeepsInv | test/seri.py:65-96 | the whole loop keeps the invariant |
| Session.SessionBuffer | test/seri.py:65-96 | after the loop, data is `[[1,v1],…,[n,vn]]` over every value of the session and x_data is 1..n |
| Session.FreshSession | test/seri.py:56-93 | after start and lines with accepted values v1..vn, data is `[[1,v1],…,[n,vn]]`, x_data is 1..n and only "START\n" was written |
| Session.RestartDiscards | test/seri.py:50-104 | start, lines, stop, start, lines: the second session's buffer holds only its own values; the log reads START, STOP, START |
| Session.StopWhenIdle | test/seri.py:98-99 | stop when not reading changes nothing and writes nothing |
| Session.StopWhenReading | test/seri.py:99-104 | stop while reading clears the flag, writes "STOP\n" exactly when a port exists and keeps the buffer |
| Session.StopIdempotent | test/seri.py:98-104 | a second stop has no further effect |
| Session.CloseOutcome | test/seri.py:116-121 | after close the flag is down, no port is open, an existing port is closed, and exactly one "STOP\n" is written iff a session was running |
| Export.DataRows | test/seri.py:113 | one CSV row per saved sample, in order, with the sample's index and value unmodified |
| Export.DataRowsRoundTrip | test/seri.py:113 | parsing the data rows back gives the saved samples |
| Export.CsvRoundTrip | test/seri.py:110-113 | a file written by save starts with the header and parses back to exactly the saved samples |
| Export.ExampleExport | test/seri.py:112-113 | samples (1,5), (2,12), (3,3) are written as header `Data Point,Value`, then `1,5`, `2,12`, `3,3` |
| Export.ExportOfBuffer | test/seri.py:93-113 | the file for numbered values v1..vn is the header followed by `[k, vk]` for k = 1..n |
| Export.SessionExport | test/seri.py:56-113 | saving after a session writes the header, then `[k, vk]` for the k-th accepted value |
| Plotter.SerialPlotter.constructor | test/seri.py:38-40 | a new plotter has no port, is not reading and has empty data |
| Plotter.SerialPlotter.ConnectSerial | test/seri.py:42-48 | updates the fields as `ConnectStep` and keeps the invariant |
| Plotter.SerialPlotter.StartReading | test/seri.py:50-63 | updates the fields as `StartStep` and keeps the invariant |
| Plotter.SerialPlotter.OnLine | test/seri.py:71-96 | one loop body: updates the fields as `LineStep`, keeps the invariant and keeps reading |
| Plotter.SerialPlotter.ReadSerial | test/seri.py:65-96 | the loop over the lines read: the new fields are `RunLines` of the old ones |
| Plotter.SerialPlotter.StopReading | test/seri.py:98-104 | updates the fields as `StopStep` and keeps the invariant |
| Plotter.SerialPlotter.SaveToCsv | test/seri.py:106-114 | writes a file iff data is non-empty and a path was chosen; its rows are the header then the data rows |
| Plotter.SerialPlotter.CloseProgram | test/seri.py:116-121 | updates the fields as `CloseStep`: stop first, then close the port, then exit |

## Left out

- The Tk window, its widgets and the event loop (test/seri.py:11-36, 123-127) are user interface.
- The matplotlib chart: axis limits, `ax.clear()`, plotting and `canvas.draw()` (test/seri.py:77-90). These belong to a foreign library and floating-point rendering. The effect of `set_xlim`/`set_ylim` is not claimed, because `ax.clear()` runs after them.
- The background thread, and any race between it and the user actions (test/seri.py:59). The model assumes one reader per session that runs to the end of its lines before the next action. A stale thread appending to a newer session's `data` is therefore not modelled.
- pyserial itself: opening at 9600 baud with a 1 s timeout, `readline`, `write`, `close` and their exceptions (test/seri.py:45, 63, 71, 104, 119). They become inputs and the ghost log described above. A `SerialException` raised inside the read loop (for example, from a port that went away) is not modelled.
- Python's `int()` rules for signs, whitespace and underscores, and UTF-8 decoding. A line is an abstract `Option<int>`.
- The file dialog, opening the file, CSV quoting, line endings and encoding (test/seri.py:108-111), and the `print` messages. `SaveToCsv` returns the rows handed to the CSV writer, with cells typed as text or integer.
- Session.LineStep, Plotter.SerialPlotter.OnLine: the chart calls between the `x_data`/`y_data` appends and the `data` append (test/seri.py:77-90) are assumed to return normally. An exception from them other than `ValueError`/`UnicodeDecodeError` would end the read thread with `x_data` one longer than `data` and `is_reading` still true, so no later line would be recorded; the model does not capture that.
- `root.destroy()` and `sys.exit()` (test/seri.py:120-121). They are modelled only as the `exited` flag, after which no action is allowed.
- Session.Accepted: its contract bounds only the number of kept values. The exact content is stated by Session.SessionValues.
