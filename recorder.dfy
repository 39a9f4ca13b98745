/** The ground station's recording buffer: a FIFO of formatted data lines
    filled by the serial thread and drained to the data file by the disk
    thread, with a count of the lines written. The lock around each operation
    makes it atomic; the model runs the operations one at a time. The outcome
    of each file append is an input. */
module Recorder {
  import opened Base
  import opened PyText

  /** `FlightDataBuffer`. */
  class FlightDataBuffer {
    var buffer: seq<string>
    var totalWritten: int

    constructor ()
      ensures buffer == [] && totalWritten == 0
    {
      buffer := [];
      totalWritten := 0;
    }

    /** `add`: append at the tail. */
    method Add(linha: string)
      modifies this
      ensures buffer == old(buffer) + [linha]
      ensures totalWritten == old(totalWritten)
    {
      buffer := buffer + [linha];
    }

    /** `flush`: every buffered line, oldest first, leaving the buffer empty. */
    method Flush() returns (dados: seq<string>)
      modifies this
      ensures dados == old(buffer) && buffer == []
      ensures totalWritten == old(totalWritten)
    {
      dados := buffer;
      buffer := [];
    }

    /** `size`. */
    method Size() returns (n: nat)
      ensures n == |buffer|
    {
      n := |buffer|;
    }

    /** `get_total_written`. */
    method GetTotalWritten() returns (n: int)
      ensures n == totalWritten
    {
      n := totalWritten;
    }

    /** `increment_written`. */
    method IncrementWritten(count: int)
      modifies this
      ensures totalWritten == old(totalWritten) + count
      ensures buffer == old(buffer)
    {
      totalWritten := totalWritten + count;
    }

    /** `peek_last`: the newest line, left in place, or nothing when empty. */
    method PeekLast() returns (r: Option<string>)
      ensures buffer == [] <==> r == None
      ensures r.Some? ==> r.value == buffer[|buffer| - 1]
    {
      if |buffer| == 0 {
        return None;
      }
      return Some(buffer[|buffer| - 1]);
    }
  }

  /** What one append writes to the file: the lines joined by newlines, with
      a final newline. */
  function Chunk(dados: seq<string>): string
  {
    Join(dados, '\n') + "\n"
  }

  /** Reading a chunk back line by line gives the lines written, followed by
      the empty remainder after the final newline. */
  lemma ChunkLines(dados: seq<string>)
    requires dados != []
    requires forall i :: 0 <= i < |dados| ==> '\n' !in dados[i]
    ensures Split(Chunk(dados), '\n') == dados + [""]
  {
    var parts := dados + [""];
    assert forall i :: 0 <= i < |parts| ==> '\n' !in parts[i];
    SplitJoin(parts, '\n');
    JoinLast(dados, '\n');
  }

  /** Joining one more, empty, piece adds a trailing separator. */
  lemma {:induction false} JoinLast(parts: seq<string>, sep: char)
    requires parts != []
    ensures Join(parts + [""], sep) == Join(parts, sep) + [sep]
  {
    if |parts| == 1 {
      assert Join([parts[0], ""], sep) == parts[0] + [sep] + Join([""], sep);
    } else {
      assert (parts + [""])[1..] == parts[1..] + [""];
      JoinLast(parts[1..], sep);
    }
  }

  /** One pass of the disk thread's loop: drain the buffer; when lines were
      drained, append them to the file and count them, or, when the append
      fails, put them back one by one. Returns the lines appended. */
  method DiskCycle(buf: FlightDataBuffer, writeOk: bool) returns (appended: seq<string>)
    modifies buf
    ensures writeOk ==> appended == old(buf.buffer) && buf.buffer == []
                        && buf.totalWritten == old(buf.totalWritten) + |old(buf.buffer)|
    ensures !writeOk ==> appended == [] && buf.buffer == old(buf.buffer)
                         && buf.totalWritten == old(buf.totalWritten)
  {
    appended := [];
    var dados := buf.Flush();
    if dados != [] {
      if writeOk {
        appended := dados;
        buf.IncrementWritten(|dados|);
      } else {
        var k := 0;
        while k < |dados|
          invariant 0 <= k <= |dados|
          invariant buf.buffer == dados[..k]
          invariant buf.totalWritten == old(buf.totalWritten)
        {
          buf.Add(dados[k]);
          assert dados[..k + 1] == dados[..k] + [dados[k]];
          k := k + 1;
        }
        assert dados[..|dados|] == dados;
      }
    }
  }

  /** The final flush after the stop event: drain the buffer and append what
      was drained; when that append fails, the lines are lost. */
  method FinalFlush(buf: FlightDataBuffer, writeOk: bool) returns (appended: seq<string>, lost: seq<string>)
    modifies buf
    ensures buf.buffer == [] && appended + lost == old(buf.buffer)
    ensures writeOk ==> appended == old(buf.buffer) && lost == []
    ensures !writeOk ==> appended == [] && lost == old(buf.buffer)
    ensures buf.totalWritten == old(buf.totalWritten) + |appended|
  {
    appended, lost := [], [];
    var dadosFinal := buf.Flush();
    if dadosFinal != [] {
      if writeOk {
        appended := dadosFinal;
        buf.IncrementWritten(|dadosFinal|);
      } else {
        lost := dadosFinal;
      }
    }
  }

  /** The serial thread adding a batch of lines, one `add` at a time. */
  method AddBatch(buf: FlightDataBuffer, batch: seq<string>)
    modifies buf
    ensures buf.buffer == old(buf.buffer) + batch
    ensures buf.totalWritten == old(buf.totalWritten)
  {
    var j := 0;
    while j < |batch|
      invariant 0 <= j <= |batch|
      invariant buf.buffer == old(buf.buffer) + batch[..j]
      invariant buf.totalWritten == old(buf.totalWritten)
    {
      buf.Add(batch[j]);
      assert batch[..j + 1] == batch[..j] + [batch[j]];
      j := j + 1;
    }
    assert batch[..j] == batch;
  }

  lemma Regroup(a: seq<string>, b: seq<string>, c: seq<string>)
    ensures a + b + c == a + (b + c)
  {
  }

  /** A batch from the serial thread followed by one pass of the disk
      thread: what the pass appends, followed by what stays buffered, is what
      was buffered before followed by the batch. */
  method SessionStep(buf: FlightDataBuffer, batch: seq<string>, writeOk: bool) returns (appended: seq<string>)
    modifies buf
    ensures appended + buf.buffer == old(buf.buffer) + batch
    ensures buf.totalWritten == old(buf.totalWritten) + |appended|
  {
    AddBatch(buf, batch);
    appended := DiskCycle(buf, writeOk);
  }

  /** A recording session: before each pass of the disk thread the serial
      thread adds a batch of lines; after the last pass comes the final
      flush. Every line added ends up in the file or, only when the final
      append fails, among the lost lines, in the order it was added; the
      write counter counts the lines in the file. */
  method RecordSession(buf: FlightDataBuffer, batches: seq<seq<string>>, outcomes: seq<bool>, finalOk: bool)
    returns (file: seq<string>, lost: seq<string>)
    requires |batches| == |outcomes|
    modifies buf
    ensures file + lost == old(buf.buffer) + Flatten(batches)
    ensures buf.buffer == [] && buf.totalWritten == old(buf.totalWritten) + |file|
    ensures finalOk ==> lost == []
  {
    ghost var initial := buf.buffer;
    file := [];
    var i := 0;
    while i < |batches|
      invariant 0 <= i <= |batches|
      invariant file + buf.buffer == initial + Flatten(batches[..i])
      invariant buf.totalWritten == old(buf.totalWritten) + |file|
    {
      assert batches[..i + 1][..i] == batches[..i];
      ghost var before := buf.buffer;
      var appended := SessionStep(buf, batches[i], outcomes[i]);
      Regroup(file, appended, buf.buffer);
      Regroup(file, before, batches[i]);
      file := file + appended;
      i := i + 1;
    }
    assert batches[..|batches|] == batches;
    var appended;
    appended, lost := FinalFlush(buf, finalOk);
    file := file + appended;
  }
}
