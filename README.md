# VACT transcript pipeline: a Dafny model

`backend/python/VACT.py` captures audio from two input devices, an agent
microphone and a customer line. It streams each channel to its own Deepgram
live connection. It then collects the finished transcripts from both
connections into one conversation buffer. Every time that buffer reaches
five lines, it is posted as one text blob to a local LLM endpoint.

This project models the parts of that script that have exact, checkable
behaviour:

- **The transcript aggregator** (`process_transcript`, lines 121-141) is the
  class `Aggregator.ConversationBuffer`. Its method `Process` takes one
  transcript event and does what the handler does:
  - reads `alternatives[0]`;
  - ignores a transcript whose `strip()` is empty;
  - otherwise appends the line `"<speaker>: <transcript>\n"`, with the
    transcript untrimmed;
  - writes that line to the log;
  - once the buffer holds at least five lines, hands `"\n".join(buffer)` to
    `send_to_llm` and clears the buffer.

  Every exception the handler catches at line 140 is an explicit input:
  - a result with no alternatives;
  - a failing log write;
  - a `send_to_llm` call that raises.

  Ghost history fields record every appended line, every dispatched batch and
  every cleared batch. They make the no-loss, exactly-once and ordering
  properties statable.
- **`send_to_llm`** (lines 23-35) is the function `Aggregator.SendToLlm`. It
  decides only whether the call returns or raises. Transport failures and
  JSON decoding failures are `RequestException`s and are caught. A non-200
  reply is only printed. A 200 reply without a `"response"` field raises
  `KeyError`, which escapes to the handler.
- **The audio queues** (`AudioStreamer`, lines 40-88) are the class
  `Audio.AudioStreamer`:
  - `AudioCallback` puts a block at the tail;
  - `Poll` is one pass of the generator's loop, which yields and removes the
    head only when the queue is not empty.
- **The send loop of `main`** (lines 164-170) is the class `Audio.DualStream`.
  Each `Iteration` takes one chunk from each queue. It sends the agent's chunk
  to the agent connection and the customer's chunk to the customer
  connection. `Run` repeats iterations for as long as both queues can supply
  a chunk.

Pure pieces are functions in module `Text`:
- the line format (`Line`) and its inverse (`ParseLine`);
- the join (`JoinLines`);
- `str.strip()` (`Strip`) over the characters Python counts as whitespace.

Module `Aggregator` holds the reference description of a run of flushes:
`Batches` cuts the appended lines into consecutive groups of five, and
`Leftover` is the incomplete tail.

Three points of the code differ from the pipeline's intended behaviour
(trimmed transcripts, a failed batch dropped rather than re-sent, a flush
after every append). The model follows the code:
- The transcript is meant to be trimmed before it is stored. The
  code only tests `transcript.strip()` and stores the untrimmed text, so
  `Line` keeps the transcript as received.
- A failed dispatch is meant to leave the buffer cleared. In the code, an
  exception that escapes `send_to_llm` (a 200 reply without a `"response"`
  field) skips the `clear()` at line 138. The lines stay
  buffered, and the next event dispatches them again together with the new
  line. `Process` states this.
- A failing log write (lines 131-132) comes after the append at line 128. It
  makes the handler skip that call's threshold check, so the buffer can then
  hold more than five lines. `Process` states this as well.

## Model

| member | source | states |
|---|---|---|
| `Text.StripEmptyIffBlank` | backend/python/VACT.py:126 | `transcript.strip()` is empty exactly when every character of the transcript is whitespace, the empty transcript included |
| `Text.LineRoundTrip` | backend/python/VACT.py:127 | the stored line `f"{label}: {transcript}\n"` can be parsed back into the same speaker and the same untrimmed transcript |
| `Text.ParsedIsLine` | backend/python/VACT.py:127 | every string the parser accepts is the formatted line of what it parses to, so distinct (speaker, transcript) pairs give distinct lines |
| `Text.BlobLayout` | backend/python/VACT.py:127-136 | the joined blob of formatted lines, plus a final newline, is every entry `<speaker>: <text>` followed by a blank line: lines ending in a newline and joined with a newline leave a blank line between entries |
| `Text.JoinAppend` | backend/python/VACT.py:136 | joining two non-empty runs of lines is joining each and putting one newline between them, so the blob keeps the buffer's order |
| `Aggregator.SendToLlm` | backend/python/VACT.py:23-35 | `send_to_llm` raises to its caller exactly when the endpoint answers 200 with JSON that has no `"response"` field; transport and decoding failures and non-200 replies return |
| `Aggregator.BatchesPartition` | backend/python/VACT.py:135-138 | cutting the appended lines into flushes of the threshold size gives `len // 5` batches of exactly five lines and a leftover of fewer than five, which together are the input in order |
| `Aggregator.BatchesUnique` | backend/python/VACT.py:128-138 | batches of exactly five lines followed by a buffer of fewer than five that spell out the appended lines can only be the canonical batches and leftover, and their number is `len // 5` |
| `Aggregator.TwelveEvents` | backend/python/VACT.py:135-138 | with twelve appended lines there are two flushes, of lines 1-5 and 6-10, and lines 11-12 stay buffered |
| `Aggregator.ConversationBuffer.constructor` | backend/python/VACT.py:121 | the buffer starts empty with no history, in the steady state |
| `Aggregator.ConversationBuffer.Process` | backend/python/VACT.py:123-141 | missing alternatives change nothing. A blank transcript appends nothing, and a non-blank one appends exactly its formatted line at the end. If the check at line 135 is reached and the buffer holds at least five lines, the blob handed on is exactly the buffered lines joined with newlines, and the buffer is emptied only if `send_to_llm` returned; otherwise nothing is dispatched. No line is ever lost, and the steady state is kept while dispatch returns and the log write succeeds |
| `Aggregator.ConversationBuffer.Record` | backend/python/VACT.py:126-132 | a non-blank transcript appends exactly its formatted line at the end of the buffer and changes nothing else. A blank one appends nothing. The length check is reached unless the log write of an appended line raised |
| `Aggregator.ConversationBuffer.FlushIfFull` | backend/python/VACT.py:135-138 | with at least five buffered lines, the blob handed on is exactly those lines joined with newlines, and the buffer is emptied only if `send_to_llm` returned. With fewer lines nothing happens. A buffer of at most five lines with only five-line batches behind it ends in the steady state when dispatch returns |
| `Aggregator.ConversationBuffer.SteadyHistory` | backend/python/VACT.py:121-138 | in the steady state every batch was dispatched once, the batches are the appended lines cut into groups of five in order, the buffer is the leftover, and there were exactly `len(appended) // 5` flushes |
| `Audio.AudioStreamer.constructor` | backend/python/VACT.py:41-47 | a streamer starts with its label and an empty queue, nothing captured or taken |
| `Audio.AudioStreamer.AudioCallback` | backend/python/VACT.py:77-78 | the callback appends the block at the tail of the queue and keeps the FIFO invariant (taken then queued equals captured) |
| `Audio.AudioStreamer.Poll` | backend/python/VACT.py:84-88 | the generator yields and removes the head only when the queue is not empty; on an empty queue nothing is yielded or removed |
| `Audio.Connection.Send` | backend/python/VACT.py:169-170 | a send appends the chunk to what the connection has received |
| `Audio.DualStream.constructor` | backend/python/VACT.py:112-119 | two distinct streams labelled Agent and Customer and two distinct connections, nothing captured or sent |
| `Audio.DualStream.Iteration` | backend/python/VACT.py:164-170 | an iteration proceeds exactly when both queues hold a chunk; it then sends the agent's head to the agent connection and the customer's head to the customer connection, never crossing them, and each connection's history stays equal to its own stream's taken chunks |
| `Audio.DualStream.Run` | backend/python/VACT.py:164-170 | repeated iterations send the i-th agent chunk and the i-th customer chunk together, in queue order, for as many pairs as both queues supply |

## Left out

- Audio device streams (`sd.InputStream` creation, start, stop, close) and the device IDs, lines 62-75 and 177-180: hardware I/O.
- The Deepgram client, `LiveOptions`, the connections' `start`/`finish` and event registration (lines 96-103, 118-119, 153-160, 175-176): an opaque external service. Connections are modelled only by the chunks sent on them.
- `on_error`, lines 150-151, only prints and is not modelled. Transcript events reach the model as calls to `Process`. Which connection delivers them, and in what interleaving, is an input.
- The HTTP request itself and the printing in `send_to_llm`: only whether the call returns or raises is modelled. A JSON decoding failure is treated as a `RequestException`, which holds for `requests` 2.27 and later.
- Log-file contents, timestamps and `log_conversation` (lines 17-21, 131-132): file I/O and the clock. Only whether the write raises is modelled.
- `asyncio.gather`, the 10 ms `asyncio.sleep` polling, `KeyboardInterrupt` and the `finally` teardown, and `load_dotenv`/API-key checks (lines 88, 92-94, 165-168, 172-187): concurrency and process lifecycle. The capture callback and the send loop are modelled as interleaved atomic steps.
- Audio.DualStream.Iteration: when only one queue holds a chunk, the source's pending `gather` may already have taken it. The model leaves both queues untouched until both can supply a chunk. The chunks sent, and the order they are sent in, are the same.
- Audio.DualStream.Run: the source loop never ends. The model runs at most `rounds` iterations and stops where the source would wait for a capture.
- The `numpy` byte conversion (line 78): chunks are opaque byte sequences.
- `str.strip()` is modelled by the whitespace set of Python's `str.isspace()`. The Unicode database itself is not modelled.
- The commented-out output stream (lines 50-60, 80-82): dead code.
