/** The transcript aggregator of `main` (backend/python/VACT.py:121-141):
    a shared list of speaker-labelled lines that is flushed to the LLM
    endpoint as one newline-joined blob once it holds five lines. */
module Aggregator {
  import opened Text

  /** `len(conversation_buffer) >= 5` */
  const Threshold: nat := 5

  // ---------------------------------------------------------------------
  // The downstream dispatch `send_to_llm` (lines 23-35)
  // ---------------------------------------------------------------------

  /** What the endpoint's reply body holds once parsed as JSON. */
  datatype ReplyBody =
    | WithResponse(response: string) // a JSON object with a "response" field
    | WithoutResponse                // valid JSON, but indexing ["response"] fails
    | NotJson                        // `response.json()` cannot decode it

  /** The outcome of `requests.post`: a reply, or a transport-level
      `RequestException`. */
  datatype Post = Replied(status: int, body: ReplyBody) | TransportError

  /** Whether `send_to_llm` returns to its caller or raises out of it. */
  datatype Dispatch = Returned | Raised

  /** `send_to_llm(text)`: a transport failure and a JSON decoding failure are
      `RequestException`s caught at line 34; a non-200 reply is only printed; a
      200 reply whose JSON lacks a "response" field raises from line 31 and
      escapes, since that handler catches nothing else. */
  function SendToLlm(post: Post): (d: Dispatch)
    ensures d == Raised <==> post.Replied? && post.status == 200 && post.body.WithoutResponse?
  {
    match post
    case TransportError => Returned
    case Replied(status, body) =>
      if status != 200 then Returned
      else match body
        case WithResponse(_) => Returned
        case NotJson => Returned
        case WithoutResponse => Raised
  }

  /** Whether writing the line to "conversation_log.txt" (lines 131-132)
      completed or raised an `OSError`. */
  datatype LogWrite = Written | WriteFailed

  // ---------------------------------------------------------------------
  // Batches: the reference description of a run of flushes
  // ---------------------------------------------------------------------

  /** All lines of a sequence of batches, in order. */
  function Flatten(bs: seq<seq<string>>): seq<string> {
    if bs == [] then [] else Flatten(bs[..|bs| - 1]) + bs[|bs| - 1]
  }

  /** The input cut into consecutive groups of `Threshold` lines, dropping
      the incomplete tail. */
  function Batches(xs: seq<string>): seq<seq<string>>
    decreases |xs|
  {
    if |xs| < Threshold then [] else [xs[..Threshold]] + Batches(xs[Threshold..])
  }

  /** The incomplete tail `Batches` leaves over. */
  function Leftover(xs: seq<string>): seq<string>
    decreases |xs|
  {
    if |xs| < Threshold then xs else Leftover(xs[Threshold..])
  }

  lemma {:induction false} FlattenCons(b: seq<string>, bs: seq<seq<string>>)
    ensures Flatten([b] + bs) == b + Flatten(bs)
    decreases |bs|
  {
    if bs != [] {
      var last := bs[|bs| - 1];
      assert ([b] + bs)[..|bs|] == [b] + bs[..|bs| - 1];
      FlattenCons(b, bs[..|bs| - 1]);
    }
  }

  /** The batches and the leftover partition the input: every batch has
      exactly `Threshold` lines, the leftover fewer, and together they are the
      input in order. */
  lemma {:induction false} BatchesPartition(xs: seq<string>)
    ensures forall b :: b in Batches(xs) ==> |b| == Threshold
    ensures |Leftover(xs)| < Threshold
    ensures Flatten(Batches(xs)) + Leftover(xs) == xs
    ensures |Batches(xs)| == |xs| / Threshold
    decreases |xs|
  {
    if |xs| >= Threshold {
      var rest := xs[Threshold..];
      BatchesPartition(rest);
      FlattenCons(xs[..Threshold], Batches(rest));
      assert xs == xs[..Threshold] + rest;
    }
  }

  /** Uniqueness: any batches of exactly `Threshold` lines followed by a
      buffer of fewer lines that spell out `xs` are `Batches(xs)` and
      `Leftover(xs)`. */
  lemma {:induction false} BatchesUnique(bs: seq<seq<string>>, buffer: seq<string>, xs: seq<string>)
    requires Flatten(bs) + buffer == xs
    requires forall b :: b in bs ==> |b| == Threshold
    requires |buffer| < Threshold
    ensures bs == Batches(xs) && buffer == Leftover(xs)
    ensures |bs| == |xs| / Threshold
    decreases |bs|
  {
    if bs != [] {
      var rest := bs[1..];
      assert bs == [bs[0]] + rest;
      FlattenCons(bs[0], rest);
      assert bs[0] in bs;
      assert xs[..Threshold] == bs[0];
      assert xs[Threshold..] == Flatten(rest) + buffer;
      forall b | b in rest ensures |b| == Threshold {
        assert b in bs;
      }
      BatchesUnique(rest, buffer, xs[Threshold..]);
    }
  }

  /** The example of a five-line threshold and twelve events: two flushes,
      of events 1-5 and 6-10, and events 11-12 stay buffered. */
  lemma TwelveEvents(xs: seq<string>)
    requires |xs| == 12
    ensures Batches(xs) == [xs[..5], xs[5..10]]
    ensures Leftover(xs) == xs[10..]
  {
    var r1 := xs[5..];
    var r2 := r1[5..];
    assert r2 == xs[10..];
    assert Batches(r2) == [] && Leftover(r2) == r2;
    assert r1[..5] == xs[5..10];
  }

  // ---------------------------------------------------------------------
  // process_transcript
  // ---------------------------------------------------------------------

  /** The line an event appends: none when `alternatives[0]` does not exist
      (the IndexError is caught at line 140) or when its transcript is blank. */
  function Added(speaker: Channel, alternatives: seq<string>): seq<string> {
    if |alternatives| == 0 || Strip(alternatives[0]) == [] then []
    else [Line(speaker, alternatives[0])]
  }

  /** Whether control reaches the length check at line 135: the transcript
      could be read, and a non-blank one was also written to the log. */
  predicate ReachesCheck(speaker: Channel, alternatives: seq<string>, log: LogWrite) {
    |alternatives| > 0 && (Added(speaker, alternatives) == [] || log == Written)
  }

  /** `conversation_buffer` and the handler that fills and flushes it. The
      ghost fields record every line ever appended, every batch handed to
      `send_to_llm`, and the batches whose dispatch returned so that the
      buffer was cleared. */
  class ConversationBuffer {
    var lines: seq<string>
    ghost var appended: seq<string>
    ghost var dispatched: seq<seq<string>>
    ghost var cleared: seq<seq<string>>

    /** No line is lost: the cleared batches followed by the buffer are
        exactly the appended lines, in order; a batch is only ever cleared
        after being dispatched, and only once it reached the threshold. */
    ghost predicate Valid()
      reads this
    {
      Flatten(cleared) + lines == appended
      && (forall b :: b in cleared ==> |b| >= Threshold)
      && |cleared| <= |dispatched|
    }

    /** The state every run reaches while every dispatch returns and every
        log write completes: the buffer stays below the threshold, every
        dispatched batch was cleared, and each holds exactly five lines. */
    ghost predicate Steady()
      reads this
    {
      Valid()
      && |lines| < Threshold
      && dispatched == cleared
      && (forall b :: b in cleared ==> |b| == Threshold)
    }

    /** In a steady state the history is determined by the appended lines
        alone: exactly `|appended| / 5` flushes happened, each batch was
        dispatched once, the batches are consecutive groups of five lines in
        arrival order, and the buffer holds the rest. */
    lemma SteadyHistory()
      requires Steady()
      ensures dispatched == Batches(appended)
      ensures lines == Leftover(appended)
      ensures |dispatched| == |appended| / Threshold
    {
      BatchesUnique(cleared, lines, appended);
    }

    /** `conversation_buffer = []` (line 121) */
    constructor ()
      ensures Steady()
      ensures lines == [] && appended == [] && dispatched == []
    {
      lines := [];
      appended := [];
      dispatched := [];
      cleared := [];
    }

    /** `process_transcript(label, result)`, where `alternatives` are the
        transcripts of `result.channel.alternatives`, `log` is the outcome of
        the log-file write and `post` that of the HTTP request made by
        `send_to_llm`. Returns the blob handed to `send_to_llm`, if any. */
    method Process(speaker: Channel, alternatives: seq<string>, log: LogWrite, post: Post)
      returns (blob: Option<string>)
      requires Valid()
      modifies this
      ensures Valid()
      ensures appended == old(appended) + Added(speaker, alternatives)
      ensures
        var pending := old(lines) + Added(speaker, alternatives);
        if ReachesCheck(speaker, alternatives, log) && |pending| >= Threshold then
          blob == Some(JoinLines(pending))
          && dispatched == old(dispatched) + [pending]
          && if SendToLlm(post) == Returned then
               lines == [] && cleared == old(cleared) + [pending]
             else
               lines == pending && cleared == old(cleared)
        else
          blob == None && lines == pending
          && dispatched == old(dispatched) && cleared == old(cleared)
      ensures old(Steady()) && SendToLlm(post) == Returned && log == Written ==> Steady()
    {
      if |alternatives| == 0 {
        return None;
      }
      var reached := Record(speaker, alternatives[0], log);
      if !reached {
        return None;
      }
      blob := FlushIfFull(post);
    }

    /** Lines 126-132: a non-blank transcript appends its formatted line and
        writes it to the log; `reached` tells whether control goes on to the
        length check, which a failing log write prevents. */
    method Record(speaker: Channel, transcript: string, log: LogWrite) returns (reached: bool)
      requires Valid()
      modifies this
      ensures Valid()
      ensures dispatched == old(dispatched) && cleared == old(cleared)
      ensures appended == old(appended) + Added(speaker, [transcript])
      ensures lines == old(lines) + Added(speaker, [transcript])
      ensures reached <==> ReachesCheck(speaker, [transcript], log)
    {
      reached := true;
      if Strip(transcript) != [] {
        var entry := Line(speaker, transcript);
        lines := lines + [entry];
        appended := appended + [entry];
        reached := log == Written;
      }
    }

    /** Lines 135-138: once the buffer holds at least five lines, hand the
        joined blob to `send_to_llm` and clear the buffer if that returned. */
    method FlushIfFull(post: Post) returns (blob: Option<string>)
      requires Valid()
      modifies this
      ensures Valid()
      ensures appended == old(appended)
      ensures
        if |old(lines)| >= Threshold then
          blob == Some(JoinLines(old(lines)))
          && dispatched == old(dispatched) + [old(lines)]
          && if SendToLlm(post) == Returned then
               lines == [] && cleared == old(cleared) + [old(lines)]
             else
               lines == old(lines) && cleared == old(cleared)
        else
          blob == None && lines == old(lines)
          && dispatched == old(dispatched) && cleared == old(cleared)
      ensures
        (old(|lines| <= Threshold && dispatched == cleared)
         && (forall b :: b in old(cleared) ==> |b| == Threshold)
         && SendToLlm(post) == Returned)
        ==> Steady()
    {
      if |lines| >= Threshold {
        blob := Some(JoinLines(lines));
        dispatched := dispatched + [lines];
        if SendToLlm(post) == Returned {
          assert (cleared + [lines])[..|cleared|] == cleared;
          cleared := cleared + [lines];
          lines := [];
        }
      } else {
        blob := None;
      }
    }
  }
}
