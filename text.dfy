/** Text helpers used by the transcript aggregator: Python's `str.strip()`
    (only its emptiness is observed), the `"\n".join` of the buffered lines,
    and the speaker-labelled line format. */
module Text {

  datatype Option<+T> = None | Some(value: T)

  /** The two speakers; the event handlers pass these names as labels. */
  datatype Channel = Agent | Customer

  function Name(c: Channel): string {
    match c
    case Agent => "Agent"
    case Customer => "Customer"
  }

  /** The characters Python's `str.isspace()` accepts, which are the ones
      `str.strip()` with no argument removes. */
  predicate IsSpace(c: char) {
    c == ' ' || ('\t' <= c <= '\r') || ('\U{1C}' <= c <= '\U{1F}')
    || c == '\U{85}' || c == '\U{A0}' || c == '\U{1680}'
    || ('\U{2000}' <= c <= '\U{200A}') || c == '\U{2028}' || c == '\U{2029}'
    || c == '\U{202F}' || c == '\U{205F}' || c == '\U{3000}'
  }

  /** Reference definition: every character is whitespace. */
  predicate Blank(s: string) {
    forall i :: 0 <= i < |s| ==> IsSpace(s[i])
  }

  function TrimStart(s: string): string {
    if |s| > 0 && IsSpace(s[0]) then TrimStart(s[1..]) else s
  }

  function TrimEnd(s: string): string {
    if |s| > 0 && IsSpace(s[|s| - 1]) then TrimEnd(s[..|s| - 1]) else s
  }

  /** `s.strip()` */
  function Strip(s: string): string {
    TrimEnd(TrimStart(s))
  }

  lemma {:induction false} TrimStartEmpty(s: string)
    ensures TrimStart(s) == [] <==> Blank(s)
  {
    if |s| > 0 && IsSpace(s[0]) {
      TrimStartEmpty(s[1..]);
      assert Blank(s) <==> Blank(s[1..]) by {
        forall i | 0 < i < |s| ensures s[i] == s[1..][i - 1] { }
      }
    } else if |s| > 0 {
      assert !IsSpace(s[0]);
    }
  }

  lemma {:induction false} TrimEndEmpty(s: string)
    ensures TrimEnd(s) == [] <==> Blank(s)
  {
    if |s| > 0 && IsSpace(s[|s| - 1]) {
      var t := s[..|s| - 1];
      TrimEndEmpty(t);
      assert Blank(s) <==> Blank(t) by {
        forall i | 0 <= i < |t| ensures s[i] == t[i] { }
      }
    } else if |s| > 0 {
      assert !IsSpace(s[|s| - 1]);
    }
  }

  lemma {:induction false} TrimStartKeepsBlank(s: string)
    ensures Blank(TrimStart(s)) <==> Blank(s)
  {
    TrimStartEmpty(s);
    if |s| > 0 && IsSpace(s[0]) {
      TrimStartKeepsBlank(s[1..]);
      assert Blank(s) <==> Blank(s[1..]) by {
        forall i | 0 < i < |s| ensures s[i] == s[1..][i - 1] { }
      }
    }
  }

  /** `transcript.strip()` is falsy exactly when the transcript consists of
      whitespace only (the empty string included). */
  lemma StripEmptyIffBlank(s: string)
    ensures Strip(s) == [] <==> Blank(s)
  {
    TrimEndEmpty(TrimStart(s));
    TrimStartKeepsBlank(s);
  }

  /** The stored buffer line `f"{label}: {transcript}\n"`; the transcript is
      kept as received, not stripped. */
  function Line(c: Channel, transcript: string): string {
    Name(c) + ": " + transcript + "\n"
  }

  /** Inverse of `Line`: recovers the speaker and the untrimmed transcript. */
  function ParseLine(s: string): Option<(Channel, string)> {
    if |s| == 0 || s[|s| - 1] != '\n' then None
    else
      var body := s[..|s| - 1];
      if |body| >= 7 && body[..7] == "Agent: " then Some((Agent, body[7..]))
      else if |body| >= 10 && body[..10] == "Customer: " then Some((Customer, body[10..]))
      else None
  }

  lemma LineRoundTrip(c: Channel, t: string)
    ensures ParseLine(Line(c, t)) == Some((c, t))
  {
    var s := Line(c, t);
    assert s[..|s| - 1] == Name(c) + ": " + t;
    match c
    case Agent =>
      assert s[..|s| - 1][..7] == "Agent: ";
      assert s[..|s| - 1][7..] == t;
    case Customer =>
      assert s[..|s| - 1][..7] != "Agent: " by {
        assert s[..|s| - 1][0] == 'C';
      }
      assert s[..|s| - 1][..10] == "Customer: ";
      assert s[..|s| - 1][10..] == t;
  }

  /** Every string the parser accepts is a formatted line, so the format is
      injective: distinct (speaker, transcript) pairs give distinct lines. */
  lemma ParsedIsLine(s: string, c: Channel, t: string)
    requires ParseLine(s) == Some((c, t))
    ensures Line(c, t) == s
  {
    var body := s[..|s| - 1];
    if |body| >= 7 && body[..7] == "Agent: " {
      assert body == body[..7] + body[7..];
    } else {
      assert body == body[..10] + body[10..];
    }
    assert s == body + "\n";
  }

  /** `"\n".join(parts)` */
  function JoinLines(parts: seq<string>): string {
    if |parts| == 0 then ""
    else if |parts| == 1 then parts[0]
    else parts[0] + "\n" + JoinLines(parts[1..])
  }

  /** The lines formatted from a sequence of (speaker, transcript) events. */
  function Lines(es: seq<(Channel, string)>): (r: seq<string>)
    ensures |r| == |es|
    ensures forall i :: 0 <= i < |es| ==> r[i] == Line(es[i].0, es[i].1)
  {
    if es == [] then [] else [Line(es[0].0, es[0].1)] + Lines(es[1..])
  }

  /** Reference layout of a flushed blob: every entry is followed by a blank
      line, because each buffered line already ends in a newline and the join
      adds another one. */
  function Layout(es: seq<(Channel, string)>): string {
    if es == [] then "" else Name(es[0].0) + ": " + es[0].1 + "\n\n" + Layout(es[1..])
  }

  /** The joined blob is the reference layout without its final newline. */
  lemma {:induction false} BlobLayout(es: seq<(Channel, string)>)
    requires |es| > 0
    ensures JoinLines(Lines(es)) + "\n" == Layout(es)
  {
    var head := Line(es[0].0, es[0].1);
    if |es| == 1 {
      assert Lines(es) == [head];
      assert Layout(es[1..]) == "";
    } else {
      BlobLayout(es[1..]);
      assert Lines(es)[1..] == Lines(es[1..]);
      calc {
        JoinLines(Lines(es)) + "\n";
        head + "\n" + JoinLines(Lines(es[1..])) + "\n";
        head + "\n" + Layout(es[1..]);
        Layout(es);
      }
    }
  }

  /** Joining two non-empty runs of lines equals joining each and putting a
      newline between them: a blob is the join of its lines in order. */
  lemma {:induction false} JoinAppend(a: seq<string>, b: seq<string>)
    requires |a| > 0 && |b| > 0
    ensures JoinLines(a + b) == JoinLines(a) + "\n" + JoinLines(b)
  {
    if |a| == 1 {
      assert (a + b)[1..] == b;
    } else {
      JoinAppend(a[1..], b);
      assert (a + b)[1..] == a[1..] + b;
    }
  }
}
