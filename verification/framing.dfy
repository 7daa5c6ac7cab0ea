/**
  Newline-delimited message framing of the tool-call server. Input arrives in
  chunks that are appended to `inputBuffer`; every complete line is cut off
  the front of the buffer, trimmed and, unless blank, dispatched. The whole
  loop sits inside one try block: the first line whose handling throws is
  answered with an error carrying a null id, and the loop stops there, so any
  complete lines after it wait in the buffer for the next chunk.

  `Drain` is the specification of one round of that loop, for any way of
  handling a single line; `LineHandler` is the server's way (trim, skip if
  blank, dispatch); `Server.OnData` is the loop itself.
 */
module Framing {
  import opened Values
  import opened Validation
  import opened Dispatch

  /** `s.indexOf(c)`: the position of `c` in `s`, or -1 when it does not occur. */
  function IndexOf(s: string, c: char): (r: int)
    ensures -1 <= r < |s|
    ensures r == -1 <==> c !in s
    ensures 0 <= r ==> s[r] == c
  {
    if s == [] then -1
    else if s[0] == c then 0
    else
      var k := IndexOf(s[1..], c);
      assert s == [s[0]] + s[1..];
      if k == -1 then -1 else k + 1
  }

  /** `IndexOf` finds the first occurrence: `c` does not occur before it. */
  lemma {:induction false} IndexOfFirst(s: string, c: char)
    ensures 0 <= IndexOf(s, c) ==> c !in s[..IndexOf(s, c)]
  {
    if s != [] && s[0] != c {
      IndexOfFirst(s[1..], c);
      var k := IndexOf(s[1..], c);
      if k != -1 {
        assert s[..k + 1] == [s[0]] + s[1..][..k];
      }
    }
  }

  /** What handling one raw line gives: `None` when it is skipped, else how its dispatch ended. */
  type Handler = string -> Option<Outcome>

  /** The server's handling of a raw line: trim it, skip it if blank, else dispatch the trimmed text. */
  function LineHandler(dispatch: string -> Outcome): Handler
  {
    raw => if Trim(raw) == "" then None else Some(dispatch(Trim(raw)))
  }

  /**
    A line is skipped exactly when it is all whitespace; any other line is
    dispatched trimmed.
   */
  lemma LineHandlerSkipsBlank(dispatch: string -> Outcome, raw: string)
    ensures LineHandler(dispatch)(raw) == None <==> forall i :: 0 <= i < |raw| ==> IsJsWhitespace(raw[i])
    ensures LineHandler(dispatch)(raw) != None ==> LineHandler(dispatch)(raw) == Some(dispatch(Trim(raw)))
  {
    TrimEmpty(raw);
  }

  /**
    Cutting the first complete line off a buffer: the text before the first
    '\n' and the text after it, or `None` when the buffer holds no '\n'.
   */
  function Cut(buffer: string): (r: Option<(string, string)>)
    ensures r == None <==> '\n' !in buffer
    ensures r != None ==> buffer == r.value.0 + "\n" + r.value.1 && '\n' !in r.value.0
  {
    var i := IndexOf(buffer, '\n');
    if i == -1 then None
    else
      IndexOfFirst(buffer, '\n');
      assert buffer == buffer[..i] + "\n" + buffer[i + 1..];
      Some((buffer[..i], buffer[i + 1..]))
  }

  /**
    The result of draining a buffer: the responses written, the raw lines
    cut off (without their '\n'), what is left in the buffer, and whether a
    line threw.
   */
  datatype Drained = Drained(replies: seq<Response>, consumed: seq<string>, rest: string, failed: bool)

  /** The error response the outer catch writes: code -32000 and a null id. */
  function CaughtError(e: Error): Response
  {
    ErrorReply(JsNull, RPC_ERROR, e)
  }

  /** What the server writes for one raw line: nothing if it is skipped, else its dispatch's reply. */
  function ReplyFor(raw: string, handle: Handler): seq<Response>
  {
    match handle(raw)
    case None => []
    case Some(Returned(response)) => [response]
    case Some(Threw(e)) => [CaughtError(e)]
  }

  /** Handling the raw line throws. */
  predicate Throws(raw: string, handle: Handler)
  {
    handle(raw).Some? && handle(raw).value.Threw?
  }

  /**
    One round of the framing loop over `buffer`, each complete line handled
    by `handle`: every line's reply is written in turn, and the round ends
    after the first line that throws or when no complete line is left.
   */
  function Drain(buffer: string, handle: Handler): (r: Drained)
    ensures r.consumed == [] <==> '\n' !in buffer
    ensures r.failed ==> r.consumed != []
    ensures |r.rest| <= |buffer|
    decreases |buffer|
  {
    match Cut(buffer)
    case None => Drained([], [], buffer, false)
    case Some((raw, rest)) =>
      if Throws(raw, handle) then Drained(ReplyFor(raw, handle), [raw], rest, true)
      else
        var d := Drain(rest, handle);
        Drained(ReplyFor(raw, handle) + d.replies, [raw] + d.consumed, d.rest, d.failed)
  }

  /** One step of `Drain`: the first line's reply comes first, and a line that does not throw lets the round go on. */
  lemma DrainStep(buffer: string, handle: Handler, raw: string, rest: string)
    requires Cut(buffer) == Some((raw, rest))
    ensures Throws(raw, handle) ==> Drain(buffer, handle) == Drained(ReplyFor(raw, handle), [raw], rest, true)
    ensures !Throws(raw, handle) ==>
      && Drain(buffer, handle).replies == ReplyFor(raw, handle) + Drain(rest, handle).replies
      && Drain(buffer, handle).rest == Drain(rest, handle).rest
  {
  }

  /**
    Under the server's handler a blank line gets no reply and does not
    throw; any other line gets the reply of its trimmed text's dispatch, and
    throws exactly when that dispatch does.
   */
  lemma LineReply(dispatch: string -> Outcome, raw: string)
    ensures Trim(raw) == "" ==> ReplyFor(raw, LineHandler(dispatch)) == [] && !Throws(raw, LineHandler(dispatch))
    ensures Trim(raw) != "" ==>
      && (dispatch(Trim(raw)).Returned? ==>
        ReplyFor(raw, LineHandler(dispatch)) == [dispatch(Trim(raw)).response] && !Throws(raw, LineHandler(dispatch)))
      && (dispatch(Trim(raw)).Threw? ==>
        ReplyFor(raw, LineHandler(dispatch)) == [CaughtError(dispatch(Trim(raw)).error)] && Throws(raw, LineHandler(dispatch)))
  {
  }

  /**
    Under the server's own dispatch (`JSON.parse`, then `handleMessage`), a
    complete line that is not blank and does not parse is consumed, answered
    with an error whose id is null, and ends the round: whatever follows it
    stays in the buffer.
   */
  lemma UnparsableLineStopsRound(parse: string -> Option<JsValue>, run: ToolRunner, raw: string, rest: string)
    requires '\n' !in raw && Trim(raw) != "" && parse(Trim(raw)) == None
    ensures var handle := LineHandler(line => HandleLine(line, parse, run));
      Drain(raw + "\n" + rest, handle) == Drained([ErrorReply(JsNull, RPC_ERROR, ParseFailure)], [raw], rest, true)
  {
    var dispatch := line => HandleLine(line, parse, run);
    var buffer := raw + "\n" + rest;
    assert '\n' in buffer by { assert buffer[|raw|] == '\n'; }
    var (line, tail) := Cut(buffer).value;
    SplitAtFirst(raw, rest, line, tail, '\n');
    LineReply(dispatch, raw);
    DrainStep(buffer, LineHandler(dispatch), raw, rest);
  }

  /** The lines, each followed by '\n'. */
  function Join(lines: seq<string>): string
  {
    if lines == [] then "" else lines[0] + "\n" + Join(lines[1..])
  }

  function RepliesFor(lines: seq<string>, handle: Handler): seq<Response>
  {
    if lines == [] then [] else ReplyFor(lines[0], handle) + RepliesFor(lines[1..], handle)
  }

  lemma JoinCons(line: string, lines: seq<string>)
    ensures Join([line] + lines) == line + "\n" + Join(lines)
  {
    assert ([line] + lines)[1..] == lines;
  }

  /**
    Nothing is lost or invented: the lines cut off, each with its '\n',
    followed by what is left, give back the buffer.
   */
  lemma {:induction false} DrainSplits(buffer: string, handle: Handler)
    ensures Join(Drain(buffer, handle).consumed) + Drain(buffer, handle).rest == buffer
    decreases |buffer|
  {
    match Cut(buffer)
    case None =>
    case Some((raw, rest)) =>
      if Throws(raw, handle) {
        JoinCons(raw, []);
        assert Join([raw]) == raw + "\n";
      } else {
        var d := Drain(rest, handle);
        DrainSplits(rest, handle);
        assert Drain(buffer, handle).consumed == [raw] + d.consumed && Drain(buffer, handle).rest == d.rest;
        JoinCons(raw, d.consumed);
        AppendAssoc(raw + "\n", Join(d.consumed), d.rest);
      }
  }

  /** Every line cut off is a whole line: none holds a '\n'. */
  lemma {:induction false} DrainLinesAreWhole(buffer: string, handle: Handler)
    ensures forall line :: line in Drain(buffer, handle).consumed ==> '\n' !in line
    decreases |buffer|
  {
    match Cut(buffer)
    case None =>
    case Some((raw, rest)) =>
      if !Throws(raw, handle) {
        DrainLinesAreWhole(rest, handle);
      }
  }

  /** When no line threw, every complete line has been taken: no '\n' remains. */
  lemma {:induction false} DrainLeavesNoNewline(buffer: string, handle: Handler)
    ensures !Drain(buffer, handle).failed ==> '\n' !in Drain(buffer, handle).rest
    decreases |buffer|
  {
    match Cut(buffer)
    case None =>
    case Some((raw, rest)) =>
      DrainLeavesNoNewline(rest, handle);
  }

  /**
    Skipped lines get no reply; every other line gets exactly the reply of
    its own dispatch, in order.
   */
  lemma {:induction false} DrainReplies(buffer: string, handle: Handler)
    ensures Drain(buffer, handle).replies == RepliesFor(Drain(buffer, handle).consumed, handle)
    decreases |buffer|
  {
    match Cut(buffer)
    case None =>
    case Some((raw, rest)) =>
      var d := Drain(buffer, handle);
      if Throws(raw, handle) {
        assert d.consumed[1..] == [];
      } else {
        DrainReplies(rest, handle);
        assert d.consumed[1..] == Drain(rest, handle).consumed;
      }
  }

  /** A round fails exactly when the last line it consumed threw. */
  lemma {:induction false} DrainFailsOnLastLine(buffer: string, handle: Handler)
    ensures var d := Drain(buffer, handle);
      d.failed <==> |d.consumed| > 0 && Throws(d.consumed[|d.consumed| - 1], handle)
    decreases |buffer|
  {
    match Cut(buffer)
    case None =>
    case Some((raw, rest)) =>
      if !Throws(raw, handle) {
        DrainFailsOnLastLine(rest, handle);
        var d, d' := Drain(buffer, handle), Drain(rest, handle);
        if |d'.consumed| > 0 {
          assert d.consumed[|d.consumed| - 1] == d'.consumed[|d'.consumed| - 1];
        }
      }
  }

  /** The loop stops at the first line that throws: no line before the last one consumed threw. */
  lemma {:induction false} DrainStopsAtFailure(buffer: string, handle: Handler)
    ensures var c := Drain(buffer, handle).consumed;
      c != [] ==> forall line :: line in c[..|c| - 1] ==> !Throws(line, handle)
    decreases |buffer|
  {
    match Cut(buffer)
    case None =>
    case Some((raw, rest)) =>
      if !Throws(raw, handle) {
        DrainStopsAtFailure(rest, handle);
        var c, c' := Drain(buffer, handle).consumed, Drain(rest, handle).consumed;
        assert c == [raw] + c';
        if c' != [] {
          InitCons(raw, c');
        }
      }
  }

  class Server {
    var inputBuffer: string

    constructor ()
      ensures inputBuffer == ""
    {
      inputBuffer := "";
    }

    /**
      The `data` handler: appends `chunk` and runs the framing loop. Its
      writes are `sent`; the buffer keeps what the loop did not consume.
     */
    method OnData(chunk: string, dispatch: string -> Outcome) returns (sent: seq<Response>)
      modifies this
      ensures sent == Drain(old(inputBuffer) + chunk, LineHandler(dispatch)).replies
      ensures inputBuffer == Drain(old(inputBuffer) + chunk, LineHandler(dispatch)).rest
    {
      ghost var handle := LineHandler(dispatch);
      inputBuffer := inputBuffer + chunk;
      ghost var whole := inputBuffer;
      sent := [];
      var newlineIndex := IndexOf(inputBuffer, '\n');
      while newlineIndex != -1
        invariant newlineIndex == IndexOf(inputBuffer, '\n')
        invariant Drain(whole, handle).replies == sent + Drain(inputBuffer, handle).replies
        invariant Drain(whole, handle).rest == Drain(inputBuffer, handle).rest
        decreases |inputBuffer|
      {
        ghost var before := inputBuffer;
        ghost var raw := inputBuffer[..newlineIndex];
        var line := Trim(inputBuffer[..newlineIndex]);
        inputBuffer := inputBuffer[newlineIndex + 1..];
        assert Cut(before) == Some((raw, inputBuffer));
        DrainStep(before, handle, raw, inputBuffer);
        LineReply(dispatch, raw);
        ghost var tail := Drain(inputBuffer, handle).replies;
        if line != "" {
          match dispatch(line)
          case Returned(response) =>
            AppendAssoc(sent, [response], tail);
            sent := sent + [response];
          case Threw(e) =>
            sent := sent + [CaughtError(e)];
            return;
        } else {
          assert [] + tail == tail;
        }
        newlineIndex := IndexOf(inputBuffer, '\n');
      }
    }
  }
}
