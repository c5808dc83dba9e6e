/**
 * The stream relay of `PollinationsTextStream`: the `onParse` policy applied
 * to each notification of the server-sent-event parser, the fold of that
 * policy over the whole body, and the branch for a response without a body
 * stream.
 */
module Relay {
  import opened Wrappers

  /** The end-of-stream sentinel sent as event data. */
  const Done: string := "[DONE]"

  /** What the event-source parser hands to `onParse`. */
  datatype Notification = Event(data: string) | Reconnect

  /** State of the output byte stream. */
  datatype StreamState = Open | Closed | Errored

  /** The chunks enqueued on the output stream, in order, and its state. */
  datatype Relayed = Relayed(chunks: seq<string>, state: StreamState)

  /** The output stream as `start` receives it. */
  const Start: Relayed := Relayed([], Open)

  /**
   * The text of one payload: the data itself, or in JSON mode the `content`
   * field of the parsed data, where `parse` stands for
   * `JSON.parse(data).content` and `None` for a throw.
   */
  function Text(data: string, jsonMode: bool, parse: string -> Option<string>): Option<string> {
    if jsonMode then parse(data) else Some(data)
  }

  /** `controller.close()` as the relay sees it: only an open stream closes. */
  function CloseStream(s: Relayed): Relayed {
    if s.state == Open then s.(state := Closed) else s
  }

  /**
   * A read of the body rejecting inside the loop: the rejection leaves
   * `start`, which errors a stream that is still open.
   */
  function Abort(s: Relayed): Relayed {
    if s.state == Open then s.(state := Errored) else s
  }

  /**
   * `onParse` applied to one notification. Closed and Errored are final.
   * A late data event's `enqueue` throws inside the try block, and the
   * catch's `error()` does nothing to a stream that is no longer readable.
   * A late "[DONE]" makes `close()` throw outside the try block; the throw
   * rejects `start`, which likewise leaves a finished stream alone.
   */
  function Step(s: Relayed, n: Notification, jsonMode: bool, parse: string -> Option<string>): Relayed {
    if s.state != Open then s
    else match n
      case Reconnect => s
      case Event(data) =>
        if data == Done then CloseStream(s)
        else match Text(data, jsonMode, parse)
          case Some(t) => s.(chunks := s.chunks + [t])
          case None => s.(state := Errored)
  }

  /** The `for await` loop: every notification of the body, in arrival order. */
  function Feed(s: Relayed, events: seq<Notification>, jsonMode: bool, parse: string -> Option<string>): Relayed
    decreases |events|
  {
    if |events| == 0 then s
    else Feed(Step(s, events[0], jsonMode, parse), events[1..], jsonMode, parse)
  }

  /**
   * The branch for a response without a body stream: the whole text as one
   * payload, with no sentinel test, then `close()`. A parse failure errors
   * the stream; the later `close()` then throws outside the try block, and
   * the rejected `start` leaves the errored stream as it is.
   */
  function Bodiless(text: string, jsonMode: bool, parse: string -> Option<string>): (s: Relayed)
    ensures s.state != Open
    ensures s.state == Closed <==> Text(text, jsonMode, parse).Some?
    ensures s.state == Closed ==> s.chunks == [Text(text, jsonMode, parse).value]
    ensures s.state == Errored ==> s.chunks == []
  {
    match Text(text, jsonMode, parse)
    case Some(t) => CloseStream(Relayed([t], Open))
    case None => Relayed([], Errored)
  }

  // ---------------------------------------------------------------------
  // Reference definition of what the relay emits, as a pipeline of list
  // operations on the notification sequence.
  // ---------------------------------------------------------------------

  /** The notifications that arrive before the first sentinel. */
  function BeforeDone(events: seq<Notification>): (pre: seq<Notification>)
    ensures |pre| <= |events| && pre == events[..|pre|]
    ensures forall i :: 0 <= i < |pre| ==> pre[i] != Event(Done)
    ensures |pre| < |events| ==> events[|pre|] == Event(Done)
  {
    if |events| == 0 || events[0] == Event(Done) then []
    else [events[0]] + BeforeDone(events[1..])
  }

  /** Whether a sentinel arrives at all. */
  predicate HasDone(events: seq<Notification>) {
    exists i :: 0 <= i < |events| && events[i] == Event(Done)
  }

  /** The data of the `event` notifications, dropping reconnect notices. */
  function Payloads(events: seq<Notification>): seq<string> {
    if |events| == 0 then []
    else match events[0]
      case Event(d) => [d] + Payloads(events[1..])
      case Reconnect => Payloads(events[1..])
  }

  /** Payloads distribute over concatenation: a body split into two gives its payloads in two parts. */
  lemma {:induction false} PayloadsAppend(a: seq<Notification>, b: seq<Notification>)
    ensures Payloads(a + b) == Payloads(a) + Payloads(b)
    decreases |a|
  {
    if |a| == 0 {
      assert a + b == b;
    } else {
      assert (a + b)[0] == a[0] && (a + b)[1..] == a[1..] + b;
      PayloadsAppend(a[1..], b);
    }
  }

  /** Whether every payload yields a text. */
  predicate AllText(ds: seq<string>, jsonMode: bool, parse: string -> Option<string>) {
    forall i :: 0 <= i < |ds| ==> Text(ds[i], jsonMode, parse).Some?
  }

  /**
   * The texts of the payloads up to, not including, the first one that
   * fails to parse.
   */
  function Texts(ds: seq<string>, jsonMode: bool, parse: string -> Option<string>): (ts: seq<string>)
    ensures |ts| <= |ds|
    ensures forall i :: 0 <= i < |ts| ==> Text(ds[i], jsonMode, parse) == Some(ts[i])
    ensures |ts| < |ds| ==> Text(ds[|ts|], jsonMode, parse).None?
    ensures |ts| == |ds| <==> AllText(ds, jsonMode, parse)
  {
    if |ds| == 0 then []
    else match Text(ds[0], jsonMode, parse)
      case Some(t) => [t] + Texts(ds[1..], jsonMode, parse)
      case None => []
  }

  /** The reference outcome of relaying `events` after the chunks `prior`. */
  function Expected(prior: seq<string>, events: seq<Notification>, jsonMode: bool,
                    parse: string -> Option<string>): Relayed
  {
    var ds := Payloads(BeforeDone(events));
    Relayed(prior + Texts(ds, jsonMode, parse),
            if !AllText(ds, jsonMode, parse) then Errored
            else if HasDone(events) then Closed
            else Open)
  }

  // ---------------------------------------------------------------------
  // Properties of the relay.
  // ---------------------------------------------------------------------

  /** Closed and Errored are terminal: nothing fed afterwards changes the stream. */
  lemma {:induction false} FeedTerminal(s: Relayed, events: seq<Notification>, jsonMode: bool,
                                        parse: string -> Option<string>)
    requires s.state != Open
    ensures Feed(s, events, jsonMode, parse) == s
    decreases |events|
  {
    if |events| > 0 {
      FeedTerminal(Step(s, events[0], jsonMode, parse), events[1..], jsonMode, parse);
    }
  }

  /** Feeding two pieces of a body one after the other is feeding the whole body. */
  lemma {:induction false} FeedAppend(s: Relayed, a: seq<Notification>, b: seq<Notification>,
                                      jsonMode: bool, parse: string -> Option<string>)
    ensures Feed(s, a + b, jsonMode, parse) == Feed(Feed(s, a, jsonMode, parse), b, jsonMode, parse)
    decreases |a|
  {
    if |a| > 0 {
      assert (a + b)[0] == a[0];
      assert (a + b)[1..] == a[1..] + b;
      FeedAppend(Step(s, a[0], jsonMode, parse), a[1..], b, jsonMode, parse);
    } else {
      assert a + b == b;
    }
  }

  /** Chunks already enqueued are never withdrawn or reordered. */
  lemma {:induction false} FeedKeepsChunks(s: Relayed, events: seq<Notification>, jsonMode: bool,
                                           parse: string -> Option<string>)
    ensures var out := Feed(s, events, jsonMode, parse);
            |s.chunks| <= |out.chunks| && out.chunks[..|s.chunks|] == s.chunks
    decreases |events|
  {
    if |events| > 0 {
      var s' := Step(s, events[0], jsonMode, parse);
      FeedKeepsChunks(s', events[1..], jsonMode, parse);
      var out := Feed(s', events[1..], jsonMode, parse);
      assert out.chunks[..|s.chunks|] == out.chunks[..|s'.chunks|][..|s.chunks|];
    }
  }

  /** A sentinel arrives in `[e] + rest` when `e` is one or one arrives in `rest`. */
  lemma HasDoneCons(e: Notification, rest: seq<Notification>)
    ensures HasDone([e] + rest) <==> e == Event(Done) || HasDone(rest)
  {
    var events := [e] + rest;
    assert events[0] == e;
    if HasDone(rest) {
      var i :| 0 <= i < |rest| && rest[i] == Event(Done);
      assert events[i + 1] == Event(Done);
    }
    if HasDone(events) && e != Event(Done) {
      var i :| 0 <= i < |events| && events[i] == Event(Done);
      assert rest[i - 1] == Event(Done);
    }
  }

  /** The payloads before the sentinel of `[e] + rest`, for `e` not the sentinel. */
  lemma PayloadsCons(e: Notification, rest: seq<Notification>)
    requires e != Event(Done)
    ensures Payloads(BeforeDone([e] + rest)) ==
            (if e.Event? then [e.data] else []) + Payloads(BeforeDone(rest))
  {
  }

  /** Texts and AllText of a payload list with one more payload in front. */
  lemma TextsCons(d: string, ds: seq<string>, jsonMode: bool, parse: string -> Option<string>)
    ensures Text(d, jsonMode, parse).Some? ==>
              Texts([d] + ds, jsonMode, parse) == [Text(d, jsonMode, parse).value] + Texts(ds, jsonMode, parse) &&
              (AllText([d] + ds, jsonMode, parse) <==> AllText(ds, jsonMode, parse))
    ensures Text(d, jsonMode, parse).None? ==>
              Texts([d] + ds, jsonMode, parse) == [] && !AllText([d] + ds, jsonMode, parse)
  {
  }

  /**
   * The state machine agrees with the reference pipeline on every body:
   * the chunks are the texts of the payloads before the first sentinel, up
   * to the first parse failure; the stream is Errored when a payload before
   * the sentinel fails, else Closed when a sentinel arrived, else still Open.
   */
  lemma {:induction false} FeedMatchesExpected(prior: seq<string>, events: seq<Notification>,
                                               jsonMode: bool, parse: string -> Option<string>)
    ensures Feed(Relayed(prior, Open), events, jsonMode, parse) == Expected(prior, events, jsonMode, parse)
    decreases |events|
  {
    if |events| == 0 {
      assert !HasDone(events);
    } else {
      var e, rest := events[0], events[1..];
      assert events == [e] + rest;
      HasDoneCons(e, rest);
      if e == Event(Done) {
        FeedTerminal(Relayed(prior, Closed), rest, jsonMode, parse);
        assert BeforeDone(events) == [];
      } else {
        PayloadsCons(e, rest);
        var ds := Payloads(BeforeDone(rest));
        match e
        case Reconnect =>
          assert [] + ds == ds;
          FeedMatchesExpected(prior, rest, jsonMode, parse);
        case Event(d) =>
          TextsCons(d, ds, jsonMode, parse);
          match Text(d, jsonMode, parse)
          case Some(t) =>
            FeedMatchesExpected(prior + [t], rest, jsonMode, parse);
            assert prior + [t] + Texts(ds, jsonMode, parse) == prior + ([t] + Texts(ds, jsonMode, parse));
          case None =>
            FeedTerminal(Relayed(prior, Errored), rest, jsonMode, parse);
      }
    }
  }

  /**
   * Without JSON mode the chunks are exactly the data of the `event`
   * notifications before the first sentinel, in arrival order; the stream
   * closes on the sentinel and never errors.
   */
  lemma PlainRelay(events: seq<Notification>, parse: string -> Option<string>)
    ensures var out := Feed(Start, events, false, parse);
            out.chunks == Payloads(BeforeDone(events)) &&
            out.state == (if HasDone(events) then Closed else Open)
  {
    var ds := Payloads(BeforeDone(events));
    FeedMatchesExpected([], events, false, parse);
    var ts := Texts(ds, false, parse);
    assert |ts| == |ds|;
    assert forall i :: 0 <= i < |ts| ==> ts[i] == ds[i];
  }

  /**
   * In JSON mode every chunk is the parsed content of the payload at the
   * same position; on Errored the payload right after the last chunk is the
   * one that failed to parse, and otherwise every payload before the
   * sentinel produced a chunk.
   */
  lemma JsonRelay(events: seq<Notification>, parse: string -> Option<string>)
    ensures var out := Feed(Start, events, true, parse);
            var ds := Payloads(BeforeDone(events));
            |out.chunks| <= |ds| &&
            (forall i :: 0 <= i < |out.chunks| ==> parse(ds[i]) == Some(out.chunks[i])) &&
            (out.state == Errored <==> |out.chunks| < |ds|) &&
            (out.state == Errored ==> parse(ds[|out.chunks|]).None?) &&
            (out.state == Closed <==> |out.chunks| == |ds| && HasDone(events))
  {
    FeedMatchesExpected([], events, true, parse);
  }

  /**
   * The sentinel closes an open stream, nothing is enqueued for it, and
   * nothing that follows it is relayed.
   */
  lemma SentinelCloses(s: Relayed, before: seq<Notification>, after: seq<Notification>,
                       jsonMode: bool, parse: string -> Option<string>)
    requires Feed(s, before, jsonMode, parse).state == Open
    ensures Feed(s, before + [Event(Done)] + after, jsonMode, parse)
            == Relayed(Feed(s, before, jsonMode, parse).chunks, Closed)
  {
    FeedAppend(s, before, [Event(Done)] + after, jsonMode, parse);
    assert before + [Event(Done)] + after == before + ([Event(Done)] + after);
    var mid := Feed(s, before, jsonMode, parse);
    assert ([Event(Done)] + after)[1..] == after;
    FeedTerminal(Relayed(mid.chunks, Closed), after, jsonMode, parse);
  }

  /**
   * The sentinel is tested before any parse: two JSON parsers that differ
   * only on "[DONE]" relay every body identically.
   */
  lemma {:induction false} SentinelNeverParsed(s: Relayed, events: seq<Notification>,
                                               p1: string -> Option<string>, p2: string -> Option<string>)
    requires forall d :: d != Done ==> p1(d) == p2(d)
    ensures Feed(s, events, true, p1) == Feed(s, events, true, p2)
    decreases |events|
  {
    if |events| > 0 {
      assert Step(s, events[0], true, p1) == Step(s, events[0], true, p2);
      SentinelNeverParsed(Step(s, events[0], true, p1), events[1..], p1, p2);
    }
  }

  /**
   * Reconnect notices are invisible: removing them from a body changes
   * nothing in what is relayed.
   */
  lemma {:induction false} ReconnectsIgnored(s: Relayed, events: seq<Notification>,
                                             jsonMode: bool, parse: string -> Option<string>)
    ensures Feed(s, events, jsonMode, parse) == Feed(s, OnlyEvents(events), jsonMode, parse)
    decreases |events|
  {
    if |events| > 0 {
      ReconnectsIgnored(Step(s, events[0], jsonMode, parse), events[1..], jsonMode, parse);
      if events[0].Event? {
        var tail := OnlyEvents(events[1..]);
        assert OnlyEvents(events) == [events[0]] + tail;
        assert ([events[0]] + tail)[1..] == tail;
      }
    }
  }

  /** The notifications of a body with reconnect notices removed. */
  function OnlyEvents(events: seq<Notification>): (es: seq<Notification>)
    ensures forall i :: 0 <= i < |es| ==> es[i].Event?
  {
    if |events| == 0 then []
    else if events[0].Event? then [events[0]] + OnlyEvents(events[1..])
    else OnlyEvents(events[1..])
  }

  /**
   * The bodiless branch is the streaming policy applied to the whole text as
   * a single event, followed by `close()`, except that it does not test for
   * the sentinel: "[DONE]" as a whole body is relayed as text.
   */
  lemma BodilessIsOneEvent(text: string, jsonMode: bool, parse: string -> Option<string>)
    ensures text != Done ==>
            Bodiless(text, jsonMode, parse) == CloseStream(Feed(Start, [Event(text)], jsonMode, parse))
    ensures Bodiless(Done, false, parse) == Relayed([Done], Closed)
  {
  }
}
