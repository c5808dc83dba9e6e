/**
 * The output stream's controller as the ReadableStream section of the WHATWG
 * Streams Standard defines it (ReadableStreamDefaultController's close,
 * enqueue and error), driven by the `onParse` callback exactly as written.
 *
 * `close()` with chunks still queued only records the request: the stream
 * stays readable until the reader has taken them. Whether a chunk is queued
 * depends on the consumer, modelled by two schedules: an eager consumer
 * has a read outstanding for every event, so every enqueued chunk is handed
 * over at once; a lazy consumer reads nothing until the relay has finished.
 * The eager schedule is an idealisation: the events of one network read are
 * dispatched synchronously by the event-source parser, so a reader that
 * keeps one read pending at a time takes at most the first chunk of that
 * read before the rest are queued.
 */
module Controller {
  import opened Wrappers
  import opened Relay

  /**
   * `state` is the stream's state (Open meaning readable), `queue` the
   * chunks not yet read, `delivered` the chunks the reader has received.
   */
  datatype Ctl = Ctl(state: StreamState, queue: seq<string>, closeRequested: bool, delivered: seq<string>)

  const Fresh: Ctl := Ctl(Open, [], false, [])

  /** Close and enqueue are allowed only on a readable stream not yet asked to close. */
  predicate CanCloseOrEnqueue(c: Ctl) {
    c.state == Open && !c.closeRequested
  }

  /** `enqueue(chunk)`; `None` is the TypeError it throws. */
  function Enqueue(c: Ctl, chunk: string, eager: bool): (r: Option<Ctl>)
    ensures r.Some? <==> CanCloseOrEnqueue(c)
    ensures r.Some? ==> r.value.state == Open && r.value.delivered + r.value.queue == c.delivered + c.queue + [chunk]
    ensures r.Some? ==> r.value.closeRequested == c.closeRequested && c.delivered <= r.value.delivered
    ensures r.Some? && !eager ==> r.value.delivered == c.delivered && r.value.queue == c.queue + [chunk]
  {
    if !CanCloseOrEnqueue(c) then None
    else if eager && c.queue == [] then Some(c.(delivered := c.delivered + [chunk]))
    else Some(c.(queue := c.queue + [chunk]))
  }

  /** `close()`; `None` is the TypeError it throws. */
  function Close(c: Ctl): (r: Option<Ctl>)
    ensures r.Some? <==> CanCloseOrEnqueue(c)
    ensures r.Some? ==> r.value.closeRequested && r.value.queue == c.queue && r.value.delivered == c.delivered
    ensures r.Some? ==> r.value.state == (if c.queue == [] then Closed else Open)
  {
    if !CanCloseOrEnqueue(c) then None
    else if c.queue == [] then Some(c.(state := Closed, closeRequested := true))
    else Some(c.(closeRequested := true))
  }

  /** `error(e)`: a readable stream errors and drops its queue; otherwise nothing happens. */
  function Error(c: Ctl): (c': Ctl)
    ensures c.state != Open ==> c' == c
    ensures c.state == Open ==> c'.state == Errored && c'.queue == [] && c'.delivered == c.delivered
  {
    if c.state != Open then c else c.(state := Errored, queue := [])
  }

  /**
   * `onParse` as written. The second component says whether an exception
   * escaped the callback: only `close()` sits outside the try block.
   */
  function OnParse(c: Ctl, n: Notification, jsonMode: bool, parse: string -> Option<string>,
                   eager: bool): (Ctl, bool)
  {
    match n
    case Reconnect => (c, false)
    case Event(data) =>
      if data == Done then
        match Close(c)
        case Some(c') => (c', false)
        case None => (c, true)
      else
        match Text(data, jsonMode, parse)
        case None => (Error(c), false)
        case Some(t) =>
          match Enqueue(c, t, eager)
          case Some(c') => (c', false)
          case None => (Error(c), false)
  }

  /**
   * The feed loop as written: every notification goes to `onParse`, also
   * after "[DONE]". An escaped exception ends the loop and rejects `start`,
   * which errors the stream.
   */
  function RunAsWritten(c: Ctl, events: seq<Notification>, jsonMode: bool,
                        parse: string -> Option<string>, eager: bool): Ctl
    decreases |events|
  {
    if |events| == 0 then c
    else
      var (c', escaped) := OnParse(c, events[0], jsonMode, parse, eager);
      if escaped then Error(c') else RunAsWritten(c', events[1..], jsonMode, parse, eager)
  }

  /** The feed loop as intended: the first "[DONE]" closes the stream and ends the loop. */
  function RunUntilDone(c: Ctl, events: seq<Notification>, jsonMode: bool,
                        parse: string -> Option<string>, eager: bool): Ctl
    decreases |events|
  {
    if |events| == 0 then c
    else if events[0] == Event(Done) then
      match Close(c)
      case Some(c') => c'
      case None => Error(c)
    else RunUntilDone(OnParse(c, events[0], jsonMode, parse, eager).0, events[1..], jsonMode, parse, eager)
  }

  /** What the reader ends up with once it has read everything it can. */
  function Observed(c: Ctl): Relayed {
    if c.state == Open then Relayed(c.delivered + c.queue, if c.closeRequested then Closed else Open)
    else Relayed(c.delivered, c.state)
  }

  /** Controllers the relay can reach: a close request on a readable stream implies a queue. */
  predicate Reachable(c: Ctl, eager: bool) {
    (c.state != Open ==> c.queue == []) &&
    (eager ==> c.queue == []) &&
    (c.state == Open && c.closeRequested ==> c.queue != [])
  }

  /**
   * With an eager consumer (one read pending per event) the loop as written
   * delivers exactly what the relay model emits: the model's terminal states
   * hold for that schedule.
   */
  lemma {:induction false} EagerAsWrittenMatchesModel(c: Ctl, events: seq<Notification>, jsonMode: bool,
                                                      parse: string -> Option<string>)
    requires Reachable(c, true)
    ensures Observed(RunAsWritten(c, events, jsonMode, parse, true)) == Feed(Observed(c), events, jsonMode, parse)
    decreases |events|
  {
    if |events| > 0 {
      var (c', escaped) := OnParse(c, events[0], jsonMode, parse, true);
      if escaped {
        FeedTerminal(Observed(c), events, jsonMode, parse);
      } else {
        assert Observed(c') == Step(Observed(c), events[0], jsonMode, parse);
        EagerAsWrittenMatchesModel(c', events[1..], jsonMode, parse);
      }
    }
  }

  /**
   * The corrected loop delivers what the relay model emits for either
   * consumer, except that a lazy reader of an errored stream loses the
   * queued chunks, as error() prescribes.
   */
  lemma {:induction false} UntilDoneMatchesModel(c: Ctl, events: seq<Notification>, jsonMode: bool,
                                                 parse: string -> Option<string>, eager: bool)
    requires Reachable(c, eager) && !(c.state == Open && c.closeRequested)
    requires eager || Feed(Observed(c), events, jsonMode, parse).state != Errored
    ensures Observed(RunUntilDone(c, events, jsonMode, parse, eager)) == Feed(Observed(c), events, jsonMode, parse)
    decreases |events|
  {
    if |events| > 0 {
      if events[0] == Event(Done) {
        FeedTerminal(Step(Observed(c), events[0], jsonMode, parse), events[1..], jsonMode, parse);
      } else {
        var c' := OnParse(c, events[0], jsonMode, parse, eager).0;
        var s' := Step(Observed(c), events[0], jsonMode, parse);
        if !eager && s'.state == Errored {
          FeedTerminal(s', events[1..], jsonMode, parse);
          assert false;
        }
        assert Observed(c') == s';
        UntilDoneMatchesModel(c', events[1..], jsonMode, parse, eager);
      }
    }
  }

  /** Once the stream is closed or errored the loop as written changes nothing more. */
  lemma {:induction false} RunAsWrittenFinished(c: Ctl, events: seq<Notification>, jsonMode: bool,
                                                parse: string -> Option<string>, eager: bool)
    requires c.state != Open
    ensures RunAsWritten(c, events, jsonMode, parse, eager) == c
    decreases |events|
  {
    if |events| > 0 {
      RunAsWrittenFinished(c, events[1..], jsonMode, parse, eager);
    }
  }

  /** Reconnect notices leave the loop as written where it was. */
  lemma {:induction false} RunAsWrittenSkipsReconnects(c: Ctl, gap: seq<Notification>, tail: seq<Notification>,
                                                       jsonMode: bool, parse: string -> Option<string>, eager: bool)
    requires forall i :: 0 <= i < |gap| ==> gap[i] == Reconnect
    ensures RunAsWritten(c, gap + tail, jsonMode, parse, eager) == RunAsWritten(c, tail, jsonMode, parse, eager)
    decreases |gap|
  {
    if |gap| == 0 {
      assert gap + tail == tail;
    } else {
      assert (gap + tail)[0] == Reconnect && (gap + tail)[1..] == gap[1..] + tail;
      RunAsWrittenSkipsReconnects(c, gap[1..], tail, jsonMode, parse, eager);
    }
  }

  /**
   * The discrepancy, for any lazy run: when chunks are still queued at the
   * sentinel and another event (data or a second sentinel) follows it, with
   * only reconnect notices in between, the loop as written errors the
   * stream and the queued chunks are lost, where the corrected loop and the
   * relay model deliver them and close.
   */
  lemma {:induction false} LateEventAfterDone(c: Ctl, gap: seq<Notification>, d: string, rest: seq<Notification>,
                                              jsonMode: bool, parse: string -> Option<string>)
    requires c.state == Open && !c.closeRequested && c.queue != []
    requires forall i :: 0 <= i < |gap| ==> gap[i] == Reconnect
    ensures var events := [Event(Done)] + gap + [Event(d)] + rest;
            Observed(RunAsWritten(c, events, jsonMode, parse, false)) == Relayed(c.delivered, Errored) &&
            Observed(RunUntilDone(c, events, jsonMode, parse, false)) == Relayed(c.delivered + c.queue, Closed) &&
            Feed(Observed(c), events, jsonMode, parse) == Relayed(c.delivered + c.queue, Closed)
  {
    var late := [Event(d)] + rest;
    var events := [Event(Done)] + gap + [Event(d)] + rest;
    assert events == [Event(Done)] + (gap + late);
    assert events[0] == Event(Done) && events[1..] == gap + late;
    assert late[0] == Event(d) && late[1..] == rest;
    var closing := c.(closeRequested := true);
    assert OnParse(c, Event(Done), jsonMode, parse, false) == (closing, false);
    RunAsWrittenSkipsReconnects(closing, gap, late, jsonMode, parse, false);
    var errored := closing.(state := Errored, queue := []);
    if d == Done {
      assert OnParse(closing, Event(d), jsonMode, parse, false) == (closing, true);
    } else {
      assert OnParse(closing, Event(d), jsonMode, parse, false).0 == errored;
      RunAsWrittenFinished(errored, rest, jsonMode, parse, false);
    }
    FeedTerminal(Relayed(c.delivered + c.queue, Closed), events[1..], jsonMode, parse);
  }

  /**
   * The same on one body: events `A`, "[DONE]", `B` (or a second "[DONE]")
   * before the reader has read anything.
   */
  lemma LateEventExample(parse: string -> Option<string>)
    ensures var events := [Event("A"), Event(Done), Event("B")];
            Observed(RunAsWritten(Fresh, events, false, parse, false)) == Relayed([], Errored) &&
            Observed(RunUntilDone(Fresh, events, false, parse, false)) == Relayed(["A"], Closed) &&
            Feed(Start, events, false, parse) == Relayed(["A"], Closed)
    ensures var events := [Event("A"), Event(Done), Event(Done)];
            Observed(RunAsWritten(Fresh, events, false, parse, false)) == Relayed([], Errored) &&
            Feed(Start, events, false, parse) == Relayed(["A"], Closed)
  {
    var a, b := Event("A"), Event("B");
    var queued := Ctl(Open, ["A"], false, []);
    var closing := queued.(closeRequested := true);
    assert |"A"| != |Done| && |"B"| != |Done|;
    assert Text("A", false, parse) == Some("A");
    assert Fresh.queue + ["A"] == ["A"];
    assert Enqueue(Fresh, "A", false) == Some(queued);
    assert OnParse(Fresh, a, false, parse, false) == (queued, false);
    assert OnParse(queued, Event(Done), false, parse, false) == (closing, false);
    assert OnParse(closing, b, false, parse, false) == (Ctl(Errored, [], true, []), false) by {
      assert Enqueue(closing, "B", false).None?;
    }
    assert OnParse(closing, Event(Done), false, parse, false) == (closing, true);

    var late := [a, Event(Done), b];
    assert late[1..] == [Event(Done), b] && late[1..][1..] == [b] && [b][1..] == [];
    var twice := [a, Event(Done), Event(Done)];
    assert twice[1..] == [Event(Done), Event(Done)] && twice[1..][1..] == [Event(Done)];
    assert [Event(Done)][1..] == [];

    assert RunAsWritten(closing, [b], false, parse, false) == Ctl(Errored, [], true, []);
    assert RunUntilDone(Fresh, late, false, parse, false) == closing;
    assert RunAsWritten(closing, [Event(Done)], false, parse, false) == Ctl(Errored, [], true, []);

    var s1 := Relayed(["A"], Open);
    assert Step(Start, a, false, parse) == s1;
    assert Step(s1, Event(Done), false, parse) == Relayed(["A"], Closed);
    FeedTerminal(Relayed(["A"], Closed), [b], false, parse);
    FeedTerminal(Relayed(["A"], Closed), [Event(Done)], false, parse);
  }
}
