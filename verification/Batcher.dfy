/** Server-side batching of token and thinking events (SSEBatcher in
    blade-ai/src/chaos_agent/agent/streaming.py). A frame is modelled by the event it carries. */
module Batcher {

  datatype Kind = Token | Thinking | Structural(payload: string)

  datatype Event = Event(kind: Kind, content: string, node: string, taskId: string)

  datatype Config = Config(flushIntervalMs: int, flushChars: int) {
    predicate Disabled() { flushIntervalMs <= 0 }
    function IntervalSeconds(): real { flushIntervalMs as real / 1000.0 }
  }

  /** What the batcher holds back. A batch start of zero means no batch is open. */
  datatype Buffer = Buffer(
    token: string, tokenNode: string, thinking: string, thinkingNode: string,
    batchStart: real, taskId: string)
  {
    predicate HasPending() { token != "" || thinking != "" }
  }

  const EMPTY_BUFFER := Buffer("", "", "", "", 0.0, "")

  /** One call of feed: the event, the clock at the deadline check and the clock when a batch opens. */
  datatype Input = Input(evt: Event, check: real, arrive: real)

  function PendingFrames(b: Buffer): seq<Event> {
    (if b.token != "" then [Event(Token, b.token, b.tokenNode, b.taskId)] else []) +
    (if b.thinking != "" then [Event(Thinking, b.thinking, b.thinkingNode, b.taskId)] else [])
  }

  function Emptied(b: Buffer): Buffer {
    Buffer("", if b.token != "" then "" else b.tokenNode,
           "", if b.thinking != "" then "" else b.thinkingNode, 0.0, b.taskId)
  }

  predicate DeadlineExceeded(c: Config, b: Buffer, check: real) {
    b.batchStart > 0.0 && check - b.batchStart >= c.IntervalSeconds()
  }

  function Accumulated(b: Buffer, evt: Event): Buffer {
    if evt.kind.Token?
    then b.(token := b.token + evt.content,
            tokenNode := if evt.node != "" then evt.node else b.tokenNode)
    else b.(thinking := b.thinking + evt.content,
            thinkingNode := if evt.node != "" then evt.node else b.thinkingNode)
  }

  function Named(b: Buffer, evt: Event): Buffer {
    if evt.taskId != "" then b.(taskId := evt.taskId) else b
  }

  /** The deadline check: a batch that is due is sent before the new event is looked at. */
  function Settled(c: Config, b: Buffer, check: real): (Buffer, seq<Event>) {
    if b.HasPending() && DeadlineExceeded(c, b, check) then (Emptied(b), PendingFrames(b)) else (b, [])
  }

  /** The event itself: a structural one is sent behind what is pending, a text one accumulates
      until the size threshold is reached. */
  function Absorbed(c: Config, b: Buffer, evt: Event, arrive: real): (Buffer, seq<Event>) {
    if evt.kind.Structural? then (Emptied(b), PendingFrames(b) + [evt])
    else
      var grown := Accumulated(if b.HasPending() then b else b.(batchStart := arrive), evt);
      if |grown.token| + |grown.thinking| >= c.flushChars
      then (Emptied(grown), PendingFrames(grown))
      else (grown, [])
  }

  /** The effect of one feed: the new buffer and the frames it sends. */
  function Fed(c: Config, b: Buffer, i: Input): (Buffer, seq<Event>) {
    if c.Disabled() then (b, [i.evt])
    else
      var (ready, due) := Settled(c, Named(b, i.evt), i.check);
      var (b', sent) := Absorbed(c, ready, i.evt, i.arrive);
      (b', due + sent)
  }

  class SseBatcher {
    const config: Config
    var tokenBuf: string
    var tokenNode: string
    var thinkingBuf: string
    var thinkingNode: string
    var batchStart: real
    var taskId: string

    function State(): Buffer
      reads this
    {
      Buffer(tokenBuf, tokenNode, thinkingBuf, thinkingNode, batchStart, taskId)
    }

    constructor (flushIntervalMs: int, flushChars: int)
      ensures config == Config(flushIntervalMs, flushChars) && State() == EMPTY_BUFFER
    {
      config := Config(flushIntervalMs, flushChars);
      tokenBuf, tokenNode, thinkingBuf, thinkingNode := "", "", "", "";
      batchStart, taskId := 0.0, "";
    }

    method FlushPending() returns (out: seq<Event>)
      modifies this
      ensures out == PendingFrames(old(State())) && State() == Emptied(old(State()))
    {
      out := [];
      if tokenBuf != "" {
        out := out + [Event(Token, tokenBuf, tokenNode, taskId)];
        tokenBuf, tokenNode := "", "";
      }
      if thinkingBuf != "" {
        out := out + [Event(Thinking, thinkingBuf, thinkingNode, taskId)];
        thinkingBuf, thinkingNode := "", "";
      }
      batchStart := 0.0;
    }

    /** The second half of feed, once the deadline check is done. */
    method Absorb(evt: Event, arrive: real) returns (out: seq<Event>)
      modifies this
      ensures (State(), out) == Absorbed(config, old(State()), evt, arrive)
    {
      if evt.kind.Structural? {
        var pending := FlushPending();
        return pending + [evt];
      }
      if tokenBuf == "" && thinkingBuf == "" {
        batchStart := arrive;
      }
      if evt.kind.Token? {
        tokenBuf := tokenBuf + evt.content;
        if evt.node != "" { tokenNode := evt.node; }
      } else {
        thinkingBuf := thinkingBuf + evt.content;
        if evt.node != "" { thinkingNode := evt.node; }
      }
      out := [];
      if |tokenBuf| + |thinkingBuf| >= config.flushChars {
        out := FlushPending();
      }
    }

    method Feed(evt: Event, check: real, arrive: real) returns (out: seq<Event>)
      modifies this
      ensures (State(), out) == Fed(config, old(State()), Input(evt, check, arrive))
    {
      if config.Disabled() {
        return [evt];
      }
      if evt.taskId != "" {
        taskId := evt.taskId;
      }
      out := [];
      if (tokenBuf != "" || thinkingBuf != "") && DeadlineExceeded(config, State(), check) {
        out := FlushPending();
      }
      var sent := Absorb(evt, arrive);
      out := out + sent;
    }

    method Flush() returns (out: seq<Event>)
      modifies this
      ensures out == Remainder(config, old(State()))
      ensures State() == if config.Disabled() then old(State()) else Emptied(old(State()))
    {
      if config.Disabled() {
        return [];
      }
      out := FlushPending();
    }
  }

  function Remainder(c: Config, b: Buffer): seq<Event> {
    if c.Disabled() then [] else PendingFrames(b)
  }

  /** A whole stream: the buffer left and all frames sent so far. */
  function Run(c: Config, inputs: seq<Input>): (Buffer, seq<Event>) {
    if inputs == [] then (EMPTY_BUFFER, [])
    else
      var (b, out) := Run(c, inputs[..|inputs| - 1]);
      var (b', sent) := Fed(c, b, inputs[|inputs| - 1]);
      (b', out + sent)
  }

  function Events(inputs: seq<Input>): (r: seq<Event>)
    ensures |r| == |inputs|
    ensures forall i :: 0 <= i < |inputs| ==> r[i] == inputs[i].evt
  {
    seq(|inputs|, i requires 0 <= i < |inputs| => inputs[i].evt)
  }

  // ---------------------------------------------------------------------------
  // Refinement of the unbatched stream
  // ---------------------------------------------------------------------------

  /** What precedes a structural frame on each channel since the one before it. */
  datatype Segment = Segment(token: string, thinking: string, frame: Event)

  /** A stream as a client sees it: closed segments, then the text since the last structural frame. */
  datatype View = View(closed: seq<Segment>, token: string, thinking: string)

  const EMPTY_VIEW := View([], "", "")

  function Observe(v: View, e: Event): View {
    match e.kind
    case Token => v.(token := v.token + e.content)
    case Thinking => v.(thinking := v.thinking + e.content)
    case Structural(_) => View(v.closed + [Segment(v.token, v.thinking, e)], "", "")
  }

  function ObserveAll(v: View, frames: seq<Event>): View
    decreases |frames|
  {
    if frames == [] then v else ObserveAll(Observe(v, frames[0]), frames[1..])
  }

  /** The whole stream in a client's eyes. */
  function ClientView(frames: seq<Event>): View {
    ObserveAll(EMPTY_VIEW, frames)
  }

  lemma {:induction false} ObserveAppend(v: View, x: seq<Event>, y: seq<Event>)
    ensures ObserveAll(v, x + y) == ObserveAll(ObserveAll(v, x), y)
    decreases |x|
  {
    if x == [] {
      assert x + y == y;
    } else {
      ObserveAppend(Observe(v, x[0]), x[1..], y);
      assert (x + y)[1..] == x[1..] + y;
    }
  }

  function WithPending(v: View, b: Buffer): View {
    v.(token := v.token + b.token, thinking := v.thinking + b.thinking)
  }

  lemma {:induction false} FlushedIsPending(v: View, b: Buffer)
    ensures ObserveAll(v, PendingFrames(b)) == WithPending(v, b)
    ensures WithPending(v, Emptied(b)) == v
  {
    var x := if b.token != "" then [Event(Token, b.token, b.tokenNode, b.taskId)] else [];
    var y := if b.thinking != "" then [Event(Thinking, b.thinking, b.thinkingNode, b.taskId)] else [];
    ObserveAppend(v, x, y);
    assert v.token + "" == v.token && v.thinking + "" == v.thinking;
  }

  lemma {:induction false} SettledConserves(c: Config, v: View, b: Buffer, check: real)
    ensures var (b', sent) := Settled(c, b, check);
            WithPending(ObserveAll(v, sent), b') == WithPending(v, b)
  {
    FlushedIsPending(v, b);
    FlushedIsPending(WithPending(v, b), b);
  }

  lemma {:induction false} AbsorbedConserves(c: Config, v: View, b: Buffer, evt: Event, arrive: real)
    ensures var (b', sent) := Absorbed(c, b, evt, arrive);
            WithPending(ObserveAll(v, sent), b') == Observe(WithPending(v, b), evt)
  {
    if evt.kind.Structural? {
      ObserveAppend(v, PendingFrames(b), [evt]);
      FlushedIsPending(v, b);
      FlushedIsPending(Observe(WithPending(v, b), evt), b);
    } else {
      var begun := if b.HasPending() then b else b.(batchStart := arrive);
      var grown := Accumulated(begun, evt);
      GrownConserves(v, begun, evt);
      FlushedIsPending(v, grown);
      FlushedIsPending(WithPending(v, grown), grown);
    }
  }

  /** A feed sends and keeps, between them, exactly what it was given. */
  lemma {:induction false} FedConserves(c: Config, v: View, b: Buffer, i: Input)
    requires !c.Disabled()
    ensures var (b', sent) := Fed(c, b, i);
            WithPending(ObserveAll(v, sent), b') == Observe(WithPending(v, b), i.evt)
  {
    var (ready, due) := Settled(c, Named(b, i.evt), i.check);
    var (b', sent) := Absorbed(c, ready, i.evt, i.arrive);
    SettledConserves(c, v, Named(b, i.evt), i.check);
    AbsorbedConserves(c, ObserveAll(v, due), ready, i.evt, i.arrive);
    ObserveAppend(v, due, sent);
  }

  lemma GrownConserves(v: View, b: Buffer, evt: Event)
    requires !evt.kind.Structural?
    ensures WithPending(v, Accumulated(b, evt)) == Observe(WithPending(v, b), evt)
  {
    assert v.token + (b.token + evt.content) == (v.token + b.token) + evt.content;
    assert v.thinking + (b.thinking + evt.content) == (v.thinking + b.thinking) + evt.content;
  }

  lemma {:induction false} RunConserves(c: Config, inputs: seq<Input>)
    ensures var (b, out) := Run(c, inputs);
            if c.Disabled() then out == Events(inputs)
            else WithPending(ObserveAll(EMPTY_VIEW, out), b) == ObserveAll(EMPTY_VIEW, Events(inputs))
  {
    if inputs != [] {
      var front, last := inputs[..|inputs| - 1], inputs[|inputs| - 1];
      RunConserves(c, front);
      assert Events(inputs) == Events(front) + [last.evt];
      ObserveAppend(EMPTY_VIEW, Events(front), [last.evt]);
      if !c.Disabled() {
        var (b, out) := Run(c, front);
        FedConserves(c, ObserveAll(EMPTY_VIEW, out), b, last);
        ObserveAppend(EMPTY_VIEW, out, Fed(c, b, last).1);
      }
    }
  }

  /** For every event sequence and every clock, the batched stream with its final flush is the
      unbatched one to a client: the same structural frames in the same order, and between them
      the same text on each channel. */
  lemma {:induction false} BatchedRefinesUnbatched(c: Config, inputs: seq<Input>)
    ensures var (b, out) := Run(c, inputs);
            ClientView(out + Remainder(c, b)) == ClientView(Events(inputs))
  {
    var (b, out) := Run(c, inputs);
    RunConserves(c, inputs);
    ObserveAppend(EMPTY_VIEW, out, Remainder(c, b));
    if !c.Disabled() {
      FlushedIsPending(ObserveAll(EMPTY_VIEW, out), b);
    }
  }

  lemma FedNeverMoreFrames(c: Config, b: Buffer, i: Input)
    requires !c.Disabled()
    ensures var (b', sent) := Fed(c, b, i);
            |sent| + |PendingFrames(b')| <= |PendingFrames(b)| + 1
  {
    var (ready, due) := Settled(c, Named(b, i.evt), i.check);
    assert |due| + |PendingFrames(ready)| == |PendingFrames(b)|;
  }

  /** Batching never sends more frames than it was fed events, counting what it still holds. */
  lemma {:induction false} NeverMoreFrames(c: Config, inputs: seq<Input>)
    ensures var (b, out) := Run(c, inputs);
            |out| + |Remainder(c, b)| <= |inputs|
  {
    if inputs != [] {
      NeverMoreFrames(c, inputs[..|inputs| - 1]);
      if !c.Disabled() {
        FedNeverMoreFrames(c, Run(c, inputs[..|inputs| - 1]).0, inputs[|inputs| - 1]);
      }
    }
  }

  /** The documented use of a batcher: feed every event, send what each feed returns, flush. */
  method DeliverStream(flushIntervalMs: int, flushChars: int, inputs: seq<Input>) returns (out: seq<Event>)
    ensures ClientView(out) == ClientView(Events(inputs))
    ensures |out| <= |inputs|
  {
    ghost var c := Config(flushIntervalMs, flushChars);
    var batcher := new SseBatcher(flushIntervalMs, flushChars);
    out := [];
    for i := 0 to |inputs|
      invariant batcher.config == c
      invariant (batcher.State(), out) == Run(c, inputs[..i])
    {
      assert inputs[..i + 1][..i] == inputs[..i];
      var sent := batcher.Feed(inputs[i].evt, inputs[i].check, inputs[i].arrive);
      out := out + sent;
    }
    assert inputs[..|inputs|] == inputs;
    BatchedRefinesUnbatched(c, inputs);
    NeverMoreFrames(c, inputs);
    var rest := batcher.Flush();
    out := out + rest;
  }

  // ---------------------------------------------------------------------------
  // Labels
  // ---------------------------------------------------------------------------

  predicate Labelled(e: Event, tokenNode: string, thinkingNode: string, taskId: string) {
    && e.taskId == taskId
    && (e.kind.Token? ==> e.node == tokenNode)
    && (e.kind.Thinking? ==> e.node == thinkingNode)
  }

  predicate LabelsKept(b: Buffer, tokenNode: string, thinkingNode: string, taskId: string) {
    && (b.token != "" ==> b.tokenNode == tokenNode && b.taskId == taskId)
    && (b.thinking != "" ==> b.thinkingNode == thinkingNode && b.taskId == taskId)
  }

  lemma PendingIsLabelled(b: Buffer, x: string, y: string, t: string)
    requires LabelsKept(b, x, y, t)
    ensures forall f :: f in PendingFrames(b) ==> Labelled(f, x, y, t)
    ensures LabelsKept(Emptied(b), x, y, t)
  {
  }

  lemma SettledKeepsLabels(c: Config, b: Buffer, check: real, x: string, y: string, t: string)
    requires LabelsKept(b, x, y, t)
    ensures LabelsKept(Settled(c, b, check).0, x, y, t) && Settled(c, b, check).0.taskId == b.taskId
    ensures forall f :: f in Settled(c, b, check).1 ==> Labelled(f, x, y, t)
  {
    PendingIsLabelled(b, x, y, t);
  }

  lemma AccumulatedKeepsLabels(b: Buffer, evt: Event, x: string, y: string, t: string)
    requires LabelsKept(b, x, y, t) && b.taskId == t && Labelled(evt, x, y, t) && x != "" && y != ""
    requires !evt.kind.Structural?
    ensures LabelsKept(Accumulated(b, evt), x, y, t)
  {
  }

  lemma AbsorbedKeepsLabels(c: Config, b: Buffer, evt: Event, arrive: real, x: string, y: string, t: string)
    requires LabelsKept(b, x, y, t) && b.taskId == t && Labelled(evt, x, y, t) && x != "" && y != ""
    ensures LabelsKept(Absorbed(c, b, evt, arrive).0, x, y, t)
    ensures forall f :: f in Absorbed(c, b, evt, arrive).1 ==> Labelled(f, x, y, t)
  {
    if evt.kind.Structural? {
      PendingIsLabelled(b, x, y, t);
    } else {
      var begun := if b.HasPending() then b else b.(batchStart := arrive);
      AccumulatedKeepsLabels(begun, evt, x, y, t);
      PendingIsLabelled(Accumulated(begun, evt), x, y, t);
    }
  }

  lemma FedKeepsLabels(c: Config, b: Buffer, i: Input, x: string, y: string, t: string)
    requires LabelsKept(b, x, y, t) && Labelled(i.evt, x, y, t) && x != "" && y != "" && t != ""
    ensures LabelsKept(Fed(c, b, i).0, x, y, t)
    ensures forall f :: f in Fed(c, b, i).1 ==> Labelled(f, x, y, t)
  {
    var named := Named(b, i.evt);
    SettledKeepsLabels(c, named, i.check, x, y, t);
    AbsorbedKeepsLabels(c, Settled(c, named, i.check).0, i.evt, i.arrive, x, y, t);
  }

  /** When each channel of a stream comes from one node and one task, every frame says so. */
  lemma {:induction false} LabelsSurviveBatching(c: Config, inputs: seq<Input>, x: string, y: string, t: string)
    requires x != "" && y != "" && t != ""
    requires forall e :: e in Events(inputs) ==> Labelled(e, x, y, t)
    ensures var (b, out) := Run(c, inputs);
            forall f :: f in out + Remainder(c, b) ==> Labelled(f, x, y, t)
    ensures LabelsKept(Run(c, inputs).0, x, y, t)
  {
    if inputs != [] {
      var front, last := inputs[..|inputs| - 1], inputs[|inputs| - 1];
      assert Events(inputs) == Events(front) + [last.evt];
      LabelsSurviveBatching(c, front, x, y, t);
      FedKeepsLabels(c, Run(c, front).0, last, x, y, t);
    }
  }

  // ---------------------------------------------------------------------------
  // Size and age
  // ---------------------------------------------------------------------------

  /** After every feed the two buffers together stay below the size threshold. */
  lemma BuffersStaySmall(c: Config, b: Buffer, i: Input)
    requires !c.Disabled() && c.flushChars >= 1
    ensures var b' := Fed(c, b, i).0; |b'.token| + |b'.thinking| < c.flushChars
  {
  }

  function TextOf(inputs: seq<Input>, kind: Kind): string {
    if inputs == [] then ""
    else
      var last := inputs[|inputs| - 1].evt;
      TextOf(inputs[..|inputs| - 1], kind) + if last.kind == kind then last.content else ""
  }

  /** The held text came in with inputs j and later: it is their text, none of it was structural,
      the batch start is when its first character arrived, and every deadline check since then
      found it younger than the interval. */
  ghost predicate HeldSince(c: Config, b: Buffer, inputs: seq<Input>, j: nat)
  {
    && j < |inputs|
    && b.batchStart == inputs[j].arrive
    && inputs[j].evt.content != ""
    && b.token == TextOf(inputs[j..], Token)
    && b.thinking == TextOf(inputs[j..], Thinking)
    && (forall k :: j <= k < |inputs| ==> !inputs[k].evt.kind.Structural?)
    && (forall k :: j < k < |inputs| ==> inputs[k].check - inputs[j].arrive < c.IntervalSeconds())
  }

  lemma HeldLonger(c: Config, b: Buffer, inputs: seq<Input>, j: nat, i: Input)
    requires !c.Disabled() && HeldSince(c, b, inputs, j) && b.HasPending()
    requires b.batchStart > 0.0
    requires !i.evt.kind.Structural? && !DeadlineExceeded(c, b, i.check)
    requires Fed(c, b, i).0.HasPending()
    ensures HeldSince(c, Fed(c, b, i).0, inputs + [i], j)
  {
    var all := inputs + [i];
    assert all[j..][..|all[j..]| - 1] == inputs[j..];
    assert all[j..][|all[j..]| - 1] == i;
  }

  lemma HeldFresh(c: Config, b: Buffer, inputs: seq<Input>, i: Input)
    requires !c.Disabled() && Fed(c, b, i).0.HasPending()
    requires !b.HasPending() || DeadlineExceeded(c, b, i.check)
    ensures HeldSince(c, Fed(c, b, i).0, inputs + [i], |inputs|)
  {
    var all := inputs + [i];
    var tail := all[|inputs|..];
    assert tail == [i];
    assert tail[..0] == [];
    assert TextOf(tail[..|tail| - 1], Token) == "" && TextOf(tail[..|tail| - 1], Thinking) == "";
  }

  /** In every run over a positive clock, whatever is held back has an age: some fed input begun
      its batch and no deadline check since has found it too old. */
  lemma {:induction false} HeldTextIsYoung(c: Config, inputs: seq<Input>) returns (j: nat)
    requires !c.Disabled()
    requires forall k :: 0 <= k < |inputs| ==> inputs[k].arrive > 0.0
    requires Run(c, inputs).0.HasPending()
    ensures HeldSince(c, Run(c, inputs).0, inputs, j)
  {
    var front, last := inputs[..|inputs| - 1], inputs[|inputs| - 1];
    assert inputs == front + [last];
    var b := Run(c, front).0;
    if b.HasPending() {
      var k := HeldTextIsYoung(c, front);
      if DeadlineExceeded(c, b, last.check) {
        HeldFresh(c, b, front, last);
        j := |front|;
      } else {
        HeldLonger(c, b, front, k, last);
        j := k;
      }
    } else {
      HeldFresh(c, b, front, last);
      j := |front|;
    }
  }
}
