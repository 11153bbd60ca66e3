/**
 What clients make of a Bedrock stream: gathered from the gateway's events it is what the non-streaming mapper returns,
 under conditions that differ between dialects.
 */
module BedrockClients {
  import opened Collections
  import opened Strings
  import opened Bedrock

  // ----- a client of the gateway's events: tool calls are gathered under their index, as OpenAI-style clients do

  datatype Client = Client(text: string, order: seq<nat>, tools: map<nat, ToolCall>)

  const NOTHING := Client("", [], map[])

  /** The calls gathered, in order of their start. */
  function Waiting(order: seq<nat>, tools: map<nat, ToolCall>): seq<ToolCall> {
    if order == [] then []
    else (if order[0] in tools then [tools[order[0]]] else []) + Waiting(order[1..], tools)
  }

  function Receive(c: Client, ev: StreamEvent): Client {
    match ev
    case StreamText(t) => c.(text := c.text + t)
    case StreamToolStart(i, id, name) =>
      if i in c.tools then c else c.(order := c.order + [i], tools := c.tools[i := ToolCall(id, name, "")])
    case StreamToolDelta(i, args) =>
      if i !in c.tools then c
      else c.(tools := c.tools[i := c.tools[i].(arguments := c.tools[i].arguments + args)])
    case _ => c
  }

  function Gathered(c: Client): Reply {
    Reply(c.text, Waiting(c.order, c.tools))
  }

  function ReceiveAll(c: Client, evs: seq<StreamEvent>): Client
    decreases evs
  {
    if evs == [] then c else ReceiveAll(Receive(c, evs[0]), evs[1..])
  }

  lemma {:induction false} ReceiveAllConcat(c: Client, a: seq<StreamEvent>, b: seq<StreamEvent>)
    ensures ReceiveAll(c, a + b) == ReceiveAll(ReceiveAll(c, a), b)
    decreases a
  {
    if a == [] {
      assert [] + b == b;
    } else {
      ReceiveAllConcat(Receive(c, a[0]), a[1..], b);
      assert (a + b)[1..] == a[1..] + b;
    }
  }

  lemma ReceiveOne(c: Client, ev: StreamEvent)
    ensures ReceiveAll(c, [ev]) == Receive(c, ev)
  {
    assert [ev][1..] == [];
  }

  // ----- what a provider stream says, read off the events themselves

  /** The text of a stream: all text deltas, in order. */
  function TextOf(evs: seq<Event>): string {
    if evs == [] then ""
    else TextOf(evs[..|evs| - 1]) + (if evs[|evs| - 1].TextDelta? then evs[|evs| - 1].text else "")
  }

  /** All input deltas of one content block, in order. */
  function InputOf(evs: seq<Event>, index: Option<int>): string {
    if evs == [] then ""
    else
      InputOf(evs[..|evs| - 1], index) +
      match evs[|evs| - 1]
      case ToolDelta(i, input) => if i == index then input else ""
      case _ => ""
  }

  /** The call opened by the k-th tool start: its input deltas are those of its block, wherever they stand. */
  function CallOf(evs: seq<Event>, k: nat): ToolCall
    requires k < |StartsOf(evs)|
  {
    var s := StartsOf(evs)[k];
    ToolCall(s.id, s.name, InputOf(evs, s.index))
  }

  function CallsOf(evs: seq<Event>): seq<ToolCall> {
    seq(|StartsOf(evs)|, k requires 0 <= k < |StartsOf(evs)| => CallOf(evs, k))
  }

  predicate Starts(evs: seq<Event>, index: Option<int>) {
    exists k :: 0 <= k < |StartsOf(evs)| && StartsOf(evs)[k].index == index
  }

  /**
   The body of a message: every tool block is opened once, under its own index, before its input arrives. Blocks may
   interleave, and text may come in between.
   */
  predicate IsBody(evs: seq<Event>) {
    evs == [] ||
    var before := evs[..|evs| - 1];
    IsBody(before) &&
    match evs[|evs| - 1]
    case ToolStart(index, _, _) => index.Some? && !Starts(before, index)
    case ToolDelta(index, _) => index.Some? && Starts(before, index)
    case MessageStop(_) => false
    case Metadata(_) => false
    case _ => true
  }

  // ----- streaming agrees with the content of the stream

  lemma Appended(evs: seq<Event>, ev: Event)
    ensures (evs + [ev])[..|evs|] == evs && (evs + [ev])[|evs|] == ev
  {
  }

  lemma {:induction false} NoInputBeforeStart(evs: seq<Event>, index: Option<int>)
    requires IsBody(evs) && !Starts(evs, index)
    ensures InputOf(evs, index) == ""
  {
    if evs != [] {
      var before := evs[..|evs| - 1];
      assert forall k | 0 <= k < |StartsOf(before)| :: StartsOf(evs)[k] == StartsOf(before)[k];
      NoInputBeforeStart(before, index);
    }
  }

  /** The mapper numbers the tool blocks 0, 1, 2, ... in order of their starts. */
  ghost predicate Numbered(m: MapperState, starts: seq<Start>) {
    m.next == |starts| &&
    (forall k :: 0 <= k < |starts| ==>
       starts[k].index.Some? && starts[k].index.value in m.indexes && m.indexes[starts[k].index.value] == k) &&
    (forall x :: x in m.indexes ==> m.indexes[x] < |starts| && starts[m.indexes[x]].index == Some(x))
  }

  /** What the client holds while the message is still open. */
  ghost predicate Holds(c: Client, evs: seq<Event>) {
    c.text == TextOf(evs) &&
    |c.order| == |StartsOf(evs)| && (forall k :: 0 <= k < |c.order| ==> c.order[k] == k) &&
    (forall k :: k in c.tools <==> 0 <= k < |StartsOf(evs)|) &&
    (forall k :: 0 <= k < |StartsOf(evs)| ==> c.tools[k] == CallOf(evs, k))
  }

  lemma OnlyStartedAreNumbered(m: MapperState, evs: seq<Event>, x: int)
    requires Numbered(m, StartsOf(evs))
    ensures x in m.indexes ==> Starts(evs, Some(x))
  {
    if x in m.indexes {
      assert StartsOf(evs)[m.indexes[x]].index == Some(x);
    }
  }

  lemma NumberingStep(m: MapperState, evs: seq<Event>, ev: Event)
    requires IsBody(evs + [ev]) && Numbered(m, StartsOf(evs))
    ensures Numbered(MapperAfter(m, ev), StartsOf(evs + [ev]))
  {
    Appended(evs, ev);
    if ev.ToolStart? {
      OnlyStartedAreNumbered(m, evs, ev.index.value);
    }
  }

  lemma ToolOpened(before: seq<Event>, start: Event)
    requires IsBody(before) && start.ToolStart? && start.index.Some? && !Starts(before, start.index)
    ensures var after := before + [start];
            IsBody(after) && TextOf(after) == TextOf(before) &&
            StartsOf(after) == StartsOf(before) + [Start(start.index, start.id, start.name)] &&
            Starts(after, start.index) && InputOf(after, start.index) == "" &&
            forall x :: InputOf(after, x) == InputOf(before, x)
  {
    Appended(before, start);
    NoInputBeforeStart(before, start.index);
    assert StartsOf(before + [start])[|StartsOf(before)|].index == start.index;
  }

  /** A new start leaves the calls before it alone and has no input yet. */
  lemma CallsAfterStart(evs: seq<Event>, ev: Event, k: nat)
    requires IsBody(evs) && ev.ToolStart? && ev.index.Some? && !Starts(evs, ev.index)
    requires k <= |StartsOf(evs)| < |StartsOf(evs + [ev])|
    ensures CallOf(evs + [ev], k) == if k < |StartsOf(evs)| then CallOf(evs, k) else ToolCall(ev.id, ev.name, "")
  {
    ToolOpened(evs, ev);
  }

  lemma HoldingToolStart(c: Client, evs: seq<Event>, ev: Event, after: Client)
    requires IsBody(evs) && Holds(c, evs)
    requires ev.ToolStart? && ev.index.Some? && !Starts(evs, ev.index)
    requires after == Receive(c, StreamToolStart(|StartsOf(evs)|, ev.id, ev.name))
    ensures Holds(after, evs + [ev])
  {
    var n := |StartsOf(evs)|;
    StartAppended(evs, ev);
    forall k | 0 <= k <= n ensures after.tools[k] == CallOf(evs + [ev], k) {
      CallsAfterStart(evs, ev, k);
    }
  }

  lemma StartAppended(evs: seq<Event>, ev: Event)
    requires ev.ToolStart?
    ensures |StartsOf(evs + [ev])| == |StartsOf(evs)| + 1 && TextOf(evs + [ev]) == TextOf(evs)
  {
    Appended(evs, ev);
    assert TextOf(evs) + "" == TextOf(evs);
  }

  /** A delta goes to the one call of its block. */
  lemma CallAfterDelta(evs: seq<Event>, ev: Event, k: nat)
    requires ev.ToolDelta? && k < |StartsOf(evs)|
    ensures StartsOf(evs + [ev]) == StartsOf(evs) && TextOf(evs + [ev]) == TextOf(evs)
    ensures CallOf(evs + [ev], k) ==
            if StartsOf(evs)[k].index == ev.index
            then CallOf(evs, k).(arguments := CallOf(evs, k).arguments + ev.input) else CallOf(evs, k)
  {
    Appended(evs, ev);
    assert TextOf(evs) + "" == TextOf(evs);
    assert InputOf(evs, StartsOf(evs)[k].index) + "" == InputOf(evs, StartsOf(evs)[k].index);
  }

  lemma HoldingToolDelta(c: Client, evs: seq<Event>, ev: Event, j: nat)
    requires IsBody(evs + [ev]) && Holds(c, evs) && ev.ToolDelta?
    requires j < |StartsOf(evs)|
    requires forall k :: 0 <= k < |StartsOf(evs)| ==> (StartsOf(evs)[k].index == ev.index <==> k == j)
    ensures Holds(Receive(c, StreamToolDelta(j, ev.input)), evs + [ev])
  {
    var after := Receive(c, StreamToolDelta(j, ev.input));
    CallAfterDelta(evs, ev, j);
    forall k | 0 <= k < |StartsOf(evs)| ensures after.tools[k] == CallOf(evs + [ev], k) {
      CallAfterDelta(evs, ev, k);
    }
  }

  lemma HoldingOther(c: Client, evs: seq<Event>, ev: Event)
    requires IsBody(evs + [ev]) && Holds(c, evs)
    requires !ev.ToolStart? && (ev.ToolDelta? ==> ev.input == "")
    ensures Holds(if ev.TextDelta? then Receive(c, StreamText(ev.text)) else c, evs + [ev])
  {
    Appended(evs, ev);
    assert StartsOf(evs + [ev]) == StartsOf(evs);
    forall k | 0 <= k < |StartsOf(evs)| ensures CallOf(evs + [ev], k) == CallOf(evs, k) {
      var index := StartsOf(evs)[k].index;
      assert InputOf(evs + [ev], index) == InputOf(evs, index);
    }
  }

  lemma HoldingStep(m: MapperState, c: Client, evs: seq<Event>, ev: Event)
    requires IsBody(evs + [ev]) && Numbered(m, StartsOf(evs)) && Holds(c, evs)
    ensures Holds(ReceiveAll(c, Mapped(m, ev)), evs + [ev])
  {
    Appended(evs, ev);
    match ev {
      case ToolStart(index, id, name) =>
        ReceiveOne(c, StreamToolStart(m.next, id, name));
        HoldingToolStart(c, evs, ev, Receive(c, StreamToolStart(m.next, id, name)));
      case ToolDelta(index, input) =>
        if input != "" {
          var j :| 0 <= j < |StartsOf(evs)| && StartsOf(evs)[j].index == index;
          ReceiveOne(c, StreamToolDelta(j, input));
          HoldingToolDelta(c, evs, ev, j);
        } else {
          HoldingOther(c, evs, ev);
        }
      case TextDelta(t) =>
        ReceiveOne(c, StreamText(t));
        HoldingOther(c, evs, ev);
        assert c.text + "" == c.text;
      case _ =>
        ReceiveOne(c, StreamStart);
        HoldingOther(c, evs, ev);
    }
  }

  lemma {:induction false} BodyIsHeld(evs: seq<Event>)
    requires IsBody(evs)
    ensures Numbered(LoopRun(LOOP_START, evs).mapper, StartsOf(evs))
    ensures Holds(ReceiveAll(NOTHING, LoopRun(LOOP_START, evs).emitted), evs)
  {
    if evs != [] {
      var before, ev := evs[..|evs| - 1], evs[|evs| - 1];
      assert evs == before + [ev];
      BodyIsHeld(before);
      LoopRunConcat(LOOP_START, before, [ev]);
      assert [ev][1..] == [];
      assert LoopRun(LoopRun(LOOP_START, before), [ev]) == LoopAfter(LoopRun(LOOP_START, before), ev);
      var s := LoopRun(LOOP_START, before);
      NumberingStep(s.mapper, before, ev);
      HoldingStep(s.mapper, ReceiveAll(NOTHING, s.emitted), before, ev);
      LoopIsReceived(s, ev);
    }
  }

  /** The synthesized start carries nothing. */
  lemma LoopIsReceived(s: LoopState, ev: Event)
    ensures ReceiveAll(NOTHING, LoopAfter(s, ev).emitted) ==
            ReceiveAll(ReceiveAll(NOTHING, s.emitted), Mapped(s.mapper, ev))
  {
    var out := Mapped(s.mapper, ev);
    var opening := Opening(s.started, out);
    var c := ReceiveAll(NOTHING, s.emitted);
    ReceiveAllConcat(NOTHING, s.emitted + opening, out);
    ReceiveAllConcat(NOTHING, s.emitted, opening);
    ReceiveOne(c, StreamStart);
  }

  lemma {:induction false} WaitingInOrder(order: seq<nat>, tools: map<nat, ToolCall>)
    requires forall i :: 0 <= i < |order| ==> order[i] in tools
    ensures |Waiting(order, tools)| == |order|
    ensures forall i :: 0 <= i < |order| ==> Waiting(order, tools)[i] == tools[order[i]]
  {
    if order != [] {
      WaitingInOrder(order[1..], tools);
    }
  }

  /** The end of a message adds nothing to what is gathered. */
  lemma EndIsReceived(s: LoopState, reason: string, usage: Option<(int, int)>)
    ensures ReceiveAll(NOTHING, LoopRun(s, [MessageStop(reason), Metadata(usage)]).emitted) ==
            ReceiveAll(NOTHING, s.emitted)
  {
    var stop, meta := MessageStop(reason), Metadata(usage);
    var s1 := LoopAfter(s, stop);
    TwoSteps(s, stop, meta);
    LoopIsReceived(s, stop);
    LoopIsReceived(s1, meta);
    ReceiveOne(ReceiveAll(NOTHING, s.emitted), StreamEnd(MapStopReason(reason), None));
    ReceiveOne(ReceiveAll(NOTHING, s.emitted), StreamEnd("", usage));
  }

  lemma TwoSteps(s: LoopState, a: Event, b: Event)
    ensures LoopRun(s, [a, b]) == LoopAfter(LoopAfter(s, a), b)
  {
    assert [a, b][1..] == [b] && [b][1..] == [];
    assert LoopRun(LoopAfter(s, a), [b]) == LoopRun(LoopAfter(LoopAfter(s, a), b), []);
  }

  /** A whole message: its body, then its end. */
  function Whole(body: seq<Event>, reason: string, usage: Option<(int, int)>): seq<StreamEvent> {
    Emitted(body + [MessageStop(reason), Metadata(usage)], false)
  }

  lemma WholeIsBodyThenEnd(body: seq<Event>, reason: string, usage: Option<(int, int)>)
    ensures Whole(body, reason, usage) ==
            LoopRun(LoopRun(LOOP_START, body), [MessageStop(reason), Metadata(usage)]).emitted
  {
    LoopRunConcat(LOOP_START, body, [MessageStop(reason), Metadata(usage)]);
    var all := LoopRun(LOOP_START, body + [MessageStop(reason), Metadata(usage)]).emitted;
    assert all + [] == all;
  }

  /** The calls held at the end of a body are the calls of the stream. */
  lemma BodyIsGathered(body: seq<Event>)
    requires IsBody(body)
    ensures Gathered(ReceiveAll(NOTHING, LoopRun(LOOP_START, body).emitted)) == Reply(TextOf(body), CallsOf(body))
  {
    BodyIsHeld(body);
    var c := ReceiveAll(NOTHING, LoopRun(LOOP_START, body).emitted);
    WaitingInOrder(c.order, c.tools);
    assert Waiting(c.order, c.tools) == CallsOf(body);
  }

  /**
   Any interleaving of text and tool blocks, in any chunking: a client that reads the stream to its end has the text of
   the stream and its calls, in the order their blocks were opened, each with all its input.
   */
  lemma StreamDeliversContent(body: seq<Event>, reason: string, usage: Option<(int, int)>)
    requires IsBody(body)
    ensures Gathered(ReceiveAll(NOTHING, Whole(body, reason, usage))) == Reply(TextOf(body), CallsOf(body))
  {
    BodyIsGathered(body);
    WholeIsBodyThenEnd(body, reason, usage);
    EndIsReceived(LoopRun(LOOP_START, body), reason, usage);
  }

  // ----- streaming agrees with the non-streaming mapper

  /** A content block cut into deltas under a content block index. */
  datatype Piece = Piece(block: ContentBlock, index: int, chunks: seq<string>)

  function Concat(chunks: seq<string>): string {
    if chunks == [] then "" else Concat(chunks[..|chunks| - 1]) + chunks[|chunks| - 1]
  }

  function TextEvents(chunks: seq<string>): seq<Event> {
    if chunks == [] then [] else TextEvents(chunks[..|chunks| - 1]) + [TextDelta(chunks[|chunks| - 1])]
  }

  function InputEvents(index: int, chunks: seq<string>): seq<Event> {
    if chunks == [] then []
    else InputEvents(index, chunks[..|chunks| - 1]) + [ToolDelta(Some(index), chunks[|chunks| - 1])]
  }

  function EventsOf(p: Piece): seq<Event> {
    match p.block
    case TextBlock(_) => TextEvents(p.chunks)
    case ToolUseBlock(id, name, _) => [ToolStart(Some(p.index), id, name)] + InputEvents(p.index, p.chunks)
    case OtherBlock => []
  }

  function StreamOf(pieces: seq<Piece>): seq<Event> {
    if pieces == [] then [] else StreamOf(pieces[..|pieces| - 1]) + EventsOf(pieces[|pieces| - 1])
  }

  function BlocksOf(pieces: seq<Piece>): seq<ContentBlock> {
    if pieces == [] then [] else BlocksOf(pieces[..|pieces| - 1]) + [pieces[|pieces| - 1].block]
  }

  /** The text a stream carries for an input. */
  function InputText(input: Option<string>): string {
    if input.Some? then input.value else ""
  }

  /** The deltas put together are the block's content; a tool without input has nothing to send. */
  predicate CutFrom(p: Piece) {
    match p.block
    case TextBlock(t) => Concat(p.chunks) == t
    case ToolUseBlock(_, _, input) => Concat(p.chunks) == InputText(input)
    case OtherBlock => true
  }

  /** Every piece is cut from its block, and tool blocks have their own index. */
  predicate IsCut(pieces: seq<Piece>) {
    (forall p <- pieces :: CutFrom(p)) &&
    forall i, j :: 0 <= i < j < |pieces| && pieces[i].block.ToolUseBlock? && pieces[j].block.ToolUseBlock? ==>
      pieces[i].index != pieces[j].index
  }

  lemma Reassociated(a: string, b: string, c: string)
    ensures (a + b) + c == a + (b + c) && a + "" == a
  {
  }

  lemma TextAppended(evs: seq<Event>, t: string, x: Option<int>)
    requires IsBody(evs)
    ensures var after := evs + [TextDelta(t)];
            IsBody(after) && TextOf(after) == TextOf(evs) + t && StartsOf(after) == StartsOf(evs) &&
            InputOf(after, x) == InputOf(evs, x)
  {
    Appended(evs, TextDelta(t));
  }

  lemma {:induction false} TextChunks(before: seq<Event>, chunks: seq<string>, after: seq<Event>, x: Option<int>)
    requires IsBody(before) && after == before + TextEvents(chunks)
    ensures IsBody(after) && TextOf(after) == TextOf(before) + Concat(chunks) && StartsOf(after) == StartsOf(before)
    ensures InputOf(after, x) == InputOf(before, x)
    decreases chunks
  {
    if chunks == [] {
      assert after == before;
    } else {
      var rest, t := chunks[..|chunks| - 1], chunks[|chunks| - 1];
      var almost := before + TextEvents(rest);
      TextChunks(before, rest, almost, x);
      TextAppended(almost, t, x);
      assert after == almost + [TextDelta(t)];
      Reassociated(TextOf(before), Concat(rest), t);
    }
  }

  lemma InputAppended(evs: seq<Event>, index: int, input: string, x: Option<int>)
    requires IsBody(evs) && Starts(evs, Some(index))
    ensures var after := evs + [ToolDelta(Some(index), input)];
            IsBody(after) && TextOf(after) == TextOf(evs) && StartsOf(after) == StartsOf(evs) &&
            InputOf(after, x) == InputOf(evs, x) + (if x == Some(index) then input else "")
  {
    Appended(evs, ToolDelta(Some(index), input));
  }

  lemma {:induction false} InputChunks(before: seq<Event>, index: int, chunks: seq<string>, after: seq<Event>,
                                       x: Option<int>)
    requires IsBody(before) && Starts(before, Some(index)) && after == before + InputEvents(index, chunks)
    ensures IsBody(after) && TextOf(after) == TextOf(before) && StartsOf(after) == StartsOf(before)
    ensures InputOf(after, x) == InputOf(before, x) + (if x == Some(index) then Concat(chunks) else "")
    decreases chunks
  {
    if chunks == [] {
      assert after == before;
    } else {
      var rest, input := chunks[..|chunks| - 1], chunks[|chunks| - 1];
      var almost := before + InputEvents(index, rest);
      InputChunks(before, index, rest, almost, x);
      InputAppended(almost, index, input, x);
      assert after == almost + [ToolDelta(Some(index), input)];
      Reassociated(InputOf(before, x), Concat(rest), input);
    }
  }

  /** Text handed on as it is. */
  function Verbatim(): Recoder {
    (t: string) => Some(t)
  }

  /** What a stream says of a block: a tool's input is whatever text it carries. */
  function AsStreamed(b: ContentBlock): ContentBlock {
    if b.ToolUseBlock? then b.(input := Some(InputText(b.input))) else b
  }

  function AllAsStreamed(blocks: seq<ContentBlock>): seq<ContentBlock> {
    if blocks == [] then []
    else AllAsStreamed(blocks[..|blocks| - 1]) + [AsStreamed(blocks[|blocks| - 1])]
  }

  function StreamedReply(blocks: seq<ContentBlock>): Reply {
    ReplyOf(Verbatim(), AllAsStreamed(blocks))
  }

  lemma EarlierCallKept(before: seq<Event>, p: Piece, start: Event, after: seq<Event>, k: nat)
    requires IsBody(before) && p.block.ToolUseBlock? && !Starts(before, Some(p.index)) && k < |StartsOf(before)|
    requires start == ToolStart(Some(p.index), p.block.id, p.block.name)
    requires after == before + [start] + InputEvents(p.index, p.chunks)
    ensures k < |StartsOf(after)| && CallOf(after, k) == CallOf(before, k)
  {
    ToolOpened(before, start);
    assert StartsOf(before)[k].index != Some(p.index);
    InputChunks(before + [start], p.index, p.chunks, after, StartsOf(before)[k].index);
    Reassociated(InputOf(before, StartsOf(before)[k].index), "", "");
  }

  lemma EarlierCallsKept(before: seq<Event>, p: Piece, start: Event, after: seq<Event>)
    requires IsBody(before) && p.block.ToolUseBlock? && !Starts(before, Some(p.index))
    requires start == ToolStart(Some(p.index), p.block.id, p.block.name)
    requires after == before + [start] + InputEvents(p.index, p.chunks)
    requires |StartsOf(before)| <= |StartsOf(after)|
    ensures forall k :: 0 <= k < |StartsOf(before)| ==> CallOf(after, k) == CallOf(before, k)
  {
    forall k | 0 <= k < |StartsOf(before)| ensures CallOf(after, k) == CallOf(before, k) {
      EarlierCallKept(before, p, start, after, k);
    }
  }

  lemma ToolPieceBody(before: seq<Event>, p: Piece, start: Event, after: seq<Event>)
    requires IsBody(before) && p.block.ToolUseBlock? && !Starts(before, Some(p.index))
    requires start == ToolStart(Some(p.index), p.block.id, p.block.name)
    requires after == before + [start] + InputEvents(p.index, p.chunks)
    ensures IsBody(after) && TextOf(after) == TextOf(before)
    ensures StartsOf(after) == StartsOf(before) + [Start(Some(p.index), p.block.id, p.block.name)]
    ensures InputOf(after, Some(p.index)) == Concat(p.chunks)
  {
    ToolOpened(before, start);
    InputChunks(before + [start], p.index, p.chunks, after, Some(p.index));
    assert "" + Concat(p.chunks) == Concat(p.chunks);
  }

  lemma ToolPieceCalls(before: seq<Event>, p: Piece, start: Event, after: seq<Event>)
    requires IsBody(before) && p.block.ToolUseBlock? && !Starts(before, Some(p.index))
    requires start == ToolStart(Some(p.index), p.block.id, p.block.name)
    requires after == before + [start] + InputEvents(p.index, p.chunks)
    requires StartsOf(after) == StartsOf(before) + [Start(Some(p.index), p.block.id, p.block.name)]
    requires InputOf(after, Some(p.index)) == Concat(p.chunks)
    ensures CallsOf(after) == CallsOf(before) + [ToolCall(p.block.id, p.block.name, Concat(p.chunks))]
  {
    EarlierCallsKept(before, p, start, after);
    CallsGrow(before, after, Start(Some(p.index), p.block.id, p.block.name));
  }

  lemma ToolPiece(before: seq<Event>, p: Piece, after: seq<Event>)
    requires IsBody(before) && p.block.ToolUseBlock? && !Starts(before, Some(p.index))
    requires after == before + EventsOf(p)
    ensures IsBody(after) && TextOf(after) == TextOf(before)
    ensures StartsOf(after) == StartsOf(before) + [Start(Some(p.index), p.block.id, p.block.name)]
    ensures CallsOf(after) == CallsOf(before) + [ToolCall(p.block.id, p.block.name, Concat(p.chunks))]
  {
    var start := ToolStart(Some(p.index), p.block.id, p.block.name);
    ConcatAssociative(before, [start], InputEvents(p.index, p.chunks));
    ToolPieceBody(before, p, start, after);
    ToolPieceCalls(before, p, start, after);
  }

  lemma CallsGrow(before: seq<Event>, after: seq<Event>, s: Start)
    requires StartsOf(after) == StartsOf(before) + [s]
    requires forall k :: 0 <= k < |StartsOf(before)| ==> CallOf(after, k) == CallOf(before, k)
    ensures CallsOf(after) == CallsOf(before) + [ToolCall(s.id, s.name, InputOf(after, s.index))]
  {
  }

  /** One more piece: the content grows as the non-streaming mapper grows its reply. */
  lemma PieceContent(before: seq<Event>, p: Piece, after: seq<Event>)
    requires IsBody(before) && CutFrom(p) && after == before + EventsOf(p)
    requires p.block.ToolUseBlock? ==> !Starts(before, Some(p.index))
    ensures IsBody(after)
    ensures Reply(TextOf(after), CallsOf(after)) ==
            WithBlock(Verbatim(), Reply(TextOf(before), CallsOf(before)), AsStreamed(p.block))
    ensures StartsOf(after) == StartsOf(before) + StartOf(p)
  {
    match p.block {
      case TextBlock(_) =>
        TextChunks(before, p.chunks, after, None);
        forall k | 0 <= k < |StartsOf(before)| ensures CallOf(after, k) == CallOf(before, k) {
          TextChunks(before, p.chunks, after, StartsOf(before)[k].index);
        }
        assert CallsOf(after) == CallsOf(before);
      case ToolUseBlock(_, _, _) => ToolPiece(before, p, after);
      case OtherBlock => assert before + [] == before;
    }
  }

  function StartOf(p: Piece): seq<Start> {
    if p.block.ToolUseBlock? then [Start(Some(p.index), p.block.id, p.block.name)] else []
  }

  predicate HasTool(pieces: seq<Piece>, index: Option<int>) {
    exists i :: 0 <= i < |pieces| && pieces[i].block.ToolUseBlock? && Some(pieces[i].index) == index
  }

  lemma HasToolAppended(rest: seq<Piece>, p: Piece, s: Start)
    requires HasTool(rest, s.index) || s in StartOf(p)
    ensures HasTool(rest + [p], s.index)
  {
    if HasTool(rest, s.index) {
      var i :| 0 <= i < |rest| && rest[i].block.ToolUseBlock? && Some(rest[i].index) == s.index;
      assert (rest + [p])[i] == rest[i];
    } else {
      assert (rest + [p])[|rest|] == p;
    }
  }

  lemma CutFirst(rest: seq<Piece>, p: Piece)
    requires IsCut(rest + [p])
    ensures IsCut(rest) && CutFrom(p)
    ensures p.block.ToolUseBlock? ==> !HasTool(rest, Some(p.index))
  {
    var pieces := rest + [p];
    assert pieces[|rest|] == p;
    forall i | 0 <= i < |rest| ensures rest[i] == pieces[i] && CutFrom(rest[i]) {
      assert pieces[i] in pieces;
    }
  }

  lemma {:induction false} StreamContent(pieces: seq<Piece>)
    requires IsCut(pieces)
    ensures IsBody(StreamOf(pieces))
    ensures Reply(TextOf(StreamOf(pieces)), CallsOf(StreamOf(pieces))) == StreamedReply(BlocksOf(pieces))
    ensures forall s <- StartsOf(StreamOf(pieces)) :: HasTool(pieces, s.index)
  {
    if pieces != [] {
      var rest, p := pieces[..|pieces| - 1], pieces[|pieces| - 1];
      var before, after := StreamOf(rest), StreamOf(pieces);
      assert pieces == rest + [p];
      CutFirst(rest, p);
      StreamContent(rest);
      PieceContent(before, p, after);
      ReplyOfAppended(Verbatim(), BlocksOf(rest), p.block);
      forall s <- StartsOf(after) ensures HasTool(pieces, s.index) {
        assert s in StartsOf(before) || s in StartOf(p);
        HasToolAppended(rest, p, s);
      }
    }
  }

  lemma ReplyOfAppended(recode: Recoder, blocks: seq<ContentBlock>, b: ContentBlock)
    ensures ReplyOf(recode, blocks + [b]) == WithBlock(recode, ReplyOf(recode, blocks), b)
    ensures StreamedReply(blocks + [b]) == WithBlock(Verbatim(), StreamedReply(blocks), AsStreamed(b))
  {
    assert (blocks + [b])[..|blocks|] == blocks;
    var streamed := AllAsStreamed(blocks);
    assert (streamed + [AsStreamed(b)])[..|streamed|] == streamed;
  }

  // ----- the same reply, in the eyes of a client

  datatype SeenCall<V> = SeenCall(id: string, name: string, arguments: V)

  datatype SeenReply<V> = SeenReply(text: string, calls: seq<SeenCall<V>>)

  function SeenCalls<V>(view: string -> V, calls: seq<ToolCall>): seq<SeenCall<V>> {
    seq(|calls|, i requires 0 <= i < |calls| => SeenCall(calls[i].id, calls[i].name, view(calls[i].arguments)))
  }

  /** What a client sees of a reply when it looks at arguments in its own way. */
  function Seen<V>(view: string -> V, r: Reply): SeenReply<V> {
    SeenReply(r.text, SeenCalls(view, r.calls))
  }

  /** The two paths give arguments that look alike. */
  ghost predicate SeenAlike<V>(view: string -> V, recode: Recoder, b: ContentBlock) {
    b.ToolUseBlock? ==> view(InputText(b.input)) == view(ArgumentsOf(recode, b.input))
  }

  lemma SeenCallsAppended<V>(view: string -> V, calls: seq<ToolCall>, c: ToolCall)
    ensures SeenCalls(view, calls + [c]) == SeenCalls(view, calls) + [SeenCall(c.id, c.name, view(c.arguments))]
  {
  }

  lemma SeenBlock<V>(view: string -> V, recode: Recoder, r: Reply, q: Reply, b: ContentBlock)
    requires |r.calls| == |q.calls| && r.text == q.text
    ensures var r', q' := WithBlock(Verbatim(), r, AsStreamed(b)), WithBlock(recode, q, b);
            r'.text == q'.text && |r'.calls| == |q'.calls| &&
            (Seen(view, r') == Seen(view, q') <==> Seen(view, r) == Seen(view, q) && SeenAlike(view, recode, b))
  {
    if b.ToolUseBlock? {
      var x, y := ToolCall(b.id, b.name, InputText(b.input)), ToolCall(b.id, b.name, ArgumentsOf(recode, b.input));
      SeenCallsAppended(view, r.calls, x);
      SeenCallsAppended(view, q.calls, y);
      SameWithLast(SeenCalls(view, r.calls), SeenCalls(view, q.calls), SeenCall(x.id, x.name, view(x.arguments)),
                   SeenCall(y.id, y.name, view(y.arguments)));
    }
  }

  lemma SameWithLast<T>(a: seq<T>, b: seq<T>, x: T, y: T)
    requires |a| == |b|
    ensures a + [x] == b + [y] <==> a == b && x == y
  {
    if a + [x] == b + [y] {
      assert a == (a + [x])[..|a|] == b && x == (a + [x])[|a|] == y;
    }
  }

  /** The replies look alike exactly when the arguments of every tool block do. */
  lemma {:induction false} SeenAlikeIff<V>(view: string -> V, recode: Recoder, blocks: seq<ContentBlock>)
    ensures StreamedReply(blocks).text == ReplyOf(recode, blocks).text
    ensures |StreamedReply(blocks).calls| == |ReplyOf(recode, blocks).calls|
    ensures Seen(view, StreamedReply(blocks)) == Seen(view, ReplyOf(recode, blocks))
            <==> forall b <- blocks :: SeenAlike(view, recode, b)
  {
    if blocks != [] {
      var rest, b := blocks[..|blocks| - 1], blocks[|blocks| - 1];
      assert blocks == rest + [b];
      SeenAlikeIff(view, recode, rest);
      ReplyOfAppended(recode, rest, b);
      SeenBlock(view, recode, StreamedReply(rest), ReplyOf(recode, rest), b);
      assert (forall x <- blocks :: SeenAlike(view, recode, x)) <==>
             (forall x <- rest :: SeenAlike(view, recode, x)) && SeenAlike(view, recode, b);
    }
  }

  // ----- a client of the gateway's events

  /** What a client has that reads a whole stream of these pieces. */
  function GatheredFrom(pieces: seq<Piece>, reason: string, usage: Option<(int, int)>): Reply {
    Gathered(ReceiveAll(NOTHING, Whole(StreamOf(pieces), reason, usage)))
  }

  lemma GatheredIsStreamed(pieces: seq<Piece>, reason: string, usage: Option<(int, int)>)
    requires IsCut(pieces)
    ensures GatheredFrom(pieces, reason, usage) == StreamedReply(BlocksOf(pieces))
  {
    StreamContent(pieces);
    StreamDeliversContent(StreamOf(pieces), reason, usage);
  }

  function AsText(): string -> string {
    (t: string) => t
  }

  lemma SeenAsText(r: Reply, q: Reply)
    ensures Seen(AsText(), r) == Seen(AsText(), q) <==> r == q
  {
    if Seen(AsText(), r) == Seen(AsText(), q) {
      assert |SeenCalls(AsText(), r.calls)| == |r.calls| && |SeenCalls(AsText(), q.calls)| == |q.calls|;
      forall i | 0 <= i < |r.calls| ensures r.calls[i] == q.calls[i] {
        assert SeenCalls(AsText(), r.calls)[i] == SeenCalls(AsText(), q.calls)[i];
      }
    }
  }

  /** The tool has input, written as the mapper would write it. */
  predicate IsAsRecoded(recode: Recoder, b: ContentBlock) {
    b.ToolUseBlock? ==> b.input.Some? && b.input.value == ArgumentsOf(recode, b.input)
  }

  /**
   Text for text, streaming agrees with the non-streaming mapper, for every cutting of the blocks into deltas, exactly
   when every tool block has input in the mapper's own encoding: the mapper recodes it, the stream hands it on.
   */
  lemma StreamingAgreesIff(recode: Recoder, pieces: seq<Piece>, reason: string, usage: Option<(int, int)>)
    requires IsCut(pieces)
    ensures GatheredFrom(pieces, reason, usage) == ReplyOf(recode, BlocksOf(pieces))
            <==> forall b <- BlocksOf(pieces) :: IsAsRecoded(recode, b)
  {
    GatheredIsStreamed(pieces, reason, usage);
    SeenAlikeIff(AsText(), recode, BlocksOf(pieces));
    SeenAsText(StreamedReply(BlocksOf(pieces)), ReplyOf(recode, BlocksOf(pieces)));
    assert |EMPTY_OBJECT| > |""|;
    forall b <- BlocksOf(pieces) ensures SeenAlike(AsText(), recode, b) <==> IsAsRecoded(recode, b) {
    }
  }

  // ----- a client that decodes arguments

  /** Decoding of JSON text; a decoded value is represented by a text of its own. */
  type JsonParser = string -> Option<string>

  /** Facts about JSON: the empty object decodes, to itself, and the empty text does not. */
  predicate IsJson(parse: JsonParser) {
    parse(EMPTY_OBJECT) == Some(EMPTY_OBJECT) && parse("").None?
  }

  /** Recoding accepts a tool's input when it decodes, and what it writes decodes to the same. */
  predicate KeepsValue(recode: Recoder, parse: JsonParser, b: ContentBlock) {
    b.ToolUseBlock? && b.input.Some? ==>
      match recode(b.input.value)
      case Some(u) => parse(b.input.value).Some? && parse(u) == parse(b.input.value)
      case None => parse(b.input.value).None?
  }

  /** The tool has input, and it decodes. */
  predicate InputDecodes(parse: JsonParser, b: ContentBlock) {
    b.ToolUseBlock? ==> b.input.Some? && parse(b.input.value).Some?
  }

  /**
   A client that decodes the arguments is given the same by both paths exactly when every tool block has input that
   decodes: for any other the mapper answers the empty object, and the stream nothing that decodes.
   */
  lemma DecodedStreamingAgreesIff(recode: Recoder, parse: JsonParser, pieces: seq<Piece>, reason: string,
                                  usage: Option<(int, int)>)
    requires IsCut(pieces) && IsJson(parse) && forall b <- BlocksOf(pieces) :: KeepsValue(recode, parse, b)
    ensures Seen(parse, GatheredFrom(pieces, reason, usage)) == Seen(parse, ReplyOf(recode, BlocksOf(pieces)))
            <==> forall b <- BlocksOf(pieces) :: InputDecodes(parse, b)
  {
    GatheredIsStreamed(pieces, reason, usage);
    SeenAlikeIff(parse, recode, BlocksOf(pieces));
    forall b <- BlocksOf(pieces) ensures SeenAlike(parse, recode, b) <==> InputDecodes(parse, b) {
    }
  }

  /** A tool called without input: the two paths disagree, decoded or not. */
  lemma StreamingDisagreesWithoutInput(recode: Recoder, parse: JsonParser, pieces: seq<Piece>)
    requires IsJson(parse) && pieces == [Piece(ToolUseBlock("id", "now", None), 0, [])]
    ensures IsCut(pieces)
    ensures GatheredFrom(pieces, "tool_use", None) != ReplyOf(recode, BlocksOf(pieces))
    ensures Seen(parse, GatheredFrom(pieces, "tool_use", None)) != Seen(parse, ReplyOf(recode, BlocksOf(pieces)))
  {
    assert CutFrom(pieces[0]);
    OneBlock(pieces);
    assert !IsAsRecoded(recode, BlocksOf(pieces)[0]) && !InputDecodes(parse, BlocksOf(pieces)[0]);
    StreamingAgreesIff(recode, pieces, "tool_use", None);
    DecodedStreamingAgreesIff(recode, parse, pieces, "tool_use", None);
  }

  lemma OneBlock(pieces: seq<Piece>)
    requires |pieces| == 1
    ensures BlocksOf(pieces) == [pieces[0].block]
  {
    assert pieces[..0] == [] && BlocksOf([]) == [];
  }

  /**
   Input in another layout than the mapper's, such as `{ }` where it writes `{}`: the texts disagree, what they decode
   to does not.
   */
  lemma StreamingDisagreesOnLayout(recode: Recoder, parse: JsonParser, input: string, pieces: seq<Piece>)
    requires IsJson(parse) && recode(input).Some? && recode(input).value != input
    requires parse(input).Some? && parse(recode(input).value) == parse(input)
    requires pieces == [Piece(ToolUseBlock("id", "now", Some(input)), 0, [input])]
    ensures IsCut(pieces)
    ensures GatheredFrom(pieces, "tool_use", None) != ReplyOf(recode, BlocksOf(pieces))
    ensures Seen(parse, GatheredFrom(pieces, "tool_use", None)) == Seen(parse, ReplyOf(recode, BlocksOf(pieces)))
  {
    assert Concat([input]) == input by {
      assert [input][..0] == [] && "" + input == input;
    }
    OneBlock(pieces);
    assert !IsAsRecoded(recode, BlocksOf(pieces)[0]) && InputDecodes(parse, BlocksOf(pieces)[0]);
    StreamingAgreesIff(recode, pieces, "tool_use", None);
    DecodedStreamingAgreesIff(recode, parse, pieces, "tool_use", None);
  }

  // ----- the Gemini dialect

  /** Blank arguments and those that do not decode are the empty object. */
  function ArgsObject(parse: JsonParser, arguments: string): (r: string)
    ensures TrimSpace(arguments) != "" && parse(arguments).Some? ==> Some(r) == parse(arguments)
    ensures TrimSpace(arguments) == "" || parse(arguments).None? ==> r == EMPTY_OBJECT
  {
    if TrimSpace(arguments) == "" || parse(arguments).None? then EMPTY_OBJECT else parse(arguments).value
  }

  function FunctionCall(parse: JsonParser, c: ToolCall): ToolCall {
    c.(arguments := ArgsObject(parse, c.arguments))
  }

  function FunctionCalls(parse: JsonParser, calls: seq<ToolCall>): seq<ToolCall> {
    seq(|calls|, i requires 0 <= i < |calls| => FunctionCall(parse, calls[i]))
  }

  /** The text and the function calls of a complete response. */
  function GeminiReply(parse: JsonParser, r: Reply): Reply {
    Reply(r.text, FunctionCalls(parse, r.calls))
  }

  /** The stream writer: calls wait until the end of a message releases them; written is what has gone out of them. */
  datatype GeminiWriter = GeminiWriter(pending: Client, written: seq<ToolCall>)

  function Write(parse: JsonParser, w: GeminiWriter, ev: StreamEvent): GeminiWriter {
    if ev.StreamEnd? then
      GeminiWriter(Client(w.pending.text, [], map[]),
                   w.written + FunctionCalls(parse, Waiting(w.pending.order, w.pending.tools)))
    else w.(pending := Receive(w.pending, ev))
  }

  function WriteAll(parse: JsonParser, w: GeminiWriter, evs: seq<StreamEvent>): GeminiWriter {
    if evs == [] then w else Write(parse, WriteAll(parse, w, evs[..|evs| - 1]), evs[|evs| - 1])
  }

  lemma {:induction false} WriteAllConcat(parse: JsonParser, w: GeminiWriter, a: seq<StreamEvent>, b: seq<StreamEvent>)
    ensures WriteAll(parse, w, a + b) == WriteAll(parse, WriteAll(parse, w, a), b)
  {
    if b == [] {
      assert a + b == a;
    } else {
      assert (a + b)[..|a + b| - 1] == a + b[..|b| - 1];
      WriteAllConcat(parse, w, a, b[..|b| - 1]);
    }
  }

  predicate StillOpen(evs: seq<StreamEvent>) {
    forall e <- evs :: !e.StreamEnd?
  }

  /** While the message is open the writer gathers as any client. */
  lemma {:induction false} WritesAsReceived(parse: JsonParser, evs: seq<StreamEvent>)
    requires StillOpen(evs)
    ensures WriteAll(parse, GeminiWriter(NOTHING, []), evs) == GeminiWriter(ReceiveAll(NOTHING, evs), [])
  {
    if evs != [] {
      var rest, e := evs[..|evs| - 1], evs[|evs| - 1];
      assert evs == rest + [e];
      WritesAsReceived(parse, rest);
      ReceiveAllConcat(NOTHING, rest, [e]);
      ReceiveOne(ReceiveAll(NOTHING, rest), e);
    }
  }

  lemma {:induction false} BodyStaysOpen(body: seq<Event>)
    requires IsBody(body)
    ensures StillOpen(LoopRun(LOOP_START, body).emitted)
  {
    if body != [] {
      var before, ev := body[..|body| - 1], body[|body| - 1];
      assert body == before + [ev];
      BodyStaysOpen(before);
      LoopRunConcat(LOOP_START, before, [ev]);
      assert LoopRun(LoopRun(LOOP_START, before), [ev]) == LoopAfter(LoopRun(LOOP_START, before), ev) by {
        assert [ev][1..] == [];
      }
    }
  }

  lemma WriteOne(parse: JsonParser, w: GeminiWriter, e: StreamEvent)
    ensures WriteAll(parse, w, [e]) == Write(parse, w, e)
  {
    assert [e][..0] == [];
  }

  /** One loop step, as the writer sees it: the synthesized start carries nothing. */
  lemma LoopIsWritten(parse: JsonParser, s: LoopState, ev: Event)
    ensures WriteAll(parse, GeminiWriter(NOTHING, []), LoopAfter(s, ev).emitted) ==
            WriteAll(parse, WriteAll(parse, GeminiWriter(NOTHING, []), s.emitted), Mapped(s.mapper, ev))
  {
    var w, out := GeminiWriter(NOTHING, []), Mapped(s.mapper, ev);
    var opening := Opening(s.started, out);
    WriteAllConcat(parse, w, s.emitted + opening, out);
    WriteAllConcat(parse, w, s.emitted, opening);
    WriteOne(parse, WriteAll(parse, w, s.emitted), StreamStart);
  }

  /** The end of a message releases the calls, once. */
  lemma EndReleases(parse: JsonParser, s: LoopState, reason: string, usage: Option<(int, int)>, c: Client)
    requires WriteAll(parse, GeminiWriter(NOTHING, []), s.emitted) == GeminiWriter(c, [])
    ensures WriteAll(parse, GeminiWriter(NOTHING, []), LoopRun(s, [MessageStop(reason), Metadata(usage)]).emitted) ==
            GeminiWriter(Client(c.text, [], map[]), FunctionCalls(parse, Waiting(c.order, c.tools)))
  {
    var stop, meta, s1 := MessageStop(reason), Metadata(usage), LoopAfter(s, MessageStop(reason));
    var calls := FunctionCalls(parse, Waiting(c.order, c.tools));
    var done := GeminiWriter(Client(c.text, [], map[]), calls);
    TwoSteps(s, stop, meta);
    LoopIsWritten(parse, s, stop);
    WriteOne(parse, GeminiWriter(c, []), StreamEnd(MapStopReason(reason), None));
    assert [] + calls == calls;
    LoopIsWritten(parse, s1, meta);
    WriteOne(parse, done, StreamEnd("", usage));
    assert FunctionCalls(parse, []) == [] && calls + [] == calls;
  }

  /** The writer gives the stream's content as a complete response would. */
  lemma GeminiWriterDeliversContent(parse: JsonParser, body: seq<Event>, reason: string, usage: Option<(int, int)>)
    requires IsBody(body)
    ensures var w := WriteAll(parse, GeminiWriter(NOTHING, []), Whole(body, reason, usage));
            Reply(w.pending.text, w.written) == GeminiReply(parse, Reply(TextOf(body), CallsOf(body)))
  {
    var s := LoopRun(LOOP_START, body);
    var c := ReceiveAll(NOTHING, s.emitted);
    BodyStaysOpen(body);
    WritesAsReceived(parse, s.emitted);
    BodyIsGathered(body);
    WholeIsBodyThenEnd(body, reason, usage);
    EndReleases(parse, s, reason, usage, c);
  }

  /** Blank texts among a tool's arguments, on either path, do not decode. */
  predicate BlankIsNothing(recode: Recoder, parse: JsonParser, b: ContentBlock) {
    b.ToolUseBlock? ==>
      (TrimSpace(InputText(b.input)) == "" ==> parse(InputText(b.input)).None?) &&
      (TrimSpace(ArgumentsOf(recode, b.input)) == "" ==> parse(ArgumentsOf(recode, b.input)).None?)
  }

  function AsArgsObject(parse: JsonParser): string -> string {
    (t: string) => ArgsObject(parse, t)
  }

  lemma SeenAsArgsObjects(parse: JsonParser, r: Reply, q: Reply)
    requires Seen(AsArgsObject(parse), r) == Seen(AsArgsObject(parse), q)
    ensures GeminiReply(parse, r) == GeminiReply(parse, q)
  {
    var view := AsArgsObject(parse);
    assert |SeenCalls(view, r.calls)| == |r.calls| && |SeenCalls(view, q.calls)| == |q.calls|;
    forall i | 0 <= i < |r.calls| ensures FunctionCall(parse, r.calls[i]) == FunctionCall(parse, q.calls[i]) {
      assert SeenCalls(view, r.calls)[i] == SeenCalls(view, q.calls)[i];
    }
  }

  /**
   A Gemini client gets the same content from the stream as from a complete response: of input that decodes the value,
   and otherwise an empty object.
   */
  lemma GeminiStreamingAgrees(recode: Recoder, parse: JsonParser, pieces: seq<Piece>, reason: string,
                              usage: Option<(int, int)>)
    requires IsCut(pieces) && IsJson(parse) && forall b <- BlocksOf(pieces) :: KeepsValue(recode, parse, b)
    requires forall b <- BlocksOf(pieces) :: BlankIsNothing(recode, parse, b)
    ensures var w := WriteAll(parse, GeminiWriter(NOTHING, []), Whole(StreamOf(pieces), reason, usage));
            Reply(w.pending.text, w.written) == GeminiReply(parse, ReplyOf(recode, BlocksOf(pieces)))
  {
    var blocks := BlocksOf(pieces);
    StreamContent(pieces);
    GeminiWriterDeliversContent(parse, StreamOf(pieces), reason, usage);
    forall b <- blocks ensures SeenAlike(AsArgsObject(parse), recode, b) {
    }
    SeenAlikeIff(AsArgsObject(parse), recode, blocks);
    SeenAsArgsObjects(parse, StreamedReply(blocks), ReplyOf(recode, blocks));
  }
}
