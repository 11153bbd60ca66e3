/**
 The Bedrock Converse adapter: a mapper of complete responses, and a stateful mapper that turns provider stream events
 into gateway stream events. A tool's input is the JSON text the provider wrote.
 */
module Bedrock {
  import opened Collections

  datatype ToolCall = ToolCall(id: string, name: string, arguments: string)

  /** Content of a complete response; a tool may be called without input. */
  datatype ContentBlock = TextBlock(text: string)
    | ToolUseBlock(id: string, name: string, input: Option<string>) | OtherBlock

  /** Provider stream events; content block indexes are optional in the protocol. */
  datatype Event =
    | MessageStart
    | ToolStart(index: Option<int>, id: string, name: string)
    | OtherStart
    | TextDelta(text: string)
    | ToolDelta(index: Option<int>, input: string)
    | OtherEvent
    | MessageStop(reason: string)
    | Metadata(usage: Option<(int, int)>)

  datatype StreamEvent =
    | StreamStart
    | StreamText(text: string)
    | StreamToolStart(index: nat, id: string, name: string)
    | StreamToolDelta(index: nat, args: string)
    | StreamEnd(finish: string, usage: Option<(int, int)>)
    | StreamError

  function MapStopReason(r: string): string {
    if r == "max_tokens" then "length"
    else if r == "tool_use" then "tool_calls"
    else if r == "end_turn" || r == "stop_sequence" || r == "" then "stop"
    else r
  }

  // ----- the non-streaming mapper

  datatype Reply = Reply(text: string, calls: seq<ToolCall>)

  /** Decodes a document and encodes the value again, in an encoding of its own; None when either fails. */
  type Recoder = string -> Option<string>

  const EMPTY_OBJECT := "{}"

  /** The arguments of a call whose tool was given this input. */
  function ArgumentsOf(recode: Recoder, input: Option<string>): string {
    if input.Some? && recode(input.value).Some? then recode(input.value).value else EMPTY_OBJECT
  }

  function WithBlock(recode: Recoder, r: Reply, b: ContentBlock): Reply {
    match b
    case TextBlock(t) => r.(text := r.text + t)
    case ToolUseBlock(id, name, input) => r.(calls := r.calls + [ToolCall(id, name, ArgumentsOf(recode, input))])
    case OtherBlock => r
  }

  function ReplyOf(recode: Recoder, blocks: seq<ContentBlock>): Reply {
    if blocks == [] then Reply("", [])
    else WithBlock(recode, ReplyOf(recode, blocks[..|blocks| - 1]), blocks[|blocks| - 1])
  }

  method ConverseContentToIR(recode: Recoder, blocks: seq<ContentBlock>) returns (text: string, calls: seq<ToolCall>)
    ensures Reply(text, calls) == ReplyOf(recode, blocks)
  {
    text, calls := "", [];
    for i := 0 to |blocks|
      invariant Reply(text, calls) == ReplyOf(recode, blocks[..i])
    {
      assert blocks[..i + 1][..i] == blocks[..i];
      match blocks[i] {
        case TextBlock(t) => text := text + t;
        case ToolUseBlock(id, name, input) =>
          var args := EMPTY_OBJECT;
          if input.Some? {
            var buf := recode(input.value);
            if buf.Some? {
              args := buf.value;
            }
          }
          calls := calls + [ToolCall(id, name, args)];
        case OtherBlock =>
      }
    }
    assert blocks[..|blocks|] == blocks;
  }

  // ----- the streaming mapper

  /** nextToolIndex and the content-block-to-tool index. */
  datatype MapperState = MapperState(next: nat, indexes: map<int, nat>)

  function ToolIndexFor(m: MapperState, index: Option<int>): nat {
    if index.Some? && index.value in m.indexes then m.indexes[index.value] else 0
  }

  function MapperAfter(m: MapperState, ev: Event): MapperState {
    match ev
    case ToolStart(index, _, _) =>
      MapperState(m.next + 1, if index.Some? then m.indexes[index.value := m.next] else m.indexes)
    case _ => m
  }

  function Mapped(m: MapperState, ev: Event): seq<StreamEvent> {
    match ev
    case MessageStart => [StreamStart]
    case ToolStart(_, id, name) => [StreamToolStart(m.next, id, name)]
    case TextDelta(t) => if t != "" then [StreamText(t)] else []
    case ToolDelta(index, input) => if input != "" then [StreamToolDelta(ToolIndexFor(m, index), input)] else []
    case MessageStop(reason) => [StreamEnd(MapStopReason(reason), None)]
    case Metadata(usage) => if usage.Some? then [StreamEnd("", usage)] else []
    case _ => []
  }

  class StreamMapper {
    var nextToolIndex: nat
    var toolIndexes: map<int, nat>

    constructor ()
      ensures State() == MapperState(0, map[])
    {
      nextToolIndex, toolIndexes := 0, map[];
    }

    function State(): MapperState
      reads this
    {
      MapperState(nextToolIndex, toolIndexes)
    }

    method MapEvent(ev: Event) returns (out: seq<StreamEvent>)
      modifies this
      ensures State() == MapperAfter(old(State()), ev) && out == Mapped(old(State()), ev)
    {
      match ev {
        case MessageStart => return [StreamStart];
        case ToolStart(index, id, name) =>
          var idx := nextToolIndex;
          nextToolIndex := nextToolIndex + 1;
          if index.Some? {
            toolIndexes := toolIndexes[index.value := idx];
          }
          return [StreamToolStart(idx, id, name)];
        case TextDelta(t) =>
          if t != "" {
            return [StreamText(t)];
          }
        case ToolDelta(index, input) =>
          var idx := 0;
          if index.Some? && index.value in toolIndexes {
            idx := toolIndexes[index.value];
          }
          if input != "" {
            return [StreamToolDelta(idx, input)];
          }
        case MessageStop(reason) => return [StreamEnd(MapStopReason(reason), None)];
        case Metadata(usage) =>
          if usage.Some? {
            return [StreamEnd("", usage)];
          }
        case _ =>
      }
      return [];
    }
  }

  // ----- the stream loop

  datatype LoopState = LoopState(mapper: MapperState, started: bool, emitted: seq<StreamEvent>)

  const LOOP_START := LoopState(MapperState(0, map[]), false, [])

  /** A message start is synthesized before the first event when the provider sends none. */
  function Opening(started: bool, out: seq<StreamEvent>): seq<StreamEvent> {
    if started || out == [] || out[0] == StreamStart then [] else [StreamStart]
  }

  function LoopAfter(s: LoopState, ev: Event): LoopState {
    var out := Mapped(s.mapper, ev);
    LoopState(MapperAfter(s.mapper, ev), s.started || out != [], s.emitted + Opening(s.started, out) + out)
  }

  function LoopRun(s: LoopState, evs: seq<Event>): LoopState
    decreases evs
  {
    if evs == [] then s else LoopRun(LoopAfter(s, evs[0]), evs[1..])
  }

  /** Everything the client receives. */
  function Emitted(evs: seq<Event>, failed: bool): seq<StreamEvent> {
    LoopRun(LOOP_START, evs).emitted + (if failed then [StreamError] else [])
  }

  method ChatStream(evs: seq<Event>, failed: bool) returns (emitted: seq<StreamEvent>)
    ensures emitted == Emitted(evs, failed)
    ensures emitted == [] || emitted[0] == StreamStart || emitted == [StreamError]
  {
    var mapper := new StreamMapper();
    var started := false;
    emitted := [];
    for i := 0 to |evs|
      invariant LoopRun(LoopState(mapper.State(), started, emitted), evs[i..]) == LoopRun(LOOP_START, evs)
      invariant StreamError !in emitted
      invariant if started then emitted != [] && emitted[0] == StreamStart else emitted == []
    {
      ghost var before := LoopState(mapper.State(), started, emitted);
      assert evs[i..][0] == evs[i] && evs[i..][1..] == evs[i + 1..];
      var out := mapper.MapEvent(evs[i]);
      // every event maps to at most one stream event
      for j := 0 to |out|
        invariant j == 0 ==> started == before.started && emitted == before.emitted
        invariant j == 1 ==> started && emitted == before.emitted + Opening(before.started, out) + out
      {
        if out[j] == StreamStart {
          started := true;
        }
        if !started && out[j] != StreamError {
          started := true;
          emitted := emitted + [StreamStart];
        }
        emitted := emitted + [out[j]];
      }
      assert LoopState(mapper.State(), started, emitted) == LoopAfter(before, evs[i]);
    }
    assert evs[|evs|..] == [];
    if failed {
      emitted := emitted + [StreamError];
    }
  }

  lemma {:induction false} LoopRunConcat(s: LoopState, a: seq<Event>, b: seq<Event>)
    ensures LoopRun(s, a + b) == LoopRun(LoopRun(s, a), b)
    decreases a
  {
    if a == [] {
      assert [] + b == b;
    } else {
      LoopRunConcat(LoopAfter(s, a[0]), a[1..], b);
      assert (a + b)[1..] == a[1..] + b;
    }
  }

  datatype Start = Start(index: Option<int>, id: string, name: string)

  function StartsOf(evs: seq<Event>): seq<Start> {
    if evs == [] then []
    else
      StartsOf(evs[..|evs| - 1]) +
      match evs[|evs| - 1]
      case ToolStart(index, id, name) => [Start(index, id, name)]
      case _ => []
  }

    // ----- what a stream carries, event by event

  /** The provider event has something to say to the client. */
  predicate Speaks(ev: Event) {
    match ev
    case TextDelta(t) => t != ""
    case ToolStart(_, _, _) => true
    case ToolDelta(_, input) => input != ""
    case MessageStop(_) => true
    case Metadata(usage) => usage.Some?
    case _ => false
  }

  /** The stream event carries what the provider event says; tool indexes are another matter. */
  predicate Carries(ev: Event, e: StreamEvent) {
    match ev
    case TextDelta(t) => e == StreamText(t)
    case ToolStart(_, id, name) => e.StreamToolStart? && e.id == id && e.name == name
    case ToolDelta(_, input) => e.StreamToolDelta? && e.args == input
    case MessageStop(reason) => e.StreamEnd? && e.usage.None? && IsFinishOf(reason, e.finish)
    case Metadata(usage) => e == StreamEnd("", usage)
    case _ => false
  }

  /** The finish reasons of the gateway for those of the provider. */
  predicate IsFinishOf(reason: string, finish: string) {
    && (reason == "max_tokens" ==> finish == "length")
    && (reason == "tool_use" ==> finish == "tool_calls")
    && (reason in {"end_turn", "stop_sequence", ""} ==> finish == "stop")
    && (reason !in {"max_tokens", "tool_use", "end_turn", "stop_sequence", ""} ==> finish == reason)
  }

  function Speaking(): Event -> bool { (ev: Event) => Speaks(ev) }

  function Starting(): Event -> bool { (ev: Event) => ev.MessageStart? }

  function Heard(): Event -> bool { (ev: Event) => ev.MessageStart? || Speaks(ev) }

  function Content(): StreamEvent -> bool { (e: StreamEvent) => !e.StreamStart? && !e.StreamError? }

  function IsStart(): StreamEvent -> bool { (e: StreamEvent) => e.StreamStart? }

  lemma FilterAppended<T(!new)>(xs: seq<T>, x: T, keep: T -> bool)
    ensures Filter(xs + [x], keep) == Filter(xs, keep) + (if keep(x) then [x] else [])
  {
    assert (xs + [x])[..|xs|] == xs;
  }

  lemma FilterOne<T(!new)>(x: T, keep: T -> bool)
    ensures Filter([x], keep) == if keep(x) then [x] else []
  {
    assert [x][..0] == [];
  }

  /** One loop step under a filter. */
  lemma StepFiltered(s: LoopState, ev: Event, keep: StreamEvent -> bool)
    ensures Filter(LoopAfter(s, ev).emitted, keep) ==
            Filter(s.emitted, keep) + Filter(Opening(s.started, Mapped(s.mapper, ev)), keep)
            + Filter(Mapped(s.mapper, ev), keep)
  {
    var out := Mapped(s.mapper, ev);
    var opening := Opening(s.started, out);
    FilterConcat(s.emitted + opening, out, keep);
    FilterConcat(s.emitted, opening, keep);
  }

  lemma MappedCarries(m: MapperState, ev: Event)
    ensures Speaks(ev) ==> |Mapped(m, ev)| == 1 && Content()(Mapped(m, ev)[0]) && Carries(ev, Mapped(m, ev)[0])
    ensures ev.MessageStart? ==> Mapped(m, ev) == [StreamStart]
    ensures !Speaks(ev) && !ev.MessageStart? ==> Mapped(m, ev) == []
  {
  }

  ghost predicate CarriesAll(said: seq<Event>, carried: seq<StreamEvent>) {
    |said| == |carried| && forall i :: 0 <= i < |said| ==> Carries(said[i], carried[i])
  }

  lemma ContentGrows(s: LoopState, ev: Event)
    ensures Filter(LoopAfter(s, ev).emitted, Content()) ==
            Filter(s.emitted, Content()) + (if Speaks(ev) then Mapped(s.mapper, ev) else [])
  {
    StepFiltered(s, ev, Content());
    OpeningHasNoContent(s.started, Mapped(s.mapper, ev));
    ContentOfMapped(s.mapper, ev);
  }

  lemma OpeningHasNoContent(started: bool, out: seq<StreamEvent>)
    ensures Filter(Opening(started, out), Content()) == []
  {
    FilterOne(StreamStart, Content());
  }

  lemma ContentOfMapped(m: MapperState, ev: Event)
    ensures Filter(Mapped(m, ev), Content()) == if Speaks(ev) then Mapped(m, ev) else []
  {
    MappedCarries(m, ev);
    FilterOne(StreamStart, Content());
    if Speaks(ev) {
      FilterOne(Mapped(m, ev)[0], Content());
      assert Mapped(m, ev) == [Mapped(m, ev)[0]];
    }
  }

  lemma {:induction false} RunCarries(evs: seq<Event>)
    ensures CarriesAll(Filter(evs, Speaking()), Filter(LoopRun(LOOP_START, evs).emitted, Content()))
  {
    if evs != [] {
      var before, ev := evs[..|evs| - 1], evs[|evs| - 1];
      var s := LoopRun(LOOP_START, before);
      RunCarries(before);
      RunAppended(before, ev);
      assert evs == before + [ev];
      FilterAppended(before, ev, Speaking());
      MappedCarries(s.mapper, ev);
      ContentGrows(s, ev);
      OneMoreCarried(Filter(before, Speaking()), Filter(s.emitted, Content()), ev, s.mapper);
    }
  }

  lemma OneMoreCarried(said: seq<Event>, carried: seq<StreamEvent>, ev: Event, m: MapperState)
    requires CarriesAll(said, carried)
    ensures CarriesAll(said + (if Speaks(ev) then [ev] else []), carried + (if Speaks(ev) then Mapped(m, ev) else []))
  {
    MappedCarries(m, ev);
  }

  lemma RunAppended(before: seq<Event>, ev: Event)
    ensures LoopRun(LOOP_START, before + [ev]) == LoopAfter(LoopRun(LOOP_START, before), ev)
  {
    LoopRunConcat(LOOP_START, before, [ev]);
    assert [ev][1..] == [];
    assert LoopRun(LoopRun(LOOP_START, before), [ev]) == LoopAfter(LoopRun(LOOP_START, before), ev);
  }

  /**
   Whatever the provider sends: the stream carries what each event says, in order, token usage and finish reasons
   included, and nothing else but starts and a final error.
   */
  lemma StreamCarriesEvents(evs: seq<Event>, failed: bool)
    ensures CarriesAll(Filter(evs, Speaking()), Filter(Emitted(evs, failed), Content()))
  {
    RunCarries(evs);
    ErrorIsNoContent(LoopRun(LOOP_START, evs).emitted, failed);
  }

  lemma ErrorIsNoContent(out: seq<StreamEvent>, failed: bool)
    ensures Filter(out + (if failed then [StreamError] else []), Content()) == Filter(out, Content())
  {
    if failed {
      FilterAppended(out, StreamError, Content());
    } else {
      assert out + [] == out;
    }
  }

  /** An error is emitted exactly when the stream failed, and last. */
  lemma ErrorComesLast(evs: seq<Event>, failed: bool)
    ensures var out := Emitted(evs, failed);
            if failed then out != [] && out[|out| - 1] == StreamError && StreamError !in out[..|out| - 1]
            else StreamError !in out
  {
    NoErrorInRun(evs);
    var run := LoopRun(LOOP_START, evs).emitted;
    assert (run + [StreamError])[..|run|] == run;
  }

  lemma StepHasNoError(s: LoopState, ev: Event)
    requires StreamError !in s.emitted
    ensures StreamError !in LoopAfter(s, ev).emitted
  {
    MappedCarries(s.mapper, ev);
  }

  lemma {:induction false} NoErrorInRun(evs: seq<Event>)
    ensures StreamError !in LoopRun(LOOP_START, evs).emitted
  {
    if evs != [] {
      var before, ev := evs[..|evs| - 1], evs[|evs| - 1];
      NoErrorInRun(before);
      RunAppended(before, ev);
      assert evs == before + [ev];
      StepHasNoError(LoopRun(LOOP_START, before), ev);
    }
  }

  function OpensTool(): StreamEvent -> bool { (e: StreamEvent) => e.StreamToolStart? }

  /** The tool starts an event is mapped to. */
  function ToolStartsOf(m: MapperState, ev: Event): seq<StreamEvent> {
    if ev.ToolStart? then [StreamToolStart(m.next, ev.id, ev.name)] else []
  }

  lemma ToolStartsOfMapped(m: MapperState, ev: Event)
    ensures Filter(Mapped(m, ev), OpensTool()) == ToolStartsOf(m, ev)
  {
    MappedCarries(m, ev);
    FilterOne(StreamStart, OpensTool());
    if Speaks(ev) {
      FilterOne(Mapped(m, ev)[0], OpensTool());
      assert Mapped(m, ev) == [Mapped(m, ev)[0]];
    }
  }

  lemma OpeningOpensNoTool(started: bool, out: seq<StreamEvent>)
    ensures Filter(Opening(started, out), OpensTool()) == []
  {
    FilterOne(StreamStart, OpensTool());
  }

  lemma ToolStartsGrow(s: LoopState, ev: Event)
    ensures Filter(LoopAfter(s, ev).emitted, OpensTool()) == Filter(s.emitted, OpensTool()) + ToolStartsOf(s.mapper, ev)
  {
    StepFiltered(s, ev, OpensTool());
    OpeningOpensNoTool(s.started, Mapped(s.mapper, ev));
    ToolStartsOfMapped(s.mapper, ev);
  }

  ghost predicate NumberedInOrder(starts: seq<Start>, begun: seq<StreamEvent>) {
    |begun| == |starts| &&
    forall i :: 0 <= i < |begun| ==> begun[i] == StreamToolStart(i, starts[i].id, starts[i].name)
  }

  /** Tool starts are numbered 0, 1, 2, ... whatever the provider sends. */
  lemma {:induction false} ToolIndexesAreDense(evs: seq<Event>)
    ensures NumberedInOrder(StartsOf(evs), Filter(LoopRun(LOOP_START, evs).emitted, OpensTool()))
    ensures LoopRun(LOOP_START, evs).mapper.next == |StartsOf(evs)|
  {
    if evs != [] {
      var before, ev := evs[..|evs| - 1], evs[|evs| - 1];
      ToolIndexesAreDense(before);
      RunAppended(before, ev);
      assert evs == before + [ev];
      var s := LoopRun(LOOP_START, before);
      ToolStartsGrow(s, ev);
      assert StartsOf(evs) == StartsOf(before) + if ev.ToolStart? then [Start(ev.index, ev.id, ev.name)] else [];
      NextToolNumbered(StartsOf(before), Filter(s.emitted, OpensTool()), s.mapper, ev);
    }
  }

  lemma NextToolNumbered(starts: seq<Start>, begun: seq<StreamEvent>, m: MapperState, ev: Event)
    requires NumberedInOrder(starts, begun) && m.next == |starts|
    ensures NumberedInOrder(starts + (if ev.ToolStart? then [Start(ev.index, ev.id, ev.name)] else []),
                            begun + ToolStartsOf(m, ev))
  {
  }

  lemma StartsGrow(s: LoopState, ev: Event)
    ensures |Filter(LoopAfter(s, ev).emitted, IsStart())| == |Filter(s.emitted, IsStart())| +
            (if ev.MessageStart? || (Speaks(ev) && !s.started) then 1 else 0)
    ensures LoopAfter(s, ev).started <==> s.started || Heard()(ev)
  {
    MappedCarries(s.mapper, ev);
    StepFiltered(s, ev, IsStart());
    FilterOne(StreamStart, IsStart());
    if Speaks(ev) {
      FilterOne(Mapped(s.mapper, ev)[0], IsStart());
      assert Mapped(s.mapper, ev) == [Mapped(s.mapper, ev)[0]];
    }
  }

  /** Message starts are the provider's, and one more when something else is heard first. */
  ghost predicate StartsAreCounted(heard: seq<Event>, starting: seq<Event>, s: LoopState) {
    && (s.started <==> heard != [])
    && |Filter(s.emitted, IsStart())| == |starting| + if heard != [] && !heard[0].MessageStart? then 1 else 0
  }

  lemma CountedStep(heard: seq<Event>, starting: seq<Event>, s: LoopState, ev: Event)
    requires StartsAreCounted(heard, starting, s)
    ensures StartsAreCounted(heard + (if Heard()(ev) then [ev] else []),
                             starting + (if Starting()(ev) then [ev] else []), LoopAfter(s, ev))
  {
    StartsGrow(s, ev);
  }

  lemma {:induction false} StreamStartsAreCounted(evs: seq<Event>)
    ensures StartsAreCounted(Filter(evs, Heard()), Filter(evs, Starting()), LoopRun(LOOP_START, evs))
  {
    if evs != [] {
      var before, ev := evs[..|evs| - 1], evs[|evs| - 1];
      StreamStartsAreCounted(before);
      RunAppended(before, ev);
      assert evs == before + [ev];
      FilterAppended(before, ev, Heard());
      FilterAppended(before, ev, Starting());
      CountedStep(Filter(before, Heard()), Filter(before, Starting()), LoopRun(LOOP_START, before), ev);
    }
  }
}
