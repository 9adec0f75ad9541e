/**
 * The update-event wave engine. The host emits small mutation signals
 * (Blender events); a wave buffers them until a signal that ends a wave
 * arrives, then the wave is converted to Sverchok events through a fixed
 * table, the shadow graph is updated, nodes are redrawn and handed to
 * recomputation, and a fresh wave is installed.
 *
 * Host objects (trees, nodes, links, callbacks and their arguments) are
 * opaque names. The redraw callbacks and the recomputation entry point are
 * external: the dispatcher records the calls it makes to them.
 */
module Events {
  import opened Wrappers
  import opened ShadowGraph

  // ---------------------------------------------------------------------------
  // Event kinds and the two lookup tables

  datatype BlenderEventType =
    | TreeUpdate
    | MonadTreeUpdate
    | NodeUpdate
    | AddNode
    | CopyNode
    | FreeNode
    | AddLinkToNode
    | NodePropertyUpdate
    | Undo
    | FrameChange

  datatype SverchokEventType =
    | SvAddNode
    | SvCopyNode
    | SvFreeNode
    | SvNodePropertyUpdate
    | SvNodeLinkUpdate
    | SvUndo
    | SvUndefined
    | SvFrameChange

  /** The Blender-to-Sverchok event type table. */
  const EventConversion: map<BlenderEventType, SverchokEventType> := map[
    TreeUpdate := SvUndefined,
    MonadTreeUpdate := SvUndefined,
    NodeUpdate := SvUndefined,
    AddNode := SvAddNode,
    CopyNode := SvCopyNode,
    FreeNode := SvFreeNode,
    AddLinkToNode := SvNodeLinkUpdate,
    NodePropertyUpdate := SvNodePropertyUpdate,
    Undo := SvUndo,
    FrameChange := SvFrameChange
  ]

  /** The event types that close a wave; the table has no entry for the others. */
  const IsWaveEndTable: map<BlenderEventType, bool> := map[
    TreeUpdate := true,
    NodePropertyUpdate := true,
    MonadTreeUpdate := true,
    Undo := true,
    FrameChange := true
  ]

  /** The conversion table has an entry for every Blender event type. */
  lemma {:induction false} EventConversionTotal(t: BlenderEventType)
    ensures t in EventConversion
  {
    match t
    case TreeUpdate =>
    case MonadTreeUpdate =>
    case NodeUpdate =>
    case AddNode =>
    case CopyNode =>
    case FreeNode =>
    case AddLinkToNode =>
    case NodePropertyUpdate =>
    case Undo =>
    case FrameChange =>
  }

  /** Only free_node converts to free_node. */
  lemma {:induction false} ConversionOfFreeNode(t: BlenderEventType)
    ensures t in EventConversion
    ensures EventConversion[t] == SvFreeNode <==> t == FreeNode
  {
    EventConversionTotal(t);
  }

  /** Table lookup with default false: the wave-end property of an event type. */
  function IsWaveEnd(t: BlenderEventType): (r: bool)
    ensures r <==> t in {TreeUpdate, NodePropertyUpdate, MonadTreeUpdate, Undo, FrameChange}
  {
    if t in IsWaveEndTable then IsWaveEndTable[t] else false
  }

  // ---------------------------------------------------------------------------
  // Events

  datatype BlenderEvent = BlenderEvent(
    eventType: BlenderEventType,
    tree: Option<string>,
    node: Option<string>,
    link: Option<string>,
    updateFunction: Option<string>,
    functionArguments: seq<string>)

  datatype SverchokEvent = SverchokEvent(
    eventType: SverchokEventType,
    tree: Option<string>,
    node: Option<string>,
    link: Option<string>,
    updateFunction: Option<string>,
    functionArguments: seq<string>)

  /** One event converted: the type through the table, every other field copied unchanged. */
  function ConvertEvent(e: BlenderEvent): (s: SverchokEvent)
    ensures e.eventType in EventConversion && s.eventType == EventConversion[e.eventType]
    ensures s.tree == e.tree && s.node == e.node && s.link == e.link
    ensures s.updateFunction == e.updateFunction && s.functionArguments == e.functionArguments
  {
    EventConversionTotal(e.eventType);
    SverchokEvent(EventConversion[e.eventType], e.tree, e.node, e.link, e.updateFunction, e.functionArguments)
  }

  /** Every event converted, in order. */
  function ConvertAll(events: seq<BlenderEvent>): (r: seq<SverchokEvent>)
    ensures |r| == |events|
    ensures forall i :: 0 <= i < |events| ==> r[i] == ConvertEvent(events[i])
  {
    if events == [] then [] else [ConvertEvent(events[0])] + ConvertAll(events[1..])
  }

  // ---------------------------------------------------------------------------
  // Pure logic of a wave

  /** A wave has ended when it is non-empty and its last event closes a wave. */
  function WaveEnded(events: seq<BlenderEvent>): (r: bool)
    ensures r <==>
      (|events| > 0 &&
       events[|events| - 1].eventType in {TreeUpdate, NodePropertyUpdate, MonadTreeUpdate, Undo, FrameChange})
  {
    |events| > 0 && IsWaveEnd(events[|events| - 1].eventType)
  }

  /** The tree itself changed when the last event is a tree or monad tree update. */
  predicate TreeWasChanged(events: seq<BlenderEvent>)
    requires |events| > 0
  {
    events[|events| - 1].eventType == TreeUpdate || events[|events| - 1].eventType == MonadTreeUpdate
  }

  /**
   * Conversion of a wave. A wave that has not ended raises RuntimeError.
   * When the tree changed, the result is whatever the (unimplemented)
   * change analysis and conversion of known events produce, here the
   * parameter convertKnown; otherwise every buffered event is converted.
   */
  function ConvertWave(events: seq<BlenderEvent>, convertKnown: seq<BlenderEvent> -> Result<seq<SverchokEvent>>)
    : (r: Result<seq<SverchokEvent>>)
    ensures !WaveEnded(events) ==> r == Failure(RuntimeError)
    ensures WaveEnded(events) && TreeWasChanged(events) ==> r == convertKnown(events)
    ensures WaveEnded(events) && !TreeWasChanged(events) ==>
      r.Success? && |r.value| == |events| &&
      forall i :: 0 <= i < |events| ==> r.value[i] == ConvertEvent(events[i])
  {
    if !WaveEnded(events) then Failure(RuntimeError)
    else if TreeWasChanged(events) then convertKnown(events)
    else Success(ConvertAll(events))
  }

  /** The longest prefix of events whose type is t. */
  function TakeWhileType(events: seq<BlenderEvent>, t: BlenderEventType): (r: seq<BlenderEvent>)
    ensures r <= events
    ensures forall i :: 0 <= i < |r| ==> r[i].eventType == t
    ensures |r| == |events| || events[|r|].eventType != t
  {
    if events == [] || events[0].eventType != t then []
    else [events[0]] + TakeWhileType(events[1..], t)
  }

  /**
   * The alternative, first-event-driven conversion: nothing for a wave
   * opened by undo, frame change or a (monad) tree update, otherwise the
   * longest run of events sharing the first event's type. An empty list
   * raises IndexError.
   */
  function ConvertByFirstType(events: seq<BlenderEvent>): (r: Result<seq<SverchokEvent>>)
    ensures events == [] <==> r == Failure(IndexError)
    ensures events != [] && events[0].eventType in {Undo, FrameChange, TreeUpdate, MonadTreeUpdate} ==>
      r == Success([])
    ensures events != [] && events[0].eventType !in {Undo, FrameChange, TreeUpdate, MonadTreeUpdate} ==>
      r.Success? && 0 < |r.value| <= |events| &&
      (forall i :: 0 <= i < |r.value| ==>
        events[i].eventType == events[0].eventType && r.value[i] == ConvertEvent(events[i])) &&
      (|r.value| == |events| || events[|r.value|].eventType != events[0].eventType)
  {
    if events == [] then Failure(IndexError)
    else if events[0].eventType == Undo then Success([])
    else if events[0].eventType == FrameChange then Success([])
    else if events[0].eventType in [TreeUpdate, MonadTreeUpdate] then Success([])
    else Success(ConvertAll(TakeWhileType(events, events[0].eventType)))
  }

  // ---------------------------------------------------------------------------
  // What the dispatcher hands to its collaborators

  /** A call of a node's redraw callback with its arguments. */
  datatype RedrawCall = RedrawCall(callback: string, arguments: seq<string>)

  /** The callback calls made while redrawing: one per event that carries a callback, in order. */
  function RedrawCallsOf(events: seq<SverchokEvent>): seq<RedrawCall>
  {
    if events == [] then []
    else
      var last := events[|events| - 1];
      RedrawCallsOf(events[..|events| - 1]) +
        (if last.updateFunction.Some? then [RedrawCall(last.updateFunction.value, last.functionArguments)] else [])
  }

  /** The nodes handed to recomputation: those of the events that do not free a node, in order. */
  function NodesToProcess(events: seq<SverchokEvent>): seq<Option<string>>
  {
    if events == [] then []
    else (if events[0].eventType != SvFreeNode then [events[0].node] else []) + NodesToProcess(events[1..])
  }

  /** The nodes of the Blender events that do not free a node, in order. */
  function NonFreeNodes(events: seq<BlenderEvent>): seq<Option<string>>
  {
    if events == [] then []
    else (if events[0].eventType != FreeNode then [events[0].node] else []) + NonFreeNodes(events[1..])
  }

  /** Recomputation keeps order: the nodes of a concatenation are the concatenated nodes. */
  lemma {:induction false} NodesToProcessAppend(a: seq<SverchokEvent>, b: seq<SverchokEvent>)
    ensures NodesToProcess(a + b) == NodesToProcess(a) + NodesToProcess(b)
  {
    if a != [] {
      var head := if a[0].eventType != SvFreeNode then [a[0].node] else [];
      assert (a + b)[0] == a[0];
      assert (a + b)[1..] == a[1..] + b;
      calc {
        NodesToProcess(a + b);
        head + NodesToProcess(a[1..] + b);
        { NodesToProcessAppend(a[1..], b); }
        head + (NodesToProcess(a[1..]) + NodesToProcess(b));
        (head + NodesToProcess(a[1..])) + NodesToProcess(b);
        NodesToProcess(a) + NodesToProcess(b);
      }
    } else {
      assert a + b == b;
    }
  }

  /**
   * After a plain (non tree-changing) wave, recomputation receives the node
   * of every buffered event except the free_node ones, in wave order.
   */
  lemma {:induction false} ProcessedNodesFollowWave(events: seq<BlenderEvent>)
    ensures NodesToProcess(ConvertAll(events)) == NonFreeNodes(events)
  {
    if events != [] {
      ConversionOfFreeNode(events[0].eventType);
      assert ConvertAll(events)[1..] == ConvertAll(events[1..]);
      ProcessedNodesFollowWave(events[1..]);
    }
  }

  /** No buffered event is a node_update. */
  ghost predicate NoNodeUpdates(events: seq<BlenderEvent>)
  {
    forall i :: 0 <= i < |events| ==> events[i].eventType != NodeUpdate
  }

  // ---------------------------------------------------------------------------
  // The wave buffer

  class EventsWave {
    var events: seq<BlenderEvent>

    constructor ()
      ensures events == []
    {
      events := [];
    }

    /** node_update signals are dropped; any other signal is appended at the end. */
    method AddEvent(e: BlenderEvent)
      modifies this
      ensures e.eventType == NodeUpdate ==> events == old(events)
      ensures e.eventType != NodeUpdate ==> events == old(events) + [e]
      ensures NoNodeUpdates(old(events)) ==> NoNodeUpdates(events)
    {
      if e.eventType == NodeUpdate {
        return;
      }
      events := events + [e];
    }

    predicate IsEnd()
      reads this
    {
      WaveEnded(events)
    }

    function ConvertToSverchokEvents(convertKnown: seq<BlenderEvent> -> Result<seq<SverchokEvent>>)
      : Result<seq<SverchokEvent>>
      reads this
    {
      ConvertWave(events, convertKnown)
    }
  }

  // ---------------------------------------------------------------------------
  // The dispatcher

  /** The objects a dispatch may change in the shadow tree the reconstruction lookup returns. */
  function ShadowFrame(shadow: SvTree?): set<object>
    reads shadow, if shadow == null then {} else {shadow.nodes}
  {
    if shadow == null then {}
    else {shadow.nodes, shadow.links} + set n | n in shadow.nodes.nodes.Values :: n as object
  }

  class CurrentEvents {
    var wave: EventsWave
    /** False while a dispatch runs; new signals are dropped meanwhile. */
    var listening: bool
    /** Calls made to the nodes' redraw callbacks. */
    var redrawCalls: seq<RedrawCall>
    /** The node lists handed to recomputation, one per dispatch. */
    var processCalls: seq<seq<Option<string>>>

    /** While the guard is up, the buffered wave holds no node_update and has not ended. */
    ghost predicate Valid()
      reads this, wave
    {
      NoNodeUpdates(wave.events) && (listening ==> !WaveEnded(wave.events))
    }

    constructor ()
      ensures Valid() && listening && fresh(wave) && wave.events == []
      ensures redrawCalls == [] && processCalls == []
    {
      wave := new EventsWave();
      listening := true;
      redrawCalls := [];
      processCalls := [];
    }

    /** Calls the redraw callback of every event that has one, in order. */
    method RedrawNodes(svEvents: seq<SverchokEvent>)
      modifies this
      ensures redrawCalls == old(redrawCalls) + RedrawCallsOf(svEvents)
      ensures wave == old(wave) && listening == old(listening) && processCalls == old(processCalls)
    {
      var i := 0;
      while i < |svEvents|
        invariant 0 <= i <= |svEvents|
        invariant redrawCalls == old(redrawCalls) + RedrawCallsOf(svEvents[..i])
        invariant wave == old(wave) && listening == old(listening) && processCalls == old(processCalls)
      {
        var ev := svEvents[i];
        assert svEvents[..i + 1][..i] == svEvents[..i];
        if ev.updateFunction.Some? {
          redrawCalls := redrawCalls + [RedrawCall(ev.updateFunction.value, ev.functionArguments)];
        }
        i := i + 1;
      }
      assert svEvents[..i] == svEvents;
    }

    /** Hands the nodes of the events that do not free a node to recomputation. */
    method UpdateNodes(svEvents: seq<SverchokEvent>)
      modifies this
      ensures processCalls == old(processCalls) + [NodesToProcess(svEvents)]
      ensures wave == old(wave) && listening == old(listening) && redrawCalls == old(redrawCalls)
    {
      processCalls := processCalls + [NodesToProcess(svEvents)];
    }

    /**
     * Dispatches the wave once it has ended. The guard is lowered for the
     * whole dispatch and raised again, with a fresh wave, only when every
     * step succeeded: an exception leaves the guard down and the old wave
     * in place. shadow is what the reconstruction lookup returns for the
     * wave's tree (null: nothing, so calling it raises AttributeError);
     * live is the host's tree, if it can be found.
     */
    method HandleNewEvent(convertKnown: seq<BlenderEvent> -> Result<seq<SverchokEvent>>,
                          shadow: SvTree?, live: Option<LiveTree>) returns (outcome: Outcome)
      requires NoNodeUpdates(wave.events)
      requires shadow != null ==> shadow.Valid()
      modifies this, ShadowFrame(shadow)
      ensures Valid()
      ensures !old(wave.IsEnd()) ==>
        outcome == Pass && wave == old(wave) && listening == old(listening) &&
        redrawCalls == old(redrawCalls) && processCalls == old(processCalls)
      ensures !old(wave.IsEnd()) && shadow != null ==>
        shadow.nodes.nodes == old(shadow.nodes.nodes) && shadow.links.links == old(shadow.links.links)
      ensures old(wave.IsEnd()) && outcome.Fail? ==>
        !listening && wave == old(wave) && redrawCalls == old(redrawCalls) && processCalls == old(processCalls)
      ensures old(wave.IsEnd()) && ConvertWave(old(wave.events), convertKnown).Failure? ==>
        outcome == Fail(ConvertWave(old(wave.events), convertKnown).error) &&
        (shadow != null ==>
          shadow.nodes.nodes == old(shadow.nodes.nodes) && shadow.links.links == old(shadow.links.links))
      ensures old(wave.IsEnd()) && ConvertWave(old(wave.events), convertKnown).Success? && shadow == null ==>
        outcome == Fail(AttributeError)
      ensures old(wave.IsEnd()) && ConvertWave(old(wave.events), convertKnown).Success? && shadow != null ==>
        outcome == UpdateOutcome(old(shadow.nodes.nodes.Keys), live) &&
        (outcome.Pass? <==>
          old(shadow.nodes.nodes) == map[] || (live.Some? && LinksResolvable(live.value, old(shadow.nodes.nodes.Keys))))
      ensures old(wave.IsEnd()) && ConvertWave(old(wave.events), convertKnown).Success? && shadow != null ==>
        (old(shadow.nodes.nodes) == map[] ==>
          shadow.nodes.nodes == map[] && shadow.links.links == old(shadow.links.links)) &&
        (old(shadow.nodes.nodes) != map[] && live.Some? ==>
          shadow.nodes.nodes.Keys == old(shadow.nodes.nodes.Keys) + NodeIds(live.value.nodes) &&
          (outcome.Pass? ==> shadow.links.links.Keys == old(shadow.links.links.Keys) + LinkIds(live.value.links)))
      ensures old(wave.IsEnd()) && outcome.Pass? ==>
        var sv := ConvertWave(old(wave.events), convertKnown);
        sv.Success? && shadow != null &&
        listening && fresh(wave) && wave.events == [] &&
        redrawCalls == old(redrawCalls) + RedrawCallsOf(sv.value) &&
        processCalls == old(processCalls) + [NodesToProcess(sv.value)]
    {
      if !wave.IsEnd() {
        return Pass;
      }
      listening := false;
      var svEvents := wave.ConvertToSverchokEvents(convertKnown);
      if svEvents.Failure? {
        return Fail(svEvents.error);
      }
      if shadow == null {
        return Fail(AttributeError);
      }
      outcome := shadow.UpdateReconstruction(live);
      if outcome.Fail? {
        return;
      }
      RedrawNodes(svEvents.value);
      UpdateNodes(svEvents.value);
      listening := true;
      wave := new EventsWave();
    }

    /**
     * Entry point for every host signal: dropped while the guard is down,
     * otherwise buffered and the wave dispatched if it has ended.
     */
    method AddNewEvent(e: BlenderEvent, convertKnown: seq<BlenderEvent> -> Result<seq<SverchokEvent>>,
                       shadow: SvTree?, live: Option<LiveTree>) returns (outcome: Outcome)
      requires Valid()
      requires shadow != null ==> shadow.Valid()
      modifies this, wave, ShadowFrame(shadow)
      ensures Valid()
      ensures !old(listening) ==>
        outcome == Pass && wave == old(wave) && wave.events == old(wave.events) && !listening &&
        redrawCalls == old(redrawCalls) && processCalls == old(processCalls)
      ensures old(listening) && !WaveEnded(old(wave.events) + [e]) ==>
        outcome == Pass && listening && wave == old(wave) &&
        wave.events == (if e.eventType == NodeUpdate then old(wave.events) else old(wave.events) + [e])
      ensures !old(listening) || !WaveEnded(old(wave.events) + [e]) ==>
        shadow != null ==>
          shadow.nodes.nodes == old(shadow.nodes.nodes) && shadow.links.links == old(shadow.links.links)
      // A signal that ends the wave dispatches the wave it completes.
      ensures old(listening) && WaveEnded(old(wave.events) + [e]) && outcome.Fail? ==>
        !listening && wave == old(wave) && wave.events == old(wave.events) + [e] &&
        redrawCalls == old(redrawCalls) && processCalls == old(processCalls)
      ensures old(listening) && WaveEnded(old(wave.events) + [e]) &&
              ConvertWave(old(wave.events) + [e], convertKnown).Failure? ==>
        outcome == Fail(ConvertWave(old(wave.events) + [e], convertKnown).error) &&
        (shadow != null ==>
          shadow.nodes.nodes == old(shadow.nodes.nodes) && shadow.links.links == old(shadow.links.links))
      ensures old(listening) && WaveEnded(old(wave.events) + [e]) &&
              ConvertWave(old(wave.events) + [e], convertKnown).Success? && shadow == null ==>
        outcome == Fail(AttributeError)
      ensures old(listening) && WaveEnded(old(wave.events) + [e]) &&
              ConvertWave(old(wave.events) + [e], convertKnown).Success? && shadow != null ==>
        outcome == UpdateOutcome(old(shadow.nodes.nodes.Keys), live) &&
        (old(shadow.nodes.nodes) == map[] ==>
          shadow.nodes.nodes == map[] && shadow.links.links == old(shadow.links.links)) &&
        (old(shadow.nodes.nodes) != map[] && live.Some? ==>
          shadow.nodes.nodes.Keys == old(shadow.nodes.nodes.Keys) + NodeIds(live.value.nodes) &&
          (outcome.Pass? ==> shadow.links.links.Keys == old(shadow.links.links.Keys) + LinkIds(live.value.links)))
      ensures old(listening) && WaveEnded(old(wave.events) + [e]) && outcome.Pass? ==>
        var sv := ConvertWave(old(wave.events) + [e], convertKnown);
        sv.Success? && shadow != null &&
        listening && fresh(wave) && wave.events == [] &&
        redrawCalls == old(redrawCalls) + RedrawCallsOf(sv.value) &&
        processCalls == old(processCalls) + [NodesToProcess(sv.value)]
    {
      if !listening {
        return Pass;
      }
      wave.AddEvent(e);
      if WaveEnded(old(wave.events) + [e]) {
        // A node_update never ends a wave, so the signal was buffered.
        assert wave.events == old(wave.events) + [e];
      }
      outcome := HandleNewEvent(convertKnown, shadow, live);
    }
  }
}
