/**
 * Node wrapping: declared input and output sockets, a layered output
 * buffer filled while a node processes, and the in-process flag that
 * switches socket attributes from declarations to data.
 *
 * Socket data is a list of layers; a layer is a list of opaque items. The
 * host node is data: its input sockets (name, linked or not, data held if
 * any) and the names of its output sockets. What the wrapper sends to the
 * host's output sockets is returned as a list of writes.
 */
module HandlingNodes {
  import opened Wrappers

  type Layer = seq<string>

  datatype BlInputSocket = BlInputSocket(name: string, isLinked: bool, data: Option<seq<Layer>>)

  datatype BlNode = BlNode(inputs: seq<BlInputSocket>, outputs: seq<string>)

  /** Data sent to the host output socket of the given name. */
  datatype OutputWrite = OutputWrite(socket: string, data: seq<Layer>)

  /** A value the user's process method assigns to an output attribute on the current layer. */
  datatype Assignment = Assignment(key: string, data: Layer)

  /** Reading a host socket with a default: its data if it holds any, the default otherwise. */
  function SvGet(s: BlInputSocket, default: seq<Layer>): seq<Layer>
  {
    if s.data.Some? then s.data.value else default
  }

  // ---------------------------------------------------------------------------
  // Declarations

  datatype NodeProperties = NodeProperties(bpyProps: string, name: string)

  /** A copy of the declaration with the name replaced. */
  function ReplaceName(p: NodeProperties, newName: string): (r: NodeProperties)
    ensures r.name == newName && r.bpyProps == p.bpyProps
    ensures p.name == newName ==> r == p
  {
    p.(name := newName)
  }

  datatype SocketProperties = SocketProperties(
    name: string,
    socketType: string,
    prop: Option<NodeProperties>,
    customDraw: string,
    deepCopy: bool,
    vectorize: bool,
    default: seq<Layer>,
    mandatory: bool)

  /** A socket declared with every optional field at its default. */
  function DeclareSocket(name: string, socketType: string): (s: SocketProperties)
    ensures s.name == name && s.socketType == socketType
    ensures s.prop.None? && s.customDraw == "" && s.deepCopy && s.vectorize && !s.mandatory && s.default == [[]]
  {
    SocketProperties(name, socketType, None, "", true, true, [[]], false)
  }

  /** A declared socket under its attribute key; a node's sockets keep declaration order. */
  datatype Socket = Socket(key: string, props: SocketProperties)

  function Lookup(sockets: seq<Socket>, key: string): (r: Option<SocketProperties>)
    ensures r.Some? <==> exists i :: 0 <= i < |sockets| && sockets[i].key == key
    ensures r.Some? ==> exists i :: 0 <= i < |sockets| && sockets[i].key == key && sockets[i].props == r.value
  {
    if sockets == [] then None
    else if sockets[0].key == key then Some(sockets[0].props)
    else
      var r := Lookup(sockets[1..], key);
      assert forall i :: 0 < i < |sockets| ==> sockets[i] == sockets[1..][i - 1];
      assert r.Some? ==> sockets[1 + 0] == sockets[1..][0];
      r
  }

  /** The first host input socket with the given name. */
  function FindInput(inputs: seq<BlInputSocket>, name: string): (r: Option<BlInputSocket>)
    ensures r.Some? ==> r.value in inputs && r.value.name == name
    ensures r.None? ==> forall s :: s in inputs ==> s.name != name
  {
    if inputs == [] then None
    else if inputs[0].name == name then Some(inputs[0])
    else FindInput(inputs[1..], name)
  }

  /**
   * Every mandatory socket is linked, pairing host sockets and declarations
   * by position and stopping at the shorter list.
   */
  function MandatoryLinked(inputs: seq<BlInputSocket>, sockets: seq<Socket>): (r: bool)
    ensures r <==> forall i :: 0 <= i < |inputs| && i < |sockets| && sockets[i].props.mandatory ==> inputs[i].isLinked
  {
    if inputs == [] || sockets == [] then true
    else
      var rest := MandatoryLinked(inputs[1..], sockets[1..]);
      assert forall i :: 1 <= i < |inputs| && i < |sockets| ==>
        inputs[i] == inputs[1..][i - 1] && sockets[i] == sockets[1..][i - 1];
      (!sockets[0].props.mandatory || inputs[0].isLinked) && rest
  }

  /** The layer at index k, or the last layer when k is past the end; no layer at all is an IndexError. */
  function InputLayer(data: seq<Layer>, k: nat): (r: Result<Layer>)
    ensures k < |data| ==> r == Success(data[k])
    ensures |data| <= k && data != [] ==> r == Success(data[|data| - 1])
    ensures data == [] <==> r == Failure(IndexError)
  {
    if k < |data| then Success(data[k])
    else if data != [] then Success(data[|data| - 1])
    else Failure(IndexError)
  }

  /** Declaring one more socket with the defaults never makes a node lack its required data. */
  lemma {:induction false} DefaultSocketNotRequired(inputs: seq<BlInputSocket>, sockets: seq<Socket>, key: string, name: string, socketType: string)
    ensures MandatoryLinked(inputs, sockets + [Socket(key, DeclareSocket(name, socketType))]) == MandatoryLinked(inputs, sockets)
  {
    var extended := sockets + [Socket(key, DeclareSocket(name, socketType))];
    assert forall i :: 0 <= i < |sockets| ==> extended[i] == sockets[i];
    assert |sockets| < |extended| ==> !extended[|sockets|].props.mandatory;
  }

  /** An input declared with the defaults reads as one empty layer, on every layer, while its host socket holds no data. */
  lemma {:induction false} DefaultSocketReadsEmptyLayer(s: BlInputSocket, name: string, socketType: string, k: nat)
    requires s.data.None?
    ensures InputLayer(SvGet(s, DeclareSocket(name, socketType).default), k) == Success([])
  {
  }

  /**
   * The number of layers processed: the largest layer count over the host
   * inputs (an input without data counts its default single layer); a node
   * without inputs raises ValueError.
   */
  function MaxLayers(inputs: seq<BlInputSocket>): (r: Result<nat>)
    ensures inputs == [] <==> r == Failure(ValueError)
    ensures inputs != [] ==> r.Success?
    ensures r.Success? ==> forall s :: s in inputs ==> |SvGet(s, [[]])| <= r.value
    ensures r.Success? ==> exists s :: s in inputs && |SvGet(s, [[]])| == r.value
  {
    if inputs == [] then Failure(ValueError)
    else
      var here := |SvGet(inputs[0], [[]])|;
      var rest := MaxLayers(inputs[1..]);
      assert forall s :: s in inputs ==> s == inputs[0] || s in inputs[1..];
      if rest.Failure? || rest.value < here then Success(here) else rest
  }

  // ---------------------------------------------------------------------------
  // The layered output buffer

  /** The list a missing key reads as: an empty list. */
  function Stored(data: map<string, seq<Layer>>, key: string): seq<Layer>
  {
    if key in data then data[key] else []
  }

  /**
   * Layer list after storing data at layer k: padded with empty layers up to
   * k + 1 entries, entry k replaced, every other entry unchanged.
   */
  function Padded(layers: seq<Layer>, k: nat, data: Layer): (r: seq<Layer>)
    ensures |r| == if |layers| > k then |layers| else k + 1
    ensures r[k] == data
    ensures forall i :: 0 <= i < |layers| && i != k ==> r[i] == layers[i]
    ensures forall i :: |layers| <= i < |r| && i != k ==> r[i] == []
  {
    var padding := if |layers| > k then 0 else k + 1 - |layers|;
    (layers + seq(padding, _ => []))[k := data]
  }

  /** Appends empty layers until layer k exists, then stores data there. */
  method PadAndStore(layers: seq<Layer>, k: nat, data: Layer) returns (r: seq<Layer>)
    ensures r == Padded(layers, k, data)
  {
    r := layers;
    while |r| <= k
      invariant |layers| <= |r| <= if |layers| > k then |layers| else k + 1
      invariant r == layers + seq(|r| - |layers|, _ => [])
    {
      r := r + [[]];
    }
    r := r[k := data];
  }

  /** The output buffer after the assignments of layer k to declared output keys, in order. */
  function ApplyAssignments(data: map<string, seq<Layer>>, sockets: seq<Socket>, k: nat, assigns: seq<Assignment>)
    : map<string, seq<Layer>>
  {
    if assigns == [] then data
    else
      var a := assigns[|assigns| - 1];
      var before := ApplyAssignments(data, sockets, k, assigns[..|assigns| - 1]);
      if Lookup(sockets, a.key).Some? then before[a.key := Padded(Stored(before, a.key), k, a.data)] else before
  }

  /** The output buffer after the user's process ran on layers 0 .. m - 1, or the error it raised. */
  function ApplyLayers(sockets: seq<Socket>, userProcess: nat -> Result<seq<Assignment>>, m: nat)
    : Result<map<string, seq<Layer>>>
  {
    if m == 0 then Success(map[])
    else
      var before := ApplyLayers(sockets, userProcess, m - 1);
      if before.Failure? then before
      else if userProcess(m - 1).Failure? then Failure(userProcess(m - 1).error)
      else Success(ApplyAssignments(before.value, sockets, m - 1, userProcess(m - 1).value))
  }

  /**
   * One layer's assignments touch only layer k: every key keeps its other
   * layers and never loses one, and is padded no further than k + 1 layers.
   */
  lemma {:induction false} AssignmentsTouchOnlyTheirLayer(
    data: map<string, seq<Layer>>, sockets: seq<Socket>, k: nat, assigns: seq<Assignment>)
    ensures var r := ApplyAssignments(data, sockets, k, assigns);
      forall key ::
        |Stored(data, key)| <= |Stored(r, key)| <= (if |Stored(data, key)| > k then |Stored(data, key)| else k + 1) &&
        forall i :: 0 <= i < |Stored(data, key)| && i != k ==> Stored(r, key)[i] == Stored(data, key)[i]
  {
    if assigns != [] {
      AssignmentsTouchOnlyTheirLayer(data, sockets, k, assigns[..|assigns| - 1]);
    }
  }

  /** After m layers, no output key holds more than m layers. */
  lemma {:induction false} BufferBoundedByLayers(sockets: seq<Socket>, userProcess: nat -> Result<seq<Assignment>>, m: nat)
    ensures ApplyLayers(sockets, userProcess, m).Success? ==>
      forall key :: |Stored(ApplyLayers(sockets, userProcess, m).value, key)| <= m
  {
    if m > 0 {
      BufferBoundedByLayers(sockets, userProcess, m - 1);
      var before := ApplyLayers(sockets, userProcess, m - 1);
      if before.Success? && userProcess(m - 1).Success? {
        AssignmentsTouchOnlyTheirLayer(before.value, sockets, m - 1, userProcess(m - 1).value);
      }
    }
  }

  // ---------------------------------------------------------------------------
  // Pass-through when the required inputs are missing

  /** What a pass-through sent to the host before it stopped, and the error that stopped it, if any. */
  datatype PassResult = PassResult(writes: seq<OutputWrite>, error: Option<PyError>)

  /**
   * Reading host input i raises during the pass-through: its declaration
   * names an output of the host, and it is linked but holds no data.
   */
  predicate ReadRaises(node: BlNode, sockets: seq<Socket>, i: nat)
    requires i < |node.inputs| && i < |sockets|
  {
    sockets[i].props.name in node.outputs && node.inputs[i].isLinked && node.inputs[i].data.None?
  }

  /**
   * The pass-through for the first n declared input sockets: each declared
   * socket whose name is also an output socket of the host gets the data of
   * the positionally matching host input when that input is linked, and one
   * empty layer otherwise. Reading a linked input that holds no data raises,
   * after the writes already sent for the sockets before it.
   */
  function PassThrough(node: BlNode, sockets: seq<Socket>, n: nat): (r: PassResult)
    requires n <= |node.inputs| && n <= |sockets|
    ensures forall w :: w in r.writes ==> w.socket in node.outputs
    ensures |r.writes| <= n
    ensures r.error.Some? <==> exists i :: 0 <= i < n && ReadRaises(node, sockets, i)
    ensures r.error.Some? ==> r.error.value == GenericException
  {
    if n == 0 then PassResult([], None)
    else
      var before := PassThrough(node, sockets, n - 1);
      var inSock, prop := node.inputs[n - 1], sockets[n - 1].props;
      if before.error.Some? then before
      else if prop.name !in node.outputs then before
      else if !inSock.isLinked then PassResult(before.writes + [OutputWrite(prop.name, [[]])], None)
      else if inSock.data.None? then
        assert ReadRaises(node, sockets, n - 1);
        PassResult(before.writes, Some(GenericException))
      else PassResult(before.writes + [OutputWrite(prop.name, inSock.data.value)], None)
  }

  /** The pass-through of a node none of whose inputs raises sends one write per declared socket that names a host output. */
  lemma {:induction false} PassThroughWithoutRaise(node: BlNode, sockets: seq<Socket>, n: nat)
    requires n <= |node.inputs| && n <= |sockets|
    requires forall i :: 0 <= i < n ==> !node.inputs[i].isLinked || node.inputs[i].data.Some?
    ensures PassThrough(node, sockets, n).error.None?
    ensures |PassThrough(node, sockets, n).writes| == |set i | 0 <= i < n && sockets[i].props.name in node.outputs|
  {
    if n > 0 {
      PassThroughWithoutRaise(node, sockets, n - 1);
      var named := set i | 0 <= i < n - 1 && sockets[i].props.name in node.outputs;
      if sockets[n - 1].props.name in node.outputs {
        assert (set i | 0 <= i < n && sockets[i].props.name in node.outputs) == named + {n - 1};
      } else {
        assert (set i | 0 <= i < n && sockets[i].props.name in node.outputs) == named;
      }
    }
  }

  // ---------------------------------------------------------------------------
  // Classes

  class NodeProps {
    var wrapNode: WrapNode?
    var properties: map<string, NodeProperties>
    /** Ordinary attributes, by name. */
    var attributes: map<string, string>

    constructor ()
      ensures wrapNode == null && properties == map[] && attributes == map[]
    {
      wrapNode := null;
      properties := map[];
      attributes := map[];
    }

    /**
     * Attribute assignment. A node property is stored under the key, named
     * after the key when it has no name. Assigning anything else to a key
     * that holds a node property builds an AttributeError and returns it
     * without raising, so nothing changes. Anything else is an ordinary
     * attribute.
     */
    method SetAttr(key: string, value: Option<NodeProperties>, plain: string) returns (returned: Option<PyError>)
      modifies this
      ensures wrapNode == old(wrapNode)
      ensures value.Some? ==>
        returned.None? && attributes == old(attributes) &&
        properties == old(properties)[key := if value.value.name == "" then ReplaceName(value.value, key) else value.value]
      ensures value.None? && key != "properties" && key in old(properties) ==>
        returned == Some(AttributeError) && properties == old(properties) && attributes == old(attributes)
      ensures value.None? && (key == "properties" || key !in old(properties)) ==>
        returned.None? && properties == old(properties) && attributes == old(attributes)[key := plain]
    {
      returned := None;
      if value.Some? {
        var v := value.value;
        if v.name == "" {
          v := ReplaceName(v, key);
        }
        properties := properties[key := v];
      } else if key != "properties" && key in properties {
        returned := Some(AttributeError);
      } else {
        attributes := attributes[key := plain];
      }
    }
  }

  class NodeInputs {
    var wrapNode: WrapNode?
    var sockets: seq<Socket>

    constructor ()
      ensures wrapNode == null && sockets == []
    {
      wrapNode := null;
      sockets := [];
    }

    /** Every mandatory declared socket is linked on the host node. */
    function HasRequiredData(node: BlNode): (r: bool)
      reads this
      ensures r <==>
        forall i :: 0 <= i < |node.inputs| && i < |sockets| && sockets[i].props.mandatory ==> node.inputs[i].isLinked
    {
      MandatoryLinked(node.inputs, sockets)
    }

    /**
     * Data of a declared input socket on the current layer, read from the
     * host socket named in the declaration (its default when it holds no
     * data), falling back to the last layer past the end.
     */
    function GetSocketData(key: string): (r: Result<Layer>)
      requires wrapNode != null
      reads this, wrapNode
      ensures Lookup(sockets, key).None? ==> r == Failure(KeyError)
      ensures Lookup(sockets, key).Some? && wrapNode.blNode.None? ==> r == Failure(AttributeError)
      ensures Lookup(sockets, key).Some? && wrapNode.blNode.Some? &&
              FindInput(wrapNode.blNode.value.inputs, Lookup(sockets, key).value.name).None? ==>
        r == Failure(KeyError)
      ensures Lookup(sockets, key).Some? && wrapNode.blNode.Some? &&
              FindInput(wrapNode.blNode.value.inputs, Lookup(sockets, key).value.name).Some? &&
              wrapNode.layerNumber.None? ==>
        r == Failure(TypeError)
      ensures Lookup(sockets, key).Some? && wrapNode.blNode.Some? && wrapNode.layerNumber.Some? &&
              FindInput(wrapNode.blNode.value.inputs, Lookup(sockets, key).value.name).Some? ==>
        var props := Lookup(sockets, key).value;
        var socket := FindInput(wrapNode.blNode.value.inputs, props.name).value;
        r == InputLayer(SvGet(socket, props.default), wrapNode.layerNumber.value)
      ensures r.Success? ==>
        var props := Lookup(sockets, key).value;
        wrapNode.blNode.Some? && wrapNode.layerNumber.Some? &&
        FindInput(wrapNode.blNode.value.inputs, props.name).Some? &&
        var data := SvGet(FindInput(wrapNode.blNode.value.inputs, props.name).value, props.default);
        InputLayer(data, wrapNode.layerNumber.value) == r
    {
      var props := Lookup(sockets, key);
      if props.None? then Failure(KeyError)
      else if wrapNode.blNode.None? then Failure(AttributeError)
      else
        var socket := FindInput(wrapNode.blNode.value.inputs, props.value.name);
        if socket.None? then Failure(KeyError)
        else if wrapNode.layerNumber.None? then Failure(TypeError)
        else InputLayer(SvGet(socket.value, props.value.default), wrapNode.layerNumber.value)
    }
  }

  class NodeOutputs {
    var wrapNode: WrapNode?
    var sockets: seq<Socket>
    /** Layers stored per output key; reading a missing key inserts an empty list. */
    var socketData: map<string, seq<Layer>>

    constructor ()
      ensures wrapNode == null && sockets == [] && socketData == map[]
    {
      wrapNode := null;
      sockets := [];
      socketData := map[];
    }

    method Clear()
      modifies this
      ensures socketData == map[]
      ensures wrapNode == old(wrapNode) && sockets == old(sockets)
    {
      socketData := map[];
    }

    /**
     * Stores data at the current layer of an output key, padding the key's
     * layer list with empty layers first. Raises RuntimeError outside
     * process mode, before touching anything.
     */
    method AddSocketData(key: string, data: Layer) returns (outcome: Outcome)
      requires wrapNode != null
      modifies this
      ensures wrapNode == old(wrapNode) && sockets == old(sockets)
      ensures !wrapNode.isInProcess ==> outcome == Fail(RuntimeError) && socketData == old(socketData)
      ensures wrapNode.isInProcess && wrapNode.layerNumber.None? ==>
        outcome == Fail(TypeError) && socketData == old(socketData)[key := Stored(old(socketData), key)]
      ensures wrapNode.isInProcess && wrapNode.layerNumber.Some? ==>
        outcome == Pass &&
        socketData == old(socketData)[key := Padded(Stored(old(socketData), key), wrapNode.layerNumber.value, data)]
    {
      if !wrapNode.isInProcess {
        return Fail(RuntimeError);
      }
      var layers := Stored(socketData, key);
      socketData := socketData[key := layers];
      if wrapNode.layerNumber.None? {
        return Fail(TypeError);
      }
      layers := PadAndStore(layers, wrapNode.layerNumber.value, data);
      socketData := socketData[key := layers];
      outcome := Pass;
    }

    /**
     * Data of an output key on the current layer. Raises AttributeError
     * outside process mode, and when nothing was stored at that layer.
     */
    method GetSocketData(key: string) returns (r: Result<Layer>)
      requires wrapNode != null
      modifies this
      ensures wrapNode == old(wrapNode) && sockets == old(sockets)
      ensures !wrapNode.isInProcess ==> r == Failure(AttributeError) && socketData == old(socketData)
      ensures wrapNode.isInProcess ==> socketData == old(socketData)[key := Stored(old(socketData), key)]
      ensures wrapNode.isInProcess && wrapNode.layerNumber.None? ==> r == Failure(TypeError)
      ensures wrapNode.isInProcess && wrapNode.layerNumber.Some? ==>
        var layers, k := Stored(old(socketData), key), wrapNode.layerNumber.value;
        (k < |layers| ==> r == Success(layers[k])) && (k >= |layers| ==> r == Failure(AttributeError))
    {
      if !wrapNode.isInProcess {
        return Failure(AttributeError);
      }
      var layers := Stored(socketData, key);
      socketData := socketData[key := layers];
      if wrapNode.layerNumber.None? {
        return Failure(TypeError);
      }
      var k := wrapNode.layerNumber.value;
      if k < |layers| {
        r := Success(layers[k]);
      } else {
        r := Failure(AttributeError);
      }
    }

    /**
     * Sends the buffer to the host: the host output sockets and the declared
     * output keys are paired by position, up to the shorter list.
     */
    method SetDataToBlSockets(hostOutputs: seq<string>) returns (writes: seq<OutputWrite>)
      modifies this
      ensures wrapNode == old(wrapNode) && sockets == old(sockets)
      ensures |writes| == if |hostOutputs| < |sockets| then |hostOutputs| else |sockets|
      ensures forall i :: 0 <= i < |writes| ==>
        writes[i] == OutputWrite(hostOutputs[i], Stored(old(socketData), sockets[i].key))
      ensures forall key :: Stored(socketData, key) == Stored(old(socketData), key)
      ensures forall key :: key in old(socketData) ==> key in socketData
    {
      writes := [];
      var i := 0;
      while i < |hostOutputs| && i < |sockets|
        invariant 0 <= i <= |hostOutputs| && i <= |sockets| && |writes| == i
        invariant forall j :: 0 <= j < i ==> writes[j] == OutputWrite(hostOutputs[j], Stored(old(socketData), sockets[j].key))
        invariant forall key :: Stored(socketData, key) == Stored(old(socketData), key)
        invariant forall key :: key in old(socketData) ==> key in socketData
        invariant wrapNode == old(wrapNode) && sockets == old(sockets)
      {
        var layers := Stored(socketData, sockets[i].key);
        socketData := socketData[sockets[i].key := layers];
        writes := writes + [OutputWrite(hostOutputs[i], layers)];
        i := i + 1;
      }
    }
  }

  class WrapNode {
    const props: NodeProps
    const inputs: NodeInputs
    const outputs: NodeOutputs
    var blNode: Option<BlNode>
    var layerNumber: Option<nat>
    var isInProcess: bool

    ghost predicate Valid()
      reads this, props, inputs, outputs
    {
      props.wrapNode == this && inputs.wrapNode == this && outputs.wrapNode == this
    }

    constructor ()
      ensures Valid() && fresh(props) && fresh(inputs) && fresh(outputs)
      ensures blNode.None? && layerNumber.None? && !isInProcess
      ensures props.properties == map[] && inputs.sockets == [] && outputs.sockets == [] && outputs.socketData == map[]
    {
      props := new NodeProps();
      inputs := new NodeInputs();
      outputs := new NodeOutputs();
      blNode := None;
      layerNumber := None;
      isInProcess := false;
      new;
      props.wrapNode := this;
      inputs.wrapNode := this;
      outputs.wrapNode := this;
    }

    /** Entering the read-socket-data context: remember the host node, empty the buffer, enter process mode. */
    method EnterReadSocketData(node: BlNode)
      requires Valid()
      modifies this, outputs
      ensures Valid() && blNode == Some(node) && isInProcess && layerNumber == old(layerNumber)
      ensures outputs.socketData == map[] && outputs.sockets == old(outputs.sockets)
    {
      blNode := Some(node);
      outputs.Clear();
      isInProcess := true;
    }

    /** Applies one layer's assignments; keys that are not declared outputs are ordinary attributes. */
    method ApplyLayer(k: nat, assigns: seq<Assignment>)
      requires Valid() && isInProcess && layerNumber == Some(k)
      modifies outputs
      ensures outputs.socketData == ApplyAssignments(old(outputs.socketData), outputs.sockets, k, assigns)
      ensures outputs.sockets == old(outputs.sockets) && outputs.wrapNode == old(outputs.wrapNode)
    {
      var j := 0;
      while j < |assigns|
        invariant 0 <= j <= |assigns|
        invariant outputs.socketData == ApplyAssignments(old(outputs.socketData), outputs.sockets, k, assigns[..j])
        invariant outputs.sockets == old(outputs.sockets) && outputs.wrapNode == old(outputs.wrapNode)
      {
        assert assigns[..j + 1][..j] == assigns[..j];
        if Lookup(outputs.sockets, assigns[j].key).Some? {
          var o := outputs.AddSocketData(assigns[j].key, assigns[j].data);
        }
        j := j + 1;
      }
      assert assigns[..j] == assigns;
    }

    /**
     * The pass-through: for each declared input paired by position with a
     * host input, copy the host input's data (one empty layer when it is not
     * linked) to the host output named like the declaration, skipping names
     * the host has no output for.
     */
    method PassData(node: BlNode) returns (outcome: Outcome, writes: seq<OutputWrite>)
      requires Valid()
      ensures var n := if |node.inputs| < |inputs.sockets| then |node.inputs| else |inputs.sockets|;
        var p := PassThrough(node, inputs.sockets, n);
        writes == p.writes && outcome == (if p.error.Some? then Fail(p.error.value) else Pass)
    {
      writes := [];
      var i := 0;
      while i < |node.inputs| && i < |inputs.sockets|
        invariant 0 <= i <= |node.inputs| && i <= |inputs.sockets|
        invariant PassThrough(node, inputs.sockets, i) == PassResult(writes, None)
      {
        var inSock, prop := node.inputs[i], inputs.sockets[i].props;
        if prop.name in node.outputs {
          if inSock.isLinked {
            if inSock.data.None? {
              PassThroughFailureStops(node, inputs.sockets, i + 1,
                if |node.inputs| < |inputs.sockets| then |node.inputs| else |inputs.sockets|);
              return Fail(GenericException), writes;
            }
            writes := writes + [OutputWrite(prop.name, inSock.data.value)];
          } else {
            writes := writes + [OutputWrite(prop.name, [[]])];
          }
        }
        i := i + 1;
      }
      outcome := Pass;
    }

    /**
     * The decorated process method. With every mandatory input linked it
     * runs the user's process once per layer inside the read-socket-data
     * context and sends the buffer to the host; otherwise it passes the
     * inputs through. Process mode is left on every exit, errors included.
     */
    method Process(node: BlNode, userProcess: nat -> Result<seq<Assignment>>)
      returns (outcome: Outcome, writes: seq<OutputWrite>)
      requires Valid()
      modifies this, outputs
      ensures Valid()
      ensures old(inputs.HasRequiredData(node)) ==> !isInProcess
      ensures !old(inputs.HasRequiredData(node)) ==> isInProcess == old(isInProcess)
      ensures !old(inputs.HasRequiredData(node)) ==>
        var n := if |node.inputs| < |inputs.sockets| then |node.inputs| else |inputs.sockets|;
        var p := PassThrough(node, inputs.sockets, n);
        writes == p.writes && outcome == (if p.error.Some? then Fail(p.error.value) else Pass)
      ensures old(inputs.HasRequiredData(node)) && node.inputs == [] ==> outcome == Fail(ValueError) && writes == []
      ensures old(inputs.HasRequiredData(node)) && node.inputs != [] ==>
        var m := MaxLayers(node.inputs).value;
        match ApplyLayers(outputs.sockets, userProcess, m)
        case Failure(e) => outcome == Fail(e) && writes == []
        case Success(buffer) =>
          outcome == Pass && blNode == Some(node) &&
          (forall key :: Stored(outputs.socketData, key) == Stored(buffer, key)) &&
          |writes| == (if |node.outputs| < |outputs.sockets| then |node.outputs| else |outputs.sockets|) &&
          forall i :: 0 <= i < |writes| ==> writes[i] == OutputWrite(node.outputs[i], Stored(buffer, outputs.sockets[i].key))
    {
      writes := [];
      if !inputs.HasRequiredData(node) {
        outcome, writes := PassData(node);
        return;
      }
      EnterReadSocketData(node);
      var count := MaxLayers(node.inputs);
      if count.Failure? {
        isInProcess := false;
        return Fail(count.error), writes;
      }
      var failed := RunLayers(userProcess, count.value);
      isInProcess := false;
      if failed.Some? {
        return Fail(failed.value), writes;
      }
      writes := outputs.SetDataToBlSockets(node.outputs);
      outcome := Pass;
    }

    /**
     * The layer loop: the user's process on layers 0 .. m - 1, each with the
     * layer number set, stopping at the first error it raises.
     */
    method RunLayers(userProcess: nat -> Result<seq<Assignment>>, m: nat) returns (failed: Option<PyError>)
      requires Valid() && isInProcess && outputs.socketData == map[]
      modifies this, outputs
      ensures Valid() && isInProcess && blNode == old(blNode)
      ensures outputs.sockets == old(outputs.sockets)
      ensures ApplyLayers(outputs.sockets, userProcess, m) ==
        if failed.Some? then Failure(failed.value) else Success(outputs.socketData)
    {
      var k := 0;
      while k < m
        invariant 0 <= k <= m
        invariant Valid() && isInProcess && blNode == old(blNode)
        invariant outputs.sockets == old(outputs.sockets)
        invariant ApplyLayers(outputs.sockets, userProcess, k) == Success(outputs.socketData)
      {
        layerNumber := Some(k);
        var assigns := userProcess(k);
        if assigns.Failure? {
          FailureStops(outputs.sockets, userProcess, k + 1, m);
          return Some(assigns.error);
        }
        ApplyLayer(k, assigns.value);
        k := k + 1;
      }
      failed := None;
    }
  }

  /** Once reading an input has raised, later sockets do not change the outcome of the pass-through. */
  lemma {:induction false} PassThroughFailureStops(node: BlNode, sockets: seq<Socket>, k: nat, n: nat)
    requires k <= n <= |node.inputs| && n <= |sockets|
    requires PassThrough(node, sockets, k).error.Some?
    ensures PassThrough(node, sockets, n) == PassThrough(node, sockets, k)
    decreases n - k
  {
    if k < n {
      PassThroughFailureStops(node, sockets, k + 1, n);
    }
  }

  /** Once the user's process has raised on some layer, later layers do not change the outcome. */
  lemma {:induction false} FailureStops(sockets: seq<Socket>, userProcess: nat -> Result<seq<Assignment>>, k: nat, m: nat)
    requires k <= m
    requires ApplyLayers(sockets, userProcess, k).Failure?
    ensures ApplyLayers(sockets, userProcess, m) == ApplyLayers(sockets, userProcess, k)
    decreases m - k
  {
    if k < m {
      FailureStops(sockets, userProcess, k + 1, m);
    }
  }
}
