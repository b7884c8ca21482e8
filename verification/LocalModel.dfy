/** What the model builder hands to the applier: the inputs that the results on histories
    ask for, with the exact condition on the ports. */
module LocalModel {
  import opened Names
  import opened NlbCloud
  import opened GroupApplier
  import opened ListenerApplier
  import opened Builder
  import History
  import LetterCase

  function ModelOf(l: BuiltListener): ListenerModel {
    ListenerModel(NO_ID, l.port.port, l.protocol, l.groupName, NO_ID, l.desc, true)
  }

  function ModelsOfListeners(listeners: seq<BuiltListener>): (r: seq<ListenerModel>)
    ensures |r| == |listeners| && forall i :: 0 <= i < |r| ==> r[i] == ModelOf(listeners[i])
  {
    seq(|listeners|, i requires 0 <= i < |listeners| => ModelOf(listeners[i]))
  }

  /** The groups without ids, each with its servers. */
  ghost predicate Filled(models: seq<GroupModel>, groups: seq<BuiltGroup>) {
    ModelsOf(models, groups) && FromEmpty(models) && SupportedGroups(models)
  }

  /** No two ports have the same number and the same chosen protocol. */
  predicate SlotsDiffer(listeners: seq<BuiltListener>) {
    forall i, j :: 0 <= i < j < |listeners| ==>
      !(listeners[i].port.port == listeners[j].port.port && listeners[i].protocol == listeners[j].protocol)
  }

  lemma BuiltNames(me: Owner, eni: bool, anno: Annotations, ports: seq<ServicePort>,
                   listeners: seq<BuiltListener>, groups: seq<BuiltGroup>, models: seq<GroupModel>)
    requires Built(me, eni, anno, ports, listeners, groups) && Filled(models, groups) && DotFreeModel(me, eni, listeners)
    requires forall i :: 0 <= i < |ports| ==> IsInt32(ports[i].port)
    ensures forall g :: g in models ==> ManagedGroup(me, g.name)
  {
    forall g | g in models ensures ManagedGroup(me, g.name) {
      var i :| 0 <= i < |models| && models[i] == g;
      var l := listeners[i];
      assert PairOf(me, eni, anno, ports[i], l, groups[i]) && l in listeners;
      GroupOwnedExactly(groups[i].key, me);
    }
  }

  lemma BuiltPairs(me: Owner, eni: bool, anno: Annotations, ports: seq<ServicePort>,
                   listeners: seq<BuiltListener>, groups: seq<BuiltGroup>, models: seq<GroupModel>)
    requires Built(me, eni, anno, ports, listeners, groups) && Filled(models, groups)
    ensures Pairable(ModelsOfListeners(listeners), models)
  {
    forall i | 0 <= i < |listeners| ensures First(models, listeners[i].groupName).Some? {
      assert PairOf(me, eni, anno, ports[i], listeners[i], groups[i]);
      assert models[i] in models;
      FirstNone(models, listeners[i].groupName);
    }
  }

  /** A built model is a proper input exactly when no two ports have the same number and
      the same chosen protocol. */
  lemma BuiltIsProper(me: Owner, eni: bool, anno: Annotations, ports: seq<ServicePort>,
                      listeners: seq<BuiltListener>, groups: seq<BuiltGroup>, models: seq<GroupModel>, i: History.Input)
    requires Built(me, eni, anno, ports, listeners, groups) && Filled(models, groups) && DotFreeModel(me, eni, listeners)
    requires forall k :: 0 <= k < |ports| ==> IsInt32(ports[k].port)
    requires !i.needDelete && i.groups == models && i.listeners == ModelsOfListeners(listeners)
    ensures i.Proper(me) <==> SlotsDiffer(listeners)
  {
    BuiltNames(me, eni, anno, ports, listeners, groups, models);
    BuiltPairs(me, eni, anno, ports, listeners, groups, models);
    var ls := i.listeners;
    if DistinctPorts(ls) {
      forall j, k | 0 <= j < k < |listeners|
        ensures !(listeners[j].port.port == listeners[k].port.port && listeners[j].protocol == listeners[k].protocol)
      {
        assert !SamePort(ls[j], ls[k]);
      }
    }
  }

  /** In terms of the service: two of its ports collide exactly when they have the same
      number and the annotation mentions it, given that their own protocols differ. */
  lemma CollideExactly(me: Owner, eni: bool, anno: Annotations, ports: seq<ServicePort>,
                       listeners: seq<BuiltListener>, groups: seq<BuiltGroup>, models: seq<GroupModel>, i: History.Input)
    requires Built(me, eni, anno, ports, listeners, groups) && Filled(models, groups) && DotFreeModel(me, eni, listeners)
    requires forall k :: 0 <= k < |ports| ==> IsInt32(ports[k].port)
    requires !i.needDelete && i.groups == models && i.listeners == ModelsOfListeners(listeners)
    requires forall j, k :: 0 <= j < k < |ports| ==> PortsDiffer(ports[j], ports[k])
    ensures !i.Proper(me) <==>
            exists j, k :: 0 <= j < k < |ports| && SharedNumber(anno.protocolPort, ports[j], ports[k])
  {
    BuiltIsProper(me, eni, anno, ports, listeners, groups, models, i);
    forall j, k | 0 <= j < k < |ports|
      ensures SharedNumber(anno.protocolPort, ports[j], ports[k])
         <==> listeners[j].port.port == listeners[k].port.port && listeners[j].protocol == listeners[k].protocol
    {
      assert PairOf(me, eni, anno, ports[j], listeners[j], groups[j]) && PairOf(me, eni, anno, ports[k], listeners[k], groups[k]);
      assert PortsDiffer(ports[j], ports[k]);
      if ports[j].port == ports[k].port { SameProtocolExactly(anno.protocolPort, ports[j], ports[k]); }
    }
  }

  /** The API server refuses two ports of one number and protocol. */
  predicate PortsDiffer(a: ServicePort, b: ServicePort) {
    a.port == b.port ==> LetterCase.Upper(a.protocol) != LetterCase.Upper(b.protocol)
  }

  predicate SharedNumber(annotation: string, a: ServicePort, b: ServicePort) {
    a.port == b.port && Mentions(annotation, a.port)
  }
}
