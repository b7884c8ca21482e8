/** The part of the NLB cloud that a reconcile run changes: load balancers,
    server groups with their servers, and listeners.  Every call that can change
    something is recorded with the state it left behind, so that claims can be
    made about each intermediate state of a run.  The state is that of the requests
    accepted so far, whether or not the jobs behind them have finished. */
module NlbCloud {
  import opened Common

  /** Cloud ids.  `NO_ID` plays the part of the empty string. */
  type Id = nat
  const NO_ID: Id := 0

  datatype ServerKind = Ecs | Eni | Ip | Unsupported(name: string)

  datatype Server = Server(kind: ServerKind, id: string, ip: string,
                           port: int, weight: int, desc: string, userManaged: bool)

  /** What `isServerEqual` looks at. */
  datatype Ident = EcsServer(id: string) | EniServer(id: string, ip: string) | IpServer(ip: string)
                 | OtherServer(kind: string, id: string, ip: string)

  datatype Attr = Attr(port: int, weight: int, desc: string)

  type Servers = map<Ident, Attr>

  predicate Supported(s: Server) {
    !s.kind.Unsupported?
  }

  function IdentOf(s: Server): Ident {
    match s.kind
    case Ecs => EcsServer(s.id)
    case Eni => EniServer(s.id, s.ip)
    case Ip => IpServer(s.ip)
    case Unsupported(name) => OtherServer(name, s.id, s.ip)
  }

  function AttrOf(s: Server): Attr {
    Attr(s.port, s.weight, s.desc)
  }

  function Idents(list: seq<Server>): (r: set<Ident>)
    ensures forall s :: s in list ==> IdentOf(s) in r
  {
    set s | s in list :: IdentOf(s)
  }

  datatype ServersOp = Add | Remove | Update

  /** The effect of one accepted server call. */
  function ApplyServers(op: ServersOp, m: Servers, list: seq<Server>): Servers
    decreases |list|
  {
    if list == [] then m
    else
      var before := ApplyServers(op, m, list[..|list| - 1]);
      var s := list[|list| - 1];
      match op
      case Add => before[IdentOf(s) := AttrOf(s)]
      case Remove => before - {IdentOf(s)}
      case Update => if IdentOf(s) in before then before[IdentOf(s) := AttrOf(s)] else before
  }

  datatype Group = Group(name: string, tagged: bool, servers: Servers)

  datatype Listener = Listener(lb: Id, port: int, proto: string, group: Id, desc: string, running: bool)

  datatype World = World(lbs: set<Id>, groups: map<Id, Group>, listeners: map<Id, Listener>)

  datatype Call =
    | CreateLB(id: Id)
    | DeleteLB(id: Id)
    | CreateGroup(id: Id, name: string)
    | TagGroup(id: Id)
    | UpdateGroup(id: Id)
    | DeleteGroup(id: Id)
    | ChangeServers(op: ServersOp, id: Id, list: seq<Server>)
    | CreateListener(id: Id)
    | UpdateListener(id: Id)
    | StartListener(id: Id)
    | DeleteListener(id: Id)

  predicate IsListenerCall(call: Call) {
    call.CreateListener? || call.UpdateListener? || call.StartListener? || call.DeleteListener?
  }

  datatype Event = Event(call: Call, before: World, after: World)

  /** Every listener targets a server group that exists. */
  predicate Integrity(w: World) {
    forall l :: l in w.listeners ==> w.listeners[l].group in w.groups
  }

  function SetServers(w: World, id: Id, servers: Servers): World
    requires id in w.groups
  {
    w.(groups := w.groups[id := w.groups[id].(servers := servers)])
  }

  /** Removing a load balancer takes its listeners with it. */
  function WithoutLB(w: World, id: Id): World {
    w.(lbs := w.lbs - {id}, listeners := map l | l in w.listeners && w.listeners[l].lb != id :: w.listeners[l])
  }

  class Cloud {
    var w: World
    var nextId: Id
    ghost var log: seq<Event>
    ghost var faulty: bool

    ghost predicate Valid()
      reads this
    {
      && NO_ID < nextId
      && (forall i :: i in w.lbs ==> NO_ID < i < nextId)
      && (forall i :: i in w.groups ==> NO_ID < i < nextId)
      && (forall i :: i in w.listeners ==> NO_ID < i < nextId)
    }

    /** `faulty` tells whether any call so far has returned an error. */
    twostate predicate Recorded(call: Call, ok: bool)
      reads this
    {
      log == old(log) + [Event(call, old(w), w)] && faulty == (old(faulty) || !ok)
    }

    /** Only events were appended. */
    twostate predicate Extends()
      reads this
    {
      |old(log)| <= |log| && log[..|old(log)|] == old(log) && (old(faulty) ==> faulty)
    }

    constructor (world: World, next: Id)
      requires NO_ID < next
      requires forall i :: i in world.lbs || i in world.groups || i in world.listeners ==> NO_ID < i < next
      ensures Valid() && w == world && log == [] && !faulty
    {
      w, nextId, log, faulty := world, next, [], false;
    }

    /** A call that changes nothing tracked here: a listing, or an update of other
        attributes. */
    method Other() returns (ok: bool)
      requires Valid()
      modifies this`faulty
      ensures Valid() && faulty == (old(faulty) || !ok)
    {
      ok := *;
      faulty := faulty || !ok;
    }

    /** Somebody else changes the cloud. */
    method Elsewhere(world: World, next: Id)
      requires Valid() && nextId <= next
      requires forall i :: i in world.lbs || i in world.groups || i in world.listeners ==> NO_ID < i < next
      modifies this`w, this`nextId
      ensures Valid() && w == world
    {
      w, nextId := world, next;
    }

    method ChangeServers(op: ServersOp, id: Id, list: seq<Server>) returns (ok: bool)
      requires Valid() && id in w.groups
      modifies this
      ensures Valid() && Recorded(Call.ChangeServers(op, id, list), ok)
      ensures var done := SetServers(old(w), id, ApplyServers(op, old(w).groups[id].servers, list));
              if ok then w == done else w == old(w) || w == done
    {
      var o: Outcome := *;
      ghost var before := w;
      if o.TakesEffect() {
        w := SetServers(w, id, ApplyServers(op, w.groups[id].servers, list));
      }
      log := log + [Event(Call.ChangeServers(op, id, list), before, w)];
      ok := o.Ok?;
      faulty := faulty || !ok;
    }

    /** A new group is empty and not tagged yet. */
    method CreateGroup(name: string) returns (ok: bool, id: Id)
      requires Valid()
      modifies this
      ensures Valid() && id !in old(w).groups && id != NO_ID
      ensures Recorded(Call.CreateGroup(id, name), ok)
      ensures var done := old(w).(groups := old(w).groups[id := Group(name, false, map[])]);
              if ok then w == done else w == old(w) || w == done
    {
      var o: Outcome := *;
      ghost var before := w;
      id := nextId;
      nextId := nextId + 1;
      if o.TakesEffect() {
        w := w.(groups := w.groups[id := Group(name, false, map[])]);
      }
      log := log + [Event(Call.CreateGroup(id, name), before, w)];
      ok := o.Ok?;
      faulty := faulty || !ok;
    }

    method TagGroup(id: Id) returns (ok: bool)
      requires Valid() && id in w.groups
      modifies this
      ensures Valid() && Recorded(Call.TagGroup(id), ok)
      ensures var done := old(w).(groups := old(w).groups[id := old(w).groups[id].(tagged := true)]);
              if ok then w == done else w == old(w) || w == done
    {
      var o: Outcome := *;
      ghost var before := w;
      if o.TakesEffect() {
        w := w.(groups := w.groups[id := w.groups[id].(tagged := true)]);
      }
      log := log + [Event(Call.TagGroup(id), before, w)];
      ok := o.Ok?;
      faulty := faulty || !ok;
    }

    method UpdateGroup(id: Id, name: string) returns (ok: bool)
      requires Valid() && id in w.groups
      modifies this
      ensures Valid() && Recorded(Call.UpdateGroup(id), ok)
      ensures var done := old(w).(groups := old(w).groups[id := old(w).groups[id].(name := name)]);
              if ok then w == done else w == old(w) || w == done
    {
      var o: Outcome := *;
      ghost var before := w;
      if o.TakesEffect() {
        w := w.(groups := w.groups[id := w.groups[id].(name := name)]);
      }
      log := log + [Event(Call.UpdateGroup(id), before, w)];
      ok := o.Ok?;
      faulty := faulty || !ok;
    }

    /** The cloud is not trusted to refuse the deletion of a group in use. */
    method DeleteGroup(id: Id) returns (ok: bool)
      requires Valid()
      modifies this
      ensures Valid() && Recorded(Call.DeleteGroup(id), ok)
      ensures var done := old(w).(groups := old(w).groups - {id});
              if ok then w == done else w == old(w) || w == done
    {
      var o: Outcome := *;
      ghost var before := w;
      if o.TakesEffect() {
        w := w.(groups := w.groups - {id});
      }
      log := log + [Event(Call.DeleteGroup(id), before, w)];
      ok := o.Ok?;
      faulty := faulty || !ok;
    }

    method CreateListener(lis: Listener) returns (ok: bool, ghost id: Id)
      requires Valid()
      modifies this
      ensures Valid() && id !in old(w).listeners && id != NO_ID
      ensures Recorded(Call.CreateListener(id), ok)
      ensures var done := old(w).(listeners := old(w).listeners[id := lis]);
              if ok then w == done else w == old(w) || w == done
    {
      var o: Outcome := *;
      ghost var before := w;
      id := nextId;
      if o.TakesEffect() {
        w := w.(listeners := w.listeners[nextId := lis]);
      }
      nextId := nextId + 1;
      log := log + [Event(Call.CreateListener(id), before, w)];
      ok := o.Ok?;
      faulty := faulty || !ok;
    }

    method UpdateListener(id: Id, group: Id, desc: string) returns (ok: bool)
      requires Valid() && id in w.listeners
      modifies this
      ensures Valid() && Recorded(Call.UpdateListener(id), ok)
      ensures var done := old(w).(listeners := old(w).listeners[id := old(w).listeners[id].(group := group, desc := desc)]);
              if ok then w == done else w == old(w) || w == done
    {
      var o: Outcome := *;
      ghost var before := w;
      if o.TakesEffect() {
        w := w.(listeners := w.listeners[id := w.listeners[id].(group := group, desc := desc)]);
      }
      log := log + [Event(Call.UpdateListener(id), before, w)];
      ok := o.Ok?;
      faulty := faulty || !ok;
    }

    method StartListener(id: Id) returns (ok: bool)
      requires Valid() && id in w.listeners
      modifies this
      ensures Valid() && Recorded(Call.StartListener(id), ok)
      ensures var done := old(w).(listeners := old(w).listeners[id := old(w).listeners[id].(running := true)]);
              if ok then w == done else w == old(w) || w == done
    {
      var o: Outcome := *;
      ghost var before := w;
      if o.TakesEffect() {
        w := w.(listeners := w.listeners[id := w.listeners[id].(running := true)]);
      }
      log := log + [Event(Call.StartListener(id), before, w)];
      ok := o.Ok?;
      faulty := faulty || !ok;
    }

    method DeleteListener(id: Id) returns (ok: bool)
      requires Valid()
      modifies this
      ensures Valid() && Recorded(Call.DeleteListener(id), ok)
      ensures var done := old(w).(listeners := old(w).listeners - {id});
              if ok then w == done else w == old(w) || w == done
    {
      var o: Outcome := *;
      ghost var before := w;
      if o.TakesEffect() {
        w := w.(listeners := w.listeners - {id});
      }
      log := log + [Event(Call.DeleteListener(id), before, w)];
      ok := o.Ok?;
      faulty := faulty || !ok;
    }

    method CreateLB() returns (ok: bool, id: Id)
      requires Valid()
      modifies this
      ensures Valid() && id !in old(w).lbs && id != NO_ID
      ensures Recorded(Call.CreateLB(id), ok)
      ensures var done := old(w).(lbs := old(w).lbs + {id});
              if ok then w == done else w == old(w) || w == done
      ensures id == old(nextId)
    {
      var o: Outcome := *;
      ghost var before := w;
      id := nextId;
      nextId := nextId + 1;
      if o.TakesEffect() {
        w := w.(lbs := w.lbs + {id});
      }
      log := log + [Event(Call.CreateLB(id), before, w)];
      ok := o.Ok?;
      faulty := faulty || !ok;
    }

    method DeleteLB(id: Id) returns (ok: bool)
      requires Valid()
      modifies this
      ensures Valid() && Recorded(Call.DeleteLB(id), ok)
      ensures if ok then w == WithoutLB(old(w), id) else w == old(w) || w == WithoutLB(old(w), id)
    {
      var o: Outcome := *;
      ghost var before := w;
      if o.TakesEffect() {
        w := WithoutLB(w, id);
      }
      log := log + [Event(Call.DeleteLB(id), before, w)];
      ok := o.Ok?;
      faulty := faulty || !ok;
    }
  }
}
