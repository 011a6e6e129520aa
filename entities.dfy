/** The entity manager of a game state: named entities, named groups of entities, and trash lists of
  * names to remove before the next update. Updating and drawing an entity are recorded as effects. */
module Entities {
  import opened Java

  /** An entity, identified by its reference. */
  datatype Entity = Entity(id: int)

  /** What the manager asks of an entity. */
  datatype Effect = Updated(e: Entity, tick: real) | Drawn(e: Entity)

  /** A group: its entities in insertion order, and whether it updates and draws them. */
  datatype Group = Group(name: string, entities: seq<Entity>, active: bool, visible: bool)

  /** A new group: empty, active and visible. */
  function NewGroup(name: string): (g: Group)
    ensures g.name == name && g.entities == [] && g.active && g.visible
  {
    Group(name, [], true, true)
  }

  /** A map without the trashed names. */
  function Purge<V>(m: map<string, V>, trash: seq<string>): (r: map<string, V>)
    ensures r.Keys == m.Keys - set n | n in trash
    ensures forall n :: n in r ==> r[n] == m[n]
  {
    map n | n in m && n !in trash :: m[n]
  }

  /** Purging is idempotent and only the trash matters: a name trashed once is removed at every later
    * purge, even after it was added again. */
  lemma PurgeAgain<V>(m: map<string, V>, trash: seq<string>, name: string, v: V)
    requires name in trash
    ensures Purge(Purge(m, trash), trash) == Purge(m, trash)
    ensures name !in Purge(Purge(m, trash)[name := v], trash)
  {
  }

  /** A group's updates: each of its entities in order when it is active, none otherwise. */
  function GroupUpdates(g: Group, tick: real): (r: seq<Effect>)
    ensures |r| == if g.active then |g.entities| else 0
    ensures g.active ==> forall k :: 0 <= k < |r| ==> r[k] == Updated(g.entities[k], tick)
  {
    if g.active then seq(|g.entities|, k requires 0 <= k < |g.entities| => Updated(g.entities[k], tick)) else []
  }

  /** A group's draws: each of its entities in order when it is visible, none otherwise. */
  function GroupDraws(g: Group): (r: seq<Effect>)
    ensures |r| == if g.visible then |g.entities| else 0
    ensures g.visible ==> forall k :: 0 <= k < |r| ==> r[k] == Drawn(g.entities[k])
  {
    if g.visible then seq(|g.entities|, k requires 0 <= k < |g.entities| => Drawn(g.entities[k])) else []
  }

  /** The updates of the named entities, in the given order. */
  function EntityUpdates(order: seq<string>, entities: map<string, Entity>, tick: real): (r: seq<Effect>)
    requires forall n :: n in order ==> n in entities
    ensures |r| == |order|
    ensures forall k :: 0 <= k < |r| ==> r[k] == Updated(entities[order[k]], tick)
  {
    if order == [] then [] else [Updated(entities[order[0]], tick)] + EntityUpdates(order[1..], entities, tick)
  }

  function EntityDraws(order: seq<string>, entities: map<string, Entity>): (r: seq<Effect>)
    requires forall n :: n in order ==> n in entities
    ensures |r| == |order|
    ensures forall k :: 0 <= k < |r| ==> r[k] == Drawn(entities[order[k]])
  {
    if order == [] then [] else [Drawn(entities[order[0]])] + EntityDraws(order[1..], entities)
  }

  /** The updates of the named groups, group after group in the given order. */
  function AllGroupUpdates(order: seq<string>, groups: map<string, Group>, tick: real): seq<Effect>
    requires forall n :: n in order ==> n in groups
  {
    if order == [] then [] else GroupUpdates(groups[order[0]], tick) + AllGroupUpdates(order[1..], groups, tick)
  }

  function AllGroupDraws(order: seq<string>, groups: map<string, Group>): seq<Effect>
    requires forall n :: n in order ==> n in groups
  {
    if order == [] then [] else GroupDraws(groups[order[0]]) + AllGroupDraws(order[1..], groups)
  }

  /** Inactive groups update nothing. */
  lemma {:induction false} InactiveGroupsUpdateNothing(order: seq<string>, groups: map<string, Group>, tick: real)
    requires forall n :: n in order ==> n in groups
    requires forall n :: n in order ==> !groups[n].active
    ensures AllGroupUpdates(order, groups, tick) == []
  {
    if order != [] {
      InactiveGroupsUpdateNothing(order[1..], groups, tick);
    }
  }

  lemma AppendAssoc<T>(a: seq<T>, b: seq<T>, c: seq<T>)
    ensures a + b + c == a + (b + c)
  {
  }

  /** An iteration order of a map's keys: each key once. */
  predicate IterationOrder(order: seq<string>, keys: set<string>)
  {
    (set n | n in order) == keys && forall a, b :: 0 <= a < b < |order| ==> order[a] != order[b]
  }

  class EntityManager {
    var entities: map<string, Entity>
    var entityTrash: seq<string>
    var groups: map<string, Group>
    var groupTrash: seq<string>
    /** The updates and draws asked of entities so far. */
    var effects: seq<Effect>

    constructor ()
      ensures entities == map[] && entityTrash == [] && groups == map[] && groupTrash == [] && effects == []
    {
      entities, entityTrash, groups, groupTrash, effects := map[], [], map[], [], [];
    }

    /** Removes every trashed name. The trash lists are kept. */
    method EmptyTrash()
      modifies this`entities, this`groups
      ensures entities == Purge(old(entities), entityTrash)
      ensures groups == Purge(old(groups), groupTrash)
    {
      var es, i := entities, 0;
      while i < |entityTrash|
        invariant 0 <= i <= |entityTrash|
        invariant es == Purge(entities, entityTrash[..i])
      {
        assert entityTrash[..i + 1] == entityTrash[..i] + [entityTrash[i]];
        es := es - {entityTrash[i]};
        i := i + 1;
      }
      assert entityTrash[..i] == entityTrash;
      var gs, j := groups, 0;
      while j < |groupTrash|
        invariant 0 <= j <= |groupTrash|
        invariant gs == Purge(groups, groupTrash[..j])
      {
        assert groupTrash[..j + 1] == groupTrash[..j] + [groupTrash[j]];
        gs := gs - {groupTrash[j]};
        j := j + 1;
      }
      assert groupTrash[..j] == groupTrash;
      entities, groups := es, gs;
    }

    /** One frame: empties the trash, then updates every entity and every group. `entityOrder` and
      * `groupOrder` are the hash maps' iteration orders over what is left. */
    method Update(tick: real, entityOrder: seq<string>, groupOrder: seq<string>)
      requires IterationOrder(entityOrder, entities.Keys - set n | n in entityTrash)
      requires IterationOrder(groupOrder, groups.Keys - set n | n in groupTrash)
      modifies this`entities, this`groups, this`effects
      ensures entities == Purge(old(entities), entityTrash)
      ensures groups == Purge(old(groups), groupTrash)
      ensures effects == old(effects) + EntityUpdates(entityOrder, entities, tick) + AllGroupUpdates(groupOrder, groups, tick)
    {
      EmptyTrash();
      OrderCovers(entityOrder, entities);
      OrderCovers(groupOrder, groups);
      var es := UpdateEntities(entityOrder, entities, tick);
      var gs := UpdateGroups(groupOrder, groups, tick);
      effects := effects + es + gs;
    }

    /** Draws every entity, then every group. */
    method Draw(entityOrder: seq<string>, groupOrder: seq<string>)
      requires IterationOrder(entityOrder, entities.Keys) && IterationOrder(groupOrder, groups.Keys)
      modifies this`effects
      ensures effects == old(effects) + EntityDraws(entityOrder, entities) + AllGroupDraws(groupOrder, groups)
    {
      OrderCovers(entityOrder, entities);
      OrderCovers(groupOrder, groups);
      var es := DrawEntities(entityOrder, entities);
      var gs := DrawGroups(groupOrder, groups);
      effects := effects + es + gs;
    }

    /** The loop over the entity map's values in `update`. */
    static method UpdateEntities(order: seq<string>, entities: map<string, Entity>, tick: real) returns (log: seq<Effect>)
      requires forall n :: n in order ==> n in entities
      ensures log == EntityUpdates(order, entities, tick)
    {
      log := [];
      var i := 0;
      while i < |order|
        invariant 0 <= i <= |order|
        invariant log == EntityUpdates(order[..i], entities, tick)
      {
        assert order[..i + 1] == order[..i] + [order[i]];
        EntityUpdatesAppend(order[..i], order[i], entities, tick);
        log := log + [Updated(entities[order[i]], tick)];
        i := i + 1;
      }
      assert order[..i] == order;
    }

    /** The loop over the group map's values in `update`; each group updates its entities if active. */
    static method UpdateGroups(order: seq<string>, groups: map<string, Group>, tick: real) returns (log: seq<Effect>)
      requires forall n :: n in order ==> n in groups
      ensures log == AllGroupUpdates(order, groups, tick)
    {
      log := [];
      var j := 0;
      while j < |order|
        invariant 0 <= j <= |order|
        invariant log == AllGroupUpdates(order[..j], groups, tick)
      {
        assert order[..j + 1] == order[..j] + [order[j]];
        AllGroupUpdatesAppend(order[..j], order[j], groups, tick);
        var more := UpdateGroup(groups[order[j]], tick);
        log := log + more;
        j := j + 1;
      }
      assert order[..j] == order;
    }

    /** `Group.update`: an active group updates its entities in order. */
    static method UpdateGroup(g: Group, tick: real) returns (log: seq<Effect>)
      ensures log == GroupUpdates(g, tick)
    {
      log := [];
      if g.active {
        var k := 0;
        while k < |g.entities|
          invariant 0 <= k <= |g.entities|
          invariant log == GroupUpdates(g.(entities := g.entities[..k]), tick)
        {
          log := log + [Updated(g.entities[k], tick)];
          k := k + 1;
        }
        assert g.entities[..k] == g.entities;
      }
    }

    /** `Group.draw`: a visible group draws its entities in order. */
    static method DrawGroup(g: Group) returns (log: seq<Effect>)
      ensures log == GroupDraws(g)
    {
      log := [];
      if g.visible {
        var k := 0;
        while k < |g.entities|
          invariant 0 <= k <= |g.entities|
          invariant log == GroupDraws(g.(entities := g.entities[..k]))
        {
          log := log + [Drawn(g.entities[k])];
          k := k + 1;
        }
        assert g.entities[..k] == g.entities;
      }
    }

    static method DrawEntities(order: seq<string>, entities: map<string, Entity>) returns (log: seq<Effect>)
      requires forall n :: n in order ==> n in entities
      ensures log == EntityDraws(order, entities)
    {
      log := [];
      var i := 0;
      while i < |order|
        invariant 0 <= i <= |order|
        invariant log == EntityDraws(order[..i], entities)
      {
        assert order[..i + 1] == order[..i] + [order[i]];
        EntityDrawsAppend(order[..i], order[i], entities);
        log := log + [Drawn(entities[order[i]])];
        i := i + 1;
      }
      assert order[..i] == order;
    }

    /** Each group draws its entities if visible. */
    static method DrawGroups(order: seq<string>, groups: map<string, Group>) returns (log: seq<Effect>)
      requires forall n :: n in order ==> n in groups
      ensures log == AllGroupDraws(order, groups)
    {
      log := [];
      var j := 0;
      while j < |order|
        invariant 0 <= j <= |order|
        invariant log == AllGroupDraws(order[..j], groups)
      {
        assert order[..j + 1] == order[..j] + [order[j]];
        AllGroupDrawsAppend(order[..j], order[j], groups);
        var more := DrawGroup(groups[order[j]]);
        log := log + more;
        j := j + 1;
      }
      assert order[..j] == order;
    }

    /** Adds an entity, replacing any entity of the same name. */
    method AddEntity(name: string, e: Entity)
      modifies this`entities
      ensures entities == old(entities)[name := e]
    {
      entities := entities[name := e];
    }

    /** Marks names for removal at the next update; the entities stay until then. */
    method TrashEntities(names: seq<string>)
      modifies this`entityTrash
      ensures entityTrash == old(entityTrash) + names
    {
      var i := 0;
      while i < |names|
        invariant 0 <= i <= |names|
        invariant entityTrash == old(entityTrash) + names[..i]
      {
        assert names[..i + 1] == names[..i] + [names[i]];
        entityTrash := entityTrash + [names[i]];
        i := i + 1;
      }
      assert names[..i] == names;
    }

    method TrashGroups(names: seq<string>)
      modifies this`groupTrash
      ensures groupTrash == old(groupTrash) + names
    {
      var i := 0;
      while i < |names|
        invariant 0 <= i <= |names|
        invariant groupTrash == old(groupTrash) + names[..i]
      {
        assert names[..i + 1] == names[..i] + [names[i]];
        groupTrash := groupTrash + [names[i]];
        i := i + 1;
      }
      assert names[..i] == names;
    }

    /** The entity of that name; `None` plays `null`. */
    method GetEntity(name: string) returns (r: Option<Entity>)
      ensures r.Some? <==> name in entities
      ensures r.Some? ==> r.value == entities[name]
    {
      r := if name in entities then Some(entities[name]) else None;
    }

    /** Adds a new empty group for each name, replacing any group of the same name. */
    method AddGroups(names: seq<string>)
      modifies this`groups
      ensures groups.Keys == old(groups).Keys + set n | n in names
      ensures forall n :: n in names ==> groups[n] == NewGroup(n)
      ensures forall n :: n in old(groups) && n !in names ==> groups[n] == old(groups)[n]
    {
      var gs, i := groups, 0;
      while i < |names|
        invariant 0 <= i <= |names|
        invariant gs.Keys == groups.Keys + set n | n in names[..i]
        invariant forall n :: n in names[..i] ==> gs[n] == NewGroup(n)
        invariant forall n :: n in groups && n !in names[..i] ==> gs[n] == groups[n]
      {
        assert names[..i + 1] == names[..i] + [names[i]];
        gs := gs[names[i] := NewGroup(names[i])];
        i := i + 1;
      }
      assert names[..i] == names;
      groups := gs;
    }

    /** The entities of a group; a missing group dereferences `null`. */
    method GetEntitiesFromGroup(name: string) returns (r: Result<seq<Entity>>)
      ensures r.Ok? <==> name in groups
      ensures r.Ok? ==> r.value == groups[name].entities
      ensures r.Throws? ==> r.ex == NullPointer
    {
      r := if name in groups then Ok(groups[name].entities) else Throws(NullPointer);
    }

    /** Appends entities to a group in order. The group is looked up per entity, so a missing group
      * throws only when there is something to add. */
    method AddToGroup(group: string, es: seq<Entity>) returns (o: Outcome)
      modifies this`groups
      ensures o.Thrown? <==> group !in groups && es != []
      ensures o.Thrown? ==> o.ex == NullPointer && groups == old(groups)
      ensures o.Normal? && es != [] ==> group in old(groups) && groups == old(groups)[group := old(groups)[group].(entities := old(groups)[group].entities + es)]
      ensures es == [] ==> groups == old(groups)
    {
      var i := 0;
      while i < |es|
        invariant 0 <= i <= |es|
        invariant i > 0 ==> group in old(groups)
        invariant groups == if i == 0 then old(groups)
          else old(groups)[group := old(groups)[group].(entities := old(groups)[group].entities + es[..i])]
      {
        if group !in groups {
          return Thrown(NullPointer);
        }
        assert es[..i + 1] == es[..i] + [es[i]];
        var g := groups[group];
        assert g.entities + [es[i]] == old(groups)[group].entities + es[..i + 1];
        groups := groups[group := g.(entities := g.entities + [es[i]])];
        i := i + 1;
      }
      assert es[..i] == es;
      o := Normal;
    }

    /** Empties the groups; the entities stay. */
    method Destroy()
      modifies this`groups
      ensures groups == map[]
    {
      groups := map[];
    }
  }

  lemma EntityUpdatesAppend(order: seq<string>, n: string, entities: map<string, Entity>, tick: real)
    requires forall m :: m in order ==> m in entities
    requires n in entities
    ensures EntityUpdates(order + [n], entities, tick) == EntityUpdates(order, entities, tick) + [Updated(entities[n], tick)]
  {
  }

  lemma EntityDrawsAppend(order: seq<string>, n: string, entities: map<string, Entity>)
    requires forall m :: m in order ==> m in entities
    requires n in entities
    ensures EntityDraws(order + [n], entities) == EntityDraws(order, entities) + [Drawn(entities[n])]
  {
  }

  lemma {:induction false} AllGroupUpdatesAppend(order: seq<string>, n: string, groups: map<string, Group>, tick: real)
    requires forall m :: m in order ==> m in groups
    requires n in groups
    ensures AllGroupUpdates(order + [n], groups, tick) == AllGroupUpdates(order, groups, tick) + GroupUpdates(groups[n], tick)
  {
    if order == [] {
      assert order + [n] == [n];
    } else {
      assert (order + [n])[1..] == order[1..] + [n];
      AllGroupUpdatesAppend(order[1..], n, groups, tick);
      AppendAssoc(GroupUpdates(groups[order[0]], tick), AllGroupUpdates(order[1..], groups, tick), GroupUpdates(groups[n], tick));
    }
  }

  lemma {:induction false} AllGroupDrawsAppend(order: seq<string>, n: string, groups: map<string, Group>)
    requires forall m :: m in order ==> m in groups
    requires n in groups
    ensures AllGroupDraws(order + [n], groups) == AllGroupDraws(order, groups) + GroupDraws(groups[n])
  {
    if order == [] {
      assert order + [n] == [n];
    } else {
      assert (order + [n])[1..] == order[1..] + [n];
      AllGroupDrawsAppend(order[1..], n, groups);
      AppendAssoc(GroupDraws(groups[order[0]]), AllGroupDraws(order[1..], groups), GroupDraws(groups[n]));
    }
  }

  lemma OrderCovers<V>(order: seq<string>, m: map<string, V>)
    requires (set n | n in order) == m.Keys
    ensures forall n :: n in order ==> n in m
  {
    forall n | n in order ensures n in m {
      assert n in set n' | n' in order;
    }
  }

  /** Each entity left after the trash is emptied is updated exactly once per frame. */
  lemma UpdatedOnce(entityOrder: seq<string>, entities: map<string, Entity>, tick: real, name: string)
    requires IterationOrder(entityOrder, entities.Keys) && name in entities
    ensures exists k :: 0 <= k < |entityOrder| && entityOrder[k] == name &&
                        EntityUpdates(entityOrder, entities, tick)[k] == Updated(entities[name], tick)
    ensures forall k1, k2 :: 0 <= k1 < k2 < |entityOrder| && entityOrder[k1] == name ==> entityOrder[k2] != name
  {
    assert name in (set n | n in entityOrder);
    var k :| 0 <= k < |entityOrder| && entityOrder[k] == name;
    assert EntityUpdates(entityOrder, entities, tick)[k] == Updated(entities[name], tick);
  }
}
