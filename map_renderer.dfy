/**
 * The 3D renderer's bookkeeping: the player and egg models it draws, one
 * queue of pending animation actions per player id, and the animation
 * actions that run beside the queues. Positions, rotations and timing are
 * floating point and stay out of the model; what stays is which actions are
 * queued for whom, in which order, and which lookups throw.
 */
module MapRendererModel {
  import opened Wrappers
  import opened Text

  /** The kinds of queued action the renderer tells apart. */
  datatype ActionType = Forward | Rotation | Expulsion | Broadcast | Incantation

  /** A queued action: the player it animates, its kind, and whether it has started. */
  datatype PlayerAction = PlayerAction(playerId: int, kind: ActionType, started: bool)

  /** RendererError(message, where): what the lookups throw. */
  datatype RendererError = RendererError(message: string, origin: string)

  /** A lookup by id: the position of the model in its list, or the error thrown. */
  datatype Lookup = Found(index: nat) | Thrown(error: RendererError)

  const Translations: set<ActionType> := {Forward, Expulsion}
  const Rotations: set<ActionType> := {Rotation}

  function PlayerNotFound(id: int): RendererError
  {
    RendererError("Player " + IntToString(id) + " not found", "MapRenderer")
  }

  function EggNotFound(id: int): RendererError
  {
    RendererError("Egg " + IntToString(id) + " not found", "MapRenderer")
  }

  /** The position of the first id in s. */
  function FirstIndex(s: seq<int>, id: int): (k: nat)
    requires id in s
    ensures k < |s| && s[k] == id && id !in s[..k]
  {
    if s[0] == id then 0
    else
      var k := FirstIndex(s[1..], id);
      assert s[..k + 1] == [s[0]] + s[1..][..k];
      k + 1
  }

  /** An id met at position i with none before it is the first one. */
  lemma FirstIndexAt(s: seq<int>, id: int, i: nat)
    requires i < |s| && s[i] == id && id !in s[..i]
    ensures FirstIndex(s, id) == i
  {
  }

  /** vector::erase at the first element equal to id, or no change when there is none. */
  function RemoveFirst(s: seq<int>, id: int): seq<int>
  {
    if id in s then s[..FirstIndex(s, id)] + s[FirstIndex(s, id) + 1..] else s
  }

  /** The actions of q whose kind is not in drop, in their order. */
  function Filtered(q: seq<PlayerAction>, drop: set<ActionType>): (r: seq<PlayerAction>)
    ensures |r| <= |q|
    ensures forall a :: a in r <==> a in q && a.kind !in drop
  {
    if q == [] then []
    else
      var init := q[..|q| - 1];
      assert q == init + [q[|q| - 1]];
      var rest := Filtered(init, drop);
      if q[|q| - 1].kind in drop then rest else rest + [q[|q| - 1]]
  }

  /** The animation actions of every player but id, in their order (the remove_if of removeAllActions). */
  function OtherPlayers(anims: seq<PlayerAction>, id: int): (r: seq<PlayerAction>)
    ensures forall a :: a in r <==> a in anims && a.playerId != id
  {
    if anims == [] then []
    else
      var init := anims[..|anims| - 1];
      assert anims == init + [anims[|anims| - 1]];
      var rest := OtherPlayers(init, id);
      if anims[|anims| - 1].playerId == id then rest else rest + [anims[|anims| - 1]]
  }

  /** queues[id], where operator[] reads an absent player as an empty queue. */
  function QueueOf(queues: map<int, seq<PlayerAction>>, id: int): seq<PlayerAction>
  {
    if id in queues then queues[id] else []
  }

  /** The front action of a non-empty queue after one frame: popped when it ends, started otherwise. */
  function Advanced(q: seq<PlayerAction>, ends: bool): (r: seq<PlayerAction>)
    requires q != []
    ensures |r| == |q| - (if ends then 1 else 0)
    ensures r[|r| - (|q| - 1)..] == q[1..]
    ensures !ends ==> r[0] == q[0].(started := true)
  {
    if ends then q[1..] else [q[0].(started := true)] + q[1..]
  }

  /** One turn of the update loop on the queue of key k: an empty queue is erased, any other advanced. */
  function Step(queues: map<int, seq<PlayerAction>>, k: int, ends: set<int>): map<int, seq<PlayerAction>>
  {
    if k !in queues then queues
    else if queues[k] == [] then queues - {k}
    else queues[k := Advanced(queues[k], k in ends)]
  }

  /** The update loop over the keys in the order visited. */
  function StepAll(queues: map<int, seq<PlayerAction>>, keys: seq<int>, ends: set<int>): map<int, seq<PlayerAction>>
  {
    if keys == [] then queues
    else Step(StepAll(queues, keys[..|keys| - 1], ends), keys[|keys| - 1], ends)
  }

  /** The queue of k is not empty and its front action names a player that has no model. */
  predicate Blocked(queues: map<int, seq<PlayerAction>>, k: int, players: seq<int>)
  {
    k in queues && queues[k] != [] && queues[k][0].playerId !in players
  }

  predicate Distinct(keys: seq<int>)
  {
    forall i, j :: 0 <= i < j < |keys| ==> keys[i] != keys[j]
  }

  /** The order in which a std::map keyed by player id visits its keys: strictly ascending. */
  predicate Ascending(keys: seq<int>)
  {
    forall i, j :: 0 <= i < j < |keys| ==> keys[i] < keys[j]
  }

  class MapRenderer {
    /** The ids of the player models, in the order they were added. */
    var players: seq<int>
    /** The ids of the egg models, in the order they were added. */
    var eggs: seq<int>
    /** _playerActionQueues: the pending actions of each player id. */
    var queues: map<int, seq<PlayerAction>>
    /** _playerAnimAction: actions that also animate outside the queues. */
    var animActions: seq<PlayerAction>

    /** MapRenderer(map): no models and no actions. */
    constructor()
      ensures players == [] && eggs == [] && queues == map[] && animActions == []
    {
      players, eggs, queues, animActions := [], [], map[], [];
    }

    /** addPlayer: the model goes to the end of the list. */
    method AddPlayer(id: int)
      modifies this
      ensures players == old(players) + [id]
      ensures eggs == old(eggs) && queues == old(queues) && animActions == old(animActions)
    {
      players := players + [id];
    }

    /** addEgg: the model goes to the end of the list. */
    method AddEgg(id: int)
      modifies this
      ensures eggs == old(eggs) + [id]
      ensures players == old(players) && queues == old(queues) && animActions == old(animActions)
    {
      eggs := eggs + [id];
    }

    /** removeEgg: the first egg model with the id goes; the others, equal ids included, stay. */
    method RemoveEgg(id: int)
      modifies this
      ensures eggs == RemoveFirst(old(eggs), id)
      ensures players == old(players) && queues == old(queues) && animActions == old(animActions)
    {
      var i := 0;
      while i < |eggs|
        invariant i <= |eggs| && id !in eggs[..i]
      {
        if eggs[i] == id {
          FirstIndexAt(eggs, id, i);
          eggs := eggs[..i] + eggs[i + 1..];
          return;
        }
        i := i + 1;
      }
      assert eggs[..i] == eggs;
    }

    /** removePlayer: the first player model with the id goes, and with it all of that player's actions. */
    method RemovePlayer(id: int)
      modifies this
      ensures players == RemoveFirst(old(players), id)
      ensures id in old(players) ==> queues == old(queues) - {id} && animActions == OtherPlayers(old(animActions), id)
      ensures id !in old(players) ==> queues == old(queues) && animActions == old(animActions)
      ensures eggs == old(eggs)
    {
      var i := 0;
      while i < |players|
        invariant i <= |players| && id !in players[..i]
        invariant unchanged(this)
      {
        if players[i] == id {
          FirstIndexAt(players, id, i);
          players := players[..i] + players[i + 1..];
          RemoveAllActions(id);
          return;
        }
        i := i + 1;
      }
      assert players[..i] == players;
    }

    /** removeAllActions: the player's queue is erased and its animation actions removed. */
    method RemoveAllActions(id: int)
      modifies this
      ensures queues == old(queues) - {id} && animActions == OtherPlayers(old(animActions), id)
      ensures players == old(players) && eggs == old(eggs)
    {
      queues := queues - {id};
      animActions := OtherPlayers(animActions, id);
    }

    /** removeAllTranslations: the player's queue keeps all but its FORWARD and EXPULSION actions. */
    method RemoveAllTranslations(id: int)
      modifies this
      ensures queues == old(queues)[id := Filtered(QueueOf(old(queues), id), Translations)]
      ensures players == old(players) && eggs == old(eggs) && animActions == old(animActions)
    {
      Rebuild(id, Translations);
    }

    /** removeAllRotations: the player's queue keeps all but its ROTATION actions. */
    method RemoveAllRotations(id: int)
      modifies this
      ensures queues == old(queues)[id := Filtered(QueueOf(old(queues), id), Rotations)]
      ensures players == old(players) && eggs == old(eggs) && animActions == old(animActions)
    {
      Rebuild(id, Rotations);
    }

    /**
     * The loop both removals share: the queue (created empty when the
     * player has none) is drained front first into a new queue that skips
     * the dropped kinds, and the new queue replaces it.
     */
    method Rebuild(id: int, drop: set<ActionType>)
      modifies this
      ensures queues == old(queues)[id := Filtered(QueueOf(old(queues), id), drop)]
      ensures players == old(players) && eggs == old(eggs) && animActions == old(animActions)
    {
      var queue := QueueOf(queues, id);
      queues := queues[id := queue];
      ghost var q0 := queue;
      var newQueue := [];
      ghost var k := 0;
      while queue != []
        invariant k <= |q0| && queue == q0[k..]
        invariant newQueue == Filtered(q0[..k], drop)
        decreases |queue|
      {
        var action := queue[0];
        queue := queue[1..];
        assert q0[..k + 1][..k] == q0[..k];
        if action.kind !in drop {
          newQueue := newQueue + [action];
        }
        k := k + 1;
      }
      assert q0[..k] == q0;
      queues := queues[id := newQueue];
    }

    /** _getPlayer: the first player model with the id, or RendererError("Player <id> not found"). */
    method GetPlayer(id: int) returns (r: Lookup)
      ensures r.Found? <==> id in players
      ensures r.Found? ==> r.index == FirstIndex(players, id)
      ensures r.Thrown? ==> r.error == PlayerNotFound(id)
    {
      var i := 0;
      while i < |players|
        invariant i <= |players| && id !in players[..i]
      {
        if players[i] == id {
          FirstIndexAt(players, id, i);
          return Found(i);
        }
        i := i + 1;
      }
      assert players[..i] == players;
      return Thrown(PlayerNotFound(id));
    }

    /** _getEgg: the first egg model with the id, or RendererError("Egg <id> not found"). */
    method GetEgg(id: int) returns (r: Lookup)
      ensures r.Found? <==> id in eggs
      ensures r.Found? ==> r.index == FirstIndex(eggs, id)
      ensures r.Thrown? ==> r.error == EggNotFound(id)
    {
      var i := 0;
      while i < |eggs|
        invariant i <= |eggs| && id !in eggs[..i]
      {
        if eggs[i] == id {
          FirstIndexAt(eggs, id, i);
          return Found(i);
        }
        i := i + 1;
      }
      assert eggs[..i] == eggs;
      return Thrown(EggNotFound(id));
    }

    /**
     * _updateActions: the queues are visited in the map's iteration order
     * `order`, ascending player ids; an empty queue is erased, otherwise its front action is
     * started and, if it ends this frame (its key is in `ends`), popped.
     * Looking up the front action's player throws for a player without a
     * model, leaving the queues visited so far updated and the rest as
     * they were.
     */
    method UpdateActions(ends: set<int>, order: seq<int>) returns (error: Option<RendererError>)
      requires Ascending(order) && forall k :: k in order <==> k in queues
      modifies this
      ensures players == old(players) && eggs == old(eggs) && animActions == old(animActions)
      ensures error.None? <==> forall k :: k in old(queues) ==> !Blocked(old(queues), k, players)
      ensures error.None? ==> queues == StepAll(old(queues), order, ends)
      ensures error.Some? ==>
        exists f :: (0 <= f < |order| && Blocked(old(queues), order[f], players)
          && (forall j :: 0 <= j < f ==> !Blocked(old(queues), order[j], players))
          && queues == StepAll(old(queues), order[..f], ends)
          && error == Some(PlayerNotFound(old(queues)[order[f]][0].playerId)))
    {
      ghost var q0 := queues;
      assert Distinct(order);
      var i := 0;
      while i < |order|
        invariant i <= |order|
        invariant queues == StepAll(q0, order[..i], ends)
        invariant forall j :: 0 <= j < i ==> !Blocked(q0, order[j], players)
        invariant players == old(players) && eggs == old(eggs) && animActions == old(animActions)
      {
        var key := order[i];
        assert order[..i + 1][..i] == order[..i] && order[..i + 1][i] == key;
        StepAllAt(q0, order[..i], ends, key);
        var queue := queues[key];
        if queue == [] {
          queues := queues - {key};
        } else {
          var found := GetPlayer(queue[0].playerId);
          if found.Thrown? {
            assert Blocked(q0, order[i], players);
            return Some(found.error);
          }
          queues := queues[key := Advanced(queue, key in ends)];
        }
        i := i + 1;
      }
      assert order[..i] == order;
      forall k | k in q0
        ensures !Blocked(q0, k, players)
      {
        var j :| 0 <= j < |order| && order[j] == k;
      }
      error := None;
    }
  }

  // ---- properties ----------------------------------------------------------------------

  /** removeEgg and removePlayer take away exactly one model with the id when there is one, and nothing else. */
  lemma RemoveFirstOne(s: seq<int>, id: int)
    ensures multiset(RemoveFirst(s, id)) == multiset(s) - multiset{id}
    ensures |RemoveFirst(s, id)| == if id in s then |s| - 1 else |s|
  {
    if id in s {
      var k := FirstIndex(s, id);
      assert s == s[..k] + [id] + s[k + 1..];
      calc {
        multiset(s);
        multiset(s[..k]) + multiset{id} + multiset(s[k + 1..]);
        multiset(RemoveFirst(s, id)) + multiset{id};
      }
    } else {
      assert multiset(s)[id] == 0;
    }
  }

  /** Filtering distributes over concatenation, so the kept actions stay in their order. */
  lemma {:induction false} FilteredAppend(a: seq<PlayerAction>, b: seq<PlayerAction>, drop: set<ActionType>)
    ensures Filtered(a + b, drop) == Filtered(a, drop) + Filtered(b, drop)
    decreases |b|
  {
    if b == [] {
      assert a + b == a;
    } else {
      var init := b[..|b| - 1];
      assert (a + b)[..|a + b| - 1] == a + init;
      assert (a + b)[|a + b| - 1] == b[|b| - 1];
      FilteredAppend(a, init, drop);
    }
  }

  /** A kept kind keeps every copy of the action; a dropped kind keeps none. */
  lemma {:induction false} FilteredCounts(q: seq<PlayerAction>, drop: set<ActionType>, a: PlayerAction)
    ensures multiset(Filtered(q, drop))[a] == if a.kind in drop then 0 else multiset(q)[a]
    decreases |q|
  {
    if q != [] {
      var init := q[..|q| - 1];
      assert q == init + [q[|q| - 1]];
      FilteredCounts(init, drop, a);
    }
  }

  /** A queue with nothing of the dropped kinds comes back whole, so a second removal changes nothing. */
  lemma {:induction false} FilteredNothingToDrop(q: seq<PlayerAction>, drop: set<ActionType>)
    requires forall i :: 0 <= i < |q| ==> q[i].kind !in drop
    ensures Filtered(q, drop) == q
    decreases |q|
  {
    if q != [] {
      var init := q[..|q| - 1];
      assert q == init + [q[|q| - 1]];
      FilteredNothingToDrop(init, drop);
    }
  }

  /** Removing translations and removing rotations commute. */
  lemma RemovalsCommute(q: seq<PlayerAction>)
    ensures Filtered(Filtered(q, Translations), Rotations) == Filtered(Filtered(q, Rotations), Translations)
  {
    FilteredTwice(q, Translations, Rotations);
    FilteredTwice(q, Rotations, Translations);
  }

  lemma {:induction false} FilteredTwice(q: seq<PlayerAction>, d1: set<ActionType>, d2: set<ActionType>)
    ensures Filtered(Filtered(q, d1), d2) == Filtered(q, d1 + d2)
    decreases |q|
  {
    if q != [] {
      var init := q[..|q| - 1];
      var last := q[|q| - 1];
      assert q == init + [last];
      FilteredTwice(init, d1, d2);
      if last.kind !in d1 {
        FilteredAppend(Filtered(init, d1), [last], d2);
        assert Filtered([last], d2) == if last.kind in d2 then [] else [last] by {
          assert [last][..0] == [];
        }
      }
    }
  }

  /**
   * What one update does to every queue, whatever the visiting order: a
   * queue not visited is untouched, a visited empty queue is erased, a
   * visited non-empty one loses at most its front action.
   */
  lemma {:induction false} StepAllAt(queues: map<int, seq<PlayerAction>>, keys: seq<int>, ends: set<int>, k: int)
    requires Distinct(keys)
    ensures var r := StepAll(queues, keys, ends);
      && (k !in keys ==> (k in r <==> k in queues) && (k in queues ==> r[k] == queues[k]))
      && (k in keys ==> (k in r <==> k in queues && queues[k] != []))
      && (k in keys && k in r ==> r[k] == Advanced(queues[k], k in ends))
    decreases |keys|
  {
    if keys != [] {
      var init := keys[..|keys| - 1];
      var last := keys[|keys| - 1];
      assert keys == init + [last];
      assert Distinct(init) by {
        forall i, j | 0 <= i < j < |init|
          ensures init[i] != init[j]
        {
          assert init[i] == keys[i] && init[j] == keys[j];
        }
      }
      StepAllAt(queues, init, ends, k);
      if k == last {
        StepAllAt(queues, init, ends, last);
      }
    }
  }

  /** Every key the update leaves has a queue that lost at most one action and is otherwise the same. */
  lemma UpdatePopsAtMostOne(queues: map<int, seq<PlayerAction>>, order: seq<int>, ends: set<int>)
    requires Distinct(order) && forall k :: k in order <==> k in queues
    ensures var r := StepAll(queues, order, ends);
      && (forall k :: k in r <==> k in queues && queues[k] != [])
      && (forall k :: k in r ==> r[k] == queues[k][1..] || (|r[k]| == |queues[k]| && r[k][1..] == queues[k][1..]))
      && (forall k :: k in r && k in ends ==> r[k] == queues[k][1..])
  {
    var r := StepAll(queues, order, ends);
    forall k
      ensures k in r <==> k in queues && queues[k] != []
      ensures k in r ==> r[k] == queues[k][1..] || (|r[k]| == |queues[k]| && r[k][1..] == queues[k][1..])
      ensures k in r && k in ends ==> r[k] == queues[k][1..]
    {
      StepAllAt(queues, order, ends, k);
    }
  }
}
