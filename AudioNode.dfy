/** `AudioNode`: the list of connected nodes and the guarded
    subscribe/unsubscribe protocol around the node class's hooks. */
module AudioNodes {
  import opened MaTypes

  /** The three virtual hooks of a node class, as functions of the other
      node; a subclass supplies its own. */
  datatype Hooks = Hooks(
    canSubscribe: AudioNode -> MaResult,
    handleSubscribe: AudioNode -> MaResult,
    handleUnsubscribe: AudioNode -> MaResult)

  /** The hooks of `AudioNode` itself: each one reports "not implemented". */
  function BaseHooks(): Hooks
  {
    Hooks(_ => NotImplemented, _ => NotImplemented, _ => NotImplemented)
  }

  ghost predicate NoDuplicates(s: seq<AudioNode>)
  {
    forall i, j :: 0 <= i < j < |s| ==> s[i] != s[j]
  }

  /** Position of the first occurrence of `x`, as `std::find` reports it. */
  function IndexOf(s: seq<AudioNode>, x: AudioNode): (k: nat)
    requires x in s
    ensures k < |s| && s[k] == x
    ensures forall j :: 0 <= j < k ==> s[j] != x
  {
    if s[0] == x then 0 else 1 + IndexOf(s[1..], x)
  }

  /** Every element except `x`, in order: the reference for erasing a node. */
  function RemoveAll(s: seq<AudioNode>, x: AudioNode): (r: seq<AudioNode>)
    ensures x !in r
    ensures forall i :: 0 <= i < |r| ==> r[i] in s
    ensures forall i :: 0 <= i < |s| && s[i] != x ==> s[i] in r
  {
    if s == [] then []
    else if s[0] == x then RemoveAll(s[1..], x)
    else [s[0]] + RemoveAll(s[1..], x)
  }

  lemma NoDuplicatesTail(s: seq<AudioNode>)
    requires NoDuplicates(s) && s != []
    ensures NoDuplicates(s[1..]) && s[0] !in s[1..]
  {
    forall i, j | 0 <= i < j < |s[1..]| ensures s[1..][i] != s[1..][j] {
      assert s[1..][i] == s[i + 1] && s[1..][j] == s[j + 1];
    }
    forall m | 0 <= m < |s[1..]| ensures s[1..][m] != s[0] {
      assert s[1..][m] == s[m + 1];
    }
  }

  lemma NoDuplicatesCons(a: AudioNode, t: seq<AudioNode>)
    requires NoDuplicates(t) && a !in t
    ensures NoDuplicates([a] + t)
  {
    forall i, j | 0 <= i < j < |[a] + t| ensures ([a] + t)[i] != ([a] + t)[j] {
      assert ([a] + t)[j] == t[j - 1];
      if i > 0 {
        assert ([a] + t)[i] == t[i - 1];
      }
    }
  }

  lemma {:induction false} RemoveAllAbsent(s: seq<AudioNode>, x: AudioNode)
    requires x !in s
    ensures RemoveAll(s, x) == s
  {
    if s != [] {
      RemoveAllAbsent(s[1..], x);
    }
  }

  /** Past a head that is not `x`, the erase position moves by one. */
  lemma EraseStep(s: seq<AudioNode>, x: AudioNode)
    requires s != [] && s[0] != x && x in s
    ensures var k := IndexOf(s[1..], x);
      && IndexOf(s, x) == k + 1
      && s[..IndexOf(s, x)] + s[IndexOf(s, x) + 1..] == [s[0]] + (s[1..][..k] + s[1..][k + 1..])
  {
    var k := IndexOf(s[1..], x);
    assert s[..k + 1] == [s[0]] + s[1..][..k];
    assert s[k + 2..] == s[1..][k + 1..];
  }

  lemma {:induction false} EraseMatches(s: seq<AudioNode>, x: AudioNode)
    requires NoDuplicates(s) && x in s
    ensures s[..IndexOf(s, x)] + s[IndexOf(s, x) + 1..] == RemoveAll(s, x)
  {
    NoDuplicatesTail(s);
    if s[0] == x {
      RemoveAllAbsent(s[1..], x);
      assert s[..0] + s[1..] == s[1..];
    } else {
      EraseMatches(s[1..], x);
      EraseStep(s, x);
    }
  }

  lemma {:induction false} RemoveAllNoDuplicates(s: seq<AudioNode>, x: AudioNode)
    requires NoDuplicates(s)
    ensures NoDuplicates(RemoveAll(s, x))
  {
    if s != [] {
      NoDuplicatesTail(s);
      RemoveAllNoDuplicates(s[1..], x);
      if s[0] != x {
        var t := RemoveAll(s[1..], x);
        assert s[0] !in t;
        NoDuplicatesCons(s[0], t);
      }
    }
  }

  /** Erasing the single occurrence of `x` from a list without duplicates
      keeps all the other nodes in their order. */
  lemma EraseIsRemoveAll(s: seq<AudioNode>, x: AudioNode)
    requires NoDuplicates(s) && x in s
    ensures s[..IndexOf(s, x)] + s[IndexOf(s, x) + 1..] == RemoveAll(s, x)
    ensures NoDuplicates(RemoveAll(s, x))
  {
    EraseMatches(s, x);
    RemoveAllNoDuplicates(s, x);
  }

  class AudioNode {
    var connectedNodes: seq<AudioNode>
    const hooks: Hooks

    /** The list never holds a node twice. */
    ghost predicate Valid()
      reads this
    {
      NoDuplicates(connectedNodes)
    }

    constructor (hooks: Hooks)
      ensures Valid()
      ensures connectedNodes == [] && this.hooks == hooks
    {
      this.hooks := hooks;
      connectedNodes := [];
    }

    predicate IsSubscribed(n: AudioNode)
      reads this
    {
      n in connectedNodes
    }

    /** Both `canSubscribe` checks, then the duplicate check, then
        `handleSubscribe`; the node is appended only if all of them pass. */
    method Subscribe(other: AudioNode) returns (r: MaResult)
      requires Valid()
      modifies this
      ensures Valid()
      ensures hooks.canSubscribe(other) != Success ==>
                r == hooks.canSubscribe(other)
      ensures hooks.canSubscribe(other) == Success && other.hooks.canSubscribe(this) != Success ==>
                r == other.hooks.canSubscribe(this)
      ensures hooks.canSubscribe(other) == Success && other.hooks.canSubscribe(this) == Success &&
              other in old(connectedNodes) ==>
                r == DeviceAlreadyInitialized
      ensures hooks.canSubscribe(other) == Success && other.hooks.canSubscribe(this) == Success &&
              other !in old(connectedNodes) ==>
                r == hooks.handleSubscribe(other)
      ensures r == Success ==> other !in old(connectedNodes) && connectedNodes == old(connectedNodes) + [other]
      ensures r != Success ==> connectedNodes == old(connectedNodes)
      ensures other != this ==> other.connectedNodes == old(other.connectedNodes)
    {
      r := hooks.canSubscribe(other);
      if r != Success {
        return;
      }
      r := other.hooks.canSubscribe(this);
      if r != Success {
        return;
      }
      if IsSubscribed(other) {
        return DeviceAlreadyInitialized;
      }
      r := hooks.handleSubscribe(other);
      if r != Success {
        return;
      }
      forall i, j | 0 <= i < j < |connectedNodes + [other]|
        ensures (connectedNodes + [other])[i] != (connectedNodes + [other])[j]
      {
        if j == |connectedNodes| {
          assert (connectedNodes + [other])[i] == connectedNodes[i];
        }
      }
      connectedNodes := connectedNodes + [other];
      r := Success;
    }

    /** Absent node: "not initialized"; otherwise `handleUnsubscribe`
        decides, and on success the node is erased. */
    method Unsubscribe(other: AudioNode) returns (r: MaResult)
      requires Valid()
      modifies this
      ensures Valid()
      ensures other !in old(connectedNodes) ==> r == DeviceNotInitialized
      ensures other in old(connectedNodes) ==> r == hooks.handleUnsubscribe(other)
      ensures r == Success ==> connectedNodes == RemoveAll(old(connectedNodes), other)
      ensures r == Success ==> |connectedNodes| == |old(connectedNodes)| - 1
      ensures r != Success ==> connectedNodes == old(connectedNodes)
    {
      if other !in connectedNodes {
        return DeviceNotInitialized;
      }
      var k := IndexOf(connectedNodes, other);
      r := hooks.handleUnsubscribe(other);
      if r != Success {
        return;
      }
      EraseIsRemoveAll(connectedNodes, other);
      connectedNodes := connectedNodes[..k] + connectedNodes[k + 1..];
    }

    /** Calls `handleUnsubscribe` on every connected node in order, ignoring
        the results, then empties the list; `notified` records the calls. */
    method UnsubscribeAll() returns (ghost notified: seq<AudioNode>)
      requires Valid()
      modifies this
      ensures Valid()
      ensures notified == old(connectedNodes)
      ensures connectedNodes == []
    {
      notified := [];
      var i := 0;
      while i < |connectedNodes|
        invariant 0 <= i <= |connectedNodes|
        invariant notified == connectedNodes[..i]
      {
        var ignored := hooks.handleUnsubscribe(connectedNodes[i]);
        notified := notified + [connectedNodes[i]];
        i := i + 1;
      }
      assert connectedNodes[..i] == connectedNodes;
      connectedNodes := [];
    }
  }

  /** A bare `AudioNode` never subscribes to anything. */
  method BareNodesNeverSubscribe() returns (r: MaResult, linked: bool)
    ensures r == NotImplemented && !linked
  {
    var a := new AudioNode(BaseHooks());
    var b := new AudioNode(BaseHooks());
    r := a.Subscribe(b);
    linked := a.IsSubscribed(b) || b.IsSubscribed(a);
  }
}
