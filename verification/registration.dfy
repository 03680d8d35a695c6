/**
 * `register` and `unregister`: the add-on's classes are registered with the host in
 * order and unregistered in reverse order, the scene gains and loses its settings
 * property, and the render-complete handler is added to and removed from the host's
 * handler list, each guarded by a membership test.
 */
module Registration {
  import opened Options

  /** A callback on the host's `render_complete` list: this add-on's handler, or someone else's. */
  datatype Handler = RenderCompleteHandler | ForeignHandler(id: nat)

  /** The classes the add-on registers. */
  datatype AddonClass = PropertiesClass | TestOperatorClass | PanelClass

  /** The add-on's `classes` tuple, in declaration order. */
  const Classes: seq<AddonClass> := [PropertiesClass, TestOperatorClass, PanelClass]

  /** A call the add-on makes into the host's class registry. */
  datatype ClassCall = RegisterCall(cls: AddonClass) | UnregisterCall(cls: AddonClass)

  /** How often `h` occurs in the handler list. */
  function Count(s: seq<Handler>, h: Handler): nat
    decreases |s|
  {
    if s == [] then 0 else (if s[0] == h then 1 else 0) + Count(s[1..], h)
  }

  /** The position of the first occurrence of `h`. */
  function FirstIndex(s: seq<Handler>, h: Handler): (i: nat)
    requires h in s
    ensures i < |s| && s[i] == h && h !in s[..i]
    decreases |s|
  {
    if s[0] == h then 0 else 1 + FirstIndex(s[1..], h)
  }

  /**
   * Python's `list.remove`: drops the first occurrence of `h`. The list type raises
   * ValueError when `h` is absent; the add-on never gets there, as it tests first.
   */
  function RemoveFirst(s: seq<Handler>, h: Handler): (r: seq<Handler>)
    requires h in s
    ensures |r| == |s| - 1
    ensures r == s[..FirstIndex(s, h)] + s[FirstIndex(s, h) + 1..]
    decreases |s|
  {
    if s[0] == h then s[1..]
    else
      var i := FirstIndex(s[1..], h);
      assert s[..i + 1] == [s[0]] + s[1..][..i];
      assert s[i + 2..] == s[1..][i + 1..];
      [s[0]] + RemoveFirst(s[1..], h)
  }

  /** The list with every occurrence of `h` left out: the handlers that belong to others, in order. */
  function Others(s: seq<Handler>, h: Handler): seq<Handler>
    decreases |s|
  {
    if s == [] then []
    else if s[0] == h then Others(s[1..], h)
    else [s[0]] + Others(s[1..], h)
  }

  /** The handler list after `register`: the handler is appended unless it is already there. */
  function Subscribe(s: seq<Handler>): (r: seq<Handler>)
    ensures RenderCompleteHandler in r
    ensures RenderCompleteHandler in s ==> r == s
    ensures RenderCompleteHandler !in s ==> |r| == |s| + 1
    ensures RenderCompleteHandler !in s ==> r[..|s|] == s && r[|s|..] == [RenderCompleteHandler]
  {
    if RenderCompleteHandler in s then s else s + [RenderCompleteHandler]
  }

  /** The handler list after `unregister`: the first occurrence of the handler is removed if there is one. */
  function Unsubscribe(s: seq<Handler>): (r: seq<Handler>)
    ensures |r| == if RenderCompleteHandler in s then |s| - 1 else |s|
  {
    if RenderCompleteHandler in s then RemoveFirst(s, RenderCompleteHandler) else s
  }

  /** The registration calls for `cs`, in order. */
  function Registered(cs: seq<AddonClass>): (calls: seq<ClassCall>)
    ensures |calls| == |cs|
  {
    seq(|cs|, i requires 0 <= i < |cs| => RegisterCall(cs[i]))
  }

  /** The unregistration calls for `cs`, in order. */
  function Unregistered(cs: seq<AddonClass>): (calls: seq<ClassCall>)
    ensures |calls| == |cs|
  {
    seq(|cs|, i requires 0 <= i < |cs| => UnregisterCall(cs[i]))
  }

  /** Python's `reversed`: element `k` of the result is element `|cs| - 1 - k` of `cs`. */
  function Reversed(cs: seq<AddonClass>): (r: seq<AddonClass>)
    ensures |r| == |cs|
    ensures forall k :: 0 <= k < |cs| ==> r[k] == cs[|cs| - 1 - k]
    decreases |cs|
  {
    if cs == [] then [] else Reversed(cs[1..]) + [cs[0]]
  }

  /** The parts of the host the two functions change. */
  class Host {
    /** `bpy.app.handlers.render_complete`. */
    var renderComplete: seq<Handler>
    /** The calls made into the host's class registry, oldest first. */
    var classCalls: seq<ClassCall>
    /** Whether `Scene.pushover_notifier` is defined. */
    var sceneHasSettings: bool

    constructor (handlers: seq<Handler>)
      ensures renderComplete == handlers && classCalls == [] && !sceneHasSettings
    {
      renderComplete := handlers;
      classCalls := [];
      sceneHasSettings := false;
    }

    /** `bpy.utils.register_class`. */
    method RegisterClass(cls: AddonClass)
      modifies this`classCalls
      ensures classCalls == old(classCalls) + [RegisterCall(cls)]
    {
      classCalls := classCalls + [RegisterCall(cls)];
    }

    /** `bpy.utils.unregister_class`. */
    method UnregisterClass(cls: AddonClass)
      modifies this`classCalls
      ensures classCalls == old(classCalls) + [UnregisterCall(cls)]
    {
      classCalls := classCalls + [UnregisterCall(cls)];
    }

    /** `render_complete.append(h)`. */
    method AppendHandler(h: Handler)
      modifies this`renderComplete
      ensures renderComplete == old(renderComplete) + [h]
    {
      renderComplete := renderComplete + [h];
    }

    /** `render_complete.remove(h)`; the list type raises when `h` is absent, so callers test first. */
    method RemoveHandler(h: Handler)
      requires h in renderComplete
      modifies this`renderComplete
      ensures renderComplete == RemoveFirst(old(renderComplete), h)
    {
      renderComplete := RemoveFirst(renderComplete, h);
    }
  }

  /** `register`: every class in order, then the scene property, then the handler unless already present. */
  method Register(host: Host)
    modifies host
    ensures host.classCalls == old(host.classCalls) + Registered(Classes)
    ensures host.sceneHasSettings
    ensures host.renderComplete == Subscribe(old(host.renderComplete))
  {
    for i := 0 to |Classes|
      invariant host.classCalls == old(host.classCalls) + Registered(Classes[..i])
      invariant host.renderComplete == old(host.renderComplete)
    {
      host.RegisterClass(Classes[i]);
      assert Registered(Classes[..i + 1]) == Registered(Classes[..i]) + [RegisterCall(Classes[i])];
    }
    assert Classes[..|Classes|] == Classes;
    host.sceneHasSettings := true;
    if RenderCompleteHandler !in host.renderComplete {
      host.AppendHandler(RenderCompleteHandler);
    }
  }

  /** `unregister`: the handler if present, then the scene property, then every class in reverse order. */
  method Unregister(host: Host)
    modifies host
    ensures host.renderComplete == Unsubscribe(old(host.renderComplete))
    ensures !host.sceneHasSettings
    ensures host.classCalls == old(host.classCalls) + Unregistered(Reversed(Classes))
  {
    if RenderCompleteHandler in host.renderComplete {
      host.RemoveHandler(RenderCompleteHandler);
    }
    host.sceneHasSettings := false;
    for i := |Classes| downto 0
      invariant host.classCalls == old(host.classCalls) + Unregistered(Reversed(Classes[i..]))
      invariant host.renderComplete == Unsubscribe(old(host.renderComplete))
      invariant !host.sceneHasSettings
    {
      host.UnregisterClass(Classes[i]);
      assert Classes[i..][1..] == Classes[i + 1..];
      assert Unregistered(Reversed(Classes[i..]))
          == Unregistered(Reversed(Classes[i + 1..])) + [UnregisterCall(Classes[i])];
    }
  }

  // ---------------------------------------------------------------------------
  // The handler list.
  // ---------------------------------------------------------------------------

  lemma {:induction false} CountAppend(s: seq<Handler>, x: Handler, h: Handler)
    ensures Count(s + [x], h) == Count(s, h) + (if x == h then 1 else 0)
    decreases |s|
  {
    if s != [] {
      CountAppend(s[1..], x, h);
      assert (s + [x])[1..] == s[1..] + [x];
    } else {
      assert [] + [x] == [x];
      assert [x][1..] == [];
    }
  }

  lemma {:induction false} CountZero(s: seq<Handler>, h: Handler)
    ensures Count(s, h) == 0 <==> h !in s
    decreases |s|
  {
    if s != [] {
      CountZero(s[1..], h);
      assert s == [s[0]] + s[1..];
    }
  }

  /** Registering keeps the handler on the list exactly once, if it was there at most once before. */
  lemma SubscribeKeepsOneCopy(s: seq<Handler>)
    requires Count(s, RenderCompleteHandler) <= 1
    ensures Count(Subscribe(s), RenderCompleteHandler) == 1
    ensures Others(Subscribe(s), RenderCompleteHandler) == Others(s, RenderCompleteHandler)
  {
    var h := RenderCompleteHandler;
    CountZero(s, h);
    if h !in s {
      CountAppend(s, h, h);
      OthersAppend(s, h);
    }
  }

  lemma {:induction false} OthersAppend(s: seq<Handler>, h: Handler)
    ensures Others(s + [h], h) == Others(s, h)
    decreases |s|
  {
    if s == [] {
      assert [] + [h] == [h];
      assert [h][1..] == [];
    } else {
      OthersAppend(s[1..], h);
      assert (s + [h])[1..] == s[1..] + [h];
    }
  }

  /** A second registration leaves the list as the first one left it. */
  lemma SubscribeIdempotent(s: seq<Handler>)
    ensures Subscribe(Subscribe(s)) == Subscribe(s)
  {
  }

  /** `list.remove` takes out one copy of `h` and keeps every other handler in its place and order. */
  lemma {:induction false} RemoveFirstKeepsOthers(s: seq<Handler>, h: Handler)
    requires h in s
    ensures Others(RemoveFirst(s, h), h) == Others(s, h)
    ensures Count(RemoveFirst(s, h), h) == Count(s, h) - 1
    decreases |s|
  {
    if s[0] != h {
      RemoveFirstKeepsOthers(s[1..], h);
      var r := RemoveFirst(s[1..], h);
      assert ([s[0]] + r)[1..] == r;
    }
  }

  /**
   * Unregistering takes the handler off the list when it was there at most once, and
   * leaves every other handler where it was.
   */
  lemma UnsubscribeRemovesHandler(s: seq<Handler>)
    requires Count(s, RenderCompleteHandler) <= 1
    ensures RenderCompleteHandler !in Unsubscribe(s)
    ensures Others(Unsubscribe(s), RenderCompleteHandler) == Others(s, RenderCompleteHandler)
  {
    var h := RenderCompleteHandler;
    CountZero(s, h);
    if h in s {
      RemoveFirstKeepsOthers(s, h);
      CountZero(RemoveFirst(s, h), h);
    }
  }

  /** Unregistering after registering gives back a list that did not hold the handler. */
  lemma UnsubscribeUndoesSubscribe(s: seq<Handler>)
    requires RenderCompleteHandler !in s
    ensures Unsubscribe(Subscribe(s)) == s
  {
    var h := RenderCompleteHandler;
    var t := s + [h];
    var i := FirstIndex(t, h);
    assert forall j :: 0 <= j < |s| ==> t[j] == s[j];
    assert t[..|s|] == s;
  }

  // ---------------------------------------------------------------------------
  // The class registry: teardown is the exact mirror of setup.
  // ---------------------------------------------------------------------------

  /**
   * Replays registry calls against the stack of classes registered so far: a
   * registration pushes its class, an unregistration must name the class on top.
   * None when an unregistration comes out of that order.
   */
  function Replay(calls: seq<ClassCall>, stack: seq<AddonClass>): Option<seq<AddonClass>>
    decreases |calls|
  {
    if calls == [] then Some(stack)
    else match calls[0]
      case RegisterCall(c) => Replay(calls[1..], stack + [c])
      case UnregisterCall(c) =>
        if stack != [] && stack[|stack| - 1] == c then Replay(calls[1..], stack[..|stack| - 1]) else None
  }

  lemma {:induction false} ReplayRegistered(cs: seq<AddonClass>, stack: seq<AddonClass>, rest: seq<ClassCall>)
    ensures Replay(Registered(cs) + rest, stack) == Replay(rest, stack + cs)
    decreases |cs|
  {
    if cs == [] {
      assert Registered(cs) + rest == rest;
      assert stack + cs == stack;
    } else {
      var calls := Registered(cs) + rest;
      assert calls[0] == RegisterCall(cs[0]);
      assert calls[1..] == Registered(cs[1..]) + rest;
      ReplayRegistered(cs[1..], stack + [cs[0]], rest);
      assert stack + [cs[0]] + cs[1..] == stack + cs;
    }
  }

  lemma {:induction false} ReplayUnregistered(cs: seq<AddonClass>, stack: seq<AddonClass>, rest: seq<ClassCall>)
    ensures Replay(Unregistered(Reversed(cs)) + rest, stack + cs) == Replay(rest, stack)
    decreases |cs|
  {
    if cs == [] {
      assert Unregistered(Reversed(cs)) + rest == rest;
      assert stack + cs == stack;
    } else {
      var top := stack + [cs[0]];
      var last := [UnregisterCall(cs[0])] + rest;
      assert Unregistered(Reversed(cs)) == Unregistered(Reversed(cs[1..])) + [UnregisterCall(cs[0])];
      assert Unregistered(Reversed(cs)) + rest == Unregistered(Reversed(cs[1..])) + last;
      assert stack + cs == top + cs[1..];
      ReplayUnregistered(cs[1..], top, last);
      assert last[1..] == rest;
      assert top[..|top| - 1] == stack;
    }
  }

  /**
   * Unregistering the classes in reverse right after registering them takes each one
   * down while it is the most recently registered: the registry ends where it began.
   */
  lemma TeardownMirrorsSetup(cs: seq<AddonClass>, stack: seq<AddonClass>)
    ensures Replay(Registered(cs) + Unregistered(Reversed(cs)), stack) == Some(stack)
  {
    ReplayRegistered(cs, stack, Unregistered(Reversed(cs)));
    ReplayUnregistered(cs, stack, []);
    assert Unregistered(Reversed(cs)) + [] == Unregistered(Reversed(cs));
  }

  /** A full register/unregister cycle on a host: the handler list returns to what it was, the calls nest. */
  method RegisterThenUnregister(host: Host)
    requires RenderCompleteHandler !in host.renderComplete
    modifies host
    ensures host.renderComplete == old(host.renderComplete)
    ensures !host.sceneHasSettings
    ensures |old(host.classCalls)| <= |host.classCalls|
    ensures Replay(host.classCalls[|old(host.classCalls)|..], []) == Some([])
  {
    ghost var before := host.classCalls;
    Register(host);
    Unregister(host);
    UnsubscribeUndoesSubscribe(old(host.renderComplete));
    assert host.classCalls[|before|..] == Registered(Classes) + Unregistered(Reversed(Classes));
    TeardownMirrorsSetup(Classes, []);
  }
}
