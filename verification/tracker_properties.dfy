/**
 * What one `captureEvent` call does, and what holds over any sequence of calls
 * made against the shared buffers.
 */
module TrackerProperties {
  import opened Wrappers
  import opened Analytics

  /**
   * A render marker emits nothing. It pushes exactly one record, holding the
   * stripped context with `extension` forced to `App`, and it leaves the
   * gathered navigations alone.
   */
  lemma RenderMarkerOnlyRecords(c: Context, b: Buffers, call: Call)
    requires call.action == RenderedAction
    ensures var r := Step(c, b, call);
      && r.emitted == []
      && r.buffers.navigations == b.navigations
      && |r.buffers.renders| == |b.renders| + 1
      && r.buffers.renders[..|b.renders|] == b.renders
      && r.buffers.renders[|b.renders|].context == Strip(c)[ExtensionKey := Str(AppExtension)]
  {
  }

  /**
   * A non-marker call with a navigation pending emits the merge of the last
   * navigation and the last render first, and leaves the render buffer empty
   * and nothing of the old navigations behind.
   */
  lemma PendingNavigationFlushedFirst(c: Context, b: Buffers, call: Call)
    requires call.action != RenderedAction
    requires |b.navigations| > 0
    ensures var r := Step(c, b, call);
      var navigation := b.navigations[|b.navigations| - 1];
      && 1 <= |r.emitted|
      && r.emitted[0].action == navigation.action
      && r.emitted[0].subject == navigation.subject
      && r.emitted[0].value == navigation.value
      && r.emitted[0].attributes == navigation.attributes
      && r.emitted[0].context == (if |b.renders| > 0 then b.renders[|b.renders| - 1].context else navigation.context)
      && r.buffers.renders == []
      && r.buffers.navigations == (if IsGatheredNavigation(call.action, c) then [EventOf(call, c)] else [])
  {
  }

  /**
   * A gathered navigation is never emitted directly: the only emission is the
   * flush of a pending navigation, and afterwards it is the one pending item.
   */
  lemma GatheredNavigationDeferred(c: Context, b: Buffers, call: Call)
    requires IsGatheredNavigation(call.action, c)
    ensures var r := Step(c, b, call);
      && r.buffers.navigations == [Event(call.action, call.subject, call.value, call.attributes, Strip(c))]
      && |r.emitted| == (if |b.navigations| > 0 then 1 else 0)
      && r.buffers.renders == (if |b.navigations| > 0 then [] else b.renders)
  {
  }

  /**
   * Any other call emits its own event, under the stripped current context,
   * last, after at most one flushed navigation; no navigation stays pending.
   */
  lemma OtherCallEmitsItselfLast(c: Context, b: Buffers, call: Call)
    requires call.action != RenderedAction
    requires !IsGatheredNavigation(call.action, c)
    ensures var r := Step(c, b, call);
      && |r.emitted| == (if |b.navigations| > 0 then 2 else 1)
      && r.emitted[|r.emitted| - 1] == Event(call.action, call.subject, call.value, call.attributes, Strip(c))
      && r.buffers.navigations == []
      && r.buffers.renders == (if |b.navigations| > 0 then [] else b.renders)
  {
  }

  /** One call keeps the buffer invariant and hands the sink no `_element`. */
  lemma StepKeepsStoreInv(c: Context, b: Buffers, call: Call)
    requires StoreInv(b)
    ensures StoreInv(Step(c, b, call).buffers)
    ensures Stripped(Step(c, b, call).emitted)
  {
  }

  /**
   * Over any sequence of calls from a store that keeps the invariant (a fresh
   * one does): at most one navigation is ever pending, and no context handed
   * to the sink contains `_element`.
   */
  lemma {:induction false} RunKeepsStoreInv(b: Buffers, invocations: seq<Invocation>)
    requires StoreInv(b)
    ensures StoreInv(Run(b, invocations).buffers)
    ensures Stripped(Run(b, invocations).emitted)
    decreases |invocations|
  {
    if |invocations| > 0 {
      var first := Step(invocations[0].context, b, invocations[0].call);
      StepKeepsStoreInv(invocations[0].context, b, invocations[0].call);
      RunKeepsStoreInv(first.buffers, invocations[1..]);
    }
  }

  /**
   * Emissions are bounded by calls: every call emits at most one event of its
   * own, and a flush emits one event only by emptying the navigation buffer.
   * Over a run, the events emitted plus the navigations still pending never
   * exceed the calls made plus the navigations pending at the start.
   */
  lemma {:induction false} RunEmitsAtMostOnePerCall(b: Buffers, invocations: seq<Invocation>)
    ensures |Run(b, invocations).emitted| + |Run(b, invocations).buffers.navigations|
         <= |invocations| + |b.navigations|
    decreases |invocations|
  {
    if |invocations| > 0 {
      var first := Step(invocations[0].context, b, invocations[0].call);
      assert |first.emitted| + |first.buffers.navigations| <= 1 + |b.navigations|;
      RunEmitsAtMostOnePerCall(first.buffers, invocations[1..]);
    }
  }

  /** Neither a render marker nor a gathered navigation. */
  predicate IsPlain(inv: Invocation) {
    inv.call.action != RenderedAction && !IsGatheredNavigation(inv.call.action, inv.context)
  }

  /**
   * With no navigation pending, a sequence of plain calls emits exactly one
   * event per call, in call order, each under its caller's stripped context,
   * and leaves the buffers as they were.
   */
  lemma {:induction false} PlainCallsEmitInOrder(b: Buffers, invocations: seq<Invocation>)
    requires b.navigations == []
    requires forall i :: 0 <= i < |invocations| ==> IsPlain(invocations[i])
    ensures Run(b, invocations).buffers == b
    ensures |Run(b, invocations).emitted| == |invocations|
    ensures forall i :: 0 <= i < |invocations| ==>
      Run(b, invocations).emitted[i] == EventOf(invocations[i].call, invocations[i].context)
    decreases |invocations|
  {
    if |invocations| > 0 {
      var first := Step(invocations[0].context, b, invocations[0].call);
      assert first == Outcome(b, [EventOf(invocations[0].call, invocations[0].context)]);
      PlainCallsEmitInOrder(b, invocations[1..]);
      var rest := Run(b, invocations[1..]);
      forall i | 0 <= i < |invocations|
        ensures Run(b, invocations).emitted[i] == EventOf(invocations[i].call, invocations[i].context)
      {
        if i > 0 {
          assert Run(b, invocations).emitted[i] == rest.emitted[i - 1];
          assert invocations[1..][i - 1] == invocations[i];
        }
      }
    }
  }

  /**
   * Once flushed, a navigation is gone: after a plain call has flushed it, the
   * next plain call emits only its own event.
   */
  lemma FlushedNavigationNotReemitted(b: Buffers, first: Invocation, second: Invocation)
    requires |b.navigations| > 0
    requires IsPlain(first) && IsPlain(second)
    ensures Run(b, [first, second]).emitted[2..] == [EventOf(second.call, second.context)]
    ensures |Run(b, [first, second]).emitted| == 3
  {
    var r1 := Step(first.context, b, first.call);
    var r2 := Step(second.context, r1.buffers, second.call);
    assert r1.buffers == Buffers([], []) && |r1.emitted| == 2;
    assert r2.emitted == [EventOf(second.call, second.context)];
    assert [first, second][1..] == [second];
    assert [second][1..] == [];
    assert Run(r2.buffers, []) == Outcome(r2.buffers, []);
    assert Run(r1.buffers, [second]) == Outcome(r2.buffers, r2.emitted);
    assert Run(b, [first, second]).emitted == r1.emitted + r2.emitted;
  }

  /**
   * A render marker arriving while a gathered navigation is pending enriches
   * it: the next plain call emits the navigation under the marker's context
   * (stripped, `extension` forced to `App`), then its own event.
   */
  lemma {:induction false} RenderEnrichesPendingNavigation(
    navigation: Invocation, render: Invocation, next: Invocation)
    requires IsGatheredNavigation(navigation.call.action, navigation.context)
    requires render.call.action == RenderedAction
    requires IsPlain(next)
    ensures var r := Run(Buffers([], []), [navigation, render, next]);
      && r.emitted == [
        EventOf(navigation.call, navigation.context).(context := RenderRecordOf(render.context).context),
        EventOf(next.call, next.context)]
      && r.buffers == Buffers([], [])
  {
    var invs := [navigation, render, next];
    var r1 := Step(navigation.context, Buffers([], []), navigation.call);
    assert r1 == Outcome(Buffers([EventOf(navigation.call, navigation.context)], []), []);
    var r2 := Step(render.context, r1.buffers, render.call);
    assert r2 == Outcome(Buffers(r1.buffers.navigations, [RenderRecordOf(render.context)]), []);
    var r3 := Step(next.context, r2.buffers, next.call);
    assert r3.buffers == Buffers([], []);
    assert r3.emitted == [
      EventOf(navigation.call, navigation.context).(context := RenderRecordOf(render.context).context),
      EventOf(next.call, next.context)];
    assert invs[1..] == [render, next];
    assert invs[1..][1..] == [next];
    assert invs[1..][1..][1..] == [];
    assert Run(r3.buffers, []) == Outcome(r3.buffers, []);
    assert Run(r2.buffers, [next]) == Outcome(r3.buffers, r3.emitted);
    assert Run(r1.buffers, [render, next]) == Outcome(r3.buffers, r3.emitted);
  }

  /** A tracker with the default context emits its `navigate` calls directly. */
  lemma DefaultContextNeverGathers(action: string)
    ensures !IsGatheredNavigation(action, DefaultContext())
  {
    assert ElementKey !in DefaultContext();
  }

  /**
   * The gathered-navigation scenario: under a gathered root context, a
   * `navigate` to /home emits nothing and stays pending; the following click
   * emits the navigation, then the click, both without the marker.
   */
  lemma HomeThenClick()
    ensures var c := map[PluginIdKey := Str(RootPluginId), ExtensionKey := Str(AppExtension),
                         RouteRefKey := Str("r1"), ElementKey := Str(GatheredMarker)];
      var stripped := map[PluginIdKey := Str(RootPluginId), ExtensionKey := Str(AppExtension),
                          RouteRefKey := Str("r1")];
      var home := Call(NavigateAction, "/home", None, None);
      var click := Call("click", "button-1", None, None);
      && Step(c, Buffers([], []), home) == Outcome(Buffers([Event(NavigateAction, "/home", None, None, stripped)], []), [])
      && Run(Buffers([], []), [Invocation(c, home), Invocation(c, click)]).emitted
         == [Event(NavigateAction, "/home", None, None, stripped), Event("click", "button-1", None, None, stripped)]
  {
    var c := map[PluginIdKey := Str(RootPluginId), ExtensionKey := Str(AppExtension),
                 RouteRefKey := Str("r1"), ElementKey := Str(GatheredMarker)];
    var stripped := map[PluginIdKey := Str(RootPluginId), ExtensionKey := Str(AppExtension),
                        RouteRefKey := Str("r1")];
    assert Strip(c) == stripped;
    var home := Call(NavigateAction, "/home", None, None);
    var click := Call("click", "button-1", None, None);
    assert IsGatheredNavigation(NavigateAction, c);
    assert !IsGatheredNavigation("click", c);
    var invs := [Invocation(c, home), Invocation(c, click)];
    var r1 := Step(c, Buffers([], []), home);
    assert r1 == Outcome(Buffers([Event(NavigateAction, "/home", None, None, stripped)], []), []);
    var r2 := Step(c, r1.buffers, click);
    assert r2.emitted == [Event(NavigateAction, "/home", None, None, stripped), Event("click", "button-1", None, None, stripped)];
    assert invs[1..] == [Invocation(c, click)];
    assert invs[1..][1..] == [];
    assert Run(r2.buffers, []) == Outcome(r2.buffers, []);
    assert Run(r1.buffers, [Invocation(c, click)]) == Outcome(r2.buffers, r2.emitted);
  }
}
