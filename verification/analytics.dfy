/**
 * The values the analytics tracker works on, and a functional specification of
 * one `captureEvent` call: from the calling tracker's current context, the two
 * shared buffers and the call's arguments, the buffers afterwards and the
 * events handed to the analytics sink, in order.
 */
module Analytics {
  import opened Wrappers

  /** A primitive JavaScript value as it appears in a context or an attribute map. */
  datatype Primitive = Str(s: string) | Num(n: real) | Bool(b: bool)

  /** An analytics context: key to value. A key holding `undefined` is absent. */
  type Context = map<string, Primitive>

  /** Event attributes: passed through untouched, never inspected. */
  type Attributes = map<string, Primitive>

  // Context keys the tracker reads or writes.
  const ElementKey := "_element"
  const PluginIdKey := "pluginId"
  const ExtensionKey := "extension"
  const RouteRefKey := "routeRef"

  // Reserved action names and identifiers.
  const RenderedAction := "_routable-extension-rendered"
  const NavigateAction := "navigate"
  const GatheredMarker := "gathered"
  const RootPluginId := "root"
  const AppExtension := "App"

  /** An event as handed to the sink, and as stored in the gathered-navigation buffer. */
  datatype Event = Event(
    action: string,
    subject: string,
    value: Option<real>,
    attributes: Option<Attributes>,
    context: Context)

  /** A routable-extension render marker: a context and nothing else. */
  datatype RenderRecord = RenderRecord(context: Context)

  /** The arguments of one `captureEvent` call. */
  datatype Call = Call(action: string, subject: string, value: Option<real>, attributes: Option<Attributes>)

  /** The two module-level buffers every tracker shares. */
  datatype Buffers = Buffers(navigations: seq<Event>, renders: seq<RenderRecord>)

  /** What a call leaves behind: the buffers afterwards and the events emitted, in order. */
  datatype Outcome = Outcome(buffers: Buffers, emitted: seq<Event>)

  /** One call as it reaches the shared store: the caller's current context and its arguments. */
  datatype Invocation = Invocation(context: Context, call: Call)

  /** The context of a tracker constructed without one. */
  function DefaultContext(): (r: Context)
    ensures r.Keys == {RouteRefKey, PluginIdKey, ExtensionKey} && ElementKey !in r
    ensures r[RouteRefKey] == Str("unknown")
    ensures r[PluginIdKey] == Str(RootPluginId) && r[ExtensionKey] == Str(AppExtension)
  {
    map[RouteRefKey := Str("unknown"), PluginIdKey := Str(RootPluginId), ExtensionKey := Str(AppExtension)]
  }

  /** The context with the internal `_element` marker removed (the rest of a destructuring). */
  function Strip(c: Context): (r: Context)
    ensures ElementKey !in r
    ensures forall k :: k in r <==> k in c && k != ElementKey
    ensures forall k :: k in r ==> r[k] == c[k]
  {
    c - {ElementKey}
  }

  /** The internal marker of a context, `undefined` when the key is absent. */
  function Element(c: Context): (r: Option<Primitive>)
    ensures r.None? <==> ElementKey !in c
    ensures r.Some? ==> r.value == c[ElementKey]
  {
    if ElementKey in c then Some(c[ElementKey]) else None
  }

  /** A `navigate` on a gathered mount point owned by the root plugin: deferred, never emitted directly. */
  predicate IsGatheredNavigation(action: string, c: Context): (r: bool)
    ensures r <==> && action == NavigateAction
                   && ElementKey in c && c[ElementKey] == Str(GatheredMarker)
                   && PluginIdKey in c && c[PluginIdKey] == Str(RootPluginId)
  {
    var rest := Strip(c);
    action == NavigateAction
    && Element(c) == Some(Str(GatheredMarker))
    && PluginIdKey in rest && rest[PluginIdKey] == Str(RootPluginId)
  }

  /** The record pushed for a render marker: the stripped context with `extension` forced to `App`. */
  function RenderRecordOf(c: Context): (r: RenderRecord)
    ensures ElementKey !in r.context
    ensures ExtensionKey in r.context && r.context[ExtensionKey] == Str(AppExtension)
    ensures forall k :: k in r.context <==> (k in c && k != ElementKey) || k == ExtensionKey
    ensures forall k :: k in r.context && k != ExtensionKey ==> r.context[k] == c[k]
  {
    RenderRecord(Strip(c)[ExtensionKey := Str(AppExtension)])
  }

  /** The event a non-marker call describes, under the stripped context. */
  function EventOf(call: Call, c: Context): (e: Event)
    ensures ElementKey !in e.context
  {
    Event(call.action, call.subject, call.value, call.attributes, Strip(c))
  }

  /** The value `pop()` returns: the last element, or `undefined` on an empty array. */
  function LastOf<T>(s: seq<T>): (r: Option<T>)
    ensures r.None? <==> |s| == 0
    ensures r.Some? ==> r.value == s[|s| - 1]
  {
    if |s| == 0 then None else Some(s[|s| - 1])
  }

  /**
   * The top-level spread `{...navigation, ...render}`. A render record has only a
   * `context` key, so when present it replaces the navigation's context whole;
   * spreading `undefined` adds nothing.
   */
  function Merge(navigation: Event, render: Option<RenderRecord>): (r: Event)
    ensures r.action == navigation.action && r.subject == navigation.subject
    ensures r.value == navigation.value && r.attributes == navigation.attributes
    ensures render.None? ==> r.context == navigation.context
    ensures render.Some? ==> r.context == render.value.context
  {
    match render
    case None => navigation
    case Some(record) => navigation.(context := record.context)
  }

  /**
   * The flush a non-marker call starts with: when a gathered navigation is
   * pending, pop the last navigation and the last render (if any), emit their
   * merge, then truncate both buffers; otherwise nothing happens.
   */
  function Flush(b: Buffers): (r: Outcome)
    ensures |b.navigations| == 0 ==> r == Outcome(b, [])
    ensures |b.navigations| > 0 ==> r.buffers == Buffers([], []) && |r.emitted| == 1
  {
    if |b.navigations| == 0 then Outcome(b, [])
    else
      var navigation := b.navigations[|b.navigations| - 1];
      Outcome(Buffers([], []), [Merge(navigation, LastOf(b.renders))])
  }

  /** One `captureEvent` call made under context `c` against the buffers `b`. */
  function Step(c: Context, b: Buffers, call: Call): (r: Outcome)
    ensures |r.emitted| <= 2
  {
    if call.action == RenderedAction then
      Outcome(b.(renders := b.renders + [RenderRecordOf(c)]), [])
    else
      var flushed := Flush(b);
      if IsGatheredNavigation(call.action, c) then
        var after := flushed.buffers;
        Outcome(after.(navigations := after.navigations + [EventOf(call, c)]), flushed.emitted)
      else
        Outcome(flushed.buffers, flushed.emitted + [EventOf(call, c)])
  }

  /** A sequence of calls, from any trackers sharing the buffers, made one after another. */
  function Run(b: Buffers, invocations: seq<Invocation>): (r: Outcome)
    ensures |r.emitted| <= 2 * |invocations|
    ensures |invocations| == 0 ==> r == Outcome(b, [])
    decreases |invocations|
  {
    if |invocations| == 0 then Outcome(b, [])
    else
      var first := Step(invocations[0].context, b, invocations[0].call);
      var rest := Run(first.buffers, invocations[1..]);
      Outcome(rest.buffers, first.emitted + rest.emitted)
  }

  /** No event in `s` carries the internal marker. */
  predicate Stripped(s: seq<Event>) {
    forall i :: 0 <= i < |s| ==> ElementKey !in s[i].context
  }

  /** What the shared buffers keep between calls: at most one pending navigation, only stripped contexts. */
  predicate StoreInv(b: Buffers) {
    && |b.navigations| <= 1
    && Stripped(b.navigations)
    && (forall i :: 0 <= i < |b.renders| ==> ElementKey !in b.renders[i].context)
  }
}
