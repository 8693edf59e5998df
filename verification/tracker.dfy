/**
 * The tracker as the program has it: an object whose `captureEvent` pushes onto,
 * pops from and truncates two buffers shared by every tracker, and hands events
 * to an analytics sink that may throw. Each method is proved against the
 * functional specification `Analytics.Step`.
 */
module TrackerImpl {
  import opened Wrappers
  import opened Analytics
  import TrackerProperties

  /**
   * The analytics API the tracker forwards to. Only what it is handed is
   * observed; whether a call throws is outside the model's control.
   */
  class AnalyticsApi {
    /** Every event handed to the sink, in order, including those whose capture threw. */
    ghost var handed: seq<Event>
    /** How many of those captures threw. */
    ghost var failures: nat

    constructor ()
      ensures handed == [] && failures == 0
    {
      handed := [];
      failures := 0;
    }

    /** Takes an event; `threw` says whether the call raised an error. */
    method CaptureEvent(event: Event) returns (threw: bool)
      modifies this
      ensures handed == old(handed) + [event]
      ensures failures == old(failures) + (if threw then 1 else 0)
    {
      handed := handed + [event];
      threw :| true;
      if threw {
        failures := failures + 1;
      }
    }
  }

  /** The diagnostic channel a failed capture is reported on. */
  class Console {
    ghost var warnings: nat

    constructor ()
      ensures warnings == 0
    {
      warnings := 0;
    }

    method Warn()
      modifies this
      ensures warnings == old(warnings) + 1
    {
      warnings := warnings + 1;
    }
  }

  /** The module-level arrays of recent gathered navigations and routable-extension renders. */
  class GlobalStore {
    var gatheredNavigations: seq<Event>
    var routableExtensionRenders: seq<RenderRecord>

    constructor ()
      ensures gatheredNavigations == [] && routableExtensionRenders == []
      ensures StoreInv(Buffers())
    {
      gatheredNavigations := [];
      routableExtensionRenders := [];
    }

    function Buffers(): Buffers
      reads this
    {
      Analytics.Buffers(gatheredNavigations, routableExtensionRenders)
    }
  }

  class Tracker {
    const analyticsApi: AnalyticsApi
    const store: GlobalStore
    const console: Console
    var context: Context

    /** The store's invariant, which every tracker sharing it keeps. */
    ghost predicate Valid()
      reads this, store
    {
      StoreInv(store.Buffers())
    }

    constructor (analyticsApi: AnalyticsApi, store: GlobalStore, console: Console,
                 context: Context := DefaultContext())
      ensures this.analyticsApi == analyticsApi && this.store == store && this.console == console
      ensures this.context == context
    {
      this.analyticsApi := analyticsApi;
      this.store := store;
      this.console := console;
      this.context := context;
    }

    /** Replaces the context wholesale; no emission, no buffer change. */
    method SetContext(context: Context)
      modifies this`context
      ensures this.context == context
      ensures unchanged(store) && unchanged(analyticsApi) && unchanged(console)
    {
      this.context := context;
    }

    /**
     * Hands one event to the sink inside `try`/`catch`: a capture that throws
     * becomes one warning and is not propagated.
     */
    method Emit(event: Event)
      modifies analyticsApi, console
      ensures analyticsApi.handed == old(analyticsApi.handed) + [event]
      ensures console.warnings - old(console.warnings) == analyticsApi.failures - old(analyticsApi.failures)
      ensures old(console.warnings) <= console.warnings <= old(console.warnings) + 1
    {
      var threw := analyticsApi.CaptureEvent(event);
      if threw {
        console.Warn();
      }
    }

    /**
     * The flush before a real event: when a gathered navigation is pending, pop
     * it and the last render, emit their merge, and truncate both buffers,
     * whether or not the capture threw.
     */
    method FlushGathered()
      modifies store, analyticsApi, console
      ensures var r := Flush(old(store.Buffers()));
        && store.Buffers() == r.buffers
        && analyticsApi.handed == old(analyticsApi.handed) + r.emitted
        && old(console.warnings) <= console.warnings <= old(console.warnings) + |r.emitted|
      ensures console.warnings - old(console.warnings) == analyticsApi.failures - old(analyticsApi.failures)
    {
      if |store.gatheredNavigations| > 0 {
        var navigations := store.gatheredNavigations;
        var lastGatheredNavigation := navigations[|navigations| - 1];
        store.gatheredNavigations := navigations[..|navigations| - 1];
        var renders := store.routableExtensionRenders;
        var lastRoutableRender := LastOf(renders);
        if |renders| > 0 {
          store.routableExtensionRenders := renders[..|renders| - 1];
        }
        Emit(Merge(lastGatheredNavigation, lastRoutableRender));
        store.gatheredNavigations := [];
        store.routableExtensionRenders := [];
      }
    }

    /**
     * Records, flushes and emits as `Step` says; never throws. Each capture
     * that throws is reported as exactly one warning and changes nothing else. Every
     * tracker sharing the store keeps its invariant, and the sink never sees
     * an `_element`.
     */
    method CaptureEvent(action: string, subject: string,
                        value: Option<real> := None, attributes: Option<Attributes> := None)
      modifies store, analyticsApi, console
      ensures var r := Step(context, old(store.Buffers()), Call(action, subject, value, attributes));
        && store.Buffers() == r.buffers
        && analyticsApi.handed == old(analyticsApi.handed) + r.emitted
        && old(console.warnings) <= console.warnings <= old(console.warnings) + |r.emitted|
      ensures console.warnings - old(console.warnings) == analyticsApi.failures - old(analyticsApi.failures)
      ensures old(Valid()) ==> Valid()
      ensures old(Valid()) ==> Stripped(analyticsApi.handed[|old(analyticsApi.handed)|..])
    {
      ghost var before := store.Buffers();
      ghost var handedBefore := analyticsApi.handed;
      ghost var call := Call(action, subject, value, attributes);
      if StoreInv(before) {
        TrackerProperties.StepKeepsStoreInv(context, before, call);
      }

      // Never pass the internal `_element` context value on.
      var element := Element(context);
      var rest := Strip(context);

      if action == RenderedAction {
        store.routableExtensionRenders :=
          store.routableExtensionRenders + [RenderRecord(rest[ExtensionKey := Str(AppExtension)])];
        assert analyticsApi.handed[|handedBefore|..] == [];
        return;
      }

      FlushGathered();

      if action == NavigateAction && element == Some(Str(GatheredMarker))
         && PluginIdKey in rest && rest[PluginIdKey] == Str(RootPluginId)
      {
        store.gatheredNavigations :=
          store.gatheredNavigations + [Event(action, subject, value, attributes, rest)];
        assert analyticsApi.handed[|handedBefore|..] == Step(context, before, call).emitted;
        return;
      }

      Emit(Event(action, subject, value, attributes, rest));
      assert analyticsApi.handed[|handedBefore|..] == Step(context, before, call).emitted;
    }
  }
}
