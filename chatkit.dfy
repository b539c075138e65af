/**
  * `useChatKit` (src/composables/useChatKit.ts): splits the stabilized
  * options into plain options and event handlers, and forwards six methods
  * to the mounted element, warning while nothing is mounted.
  */
module ChatKit {
  import opened Wrappers
  import opened JsValue
  import opened DeepEqual
  import opened Rewrap
  import opened StableOptions

  /** `CHATKIT_METHOD_NAMES` (lines 19-26): the methods forwarded to the element. */
  const ChatKitMethodNames: seq<string> :=
    ["focusComposer", "setThreadId", "sendUserMessage", "setComposerValue", "fetchUpdates", "sendCustomAction"]

  const NotMountedWarning: string := "ChatKit element is not mounted"

  /** The error a call through `?.()` throws when the value is neither nullish nor a function. */
  const NotAFunction: string := "TypeError: handler is not a function"

  /** The one key that matches the handler pattern but is an option. */
  const ClientToolKey: string := "onClientTool"

  /** `[A-Z]` */
  predicate IsAsciiUpper(c: char) {
    'A' <= c <= 'Z'
  }

  /**
    * `/^on[A-Z]/.test(key) && key !== 'onClientTool'` (line 112): `on`
    * followed by an upper-case letter, with `onClientTool` kept as an option.
    */
  predicate IsHandlerKey(key: string)
    ensures IsHandlerKey(key) ==> |key| > 2 && key[0] == 'o' && key[1] == 'n' && 'A' <= key[2] <= 'Z'
    ensures key == ClientToolKey ==> !IsHandlerKey(key)
  {
    |key| >= 3 && key[..2] == "on" && IsAsciiUpper(key[2]) && key != ClientToolKey
  }

  /** The entries the effect puts into `nextHandlers`, in order. */
  function HandlerEntries(entries: seq<(string, Value)>): (hs: seq<(string, Value)>)
    ensures |hs| <= |entries|
    ensures forall i :: 0 <= i < |hs| ==> hs[i] in entries && IsHandlerKey(hs[i].0)
  {
    if |entries| == 0 then []
    else if IsHandlerKey(entries[0].0) then [entries[0]] + HandlerEntries(entries[1..])
    else HandlerEntries(entries[1..])
  }

  /** The entries the effect puts into `nextOptions`, in order. */
  function OptionEntries(entries: seq<(string, Value)>): (os: seq<(string, Value)>)
    ensures |os| <= |entries|
    ensures forall i :: 0 <= i < |os| ==> os[i] in entries && !IsHandlerKey(os[i].0)
  {
    if |entries| == 0 then []
    else if IsHandlerKey(entries[0].0) then OptionEntries(entries[1..])
    else [entries[0]] + OptionEntries(entries[1..])
  }

  /**
    * The split is a partition: together the two halves hold every entry
    * exactly once with its value unchanged, handlers hold only handler keys
    * and options only the rest.
    */
  lemma {:induction false} SplitIsPartition(entries: seq<(string, Value)>)
    ensures multiset(HandlerEntries(entries)) + multiset(OptionEntries(entries)) == multiset(entries)
    ensures forall e :: e in HandlerEntries(entries) <==> e in entries && IsHandlerKey(e.0)
    ensures forall e :: e in OptionEntries(entries) <==> e in entries && !IsHandlerKey(e.0)
  {
    if |entries| > 0 {
      SplitIsPartition(entries[1..]);
      assert entries == [entries[0]] + entries[1..];
    }
  }

  /** Which keys are handlers: the pattern needs a capital after `on`, and `onClientTool` is an option. */
  lemma HandlerKeyExamples()
    ensures IsHandlerKey("onResponseStart") && IsHandlerKey("onResponseEnd")
    ensures !IsHandlerKey("on") && !IsHandlerKey("onclick") && !IsHandlerKey("onClientTool")
    ensures !IsHandlerKey("theme") && !IsHandlerKey("api")
  {
  }

  /** The loop of the effect (lines 111-117): every entry goes to exactly one side, in order. */
  method SplitEntries(entries: seq<(string, Value)>) returns (options: seq<(string, Value)>, handlers: seq<(string, Value)>)
    ensures options == OptionEntries(entries) && handlers == HandlerEntries(entries)
    ensures multiset(options) + multiset(handlers) == multiset(entries)
    ensures forall e :: e in handlers <==> e in entries && IsHandlerKey(e.0)
  {
    options, handlers := [], [];
    var i := 0;
    while i < |entries|
      invariant 0 <= i <= |entries|
      invariant options == OptionEntries(entries[..i]) && handlers == HandlerEntries(entries[..i])
    {
      SplitAppend(entries[..i], entries[i]);
      if IsHandlerKey(entries[i].0) {
        handlers := handlers + [entries[i]];
      } else {
        options := options + [entries[i]];
      }
      assert entries[..i + 1] == entries[..i] + [entries[i]];
      i := i + 1;
    }
    assert entries[..i] == entries;
    SplitIsPartition(entries);
  }

  lemma {:induction false} SplitAppend(entries: seq<(string, Value)>, e: (string, Value))
    ensures HandlerEntries(entries + [e]) == HandlerEntries(entries) + (if IsHandlerKey(e.0) then [e] else [])
    ensures OptionEntries(entries + [e]) == OptionEntries(entries) + (if IsHandlerKey(e.0) then [] else [e])
  {
    if |entries| > 0 {
      SplitAppend(entries[1..], e);
      assert (entries + [e])[1..] == entries[1..] + [e];
    }
  }

  /** Looking a handler key up among the handlers finds what the whole option set holds there. */
  lemma {:induction false} LookupHandler(entries: seq<(string, Value)>, key: string)
    requires IsHandlerKey(key)
    ensures Lookup(HandlerEntries(entries), key) == Lookup(entries, key)
  {
    if |entries| > 0 {
      LookupHandler(entries[1..], key);
      if !IsHandlerKey(entries[0].0) {
        assert entries[0].0 != key;
      }
    }
  }

  /**
    * A handler taken from the stabilized options is the stable wrapper for
    * its key, and calling it reaches the handler of the latest options (with
    * the latest options as receiver), however many renders ago it was taken.
    */
  lemma HandlerCallsLatest(snapshot: Value, live: Value, key: string)
    requires WellFormed(snapshot) && WellFormed(live) && FnBlindEqual(snapshot, live) && snapshot.Rec?
    requires IsHandlerKey(key) && Lookup(HandlerEntries(Wrap(snapshot).fields), key).IsFunction()
    ensures Lookup(HandlerEntries(Wrap(snapshot).fields), key) == WrapperFor([Name(key)])
    ensures Get(live, Name(key)).IsFunction()
    ensures InvokeWrapper(live, WrapperFor([Name(key)])) == Some(Call(Get(live, Name(key)), live))
  {
    var q := [Name(key)];
    var w := Wrap(snapshot);
    assert w.Rec?;
    TopLevelPath(w, key);
    TopLevelPath(live, key);
    LookupHandler(w.fields, key);
    StableDispatch(snapshot, live, q);
  }

  /** A one-key path into a record reads that key. */
  lemma TopLevelPath(v: Value, key: string)
    requires !v.IsNullish()
    ensures GetByPath(v, [Name(key)]) == Get(v, Name(key))
  {
    assert [Name(key)][..0] == [];
  }

  /** A call forwarded to a mounted element. */
  datatype Forwarded = Forwarded(instance: nat, name: string, args: seq<Value>)

  /** The state `useChatKit` keeps for one component. */
  class ChatKitBinding {
    /** `useStableOptions(options)` */
    const stable: Stabilizer
    /** `elementRef`: the mounted element, by identity. */
    var element: Option<nat>
    /** `optionsRef` */
    var options: seq<(string, Value)>
    /** `handlersRef` */
    var handlers: seq<(string, Value)>
    /** The generation of the stabilized tree the effect last ran on. */
    var effectGeneration: nat
    /** Messages passed to `console.warn`. */
    var warnings: seq<string>
    /** Calls made on mounted elements, oldest first. */
    var forwarded: seq<Forwarded>

    ghost predicate Valid()
      reads this, stable
    {
      stable.Valid() && stable.snapshot.Rec? && effectGeneration == stable.generation
    }

    /** Lines 65-70 and the first, eager run of the effect. */
    constructor (initial: Value)
      requires initial.Rec? && WellFormed(initial)
      ensures Valid() && fresh(stable)
      ensures stable.latest == initial && stable.shaped == Wrap(initial)
      ensures options == OptionEntries(Wrap(initial).fields) && handlers == HandlerEntries(Wrap(initial).fields)
      ensures element == None && warnings == [] && forwarded == []
    {
      var s := new Stabilizer(initial);
      stable := s;
      element := None;
      handlers := [];
      options := s.shaped.fields;
      effectGeneration := s.generation;
      warnings := [];
      forwarded := [];
      new;
      RunEffect();
    }

    /** The effect (lines 106-121): both refs are recomputed from the same stabilized tree in one step. */
    method RunEffect()
      requires stable.Valid() && stable.snapshot.Rec?
      modifies this
      ensures Valid()
      ensures options == OptionEntries(stable.shaped.fields) && handlers == HandlerEntries(stable.shaped.fields)
      ensures element == old(element) && warnings == old(warnings) && forwarded == old(forwarded)
    {
      var nextOptions, nextHandlers := SplitEntries(stable.shaped.fields);
      options := nextOptions;
      handlers := nextHandlers;
      effectGeneration := stable.generation;
    }

    /**
      * The host writes a new options value: the stabilizer runs, and the
      * effect runs again only when the stabilized tree was replaced.
      */
    method SourceChanged(next: Value)
      requires Valid() && next.Rec? && WellFormed(next)
      modifies this, stable
      ensures Valid() && stable.latest == next
      ensures FnBlindEqual(old(stable.snapshot), next) ==>
        options == old(options) && handlers == old(handlers) && stable.shaped == old(stable.shaped)
      ensures !FnBlindEqual(old(stable.snapshot), next) ==>
        options == OptionEntries(Wrap(next).fields) && handlers == HandlerEntries(Wrap(next).fields)
      ensures element == old(element) && warnings == old(warnings) && forwarded == old(forwarded)
    {
      stable.Update(next);
      if stable.generation != effectGeneration {
        RunEffect();
      }
    }

    /** `setInstance` (lines 86-88) */
    method SetInstance(instance: Option<nat>)
      modifies this`element
      ensures element == instance
    {
      element := instance;
    }

    /** The `control.options` setter (lines 95-97): holds until the next effect run. */
    method SetOptions(value: seq<(string, Value)>)
      modifies this`options
      ensures options == value
    {
      options := value;
    }

    /** The `control.handlers` setter (lines 101-103): holds until the next effect run. */
    method SetHandlers(value: seq<(string, Value)>)
      modifies this`handlers
      ensures handlers == value
    {
      handlers := value;
    }

    /**
      * A consumer calls `control.handlers[key]?.()`: `null` or `undefined`
      * is skipped, a stable wrapper dispatches through the latest options, a
      * handler installed directly is called on the handlers object, and any
      * other value throws a `TypeError`.
      */
    method CallHandler(key: string) returns (r: Result<Option<Call>, string>)
      requires Valid()
      ensures (handlers == HandlerEntries(stable.shaped.fields) && IsHandlerKey(key) &&
               Get(stable.latest, Name(key)).IsFunction()) ==>
        r == Ok(Some(Call(Get(stable.latest, Name(key)), stable.latest)))
      ensures Lookup(handlers, key).IsNullish() ==> r == Ok(None)
      ensures Lookup(handlers, key).Fn? ==> r == Ok(Some(Call(Lookup(handlers, key), Rec(handlers))))
      ensures !Lookup(handlers, key).IsNullish() && !Lookup(handlers, key).IsFunction() ==> r == Err(NotAFunction)
    {
      var handler := Lookup(handlers, key);
      if handler.Wrapper? {
        r := Ok(InvokeWrapper(stable.latest, handler));
      } else if handler.Fn? {
        r := Ok(Some(Call(handler, Rec(handlers))));
      } else if handler.IsNullish() {
        r := Ok(None);
      } else {
        r := Err(NotAFunction);
      }
      if handlers == HandlerEntries(stable.shaped.fields) && IsHandlerKey(key) && Get(stable.latest, Name(key)).IsFunction() {
        FnBlindEqualSymmetric(stable.snapshot, stable.latest);
        GetKeepsEquality(stable.latest, stable.snapshot, Name(key));
        LookupHandler(stable.shaped.fields, key);
        LookupWrapped(stable.snapshot.fields, stable.shaped.fields, [], key);
        HandlerCallsLatest(stable.snapshot, stable.latest, key);
      }
    }

    /**
      * One of the forwarded methods (lines 74-80).  Unmounted: one warning,
      * `undefined`, nothing called.  Mounted: the call goes to the element
      * with the same arguments and its result is returned; `reply` stands for
      * what the element's method returns.
      */
    method CallMethod(name: string, args: seq<Value>, reply: Value) returns (r: Value)
      requires name in ChatKitMethodNames
      modifies this`warnings, this`forwarded
      ensures element.None? ==>
        r == Undefined && warnings == old(warnings) + [NotMountedWarning] && forwarded == old(forwarded)
      ensures element.Some? ==>
        r == reply && warnings == old(warnings) && forwarded == old(forwarded) + [Forwarded(element.value, name, args)]
    {
      if element.None? {
        warnings := warnings + [NotMountedWarning];
        return Undefined;
      }
      forwarded := forwarded + [Forwarded(element.value, name, args)];
      r := reply;
    }
  }

  /** Two of the forwarded method names. */
  lemma ForwardedNames()
    ensures "focusComposer" in ChatKitMethodNames && "setThreadId" in ChatKitMethodNames
  {
    assert ChatKitMethodNames[0] == "focusComposer" && ChatKitMethodNames[1] == "setThreadId";
  }

  /** The mount lifecycle of useChatKit.test.ts:37-73: warn before mount, forward after, warn again after unmount. */
  method MountScenario(initial: Value)
    requires initial.Rec? && WellFormed(initial)
  {
    ForwardedNames();
    var kit := new ChatKitBinding(initial);
    var r := kit.CallMethod("focusComposer", [], Undefined);
    assert kit.warnings == [NotMountedWarning] && kit.forwarded == [];
    kit.SetInstance(Some(7));
    r := kit.CallMethod("focusComposer", [], Str("done"));
    assert r == Str("done") && kit.forwarded == [Forwarded(7, "focusComposer", [])];
    kit.SetInstance(None);
    r := kit.CallMethod("setThreadId", [Str("t1")], Undefined);
    assert r == Undefined && |kit.warnings| == 2 && |kit.forwarded| == 1;
  }
}
