/**
 * The page-processor stage of the page middleware: after the view has
 * produced a response, every processor registered for the page's exact
 * slug and then every processor registered for its content model is
 * called in turn.  A processor may hand back a substitute response (which
 * ends the stage), a mapping (merged into the response's template context
 * without overwriting keys already there), a false value (ignored), or
 * anything else (an error).
 */
module Processors {

  /** What one call of a page processor gave back. */
  datatype ProcessorResult<V, R> =
    | Response(response: R)            // an HttpResponse
    | Mapping(items: map<string, V>)   // a dict
    | Falsy                            // None, or any other false value
    | Malformed(typeName: string)      // any other true value; typeName is how its type prints

  /**
   * One registration: the callable (known by its module and name, and by
   * what it returns for this request) and its "only for the current page" flag.
   */
  datatype Processor<V, R> = Processor(moduleName: string, name: string, exactPage: bool, result: ProcessorResult<V, R>)

  /** How the processor stage ended. */
  datatype Stop<R> =
    | Finished                   // every processor ran: the view's response is returned
    | ShortCircuit(response: R)  // a processor's response is returned instead
    | Failed(message: string)    // ValueError with this message

  /**
   * The whole effect of the stage: how it ended, the template context it
   * left, and how many registrations of the list it went through.
   */
  datatype RunResult<V, R> = RunResult(stop: Stop<R>, context: map<string, V>, consumed: nat)

  /** The ValueError message for a processor that returned neither a response nor a dict. */
  function ErrorMessage<V, R>(p: Processor<V, R>): string
    requires p.result.Malformed?
  {
    "The page processor " + p.moduleName + "." + p.name + " returned " + p.result.typeName
      + " but must return HttpResponse or dict."
  }

  /** Registry lookup; the registry is a default dictionary, so a missing key gives no processors. */
  function Lookup<V, R>(registry: map<string, seq<Processor<V, R>>>, key: string): seq<Processor<V, R>>
  {
    if key in registry then registry[key] else []
  }

  /** The processors the stage runs for a page: those for its slug, then those for its content model. */
  function ProcessorsFor<V, R>(registry: map<string, seq<Processor<V, R>>>, slug: string, contentModel: string)
    : seq<Processor<V, R>>
  {
    Lookup(registry, "slug:" + slug) + Lookup(registry, contentModel)
  }

  /** A processor flagged exact_page is passed over when the page is not the current one. */
  predicate Skipped<V, R>(p: Processor<V, R>, isCurrent: bool)
  {
    p.exactPage && !isCurrent
  }

  /** A processor that is called and ends the stage. */
  predicate Halts<V, R>(p: Processor<V, R>, isCurrent: bool)
  {
    !Skipped(p, isCurrent) && (p.result.Response? || p.result.Malformed?)
  }

  /** Registration j is called and returns a mapping that has key k. */
  predicate Writes<V, R>(procs: seq<Processor<V, R>>, isCurrent: bool, j: int, k: string)
  {
    0 <= j < |procs| && !Skipped(procs[j], isCurrent) && procs[j].result.Mapping? && k in procs[j].result.items
  }

  /** Registration j is the first one at or after lo to write key k. */
  predicate FirstWriter<V, R>(procs: seq<Processor<V, R>>, isCurrent: bool, lo: int, j: int, k: string)
  {
    lo <= j && Writes(procs, isCurrent, j, k) && forall l :: lo <= l < j ==> !Writes(procs, isCurrent, l, k)
  }

  /**
   * Merging one mapping into the context: keys already present keep their
   * value, every other key of the mapping is added with the mapping's value.
   */
  function Merge<V>(context: map<string, V>, items: map<string, V>): (merged: map<string, V>)
    ensures merged.Keys == context.Keys + items.Keys
    ensures forall k :: k in context ==> merged[k] == context[k]
    ensures forall k :: k in items && k !in context ==> merged[k] == items[k]
  {
    items + context
  }

  /** The context after a registration that does not end the stage has been passed over or called. */
  function Step<V, R>(p: Processor<V, R>, isCurrent: bool, context: map<string, V>): map<string, V>
  {
    if !Skipped(p, isCurrent) && p.result.Mapping? then Merge(context, p.result.items) else context
  }

  /**
   * The processor stage from registration i on, with the context as it
   * stands when registration i is reached.
   */
  function RunFrom<V, R>(procs: seq<Processor<V, R>>, isCurrent: bool, i: nat, context: map<string, V>)
    : (r: RunResult<V, R>)
    requires i <= |procs|
    decreases |procs| - i
    ensures i <= r.consumed <= |procs|
    ensures r.stop.Finished? ==> r.consumed == |procs|
    ensures !r.stop.Finished? ==> i < r.consumed
  {
    if i == |procs| then RunResult(Finished, context, |procs|)
    else
      var p := procs[i];
      if !Halts(p, isCurrent) then RunFrom(procs, isCurrent, i + 1, Step(p, isCurrent, context))
      else if p.result.Response? then RunResult(ShortCircuit(p.result.response), context, i + 1)
      else RunResult(Failed(ErrorMessage(p)), context, i + 1)
  }

  /**
   * Where the stage ends: at the first registration that is called and
   * returns a response (which becomes the stage's answer) or a malformed
   * value (which becomes a ValueError naming the processor), and at the end
   * of the list when there is no such registration.
   */
  lemma {:induction false} StageEndsAtFirstHalt<V, R>(
    procs: seq<Processor<V, R>>, isCurrent: bool, i: nat, context: map<string, V>)
    requires i <= |procs|
    ensures var r := RunFrom(procs, isCurrent, i, context);
              r.stop.Finished? <==> forall j :: i <= j < |procs| ==> !Halts(procs[j], isCurrent)
    ensures var r := RunFrom(procs, isCurrent, i, context);
              !r.stop.Finished? ==>
                && i < r.consumed
                && Halts(procs[r.consumed - 1], isCurrent)
                && (forall j :: i <= j < r.consumed - 1 ==> !Halts(procs[j], isCurrent))
                && (r.stop.ShortCircuit? ==> procs[r.consumed - 1].result == Response(r.stop.response))
                && (r.stop.Failed? ==> procs[r.consumed - 1].result.Malformed?
                                       && r.stop.message == ErrorMessage(procs[r.consumed - 1]))
    decreases |procs| - i
  {
    if i < |procs| && !Halts(procs[i], isCurrent) {
      StageEndsAtFirstHalt(procs, isCurrent, i + 1, Step(procs[i], isCurrent, context));
    }
  }

  /** A key already in the context keeps its value through the whole stage. */
  lemma {:induction false} ExistingKeysKept<V, R>(
    procs: seq<Processor<V, R>>, isCurrent: bool, i: nat, context: map<string, V>, k: string)
    requires i <= |procs|
    requires k in context
    ensures var r := RunFrom(procs, isCurrent, i, context); k in r.context && r.context[k] == context[k]
    decreases |procs| - i
  {
    if i < |procs| && !Halts(procs[i], isCurrent) {
      ExistingKeysKept(procs, isCurrent, i + 1, Step(procs[i], isCurrent, context), k);
    }
  }

  /**
   * A key that was not in the context is in it after the stage exactly
   * when some processor the stage called returned a mapping with that key.
   */
  lemma {:induction false} KeyAddedExactlyWhenWritten<V, R>(
    procs: seq<Processor<V, R>>, isCurrent: bool, i: nat, context: map<string, V>, k: string)
    requires i <= |procs|
    requires k !in context
    ensures var r := RunFrom(procs, isCurrent, i, context);
              k in r.context <==> exists j :: i <= j < r.consumed && Writes(procs, isCurrent, j, k)
    decreases |procs| - i
  {
    if i < |procs| {
      var r := RunFrom(procs, isCurrent, i, context);
      var next := Step(procs[i], isCurrent, context);
      if Halts(procs[i], isCurrent) {
        assert !Writes(procs, isCurrent, i, k);
      } else if k in next {
        assert Writes(procs, isCurrent, i, k);
        ExistingKeysKept(procs, isCurrent, i + 1, next, k);
      } else {
        assert !Writes(procs, isCurrent, i, k);
        KeyAddedExactlyWhenWritten(procs, isCurrent, i + 1, next, k);
      }
    }
  }

  /**
   * Per key, the earliest writer wins: a key the context lacked takes the
   * value of the first called processor whose mapping has it, and later
   * processors cannot change it.
   */
  lemma {:induction false} FirstWriterWins<V, R>(
    procs: seq<Processor<V, R>>, isCurrent: bool, i: nat, context: map<string, V>, k: string, j: nat)
    requires i <= |procs|
    requires i <= j < RunFrom(procs, isCurrent, i, context).consumed
    requires k !in context
    requires FirstWriter(procs, isCurrent, i, j, k)
    ensures var r := RunFrom(procs, isCurrent, i, context);
              k in r.context && r.context[k] == procs[j].result.items[k]
    decreases |procs| - i
  {
    var next := Step(procs[i], isCurrent, context);
    if j == i {
      ExistingKeysKept(procs, isCurrent, i + 1, next, k);
    } else {
      assert !Writes(procs, isCurrent, i, k);
      assert !Halts(procs[i], isCurrent);
      FirstWriterWins(procs, isCurrent, i + 1, next, k, j);
    }
  }

  /**
   * A skipped processor has no effect: whatever it would have returned,
   * the stage ends the same way with the same context.
   */
  lemma {:induction false} SkippedHasNoEffect<V, R>(
    procs: seq<Processor<V, R>>, procs': seq<Processor<V, R>>, isCurrent: bool, i: nat,
    context: map<string, V>, s: nat)
    requires i <= |procs| == |procs'|
    requires s < |procs| && Skipped(procs[s], isCurrent) && Skipped(procs'[s], isCurrent)
    requires forall j :: 0 <= j < |procs| && j != s ==> procs[j] == procs'[j]
    ensures RunFrom(procs, isCurrent, i, context) == RunFrom(procs', isCurrent, i, context)
    decreases |procs| - i
  {
    if i < |procs| {
      if i != s {
        assert procs[i] == procs'[i];
      }
      if !Halts(procs[i], isCurrent) {
        SkippedHasNoEffect(procs, procs', isCurrent, i + 1, Step(procs[i], isCurrent, context), s);
      }
    }
  }

  /**
   * Once a processor returns a response (or a malformed value) no later
   * processor runs: the registrations after it can be anything at all.
   */
  lemma {:induction false} LaterProcessorsNeverRun<V, R>(
    procs: seq<Processor<V, R>>, procs': seq<Processor<V, R>>, isCurrent: bool, i: nat,
    context: map<string, V>)
    requires i <= |procs|
    requires !RunFrom(procs, isCurrent, i, context).stop.Finished?
    requires RunFrom(procs, isCurrent, i, context).consumed <= |procs'|
    requires procs'[..RunFrom(procs, isCurrent, i, context).consumed]
          == procs[..RunFrom(procs, isCurrent, i, context).consumed]
    ensures RunFrom(procs', isCurrent, i, context) == RunFrom(procs, isCurrent, i, context)
    decreases |procs| - i
  {
    var c := RunFrom(procs, isCurrent, i, context).consumed;
    assert procs[i] == procs[..c][i] == procs'[i];
    if !Halts(procs[i], isCurrent) {
      LaterProcessorsNeverRun(procs, procs', isCurrent, i + 1, Step(procs[i], isCurrent, context));
    }
  }

  /**
   * When the stage ends early, the context is exactly what the processors
   * before the one that ended it made of it.
   */
  lemma {:induction false} HaltKeepsEarlierContext<V, R>(
    procs: seq<Processor<V, R>>, isCurrent: bool, i: nat, context: map<string, V>)
    requires i <= |procs|
    requires !RunFrom(procs, isCurrent, i, context).stop.Finished?
    ensures var r := RunFrom(procs, isCurrent, i, context);
              RunFrom(procs[..r.consumed - 1], isCurrent, i, context) == RunResult(Finished, r.context, r.consumed - 1)
    decreases |procs| - i
  {
    var p := procs[i];
    if Halts(p, isCurrent) {
      assert RunFrom(procs[..i], isCurrent, i, context) == RunResult(Finished, context, i);
    } else {
      var next := Step(p, isCurrent, context);
      assert RunFrom(procs, isCurrent, i, context) == RunFrom(procs, isCurrent, i + 1, next);
      HaltKeepsEarlierContext(procs, isCurrent, i + 1, next);
      var before := procs[..RunFrom(procs, isCurrent, i, context).consumed - 1];
      assert before[i] == p;
      assert RunFrom(before, isCurrent, i, context) == RunFrom(before, isCurrent, i + 1, next);
    }
  }

  /** A helper: the first registration to write key k, given one that does. */
  lemma FindFirstWriter<V, R>(procs: seq<Processor<V, R>>, isCurrent: bool, w: nat, k: string)
    returns (j: nat)
    requires Writes(procs, isCurrent, w, k)
    ensures j <= w && FirstWriter(procs, isCurrent, 0, j, k)
  {
    j := 0;
    while !Writes(procs, isCurrent, j, k)
      invariant j <= w
      invariant forall l :: 0 <= l < j ==> !Writes(procs, isCurrent, l, k)
      decreases w - j
    {
      j := j + 1;
    }
  }

  /**
   * Slug processors run before model processors, so when a slug processor
   * that the stage calls supplies a key the context lacked, the key's value
   * comes from a slug processor and never from a model processor.
   */
  lemma SlugProcessorsTakePrecedence<V, R>(
    slugProcs: seq<Processor<V, R>>, modelProcs: seq<Processor<V, R>>, isCurrent: bool,
    context: map<string, V>, k: string, w: nat)
    requires k !in context
    requires Writes(slugProcs, isCurrent, w, k)
    requires w < RunFrom(slugProcs + modelProcs, isCurrent, 0, context).consumed
    ensures var r := RunFrom(slugProcs + modelProcs, isCurrent, 0, context);
              k in r.context
              && exists j :: 0 <= j <= w && Writes(slugProcs, isCurrent, j, k)
                             && r.context[k] == slugProcs[j].result.items[k]
  {
    var all := slugProcs + modelProcs;
    assert all[w] == slugProcs[w];
    assert Writes(all, isCurrent, w, k);
    var j := FindFirstWriter(all, isCurrent, w, k);
    FirstWriterWins(all, isCurrent, 0, context, k, j);
    assert all[j] == slugProcs[j];
    assert Writes(slugProcs, isCurrent, j, k);
  }

  /** The response whose template context the processors extend in place. */
  class TemplateResponse<V> {
    var contextData: map<string, V>

    constructor (contextData: map<string, V>)
      ensures this.contextData == contextData
    {
      this.contextData := contextData;
    }
  }

  /** Merges a processor's mapping into the response's context key by key, in place. */
  method MergeInto<V>(response: TemplateResponse<V>, items: map<string, V>)
    modifies response
    ensures response.contextData == Merge(old(response.contextData), items)
  {
    var pending := items.Keys;
    while pending != {}
      invariant pending <= items.Keys
      invariant response.contextData == Merge(old(response.contextData), items - pending)
      decreases pending
    {
      var k :| k in pending;
      if k !in response.contextData {
        response.contextData := response.contextData[k := items[k]];
      }
      pending := pending - {k};
    }
    assert items - pending == items;
  }

  /**
   * The processor loop: runs the registrations in order, passing over the
   * skipped ones, and stops at the first response or malformed value.  It
   * does exactly what RunFrom describes, to the response's context in place.
   */
  method RunProcessors<V, R>(procs: seq<Processor<V, R>>, isCurrent: bool, response: TemplateResponse<V>)
    returns (stop: Stop<R>, ghost consumed: nat)
    modifies response
    ensures RunFrom(procs, isCurrent, 0, old(response.contextData)) == RunResult(stop, response.contextData, consumed)
  {
    var i := 0;
    while i < |procs|
      invariant i <= |procs|
      invariant RunFrom(procs, isCurrent, 0, old(response.contextData))
             == RunFrom(procs, isCurrent, i, response.contextData)
    {
      var p := procs[i];
      if Skipped(p, isCurrent) {
        i := i + 1;
        continue;
      }
      match p.result {
        case Response(resp) =>
          stop, consumed := ShortCircuit(resp), i + 1;
          return;
        case Malformed(_) =>
          stop, consumed := Failed(ErrorMessage(p)), i + 1;
          return;
        case Falsy =>
        case Mapping(items) =>
          MergeInto(response, items);
      }
      i := i + 1;
    }
    stop, consumed := Finished, |procs|;
  }
}
