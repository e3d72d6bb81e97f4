/// The daily update of laravel-geonames (the geonames:update console
/// command): the order in which it dispatches the ready event, downloads the
/// daily resources and hands each downloaded path to the supply or the
/// translate service.
///
/// The command is modelled as the trace of the calls it makes. What the
/// services then do with a file is not part of this model. A download that
/// raises ends the command: the exception leaves handle, and no later step
/// runs.

module ConsoleUpdate {

  type Path = string

  datatype Option<T> = None | Some(value: T)

  /// A resource of the download service, named after its download method.
  datatype Resource =
    | CountryInfoFile
    | DailyModifications
    | DailyDeletes
    | DailyAlternateNamesModifications
    | DailyAlternateNamesDeletes

  /// A call on the supply service or on the translate service.
  datatype Call = AddCountryInfo | SupplyModify | SupplyDelete | TranslateModify | TranslateDelete {

    /// The download whose returned path the call is given.
    function Source(): Resource
    {
      match this
      case AddCountryInfo => CountryInfoFile
      case SupplyModify => DailyModifications
      case SupplyDelete => DailyDeletes
      case TranslateModify => DailyAlternateNamesModifications
      case TranslateDelete => DailyAlternateNamesDeletes
    }

    predicate IsTranslation()
    {
      TranslateModify? || TranslateDelete?
    }
  }

  /// The call that consumes a resource.
  function Consumer(resource: Resource): (c: Call)
    ensures c.Source() == resource
  {
    match resource
    case CountryInfoFile => AddCountryInfo
    case DailyModifications => SupplyModify
    case DailyDeletes => SupplyDelete
    case DailyAlternateNamesModifications => TranslateModify
    case DailyAlternateNamesDeletes => TranslateDelete
  }

  /// One observable operation of the command.
  datatype Op =
    | Ready                                  // GeonamesCommandReady is dispatched
    | Download(resource: Resource, path: Path) // a download that returned a path
    | DownloadFailed(resource: Resource)     // a download that raised
    | Invoke(call: Call, path: Path)         // a service call with a downloaded path
    | Cleanup                                // cleanFolder

  /// What the download service answers for each resource: a path, or None
  /// when the download raises.
  type Downloads = Resource -> Option<Path>

  /// A step of handle, before it is run.
  datatype Step = Dispatch | Transfer(call: Call) | Clean

  /// The ops of a run, and whether it reached its end.
  datatype Trace = Trace(ops: seq<Op>, completed: bool)

  function RunStep(step: Step, downloads: Downloads): Trace
  {
    match step
    case Dispatch => Trace([Ready], true)
    case Clean => Trace([Cleanup], true)
    case Transfer(call) =>
      match downloads(call.Source())
      case Some(path) => Trace([Download(call.Source(), path), Invoke(call, path)], true)
      case None => Trace([DownloadFailed(call.Source())], false)
  }

  /// Runs the steps in order; a failed download stops the run.
  function Run(steps: seq<Step>, downloads: Downloads): Trace
  {
    if steps == [] then
      Trace([], true)
    else
      var first := RunStep(steps[0], downloads);
      if !first.completed then
        first
      else
        var rest := Run(steps[1..], downloads);
        Trace(first.ops + rest.ops, rest.completed)
  }

  // ---------------------------------------------------------------------------
  // The plan of handle

  /// prepare
  function PreparePlan(): seq<Step>
  {
    [Dispatch]
  }

  /// modify: country info first when the store asks for it.
  function ModifyPlan(supplyCountries: bool): seq<Step>
  {
    (if supplyCountries then [Transfer(AddCountryInfo)] else []) + [Transfer(SupplyModify)]
  }

  /// delete
  function DeletePlan(): seq<Step>
  {
    [Transfer(SupplyDelete)]
  }

  /// modifyTranslations: nothing under --without-translations.
  function ModifyTranslationsPlan(withoutTranslations: bool): seq<Step>
  {
    if withoutTranslations then [] else [Transfer(TranslateModify)]
  }

  /// deleteTranslations: nothing under --without-translations.
  function DeleteTranslationsPlan(withoutTranslations: bool): seq<Step>
  {
    if withoutTranslations then [] else [Transfer(TranslateDelete)]
  }

  /// handle: prepare, modify, delete, modifyTranslations,
  /// deleteTranslations, cleanFolder.
  function HandlePlan(supplyCountries: bool, withoutTranslations: bool): seq<Step>
  {
    PreparePlan() + ModifyPlan(supplyCountries) + DeletePlan()
    + ModifyTranslationsPlan(withoutTranslations) + DeleteTranslationsPlan(withoutTranslations)
    + [Clean]
  }

  function HandleTrace(supplyCountries: bool, withoutTranslations: bool, downloads: Downloads): Trace
  {
    Run(HandlePlan(supplyCountries, withoutTranslations), downloads)
  }

  // ---------------------------------------------------------------------------
  // The command object

  /// UpdateCommand with the services init assigns: what
  /// Geonames::shouldSupplyCountries answers and what the download service
  /// returns. The calls on the supply and translate services are recorded in
  /// trace.
  class UpdateCommand {
    const withoutTranslations: bool
    var supplyCountries: bool
    var downloads: Downloads
    var trace: seq<Op>

    constructor (withoutTranslations: bool)
      ensures this.withoutTranslations == withoutTranslations
      ensures trace == []
    {
      this.withoutTranslations := withoutTranslations;
      supplyCountries := false;
      downloads := (_: Resource) => None;
      trace := [];
    }

    /// handle; completed is false when a download raised.
    method Handle(geonamesSupplies: bool, downloadService: Downloads) returns (completed: bool)
      modifies this
      ensures supplyCountries == geonamesSupplies && downloads == downloadService
      ensures trace == old(trace) + HandleTrace(geonamesSupplies, withoutTranslations, downloadService).ops
      ensures completed == HandleTrace(geonamesSupplies, withoutTranslations, downloadService).completed
    {
      Init(geonamesSupplies, downloadService);
      ghost var start := trace;
      Prepare();
      ghost var plan := PreparePlan();
      ghost var before := trace;

      var ok := Modify();
      Extend(start, before, trace, plan, ModifyPlan(supplyCountries), downloads, true, ok);
      plan, before := plan + ModifyPlan(supplyCountries), trace;

      var wasOk := ok;
      if ok { ok := Delete(); }
      Extend(start, before, trace, plan, DeletePlan(), downloads, wasOk, ok);
      plan, before, wasOk := plan + DeletePlan(), trace, ok;

      if ok { ok := ModifyTranslations(); }
      Extend(start, before, trace, plan, ModifyTranslationsPlan(withoutTranslations), downloads, wasOk, ok);
      plan, before, wasOk := plan + ModifyTranslationsPlan(withoutTranslations), trace, ok;

      if ok { ok := DeleteTranslations(); }
      Extend(start, before, trace, plan, DeleteTranslationsPlan(withoutTranslations), downloads, wasOk, ok);
      plan, before, wasOk := plan + DeleteTranslationsPlan(withoutTranslations), trace, ok;

      if ok { CleanFolder(); }
      Extend(start, before, trace, plan, [Clean], downloads, wasOk, ok);
      assert plan + [Clean] == HandlePlan(supplyCountries, withoutTranslations);
      completed := ok;
    }

    /// init
    method Init(geonamesSupplies: bool, downloadService: Downloads)
      modifies this
      ensures supplyCountries == geonamesSupplies && downloads == downloadService
      ensures trace == old(trace)
    {
      supplyCountries := geonamesSupplies;
      downloads := downloadService;
    }

    /// prepare: the ready event.
    method Prepare()
      modifies this`trace
      ensures trace == old(trace) + [Ready]
    {
      trace := trace + [Ready];
    }

    /// Downloads the call's resource and hands the returned path to the call.
    method Fetch(call: Call) returns (ok: bool)
      modifies this`trace
      ensures trace == old(trace) + RunStep(Transfer(call), downloads).ops
      ensures ok == RunStep(Transfer(call), downloads).completed
    {
      match downloads(call.Source())
      case Some(path) =>
        trace := trace + [Download(call.Source(), path), Invoke(call, path)];
        ok := true;
      case None =>
        trace := trace + [DownloadFailed(call.Source())];
        ok := false;
    }

    /// modify
    method Modify() returns (ok: bool)
      modifies this`trace
      ensures trace == old(trace) + Run(ModifyPlan(supplyCountries), downloads).ops
      ensures ok == Run(ModifyPlan(supplyCountries), downloads).completed
    {
      RunSingle(Transfer(SupplyModify), downloads);
      if supplyCountries {
        RunSingle(Transfer(AddCountryInfo), downloads);
        RunAppend([Transfer(AddCountryInfo)], [Transfer(SupplyModify)], downloads);
        ok := Fetch(AddCountryInfo);
        if !ok {
          return;
        }
      } else {
        assert ModifyPlan(supplyCountries) == [Transfer(SupplyModify)];
      }
      ok := Fetch(SupplyModify);
    }

    /// delete
    method Delete() returns (ok: bool)
      modifies this`trace
      ensures trace == old(trace) + Run(DeletePlan(), downloads).ops
      ensures ok == Run(DeletePlan(), downloads).completed
    {
      RunSingle(Transfer(SupplyDelete), downloads);
      ok := Fetch(SupplyDelete);
    }

    /// modifyTranslations
    method ModifyTranslations() returns (ok: bool)
      modifies this`trace
      ensures trace == old(trace) + Run(ModifyTranslationsPlan(withoutTranslations), downloads).ops
      ensures ok == Run(ModifyTranslationsPlan(withoutTranslations), downloads).completed
    {
      if withoutTranslations {
        return true;
      }
      RunSingle(Transfer(TranslateModify), downloads);
      ok := Fetch(TranslateModify);
    }

    /// deleteTranslations
    method DeleteTranslations() returns (ok: bool)
      modifies this`trace
      ensures trace == old(trace) + Run(DeleteTranslationsPlan(withoutTranslations), downloads).ops
      ensures ok == Run(DeleteTranslationsPlan(withoutTranslations), downloads).completed
    {
      if withoutTranslations {
        return true;
      }
      RunSingle(Transfer(TranslateDelete), downloads);
      ok := Fetch(TranslateDelete);
    }

    /// cleanFolder
    method CleanFolder()
      modifies this`trace
      ensures trace == old(trace) + [Cleanup]
    {
      trace := trace + [Cleanup];
    }
  }

  // ---------------------------------------------------------------------------
  // Running a sequence of steps

  /// Running two plans one after the other is running their concatenation.
  lemma {:induction false} RunAppend(a: seq<Step>, b: seq<Step>, downloads: Downloads)
    ensures Run(a + b, downloads) ==
            if Run(a, downloads).completed
            then Trace(Run(a, downloads).ops + Run(b, downloads).ops, Run(b, downloads).completed)
            else Run(a, downloads)
  {
    if a == [] {
      assert a + b == b;
    } else {
      assert (a + b)[0] == a[0];
      assert (a + b)[1..] == a[1..] + b;
      RunAppend(a[1..], b, downloads);
      var first := RunStep(a[0], downloads);
      if first.completed {
        var tail := Run(a[1..], downloads);
        assert Run(a, downloads) == Trace(first.ops + tail.ops, tail.completed);
        if tail.completed {
          assert first.ops + (tail.ops + Run(b, downloads).ops) == first.ops + tail.ops + Run(b, downloads).ops;
        }
      }
    }
  }

  lemma RunSingle(step: Step, downloads: Downloads)
    ensures Run([step], downloads) == RunStep(step, downloads)
  {
    assert [step][1..] == [];
  }

  /// One stage of handle: the stage runs only when the stages before it
  /// completed.
  lemma Extend(start: seq<Op>, before: seq<Op>, after: seq<Op>, plan: seq<Step>, next: seq<Step>,
               downloads: Downloads, wasOk: bool, ok: bool)
    requires before == start + Run(plan, downloads).ops && wasOk == Run(plan, downloads).completed
    requires wasOk ==> after == before + Run(next, downloads).ops && ok == Run(next, downloads).completed
    requires !wasOk ==> after == before && ok == wasOk
    ensures after == start + Run(plan + next, downloads).ops
    ensures ok == Run(plan + next, downloads).completed
  {
    RunAppend(plan, next, downloads);
    if wasOk {
      assert after == start + (Run(plan, downloads).ops + Run(next, downloads).ops);
    }
  }

  // ---------------------------------------------------------------------------
  // Where each op comes from

  lemma ConsumerOfSource(call: Call)
    ensures Consumer(call.Source()) == call
  {
  }

  /// The step an op belongs to.
  function StepOf(op: Op): Step
  {
    match op
    case Ready => Dispatch
    case Download(resource, _) => Transfer(Consumer(resource))
    case DownloadFailed(resource) => Transfer(Consumer(resource))
    case Invoke(call, _) => Transfer(call)
    case Cleanup => Clean
  }

  /// A step's place in the fixed order of handle.
  function Rank(step: Step): nat
  {
    match step
    case Dispatch => 0
    case Transfer(AddCountryInfo) => 1
    case Transfer(SupplyModify) => 2
    case Transfer(SupplyDelete) => 3
    case Transfer(TranslateModify) => 4
    case Transfer(TranslateDelete) => 5
    case Clean => 6
  }

  /// The step of handle an op belongs to, as a rank.
  function Phase(op: Op): nat
  {
    Rank(StepOf(op))
  }

  predicate Ordered(steps: seq<Step>)
  {
    forall i, j :: 0 <= i < j < |steps| ==> Rank(steps[i]) <= Rank(steps[j])
  }

  predicate IsTranslationStep(step: Step)
  {
    step.Transfer? && step.call.IsTranslation()
  }

  /// An op of the translation steps: an alternate-names download or a
  /// translate-service call.
  predicate IsTranslationOp(op: Op)
  {
    IsTranslationStep(StepOf(op))
  }

  lemma RunStepOps(step: Step, downloads: Downloads)
    ensures forall i :: 0 <= i < |RunStep(step, downloads).ops| ==>
              StepOf(RunStep(step, downloads).ops[i]) == step
  {
    if step.Transfer? {
      ConsumerOfSource(step.call);
    }
  }

  /// Every op of a run belongs to one of the run's steps.
  lemma {:induction false} RunOpsFromSteps(steps: seq<Step>, downloads: Downloads)
    ensures forall i :: 0 <= i < |Run(steps, downloads).ops| ==> StepOf(Run(steps, downloads).ops[i]) in steps
  {
    if steps != [] {
      var first := RunStep(steps[0], downloads);
      RunStepOps(steps[0], downloads);
      if first.completed {
        RunOpsFromSteps(steps[1..], downloads);
        var ops := Run(steps, downloads).ops;
        forall i | 0 <= i < |ops| ensures StepOf(ops[i]) in steps {
          if i >= |first.ops| {
            assert ops[i] == Run(steps[1..], downloads).ops[i - |first.ops|];
          }
        }
      }
    }
  }

  /// Every service call comes right after the download of its own resource
  /// and is given the path that download returned; every download op records
  /// what the download service answered.
  predicate PathsMatch(ops: seq<Op>, downloads: Downloads)
  {
    && (forall i :: 0 <= i < |ops| && ops[i].Invoke? ==>
          && 0 < i
          && ops[i - 1] == Download(ops[i].call.Source(), ops[i].path)
          && downloads(ops[i].call.Source()) == Some(ops[i].path))
    && (forall i :: 0 <= i < |ops| && ops[i].Download? ==> downloads(ops[i].resource) == Some(ops[i].path))
    && (forall i :: 0 <= i < |ops| && ops[i].DownloadFailed? ==> downloads(ops[i].resource) == None)
  }

  /// The ops follow the fixed order of the steps of handle.
  predicate PhasesOrdered(ops: seq<Op>)
  {
    forall i, j :: 0 <= i < j < |ops| ==> Phase(ops[i]) <= Phase(ops[j])
  }

  lemma RunStepPaths(step: Step, downloads: Downloads)
    ensures PathsMatch(RunStep(step, downloads).ops, downloads)
  {
  }

  lemma {:induction false} PathsMatchAppend(a: seq<Op>, b: seq<Op>, downloads: Downloads)
    requires PathsMatch(a, downloads) && PathsMatch(b, downloads)
    ensures PathsMatch(a + b, downloads)
  {
    var ops := a + b;
    forall i | 0 <= i < |ops| && ops[i].Invoke?
      ensures 0 < i && ops[i - 1] == Download(ops[i].call.Source(), ops[i].path)
    {
      if i < |a| {
        assert ops[i] == a[i] && ops[i - 1] == a[i - 1];
      } else {
        assert ops[i] == b[i - |a|] && ops[i - 1] == b[i - 1 - |a|];
      }
    }
    forall i | 0 <= i < |ops| ensures ops[i] == if i < |a| then a[i] else b[i - |a|] {
    }
  }

  /// A service call comes right after the download of its own resource and
  /// is given the path that download returned.
  lemma {:induction false} RunPathsMatch(steps: seq<Step>, downloads: Downloads)
    ensures PathsMatch(Run(steps, downloads).ops, downloads)
  {
    if steps != [] {
      var first := RunStep(steps[0], downloads);
      RunStepPaths(steps[0], downloads);
      if first.completed {
        RunPathsMatch(steps[1..], downloads);
        var rest := Run(steps[1..], downloads).ops;
        assert PathsMatch(rest, downloads);
        PathsMatchAppend(first.ops, rest, downloads);
      }
    }
  }

  /// A run of ordered steps emits its ops in the same order.
  lemma {:induction false} RunOrdered(steps: seq<Step>, downloads: Downloads)
    requires Ordered(steps)
    ensures PhasesOrdered(Run(steps, downloads).ops)
  {
    if steps != [] {
      var first := RunStep(steps[0], downloads);
      RunStepOps(steps[0], downloads);
      if first.completed {
        var tail := steps[1..];
        assert Ordered(tail) by {
          forall i, j | 0 <= i < j < |tail| ensures Rank(tail[i]) <= Rank(tail[j]) {
            assert tail[i] == steps[i + 1] && tail[j] == steps[j + 1];
          }
        }
        RunOrdered(tail, downloads);
        RunOpsFromSteps(tail, downloads);
        var rest := Run(tail, downloads).ops;
        assert PhasesOrdered(rest);
        var ops := Run(steps, downloads).ops;
        assert ops == first.ops + rest;
        forall k | 0 <= k < |rest| ensures Rank(steps[0]) <= Phase(rest[k]) {
          var m :| 0 <= m < |tail| && tail[m] == StepOf(rest[k]);
          assert tail[m] == steps[m + 1];
        }
        forall i, j | 0 <= i < j < |ops| ensures Phase(ops[i]) <= Phase(ops[j]) {
          if j < |first.ops| {
            assert ops[i] == first.ops[i] && ops[j] == first.ops[j];
          } else if i < |first.ops| {
            assert ops[i] == first.ops[i];
            assert ops[j] == rest[j - |first.ops|];
          } else {
            assert ops[i] == rest[i - |first.ops|] && ops[j] == rest[j - |first.ops|];
          }
        }
      }
    }
  }

  /// A run fails only at a failed download, and that download is its last op.
  lemma {:induction false} RunStops(steps: seq<Step>, downloads: Downloads)
    ensures var t := Run(steps, downloads);
            forall i :: 0 <= i < |t.ops| && t.ops[i].DownloadFailed? ==> i == |t.ops| - 1 && !t.completed
    ensures var t := Run(steps, downloads);
            !t.completed ==> |t.ops| > 0 && t.ops[|t.ops| - 1].DownloadFailed?
  {
    if steps != [] {
      var first := RunStep(steps[0], downloads);
      if first.completed {
        RunStops(steps[1..], downloads);
        var rest := Run(steps[1..], downloads);
        var ops := Run(steps, downloads).ops;
        assert ops == first.ops + rest.ops;
        forall i | |first.ops| <= i < |ops| ensures ops[i] == rest.ops[i - |first.ops|] {
        }
      }
    }
  }

  /// A run completes exactly when every download it attempts succeeds.
  lemma {:induction false} RunCompletes(steps: seq<Step>, downloads: Downloads)
    ensures Run(steps, downloads).completed <==>
            forall k :: 0 <= k < |steps| && steps[k].Transfer? ==> downloads(steps[k].call.Source()).Some?
  {
    if steps != [] {
      RunCompletes(steps[1..], downloads);
      if RunStep(steps[0], downloads).completed {
        forall k | 0 < k < |steps| ensures steps[k] == steps[1..][k - 1] {
        }
      }
    }
  }

  /// When every download up to step k succeeds, the call of step k is made
  /// with the path of its download.
  lemma {:induction false} RunReaches(steps: seq<Step>, downloads: Downloads, k: nat)
    requires k < |steps| && steps[k].Transfer?
    requires forall m :: 0 <= m <= k && steps[m].Transfer? ==> downloads(steps[m].call.Source()).Some?
    ensures Invoke(steps[k].call, downloads(steps[k].call.Source()).value) in Run(steps, downloads).ops
  {
    var first := RunStep(steps[0], downloads);
    if k == 0 {
      assert Run(steps, downloads).ops[1] == first.ops[1];
    } else {
      var tail := steps[1..];
      assert tail[k - 1] == steps[k];
      forall m | 0 <= m <= k - 1 && tail[m].Transfer?
        ensures downloads(tail[m].call.Source()).Some?
      {
        assert tail[m] == steps[m + 1];
      }
      RunReaches(tail, downloads, k - 1);
      assert first.completed;
      assert Run(steps, downloads).ops == first.ops + Run(tail, downloads).ops;
    }
  }

  /// A call of c2 is preceded by a call of c1 when the plan transfers c1
  /// before its first transfer of c2: the failed download of c1 would have
  /// ended the run.
  lemma {:induction false} RunEarlierFirst(steps: seq<Step>, downloads: Downloads, c1: Call, c2: Call, k: nat, j: nat)
    requires k < |steps| && steps[k] == Transfer(c1)
    requires forall m :: 0 <= m <= k ==> steps[m] != Transfer(c2)
    requires j < |Run(steps, downloads).ops| && Run(steps, downloads).ops[j].Invoke?
             && Run(steps, downloads).ops[j].call == c2
    ensures exists i :: 0 <= i < j && Run(steps, downloads).ops[i].Invoke?
                        && Run(steps, downloads).ops[i].call == c1
  {
    var ops := Run(steps, downloads).ops;
    var first := RunStep(steps[0], downloads);
    RunStepOps(steps[0], downloads);
    if j < |first.ops| {
      assert false;
    }
    if steps[0] == Transfer(c1) {
      assert ops[1] == first.ops[1];
    } else {
      var rest := Run(steps[1..], downloads).ops;
      assert ops[j] == rest[j - |first.ops|];
      forall m | 0 <= m <= k - 1 ensures steps[1..][m] != Transfer(c2) {
        assert steps[1..][m] == steps[m + 1];
      }
      RunEarlierFirst(steps[1..], downloads, c1, c2, k - 1, j - |first.ops|);
      var i :| 0 <= i < j - |first.ops| && rest[i].Invoke? && rest[i].call == c1;
      assert ops[|first.ops| + i] == rest[i];
    }
  }

  // ---------------------------------------------------------------------------
  // The translation steps

  /// The plan without its translation steps.
  function DropTranslationSteps(steps: seq<Step>): (r: seq<Step>)
    ensures forall k :: 0 <= k < |r| ==> !IsTranslationStep(r[k])
  {
    if steps == [] then []
    else (if IsTranslationStep(steps[0]) then [] else [steps[0]]) + DropTranslationSteps(steps[1..])
  }

  /// The ops without those of the translation steps.
  function DropTranslationOps(ops: seq<Op>): (r: seq<Op>)
    ensures forall k :: 0 <= k < |r| ==> !IsTranslationOp(r[k])
  {
    if ops == [] then []
    else (if IsTranslationOp(ops[0]) then [] else [ops[0]]) + DropTranslationOps(ops[1..])
  }

  lemma {:induction false} DropTranslationOpsAppend(a: seq<Op>, b: seq<Op>)
    ensures DropTranslationOps(a + b) == DropTranslationOps(a) + DropTranslationOps(b)
  {
    if a == [] {
      assert a + b == b;
    } else {
      assert (a + b)[1..] == a[1..] + b;
      DropTranslationOpsAppend(a[1..], b);
    }
  }

  lemma {:induction false} DropTranslationOpsKeeps(ops: seq<Op>)
    requires forall i :: 0 <= i < |ops| ==> !IsTranslationOp(ops[i])
    ensures DropTranslationOps(ops) == ops
  {
    if ops != [] {
      assert forall i :: 0 <= i < |ops[1..]| ==> ops[1..][i] == ops[i + 1];
      DropTranslationOpsKeeps(ops[1..]);
    }
  }

  /// Leaving the translation steps out of a plan leaves their ops out of the
  /// run and changes nothing else, as long as their downloads would not
  /// have failed.
  lemma {:induction false} RunDropTranslations(steps: seq<Step>, downloads: Downloads)
    requires forall k :: 0 <= k < |steps| && IsTranslationStep(steps[k]) ==> downloads(steps[k].call.Source()).Some?
    ensures Run(DropTranslationSteps(steps), downloads)
            == Trace(DropTranslationOps(Run(steps, downloads).ops), Run(steps, downloads).completed)
  {
    if steps != [] {
      var first := RunStep(steps[0], downloads);
      var tail := steps[1..];
      forall k | 0 <= k < |tail| && IsTranslationStep(tail[k]) ensures downloads(tail[k].call.Source()).Some? {
        assert tail[k] == steps[k + 1];
      }
      RunDropTranslations(tail, downloads);
      RunStepOps(steps[0], downloads);
      if IsTranslationStep(steps[0]) {
        assert DropTranslationSteps(steps) == DropTranslationSteps(tail);
        assert first.completed;
        var ops := first.ops;
        assert IsTranslationOp(ops[0]) && IsTranslationOp(ops[1]);
        assert DropTranslationOps(ops) == [] by {
          assert |ops| == 2 && ops[1..][0] == ops[1] && ops[1..][1..] == [];
          assert DropTranslationOps(ops[1..]) == [];
        }
        DropTranslationOpsAppend(ops, Run(tail, downloads).ops);
        assert Run(steps, downloads).ops == ops + Run(tail, downloads).ops;
      } else {
        var kept := [steps[0]] + DropTranslationSteps(tail);
        assert kept[0] == steps[0] && kept[1..] == DropTranslationSteps(tail);
        DropTranslationOpsKeeps(first.ops);
        if first.completed {
          DropTranslationOpsAppend(first.ops, Run(tail, downloads).ops);
        }
      }
    }
  }

  // ---------------------------------------------------------------------------
  // What handle does

  /// The plan of handle, written out.
  lemma HandlePlanShape(supplyCountries: bool, withoutTranslations: bool)
    ensures HandlePlan(supplyCountries, withoutTranslations)
            == [Dispatch] + (if supplyCountries then [Transfer(AddCountryInfo)] else [])
               + [Transfer(SupplyModify), Transfer(SupplyDelete)]
               + (if withoutTranslations then [] else [Transfer(TranslateModify), Transfer(TranslateDelete)])
               + [Clean]
  {
  }

  /// The plan of handle is in the fixed order of its steps.
  lemma HandlePlanOrdered(supplyCountries: bool, withoutTranslations: bool)
    ensures Ordered(HandlePlan(supplyCountries, withoutTranslations))
  {
    HandlePlanShape(supplyCountries, withoutTranslations);
  }

  /// The plan of handle starts with its only Dispatch and ends with its
  /// only Clean; it holds AddCountryInfo only when the store asks for it and
  /// translation steps only without --without-translations.
  lemma HandlePlanSteps(supplyCountries: bool, withoutTranslations: bool, plan: seq<Step>)
    requires plan == HandlePlan(supplyCountries, withoutTranslations)
    ensures Ordered(plan)
    ensures plan[0] == Dispatch && Dispatch !in plan[1..]
    ensures plan == plan[..|plan| - 1] + [Clean] && Clean !in plan[..|plan| - 1]
    ensures forall k :: 0 <= k < |plan| && plan[k] == Transfer(AddCountryInfo) ==> supplyCountries
    ensures forall k :: 0 <= k < |plan| && IsTranslationStep(plan[k]) ==> !withoutTranslations
  {
    HandlePlanOrdered(supplyCountries, withoutTranslations);
    HandlePlanShape(supplyCountries, withoutTranslations);
  }

  /// The op at index i is a call of the given service method.
  predicate CallAt(ops: seq<Op>, i: int, call: Call)
  {
    0 <= i < |ops| && ops[i].Invoke? && ops[i].call == call
  }

  /// GeonamesCommandReady is dispatched first, and only once.
  lemma HandleReadyFirst(supplyCountries: bool, withoutTranslations: bool, downloads: Downloads, t: Trace)
    requires t == HandleTrace(supplyCountries, withoutTranslations, downloads)
    ensures |t.ops| > 0 && t.ops[0] == Ready
    ensures forall i :: 0 < i < |t.ops| ==> t.ops[i] != Ready
  {
    var plan := HandlePlan(supplyCountries, withoutTranslations);
    HandlePlanSteps(supplyCountries, withoutTranslations, plan);
    RunOpsFromSteps(plan[1..], downloads);
    var rest := Run(plan[1..], downloads).ops;
    assert t.ops == [Ready] + rest;
    forall i | 0 < i < |t.ops| ensures t.ops[i] != Ready {
      assert t.ops[i] == rest[i - 1];
    }
  }

  /// The ops follow the fixed order prepare, modify (country info first),
  /// delete, modifyTranslations, deleteTranslations, cleanFolder, and every
  /// service call is given the path its own download returned, right after
  /// that download.
  lemma HandleInOrder(supplyCountries: bool, withoutTranslations: bool, downloads: Downloads, t: Trace)
    requires t == HandleTrace(supplyCountries, withoutTranslations, downloads)
    ensures PhasesOrdered(t.ops)
    ensures PathsMatch(t.ops, downloads)
  {
    HandlePlanSteps(supplyCountries, withoutTranslations, HandlePlan(supplyCountries, withoutTranslations));
    RunOrdered(HandlePlan(supplyCountries, withoutTranslations), downloads);
    RunPathsMatch(HandlePlan(supplyCountries, withoutTranslations), downloads);
  }

  /// Country info is handed to the supply service exactly when the store
  /// asks for it and its download succeeds.
  lemma HandleSuppliesCountryInfo(supplyCountries: bool, withoutTranslations: bool, downloads: Downloads, t: Trace)
    requires t == HandleTrace(supplyCountries, withoutTranslations, downloads)
    ensures (exists i :: CallAt(t.ops, i, AddCountryInfo)) <==> supplyCountries && downloads(CountryInfoFile).Some?
  {
    var plan := HandlePlan(supplyCountries, withoutTranslations);
    HandlePlanSteps(supplyCountries, withoutTranslations, plan);
    if supplyCountries && downloads(CountryInfoFile).Some? {
      assert plan[1] == Transfer(AddCountryInfo);
      RunReaches(plan, downloads, 1);
      var i :| 0 <= i < |t.ops| && t.ops[i] == Invoke(AddCountryInfo, downloads(CountryInfoFile).value);
      assert CallAt(t.ops, i, AddCountryInfo);
    } else {
      RunOpsFromSteps(plan, downloads);
      RunPathsMatch(plan, downloads);
      forall i | CallAt(t.ops, i, AddCountryInfo) ensures false {
      }
    }
  }

  /// Country info, when it is handed over at all, is handed over before the
  /// daily modifications; when the store asks for it, no modifications are
  /// handed over without it.
  lemma HandleCountryInfoFirst(supplyCountries: bool, withoutTranslations: bool, downloads: Downloads, t: Trace)
    requires t == HandleTrace(supplyCountries, withoutTranslations, downloads)
    ensures forall i, j :: CallAt(t.ops, i, AddCountryInfo) && CallAt(t.ops, j, SupplyModify) ==> i < j
    ensures supplyCountries ==>
              forall j :: CallAt(t.ops, j, SupplyModify) ==> exists i :: 0 <= i < j && CallAt(t.ops, i, AddCountryInfo)
  {
    var plan := HandlePlan(supplyCountries, withoutTranslations);
    HandlePlanSteps(supplyCountries, withoutTranslations, plan);
    RunOrdered(plan, downloads);
    forall i, j | CallAt(t.ops, i, AddCountryInfo) && CallAt(t.ops, j, SupplyModify) ensures i < j {
      assert Phase(t.ops[i]) < Phase(t.ops[j]);
    }
    if supplyCountries {
      assert plan[1] == Transfer(AddCountryInfo) && plan[0] == Dispatch;
      forall j | CallAt(t.ops, j, SupplyModify) ensures exists i :: 0 <= i < j && CallAt(t.ops, i, AddCountryInfo) {
        RunEarlierFirst(plan, downloads, AddCountryInfo, SupplyModify, 1, j);
        var i :| 0 <= i < j && t.ops[i].Invoke? && t.ops[i].call == AddCountryInfo;
        assert CallAt(t.ops, i, AddCountryInfo);
      }
    }
  }

  /// Deletes are handed over after the modifications, and only when the
  /// modifications were.
  lemma HandleModifiesBeforeDeletes(supplyCountries: bool, withoutTranslations: bool, downloads: Downloads, t: Trace)
    requires t == HandleTrace(supplyCountries, withoutTranslations, downloads)
    ensures forall i, j :: CallAt(t.ops, i, SupplyModify) && CallAt(t.ops, j, SupplyDelete) ==> i < j
    ensures forall j :: CallAt(t.ops, j, SupplyDelete) ==> exists i :: 0 <= i < j && CallAt(t.ops, i, SupplyModify)
  {
    var plan := HandlePlan(supplyCountries, withoutTranslations);
    HandlePlanSteps(supplyCountries, withoutTranslations, plan);
    RunOrdered(plan, downloads);
    forall i, j | CallAt(t.ops, i, SupplyModify) && CallAt(t.ops, j, SupplyDelete) ensures i < j {
      assert Phase(t.ops[i]) < Phase(t.ops[j]);
    }
    var k := if supplyCountries then 2 else 1;
    assert plan[k] == Transfer(SupplyModify);
    assert forall m :: 0 <= m <= k ==> plan[m] != Transfer(SupplyDelete);
    forall j | CallAt(t.ops, j, SupplyDelete) ensures exists i :: 0 <= i < j && CallAt(t.ops, i, SupplyModify) {
      RunEarlierFirst(plan, downloads, SupplyModify, SupplyDelete, k, j);
      var i :| 0 <= i < j && t.ops[i].Invoke? && t.ops[i].call == SupplyModify;
      assert CallAt(t.ops, i, SupplyModify);
    }
  }

  /// Translation deletes are handed over after the translation
  /// modifications, and only when those were.
  lemma HandleTranslationsInOrder(supplyCountries: bool, withoutTranslations: bool, downloads: Downloads, t: Trace)
    requires t == HandleTrace(supplyCountries, withoutTranslations, downloads)
    ensures forall i, j :: CallAt(t.ops, i, TranslateModify) && CallAt(t.ops, j, TranslateDelete) ==> i < j
    ensures forall j :: CallAt(t.ops, j, TranslateDelete) ==> exists i :: 0 <= i < j && CallAt(t.ops, i, TranslateModify)
  {
    var plan := HandlePlan(supplyCountries, withoutTranslations);
    HandlePlanSteps(supplyCountries, withoutTranslations, plan);
    RunOrdered(plan, downloads);
    forall i, j | CallAt(t.ops, i, TranslateModify) && CallAt(t.ops, j, TranslateDelete) ensures i < j {
      assert Phase(t.ops[i]) < Phase(t.ops[j]);
    }
    if !withoutTranslations {
      var k := if supplyCountries then 4 else 3;
      assert plan[k] == Transfer(TranslateModify);
      assert forall m :: 0 <= m <= k ==> plan[m] != Transfer(TranslateDelete);
      forall j | CallAt(t.ops, j, TranslateDelete) ensures exists i :: 0 <= i < j && CallAt(t.ops, i, TranslateModify) {
        RunEarlierFirst(plan, downloads, TranslateModify, TranslateDelete, k, j);
        var i :| 0 <= i < j && t.ops[i].Invoke? && t.ops[i].call == TranslateModify;
        assert CallAt(t.ops, i, TranslateModify);
      }
    } else {
      RunOpsFromSteps(plan, downloads);
      forall j | CallAt(t.ops, j, TranslateDelete) ensures false {
      }
    }
  }

  /// Under --without-translations no translation op appears, and the rest of
  /// the run is the run with translations minus its translation ops (as long
  /// as the translation downloads would not have failed there).
  lemma HandleWithoutTranslations(supplyCountries: bool, downloads: Downloads, t: Trace)
    requires t == HandleTrace(supplyCountries, true, downloads)
    ensures forall i :: 0 <= i < |t.ops| ==> !IsTranslationOp(t.ops[i])
    ensures downloads(DailyAlternateNamesModifications).Some? && downloads(DailyAlternateNamesDeletes).Some? ==>
              t == Trace(DropTranslationOps(HandleTrace(supplyCountries, false, downloads).ops),
                         HandleTrace(supplyCountries, false, downloads).completed)
  {
    var plan := HandlePlan(supplyCountries, true);
    HandlePlanSteps(supplyCountries, true, plan);
    RunOpsFromSteps(plan, downloads);
    forall i | 0 <= i < |t.ops| ensures !IsTranslationOp(t.ops[i]) {
      assert StepOf(t.ops[i]) in plan;
    }
    var full := HandlePlan(supplyCountries, false);
    HandlePlanSteps(supplyCountries, false, full);
    HandlePlanDropsTranslations(supplyCountries);
    if downloads(DailyAlternateNamesModifications).Some? && downloads(DailyAlternateNamesDeletes).Some? {
      forall k | 0 <= k < |full| && IsTranslationStep(full[k]) ensures downloads(full[k].call.Source()).Some? {
      }
      RunDropTranslations(full, downloads);
    }
  }

  lemma {:induction false} DropTranslationStepsAppend(a: seq<Step>, b: seq<Step>)
    ensures DropTranslationSteps(a + b) == DropTranslationSteps(a) + DropTranslationSteps(b)
  {
    if a == [] {
      assert a + b == b;
    } else {
      assert (a + b)[1..] == a[1..] + b;
      DropTranslationStepsAppend(a[1..], b);
    }
  }

  lemma {:induction false} DropTranslationStepsKeeps(steps: seq<Step>)
    requires forall i :: 0 <= i < |steps| ==> !IsTranslationStep(steps[i])
    ensures DropTranslationSteps(steps) == steps
  {
    if steps != [] {
      assert forall i :: 0 <= i < |steps[1..]| ==> steps[1..][i] == steps[i + 1];
      DropTranslationStepsKeeps(steps[1..]);
    }
  }

  /// The plan under --without-translations is the full plan minus its
  /// translation steps.
  lemma HandlePlanDropsTranslations(supplyCountries: bool)
    ensures DropTranslationSteps(HandlePlan(supplyCountries, false)) == HandlePlan(supplyCountries, true)
  {
    var common := PreparePlan() + ModifyPlan(supplyCountries) + DeletePlan();
    DropTranslationStepsKeeps(common);
    var single := [Transfer(TranslateModify)];
    assert DropTranslationSteps(single) == [] by {
      assert single[1..] == [];
    }
    var last := [Transfer(TranslateDelete)];
    assert DropTranslationSteps(last) == [] by {
      assert last[1..] == [];
    }
    var clean := [Clean];
    assert DropTranslationSteps(clean) == clean by {
      assert clean[1..] == [];
    }
    DropTranslationStepsAppend(common, single);
    DropTranslationStepsAppend(common + single, last);
    DropTranslationStepsAppend(common + single + last, clean);
    assert HandlePlan(supplyCountries, false) == common + single + last + clean;
    assert HandlePlan(supplyCountries, true) == common + clean;
  }

  /// Every download the plan of handle asks for succeeds.
  predicate PlanDownloadsSucceed(steps: seq<Step>, downloads: Downloads)
  {
    forall k :: 0 <= k < |steps| && steps[k].Transfer? ==> downloads(steps[k].call.Source()).Some?
  }

  /// The downloads handle asks for: the daily modifications and deletes,
  /// country info when the store asks for it, and the alternate names unless
  /// --without-translations is given.
  predicate HandleDownloadsSucceed(supplyCountries: bool, withoutTranslations: bool, downloads: Downloads)
  {
    && downloads(DailyModifications).Some?
    && downloads(DailyDeletes).Some?
    && (supplyCountries ==> downloads(CountryInfoFile).Some?)
    && (!withoutTranslations ==>
          downloads(DailyAlternateNamesModifications).Some? && downloads(DailyAlternateNamesDeletes).Some?)
  }

  lemma HandlePlanDownloads(supplyCountries: bool, withoutTranslations: bool, downloads: Downloads)
    ensures PlanDownloadsSucceed(HandlePlan(supplyCountries, withoutTranslations), downloads)
            <==> HandleDownloadsSucceed(supplyCountries, withoutTranslations, downloads)
  {
    var plan := HandlePlan(supplyCountries, withoutTranslations);
    var add := if supplyCountries then [Transfer(AddCountryInfo)] else [];
    var translate := if withoutTranslations then [] else [Transfer(TranslateModify), Transfer(TranslateDelete)];
    assert plan == [Dispatch] + add + [Transfer(SupplyModify), Transfer(SupplyDelete)] + translate + [Clean];
    var d := if supplyCountries then 1 else 0;
    if HandleDownloadsSucceed(supplyCountries, withoutTranslations, downloads) {
      forall k | 0 <= k < |plan| && plan[k].Transfer? ensures downloads(plan[k].call.Source()).Some? {
      }
    } else {
      if supplyCountries && downloads(CountryInfoFile).None? {
        assert plan[1] == Transfer(AddCountryInfo);
      } else if downloads(DailyModifications).None? {
        assert plan[1 + d] == Transfer(SupplyModify);
      } else if downloads(DailyDeletes).None? {
        assert plan[2 + d] == Transfer(SupplyDelete);
      } else if downloads(DailyAlternateNamesModifications).None? {
        assert plan[3 + d] == Transfer(TranslateModify);
      } else {
        assert plan[4 + d] == Transfer(TranslateDelete);
      }
    }
  }

  /// handle reaches its end exactly when every download it asks for
  /// succeeds.
  lemma HandleCompletes(supplyCountries: bool, withoutTranslations: bool, downloads: Downloads, t: Trace)
    requires t == HandleTrace(supplyCountries, withoutTranslations, downloads)
    ensures t.completed <==> HandleDownloadsSucceed(supplyCountries, withoutTranslations, downloads)
  {
    RunCompletes(HandlePlan(supplyCountries, withoutTranslations), downloads);
    HandlePlanDownloads(supplyCountries, withoutTranslations, downloads);
  }

  /// A plan whose only Clean comes last: a failed download is the last op
  /// and the clean-up does not happen; otherwise the clean-up is the last
  /// op, and only there.
  lemma {:induction false} RunCleansLast(prefix: seq<Step>, downloads: Downloads, t: Trace)
    requires Clean !in prefix
    requires t == Run(prefix + [Clean], downloads)
    ensures t.completed ==> |t.ops| > 0 && t.ops[|t.ops| - 1] == Cleanup
    ensures forall i :: 0 <= i < |t.ops| - 1 ==> t.ops[i] != Cleanup
    ensures !t.completed ==> Cleanup !in t.ops && |t.ops| > 0 && t.ops[|t.ops| - 1].DownloadFailed?
    ensures forall i :: 0 <= i < |t.ops| && t.ops[i].DownloadFailed? ==> i == |t.ops| - 1 && !t.completed
  {
    RunAppend(prefix, [Clean], downloads);
    RunSingle(Clean, downloads);
    RunOpsFromSteps(prefix, downloads);
    RunStops(prefix + [Clean], downloads);
    var p := Run(prefix, downloads).ops;
    forall i | 0 <= i < |p| ensures p[i] != Cleanup {
      assert StepOf(p[i]) in prefix;
    }
    if t.completed {
      assert t.ops == p + [Cleanup];
    } else {
      assert t.ops == p;
    }
  }

  /// When a download fails it is the last op and the folder is not cleaned;
  /// otherwise cleanFolder comes last, and only there.
  lemma HandleStops(supplyCountries: bool, withoutTranslations: bool, downloads: Downloads, t: Trace)
    requires t == HandleTrace(supplyCountries, withoutTranslations, downloads)
    ensures t.completed ==> |t.ops| > 0 && t.ops[|t.ops| - 1] == Cleanup
    ensures forall i :: 0 <= i < |t.ops| - 1 ==> t.ops[i] != Cleanup
    ensures !t.completed ==> Cleanup !in t.ops && |t.ops| > 0 && t.ops[|t.ops| - 1].DownloadFailed?
    ensures forall i :: 0 <= i < |t.ops| && t.ops[i].DownloadFailed? ==> i == |t.ops| - 1 && !t.completed
  {
    var plan := HandlePlan(supplyCountries, withoutTranslations);
    HandlePlanSteps(supplyCountries, withoutTranslations, plan);
    RunCleansLast(plan[..|plan| - 1], downloads, t);
  }

  /// The two ops of a transfer whose download succeeds: the download and the
  /// call given its path.
  function Transferred(call: Call, downloads: Downloads): seq<Op>
    requires downloads(call.Source()).Some?
  {
    [Download(call.Source(), downloads(call.Source()).value), Invoke(call, downloads(call.Source()).value)]
  }

  /// What handle does when no download fails, written out stage by stage.
  function HandleOpsWhenDownloadsSucceed(supplyCountries: bool, withoutTranslations: bool, downloads: Downloads)
    : seq<Op>
    requires HandleDownloadsSucceed(supplyCountries, withoutTranslations, downloads)
  {
    [Ready]
    + ((if supplyCountries then Transferred(AddCountryInfo, downloads) else []) + Transferred(SupplyModify, downloads))
    + Transferred(SupplyDelete, downloads)
    + (if withoutTranslations then [] else Transferred(TranslateModify, downloads))
    + (if withoutTranslations then [] else Transferred(TranslateDelete, downloads))
    + [Cleanup]
  }

  /// Six stages that each run to their end run to the end one after the
  /// other.
  lemma RunStages(a0: seq<Step>, a1: seq<Step>, a2: seq<Step>, a3: seq<Step>, a4: seq<Step>, a5: seq<Step>,
                  o0: seq<Op>, o1: seq<Op>, o2: seq<Op>, o3: seq<Op>, o4: seq<Op>, o5: seq<Op>,
                  downloads: Downloads)
    requires Run(a0, downloads) == Trace(o0, true) && Run(a1, downloads) == Trace(o1, true)
    requires Run(a2, downloads) == Trace(o2, true) && Run(a3, downloads) == Trace(o3, true)
    requires Run(a4, downloads) == Trace(o4, true) && Run(a5, downloads) == Trace(o5, true)
    ensures Run(a0 + a1 + a2 + a3 + a4 + a5, downloads) == Trace(o0 + o1 + o2 + o3 + o4 + o5, true)
  {
    RunAppend(a0, a1, downloads);
    RunAppend(a0 + a1, a2, downloads);
    RunAppend(a0 + a1 + a2, a3, downloads);
    RunAppend(a0 + a1 + a2 + a3, a4, downloads);
    RunAppend(a0 + a1 + a2 + a3 + a4, a5, downloads);
  }

  lemma TransferRun(call: Call, downloads: Downloads)
    requires downloads(call.Source()).Some?
    ensures Run([Transfer(call)], downloads) == Trace(Transferred(call, downloads), true)
  {
    RunSingle(Transfer(call), downloads);
  }

  lemma ModifyRun(supplyCountries: bool, downloads: Downloads)
    requires downloads(DailyModifications).Some?
    requires supplyCountries ==> downloads(CountryInfoFile).Some?
    ensures Run(ModifyPlan(supplyCountries), downloads)
            == Trace((if supplyCountries then Transferred(AddCountryInfo, downloads) else [])
                     + Transferred(SupplyModify, downloads), true)
  {
    TransferRun(SupplyModify, downloads);
    if supplyCountries {
      TransferRun(AddCountryInfo, downloads);
      RunAppend([Transfer(AddCountryInfo)], [Transfer(SupplyModify)], downloads);
    } else {
      assert ModifyPlan(supplyCountries) == [Transfer(SupplyModify)];
    }
  }

  lemma TranslationsRun(withoutTranslations: bool, downloads: Downloads)
    requires !withoutTranslations ==>
               downloads(DailyAlternateNamesModifications).Some? && downloads(DailyAlternateNamesDeletes).Some?
    ensures Run(ModifyTranslationsPlan(withoutTranslations), downloads)
            == Trace(if withoutTranslations then [] else Transferred(TranslateModify, downloads), true)
    ensures Run(DeleteTranslationsPlan(withoutTranslations), downloads)
            == Trace(if withoutTranslations then [] else Transferred(TranslateDelete, downloads), true)
  {
    if !withoutTranslations {
      TransferRun(TranslateModify, downloads);
      TransferRun(TranslateDelete, downloads);
    }
  }

  /// When no download fails, handle runs every one of its steps: its trace
  /// is exactly the ready event, each transfer in order, and the clean-up.
  lemma HandleRunsEveryStep(supplyCountries: bool, withoutTranslations: bool, downloads: Downloads, t: Trace)
    requires t == HandleTrace(supplyCountries, withoutTranslations, downloads)
    requires HandleDownloadsSucceed(supplyCountries, withoutTranslations, downloads)
    ensures t == Trace(HandleOpsWhenDownloadsSucceed(supplyCountries, withoutTranslations, downloads), true)
  {
    RunSingle(Dispatch, downloads);
    ModifyRun(supplyCountries, downloads);
    TransferRun(SupplyDelete, downloads);
    TranslationsRun(withoutTranslations, downloads);
    RunSingle(Clean, downloads);
    RunStages(PreparePlan(), ModifyPlan(supplyCountries), DeletePlan(),
              ModifyTranslationsPlan(withoutTranslations), DeleteTranslationsPlan(withoutTranslations), [Clean],
              [Ready],
              (if supplyCountries then Transferred(AddCountryInfo, downloads) else []) + Transferred(SupplyModify, downloads),
              Transferred(SupplyDelete, downloads),
              if withoutTranslations then [] else Transferred(TranslateModify, downloads),
              if withoutTranslations then [] else Transferred(TranslateDelete, downloads),
              [Cleanup],
              downloads);
  }

  /// Every service call appears in the written-out trace, with the path of
  /// its own download, and the clean-up ends it.
  lemma CallsWhenDownloadsSucceed(supplyCountries: bool, withoutTranslations: bool, downloads: Downloads, ops: seq<Op>)
    requires HandleDownloadsSucceed(supplyCountries, withoutTranslations, downloads)
    requires ops == HandleOpsWhenDownloadsSucceed(supplyCountries, withoutTranslations, downloads)
    ensures supplyCountries ==> Invoke(AddCountryInfo, downloads(CountryInfoFile).value) in ops
    ensures Invoke(SupplyModify, downloads(DailyModifications).value) in ops
    ensures Invoke(SupplyDelete, downloads(DailyDeletes).value) in ops
    ensures !withoutTranslations ==>
              && Invoke(TranslateModify, downloads(DailyAlternateNamesModifications).value) in ops
              && Invoke(TranslateDelete, downloads(DailyAlternateNamesDeletes).value) in ops
    ensures |ops| > 0 && ops[|ops| - 1] == Cleanup
  {
    var head := [Ready] + (if supplyCountries then Transferred(AddCountryInfo, downloads) else []);
    var supply := Transferred(SupplyModify, downloads) + Transferred(SupplyDelete, downloads);
    var translate := (if withoutTranslations then [] else Transferred(TranslateModify, downloads))
                     + (if withoutTranslations then [] else Transferred(TranslateDelete, downloads));
    assert ops == head + supply + translate + [Cleanup];
    if supplyCountries {
      assert head[2] == Invoke(AddCountryInfo, downloads(CountryInfoFile).value);
    }
    assert supply[1] == Invoke(SupplyModify, downloads(DailyModifications).value);
    assert supply[3] == Invoke(SupplyDelete, downloads(DailyDeletes).value);
    if !withoutTranslations {
      assert translate[1] == Invoke(TranslateModify, downloads(DailyAlternateNamesModifications).value);
      assert translate[3] == Invoke(TranslateDelete, downloads(DailyAlternateNamesDeletes).value);
    }
  }

  /// When no download fails, every service call of handle is made, each with
  /// the path of its own download, and cleanFolder ends the run.
  lemma HandleMakesEveryCall(supplyCountries: bool, withoutTranslations: bool, downloads: Downloads, t: Trace)
    requires t == HandleTrace(supplyCountries, withoutTranslations, downloads)
    requires HandleDownloadsSucceed(supplyCountries, withoutTranslations, downloads)
    ensures supplyCountries ==> Invoke(AddCountryInfo, downloads(CountryInfoFile).value) in t.ops
    ensures Invoke(SupplyModify, downloads(DailyModifications).value) in t.ops
    ensures Invoke(SupplyDelete, downloads(DailyDeletes).value) in t.ops
    ensures !withoutTranslations ==>
              && Invoke(TranslateModify, downloads(DailyAlternateNamesModifications).value) in t.ops
              && Invoke(TranslateDelete, downloads(DailyAlternateNamesDeletes).value) in t.ops
    ensures |t.ops| > 0 && t.ops[|t.ops| - 1] == Cleanup
  {
    HandleRunsEveryStep(supplyCountries, withoutTranslations, downloads, t);
    CallsWhenDownloadsSucceed(supplyCountries, withoutTranslations, downloads, t.ops);
  }
  /// A run whose first failed download is that of step k: the steps before
  /// k all run to their end, and the failed download is all that follows.
  lemma {:induction false} RunFailsAt(steps: seq<Step>, downloads: Downloads, k: nat)
    requires k < |steps| && steps[k].Transfer? && downloads(steps[k].call.Source()).None?
    requires forall m :: 0 <= m < k && steps[m].Transfer? ==> downloads(steps[m].call.Source()).Some?
    ensures Run(steps[..k], downloads).completed
    ensures Run(steps, downloads)
            == Trace(Run(steps[..k], downloads).ops + [DownloadFailed(steps[k].call.Source())], false)
  {
    var before := steps[..k];
    var after := steps[k..];
    assert steps == before + after;
    forall m | 0 <= m < |before| && before[m].Transfer? ensures downloads(before[m].call.Source()).Some? {
      assert before[m] == steps[m];
    }
    RunCompletes(before, downloads);
    RunAppend(before, after, downloads);
    assert after[0] == steps[k];
  }

  /// When the first download of handle that fails is that of plan step k,
  /// the trace is the completed run of the steps before k followed by that
  /// failed download: what ran before stays done.
  lemma HandleFailsAt(supplyCountries: bool, withoutTranslations: bool, downloads: Downloads, t: Trace,
                      plan: seq<Step>, k: nat)
    requires t == HandleTrace(supplyCountries, withoutTranslations, downloads)
    requires plan == HandlePlan(supplyCountries, withoutTranslations)
    requires k < |plan| && plan[k].Transfer? && downloads(plan[k].call.Source()).None?
    requires forall m :: 0 <= m < k && plan[m].Transfer? ==> downloads(plan[m].call.Source()).Some?
    ensures Run(plan[..k], downloads).completed
    ensures t == Trace(Run(plan[..k], downloads).ops + [DownloadFailed(plan[k].call.Source())], false)
  {
    RunFailsAt(plan, downloads, k);
  }

  /// Every service call whose download and earlier downloads succeed is
  /// made, with the path of its own download, whether or not a later
  /// download fails.
  lemma HandleCommitsEarlierCalls(supplyCountries: bool, withoutTranslations: bool, downloads: Downloads, t: Trace)
    requires t == HandleTrace(supplyCountries, withoutTranslations, downloads)
    ensures (supplyCountries ==> downloads(CountryInfoFile).Some?) && downloads(DailyModifications).Some?
            ==> Invoke(SupplyModify, downloads(DailyModifications).value) in t.ops
    ensures (supplyCountries ==> downloads(CountryInfoFile).Some?) && downloads(DailyModifications).Some?
            && downloads(DailyDeletes).Some?
            ==> Invoke(SupplyDelete, downloads(DailyDeletes).value) in t.ops
    ensures !withoutTranslations && (supplyCountries ==> downloads(CountryInfoFile).Some?)
            && downloads(DailyModifications).Some? && downloads(DailyDeletes).Some?
            && downloads(DailyAlternateNamesModifications).Some?
            ==> Invoke(TranslateModify, downloads(DailyAlternateNamesModifications).value) in t.ops
    ensures !withoutTranslations && (supplyCountries ==> downloads(CountryInfoFile).Some?)
            && downloads(DailyModifications).Some? && downloads(DailyDeletes).Some?
            && downloads(DailyAlternateNamesModifications).Some? && downloads(DailyAlternateNamesDeletes).Some?
            ==> Invoke(TranslateDelete, downloads(DailyAlternateNamesDeletes).value) in t.ops
  {
    var plan := HandlePlan(supplyCountries, withoutTranslations);
    HandlePlanShape(supplyCountries, withoutTranslations);
    var o := if supplyCountries then 1 else 0;
    if (supplyCountries ==> downloads(CountryInfoFile).Some?) && downloads(DailyModifications).Some? {
      RunReaches(plan, downloads, 1 + o);
      if downloads(DailyDeletes).Some? {
        RunReaches(plan, downloads, 2 + o);
        if !withoutTranslations && downloads(DailyAlternateNamesModifications).Some? {
          RunReaches(plan, downloads, 3 + o);
          if downloads(DailyAlternateNamesDeletes).Some? {
            RunReaches(plan, downloads, 4 + o);
          }
        }
      }
    }
  }
}
