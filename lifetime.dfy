/**
 * Reference counting of one `AnalyzerArgs` record over a history of
 * analyzers built from it and destroyed. Each construction adds one
 * reference and each destruction drops one, so the count always equals the
 * creator's references plus the number of analyzers still holding the record.
 */
module Lifetime {
  import opened Values
  import opened FileAnalysis

  datatype Option<T> = None | Some(value: T)

  /** One event on the record; analyzers are named by distinct numbers. */
  datatype Step = Construct(analyzer: nat) | Destroy(analyzer: nat)

  /**
   * The analyzers holding the record after `steps`, starting from `live`;
   * `None` when a step breaks the lifetime discipline: building an analyzer
   * that already exists, or destroying one that is not alive (twice, say).
   */
  function Holders(live: set<nat>, steps: seq<Step>): (r: Option<set<nat>>)
    decreases |steps|
  {
    if steps == [] then Some(live)
    else match HoldersStep(live, steps[0])
      case None => None
      case Some(next) => Holders(next, steps[1..])
  }

  /** The analyzers holding the record after one step, or `None` if the step is not allowed. */
  function HoldersStep(live: set<nat>, step: Step): (r: Option<set<nat>>)
  {
    match step
    case Construct(a) => if a in live then None else Some(live + {a})
    case Destroy(a) => if a !in live then None else Some(live - {a})
  }

  /** The record's reference count after `steps`, starting from `count`. */
  function RefcountAfter(count: int, steps: seq<Step>): (c: int)
    decreases |steps|
  {
    if steps == [] then count
    else RefcountAfter(RefcountStep(count, steps[0]), steps[1..])
  }

  /** A construction takes one reference (the constructor's `Ref`), a destruction drops one (the destructor's `Unref`). */
  function RefcountStep(count: int, step: Step): (c: int)
  {
    match step
    case Construct(_) => count + 1
    case Destroy(_) => count - 1
  }

  /** Extending a history by one step applies that step to where the history ended. */
  lemma {:induction false} HoldersAppend(live: set<nat>, steps: seq<Step>, step: Step)
    ensures Holders(live, steps + [step]) ==
      (if Holders(live, steps).None? then None else HoldersStep(Holders(live, steps).value, step))
    decreases |steps|
  {
    if steps == [] {
      assert steps + [step] == [step];
    } else {
      assert (steps + [step])[0] == steps[0];
      assert (steps + [step])[1..] == steps[1..] + [step];
      match HoldersStep(live, steps[0])
      case None =>
      case Some(next) => HoldersAppend(next, steps[1..], step);
    }
  }

  /** Extending a history by one step changes the count by that step alone. */
  lemma {:induction false} RefcountAppend(count: int, steps: seq<Step>, step: Step)
    ensures RefcountAfter(count, steps + [step]) == RefcountStep(RefcountAfter(count, steps), step)
    decreases |steps|
  {
    if steps == [] {
      assert steps + [step] == [step];
    } else {
      assert (steps + [step])[0] == steps[0];
      assert (steps + [step])[1..] == steps[1..] + [step];
      RefcountAppend(RefcountStep(count, steps[0]), steps[1..], step);
    }
  }

  /** Every change of the count is matched by a change in the set of holders. */
  lemma {:induction false} RefcountTracksHolders(count: int, live: set<nat>, steps: seq<Step>)
    requires Holders(live, steps).Some?
    ensures RefcountAfter(count, steps) - count == |Holders(live, steps).value| - |live|
    decreases |steps|
  {
    if steps != [] {
      var next := HoldersStep(live, steps[0]).value;
      RefcountTracksHolders(RefcountStep(count, steps[0]), next, steps[1..]);
    }
  }

  /** A history in which every analyzer built is also destroyed leaves the count where it started. */
  lemma {:induction false} ConstructDestroyBalanced(count: int, steps: seq<Step>)
    requires Holders({}, steps) == Some({})
    ensures RefcountAfter(count, steps) == count
  {
    RefcountTracksHolders(count, {}, steps);
  }

  /** A prefix of a well-formed history is a well-formed history. */
  lemma {:induction false} PrefixIsHistory(live: set<nat>, steps: seq<Step>, k: nat)
    requires Holders(live, steps).Some? && k <= |steps|
    ensures Holders(live, steps[..k]).Some?
    decreases |steps|
  {
    if k > 0 {
      assert steps[..k][0] == steps[0];
      assert steps[..k][1..] == steps[1..][..k - 1];
      PrefixIsHistory(HoldersStep(live, steps[0]).value, steps[1..], k - 1);
    }
  }

  /**
   * At every point of a well-formed history the count is at least the
   * number of analyzers alive, so it never reaches zero while one holds it.
   */
  lemma {:induction false} HeldRecordStaysReferenced(count: nat, steps: seq<Step>, k: nat)
    requires Holders({}, steps).Some? && k <= |steps|
    ensures Holders({}, steps[..k]).Some?
    ensures RefcountAfter(count, steps[..k]) >= |Holders({}, steps[..k]).value|
    ensures Holders({}, steps[..k]).value != {} ==> RefcountAfter(count, steps[..k]) >= 1
  {
    PrefixIsHistory({}, steps, k);
    RefcountTracksHolders(count, {}, steps[..k]);
  }

  /** Destroying an analyzer a second time is never part of a well-formed history. */
  lemma {:induction false} DestroyedOnlyOnce(live: set<nat>, steps: seq<Step>, a: nat, rest: seq<Step>)
    requires Holders(live, steps).Some?
    requires a !in Holders(live, steps).value
    ensures Holders(live, steps + [Destroy(a)] + rest) == None
    decreases |steps|
  {
    if steps == [] {
      assert steps + [Destroy(a)] + rest == [Destroy(a)] + rest;
    } else {
      assert (steps + [Destroy(a)] + rest)[0] == steps[0];
      assert (steps + [Destroy(a)] + rest)[1..] == steps[1..] + [Destroy(a)] + rest;
      DestroyedOnlyOnce(HoldersStep(live, steps[0]).value, steps[1..], a, rest);
    }
  }

  /**
   * The analyzers in `live` all hold `args`, are pairwise distinct objects,
   * and are each valid; the record has at least one reference per holder.
   */
  ghost predicate HoldersValid(args: RecordVal, live: map<nat, Analyzer>)
    reads args, set a | a in live :: live[a]
  {
    (forall a :: a in live ==> live[a].args == args && live[a].Valid()) &&
    (forall a, b :: a in live && b in live && a != b ==> live[a] != live[b]) &&
    args.refcount >= |live.Keys|
  }

  /** A `Construct` step on real objects: builds a new analyzer from `args` and adds it to the holders. */
  method ConstructOne(args: RecordVal, file: File, live: map<nat, Analyzer>, a: nat)
    returns (live': map<nat, Analyzer>)
    requires HasTag(args) && args.refcount >= 1 && a !in live && HoldersValid(args, live)
    modifies args`refcount
    ensures live'.Keys == live.Keys + {a}
    ensures forall b :: b in live ==> live'[b] == live[b]
    ensures fresh(live'[a])
    ensures args.refcount == old(args.refcount) + 1
    ensures args.fields == old(args.fields)
    ensures HoldersValid(args, live')
  {
    var an := new Analyzer(args, file);
    live' := live[a := an];
    assert |live'.Keys| == |live.Keys| + 1;
  }

  /** A `Destroy` step on real objects: destroys a holder and removes it. */
  method DestroyOne(args: RecordVal, live: map<nat, Analyzer>, a: nat)
    returns (live': map<nat, Analyzer>)
    requires a in live && HoldersValid(args, live)
    modifies args`refcount, live[a]
    ensures live' == live - {a}
    ensures live[a].destroyed
    ensures args.refcount == old(args.refcount) - 1
    ensures args.fields == old(args.fields)
    ensures HoldersValid(args, live')
  {
    live[a].Destroy();
    live' := live - {a};
    assert live'.Keys == live.Keys - {a};
    assert |live'.Keys| == |live.Keys| - 1;
    forall b | b in live'
      ensures live'[b].Valid()
    {
      assert live'[b] == live[b] != live[a];
      assert |live'.Keys| >= 1 by {
        assert b in live'.Keys;
      }
    }
  }

  /** One step of `Replay`: the loop invariant holds again after `steps[i]` is run. */
  method ReplayStep(args: RecordVal, file: File, steps: seq<Step>, i: nat, ghost c0: nat, live: map<nat, Analyzer>)
    returns (live': map<nat, Analyzer>)
    requires Holders({}, steps).Some? && i < |steps| && c0 >= 1
    requires Holders({}, steps[..i]) == Some(live.Keys)
    requires HasTag(args) && HoldersValid(args, live)
    requires args.refcount == RefcountAfter(c0, steps[..i]) == c0 + |live.Keys|
    modifies args`refcount, set a | a in live :: live[a]
    ensures Holders({}, steps[..i + 1]) == Some(live'.Keys)
    ensures args.refcount == RefcountAfter(c0, steps[..i + 1]) == c0 + |live'.Keys|
    ensures args.fields == old(args.fields)
    ensures HoldersValid(args, live')
    ensures forall a :: a in live' ==> (a in live && live'[a] == live[a]) || fresh(live'[a])
  {
    PrefixIsHistory({}, steps, i + 1);
    assert steps[..i + 1] == steps[..i] + [steps[i]];
    HoldersAppend({}, steps[..i], steps[i]);
    RefcountAppend(c0, steps[..i], steps[i]);
    match steps[i]
    case Construct(a) =>
      live' := ConstructOne(args, file, live, a);
    case Destroy(a) =>
      live' := DestroyOne(args, live, a);
      assert live'.Keys == live.Keys - {a};
  }

  /**
   * Runs a well-formed history on real analyzers built from one record.
   * The record's count follows `RefcountAfter`, its fields do not change,
   * and the analyzers alive at the end are exactly `Holders` of the history,
   * each of them valid.
   */
  method Replay(args: RecordVal, file: File, steps: seq<Step>) returns (live: map<nat, Analyzer>)
    requires HasTag(args) && args.refcount >= 1 && Holders({}, steps).Some?
    modifies args`refcount
    ensures args.refcount == RefcountAfter(old(args.refcount), steps)
    ensures args.fields == old(args.fields)
    ensures Holders({}, steps) == Some(live.Keys)
    ensures HoldersValid(args, live)
  {
    ghost var c0 := args.refcount;
    live := map[];
    var i := 0;
    assert steps[..i] == [] && live.Keys == {};
    while i < |steps|
      invariant 0 <= i <= |steps|
      invariant Holders({}, steps[..i]) == Some(live.Keys)
      invariant args.refcount == RefcountAfter(c0, steps[..i]) == c0 + |live.Keys|
      invariant args.fields == old(args.fields)
      invariant HoldersValid(args, live)
      invariant forall a :: a in live ==> fresh(live[a])
    {
      live := ReplayStep(args, file, steps, i, c0, live);
      i := i + 1;
    }
    assert steps[..i] == steps;
  }
}
