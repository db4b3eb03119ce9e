/**
 * What a reconcile reaches while others are at work: if none of its own requests fails and nobody else writes to the
 * objects of its steps, then its atom ends up served, whatever the reconciles of other atoms do in between.
 */
module InterleavedRuns {
  import opened AtomTypes
  import opened Platforms
  import opened Workloads
  import opened Reconciling
  import opened ObjectKeys
  import opened StepSafety
  import opened OperatorRuns
  import opened Convergence
  import opened ServedState

  /** The operator stays up, the atom's own requests succeed, and nobody else writes to the objects of these steps. */
  ghost predicate Undisturbing(pf: Platform, name: string, steps: seq<Step>, event: Event) {
    match event
    case Take(taken, fault) => taken == name ==> fault == NoFault
    case Restart => false
    case Touch(key, _) => !Touched(pf, name, steps, key)
    case _ => true
  }

  /** The reconcile has taken the first `done` steps, and these are the ones that are left. */
  predicate Working(w: World, name: string, atom: Atom, steps: seq<Step>, done: nat)
    requires done <= |steps|
  {
    if done < |steps| then name in w.jobs && w.jobs[name] == Job(atom, steps[done..]) else name !in w.jobs
  }

  /** Objects of steps that were taken are what the steps make of them; the others are as before. */
  ghost predicate Written(pf: Platform, atom: Atom, steps: seq<Step>, done: nat, before: Store, store: Store)
    requires AllRunnable(atom, steps) && done <= |steps|
  {
    && (forall k :: 0 <= k < done ==> Holds(pf, atom, steps[k], before, store))
    && (forall k :: done <= k < |steps| ==> SameAt(KeyOf(pf, atom.meta.name, steps[k]), before, store))
  }

  /** The objects of these steps are the same in both stores. */
  ghost predicate Unnoticed(pf: Platform, name: string, steps: seq<Step>, store: Store, store': Store) {
    forall k :: 0 <= k < |steps| ==> SameAt(KeyOf(pf, name, steps[k]), store, store')
  }

  /** The reconcile began on `before`, and is this far. */
  ghost predicate At(pf: Platform, w: World, atom: Atom, steps: seq<Step>, done: nat, before: Store)
    requires AllRunnable(atom, steps)
  {
    done <= |steps| && Working(w, atom.meta.name, atom, steps, done) && Written(pf, atom, steps, done, before, w.store)
  }

  // ----- One event

  lemma WrittenFrame(pf: Platform, atom: Atom, steps: seq<Step>, done: nat, before: Store, store: Store, store': Store)
    requires AllRunnable(atom, steps) && done <= |steps| && Written(pf, atom, steps, done, before, store)
    requires Unnoticed(pf, atom.meta.name, steps, store, store')
    ensures Written(pf, atom, steps, done, before, store')
  {
    forall k | 0 <= k < |steps|
      ensures if k < done then Holds(pf, atom, steps[k], before, store') else SameAt(KeyOf(pf, atom.meta.name, steps[k]), before, store')
    {
      assert SameAt(KeyOf(pf, atom.meta.name, steps[k]), store, store');
      if k < done {
        assert Holds(pf, atom, steps[k], before, store);
      }
    }
  }

  /** The next step writes what it makes of the object before, which is still there. */
  lemma NextWritten(pf: Platform, atom: Atom, steps: seq<Step>, done: nat, before: Store, store: Store)
    requires HashLaws(pf) && AllRunnable(atom, steps) && Apart(steps) && done < |steps|
    requires Written(pf, atom, steps, done, before, store) && !Blocked(pf, atom.meta.name, steps[done], store)
    ensures var attempted := Attempt(pf, atom, steps[done], NoFault, store);
            attempted.err.None? && Written(pf, atom, steps, done + 1, before, attempted.store)
  {
    var name, key := atom.meta.name, KeyOf(pf, atom.meta.name, steps[done]);
    var after := Attempt(pf, atom, steps[done], NoFault, store).store;
    CleanAttempt(pf, atom, steps[done], store);
    assert SameAt(key, before, store);
    OtherWriteUnnoticed(pf, atom, steps[done], before, store);
    forall k | 0 <= k < |steps| && k != done
      ensures if k < done then Holds(pf, atom, steps[k], before, after) else SameAt(KeyOf(pf, name, steps[k]), before, after)
    {
      KeyUnique(pf, name, steps[k], name, steps[done]);
      assert KeyOf(pf, name, steps[k]) != key;
      if k < done {
        assert Holds(pf, atom, steps[k], before, store);
      } else {
        assert SameAt(KeyOf(pf, name, steps[k]), before, store);
      }
    }
  }

  /** A step of another atom's reconcile writes none of these objects. */
  lemma OtherTakeUnnoticed(pf: Platform, w: World, taken: string, fault: Fault, name: string, steps: seq<Step>)
    requires HashLaws(pf) && Planned(w, taken) && JobSound(pf, w, taken) && taken != name
    ensures var w' := AfterTake(pf, w, taken, fault);
            Unnoticed(pf, name, steps, w.store, w'.store)
  {
    var job := w.jobs[taken];
    forall k | 0 <= k < |steps|
      ensures SameAt(KeyOf(pf, name, steps[k]), w.store, AfterTake(pf, w, taken, fault).store)
    {
      KeyUnique(pf, name, steps[k], taken, job.todo[0]);
      OthersUntouched(pf, job.atom, job.todo[0], fault, w.store, KeyOf(pf, name, steps[k]));
    }
  }

  lemma TouchUnnoticed(pf: Platform, w: World, key: Key, value: Stored, name: string, steps: seq<Step>)
    requires KindOf(value) == key.kind && !Touched(pf, name, steps, key)
    ensures Unnoticed(pf, name, steps, w.store, WithObject(w, key, value).store)
  {
  }

  /** What is not a step of the reconcile itself leaves it and its objects alone. */
  lemma OtherEvent(pf: Platform, w: World, event: Event, name: string, steps: seq<Step>)
    requires HashLaws(pf) && Inv(pf, w) && Allowed(pf, w, event) && Undisturbing(pf, name, steps, event)
    requires Planned(w, name) && !(event.Take? && event.name == name)
    ensures var w' := After(pf, w, event);
            && name in w'.jobs && w'.jobs[name] == w.jobs[name] && Unnoticed(pf, name, steps, w.store, w'.store)
  {
    match event
    case Take(taken, fault) => OtherTake(pf, w, taken, fault, name, steps);
    case Touch(key, value) => TouchUnnoticed(pf, w, key, value, name, steps);
    case _ => QuietEvent(pf, w, event, name, steps);
  }

  lemma OtherTake(pf: Platform, w: World, taken: string, fault: Fault, name: string, steps: seq<Step>)
    requires HashLaws(pf) && Inv(pf, w) && Planned(w, taken) && AllRunnable(w.jobs[taken].atom, w.jobs[taken].todo)
    requires name in w.jobs && taken != name
    ensures var w' := AfterTake(pf, w, taken, fault);
            && name in w'.jobs && w'.jobs[name] == w.jobs[name] && Unnoticed(pf, name, steps, w.store, w'.store)
  {
    assert JobSound(pf, w, taken);
    OtherTakeUnnoticed(pf, w, taken, fault, name, steps);
    OtherJobStays(pf, w, taken, fault, name);
  }

  lemma QuietEvent(pf: Platform, w: World, event: Event, name: string, steps: seq<Step>)
    requires Allowed(pf, w, event) && Planned(w, name) && !event.Take? && !event.Touch? && !event.Restart?
    ensures var w' := After(pf, w, event);
            && name in w'.jobs && w'.jobs[name] == w.jobs[name] && Unnoticed(pf, name, steps, w.store, w'.store)
  {
    SameStore(pf, name, steps, w.store);
  }

  lemma SameStore(pf: Platform, name: string, steps: seq<Step>, store: Store)
    ensures Unnoticed(pf, name, steps, store, store)
  {
  }

  lemma OwnTake(pf: Platform, w: World, atom: Atom, steps: seq<Step>, done: nat, before: Store)
    requires HashLaws(pf) && AllRunnable(atom, steps) && Apart(steps) && At(pf, w, atom, steps, done, before)
    requires done < |steps| && Intact(pf, atom.meta.name, w.store)
    ensures AllRunnable(atom, steps[done..])
    ensures At(pf, AfterTake(pf, w, atom.meta.name, NoFault), atom, steps, done + 1, before)
  {
    IntactNotBlocked(pf, atom.meta.name, steps[done], w.store);
    NextWritten(pf, atom, steps, done, before, w.store);
    assert steps[done..][0] == steps[done] && steps[done..][1..] == steps[done + 1..];
  }

  lemma AtFrame(pf: Platform, w: World, w': World, atom: Atom, steps: seq<Step>, done: nat, before: Store)
    requires AllRunnable(atom, steps) && At(pf, w, atom, steps, done, before) && done < |steps|
    requires atom.meta.name in w'.jobs && w'.jobs[atom.meta.name] == w.jobs[atom.meta.name]
    requires Unnoticed(pf, atom.meta.name, steps, w.store, w'.store)
    ensures At(pf, w', atom, steps, done, before)
  {
    WrittenFrame(pf, atom, steps, done, before, w.store, w'.store);
  }

  /** The reconcile goes on, or has come to its end. */
  lemma NextEvent(pf: Platform, w: World, event: Event, atom: Atom, steps: seq<Step>, done: nat, before: Store)
    returns (done': nat)
    requires HashLaws(pf) && Inv(pf, w) && Allowed(pf, w, event) && Undisturbing(pf, atom.meta.name, steps, event)
    requires AllRunnable(atom, steps) && Apart(steps) && At(pf, w, atom, steps, done, before) && atom.meta.name in w.jobs
    ensures At(pf, After(pf, w, event), atom, steps, done', before)
  {
    if event.Take? && event.name == atom.meta.name {
      OwnEvent(pf, w, atom, steps, done, before);
      done' := done + 1;
    } else {
      AnotherEvent(pf, w, event, atom, steps, done, before);
      done' := done;
    }
  }

  lemma OwnEvent(pf: Platform, w: World, atom: Atom, steps: seq<Step>, done: nat, before: Store)
    requires HashLaws(pf) && Inv(pf, w) && AllRunnable(atom, steps) && Apart(steps)
    requires At(pf, w, atom, steps, done, before) && atom.meta.name in w.jobs
    ensures AllRunnable(atom, steps[done..])
    ensures At(pf, AfterTake(pf, w, atom.meta.name, NoFault), atom, steps, done + 1, before)
  {
    assert JobSound(pf, w, atom.meta.name) && AtomSound(pf, w, atom.meta.name);
    OwnTake(pf, w, atom, steps, done, before);
  }

  lemma AnotherEvent(pf: Platform, w: World, event: Event, atom: Atom, steps: seq<Step>, done: nat, before: Store)
    requires HashLaws(pf) && Inv(pf, w) && Allowed(pf, w, event) && Undisturbing(pf, atom.meta.name, steps, event)
    requires AllRunnable(atom, steps) && At(pf, w, atom, steps, done, before) && atom.meta.name in w.jobs
    requires !(event.Take? && event.name == atom.meta.name)
    ensures At(pf, After(pf, w, event), atom, steps, done, before)
  {
    OtherEvent(pf, w, event, atom.meta.name, steps);
    AtFrame(pf, w, After(pf, w, event), atom, steps, done, before);
  }

  // ----- A stretch of a run

  /** From moment `i` to moment `j` nothing disturbs the reconcile, and up to `j` it is under way. */
  ghost predicate UndisturbedUntil(pf: Platform, events: seq<Event>, trace: seq<World>, i: nat, j: nat, name: string, steps: seq<Step>)
    requires |trace| == |events| + 1 && i <= j < |trace|
  {
    forall k :: i <= k < j ==> Undisturbed(pf, events, trace, k, name, steps)
  }

  ghost predicate Undisturbed(pf: Platform, events: seq<Event>, trace: seq<World>, k: nat, name: string, steps: seq<Step>)
    requires |trace| == |events| + 1 && k < |events|
  {
    name in trace[k].jobs && Undisturbing(pf, name, steps, events[k])
  }

  lemma {:induction false} Progress(
    pf: Platform, events: seq<Event>, trace: seq<World>, i: nat, j: nat, atom: Atom, steps: seq<Step>) returns (done: nat)
    requires HashLaws(pf) && Behaviour(pf, events, trace) && Inv(pf, trace[0]) && i <= j < |trace|
    requires AllRunnable(atom, steps) && Apart(steps) && At(pf, trace[i], atom, steps, 0, trace[i].store)
    requires UndisturbedUntil(pf, events, trace, i, j, atom.meta.name, steps)
    ensures At(pf, trace[j], atom, steps, done, trace[i].store)
    decreases j - i
  {
    if i == j {
      done := 0;
    } else {
      var earlier := Progress(pf, events, trace, i, j - 1, atom, steps);
      done := ProgressNext(pf, events, trace, i, j - 1, atom, steps, earlier);
    }
  }

  lemma ProgressNext(
    pf: Platform, events: seq<Event>, trace: seq<World>, i: nat, k: nat, atom: Atom, steps: seq<Step>, done: nat)
    returns (done': nat)
    requires HashLaws(pf) && Behaviour(pf, events, trace) && Inv(pf, trace[0]) && i <= k < |events|
    requires AllRunnable(atom, steps) && Apart(steps) && At(pf, trace[k], atom, steps, done, trace[i].store)
    requires Undisturbed(pf, events, trace, k, atom.meta.name, steps)
    ensures At(pf, trace[k + 1], atom, steps, done', trace[i].store)
  {
    EveryStateIsSound(pf, events, trace, k);
    done' := NextEvent(pf, trace[k], events[k], atom, steps, done, trace[i].store);
  }

  // ----- Main result

  lemma NothingTaken(pf: Platform, w: World, atom: Atom, steps: seq<Step>)
    requires AllRunnable(atom, steps) && steps != [] && atom.meta.name in w.jobs && w.jobs[atom.meta.name] == Job(atom, steps)
    ensures At(pf, w, atom, steps, 0, w.store)
  {
    assert steps[0..] == steps;
  }

  /** At the end of a reconcile that nothing disturbed, all its objects are held. */
  lemma AllWritten(pf: Platform, events: seq<Event>, trace: seq<World>, i: nat, j: nat, atom: Atom, steps: seq<Step>)
    requires HashLaws(pf) && Behaviour(pf, events, trace) && Inv(pf, trace[0]) && i <= j < |trace|
    requires AllRunnable(atom, steps) && Apart(steps) && steps != []
    requires atom.meta.name in trace[i].jobs && trace[i].jobs[atom.meta.name] == Job(atom, steps)
    requires UndisturbedUntil(pf, events, trace, i, j, atom.meta.name, steps) && atom.meta.name !in trace[j].jobs
    ensures AllHeld(pf, atom, steps, trace[i].store, trace[j].store)
  {
    NothingTaken(pf, trace[i], atom, steps);
    var done := Progress(pf, events, trace, i, j, atom, steps);
  }

  /** The atom is served as this version asks: all objects, the configuration that is mounted, and the routes. */
  ghost predicate ServedAs(pf: Platform, atom: Atom, owner: OwnerInfo, before: Store, after: Store)
    requires Deliverable(pf, atom, owner)
  {
    var text := GeneratorText(pf, atom, owner).value;
    Completed(pf, atom, text, before, after) && Configured(pf, atom.meta.name, text, after) && HasRoutesOf(atom, after)
  }

  lemma HeldIsServed(pf: Platform, atom: Atom, owner: OwnerInfo, order: seq<string>, before: Store, after: Store)
    requires Deliverable(pf, atom, owner) && IsOrder(atom, order) && Intact(pf, atom.meta.name, before)
    requires AllHeld(pf, atom, StepsFor(pf, atom, owner, order), before, after)
    ensures ServedAs(pf, atom, owner, before, after)
  {
    var text := GeneratorText(pf, atom, owner).value;
    HeldCompletes(pf, atom, text, order, before, after);
    DeploymentIsConfigured(pf, atom, text, before, after);
    RoutesAreCurrent(pf, atom, before, after);
  }

  /**
   * In any run with any number of atoms: a reconcile that has read its atom and owner info, none of whose requests
   * fails, and whose objects nobody else writes to, ends with that version served. Reconciles of other atoms may take
   * their steps in between, and fail; atoms, owner infos and other objects may change.
   */
  lemma ReachesServiceInBetween(
    pf: Platform, events: seq<Event>, trace: seq<World>, i: nat, j: nat, atom: Atom, owner: OwnerInfo, order: seq<string>)
    requires HashLaws(pf) && Behaviour(pf, events, trace) && Inv(pf, trace[0]) && i <= j < |trace|
    requires Deliverable(pf, atom, owner) && IsOrder(atom, order)
    requires var steps, name := StepsFor(pf, atom, owner, order), atom.meta.name;
             && name in trace[i].jobs && trace[i].jobs[name] == Job(atom, steps)
             && UndisturbedUntil(pf, events, trace, i, j, name, steps) && name !in trace[j].jobs
    ensures ServedAs(pf, atom, owner, trace[i].store, trace[j].store)
  {
    var steps := StepsFor(pf, atom, owner, order);
    StepsApart(pf, atom, owner, order);
    assert |steps| >= 5;
    AllWritten(pf, events, trace, i, j, atom, steps);
    JobIntact(pf, events, trace, i, atom.meta.name);
    HeldIsServed(pf, atom, owner, order, trace[i].store, trace[j].store);
  }

  lemma JobIntact(pf: Platform, events: seq<Event>, trace: seq<World>, i: nat, name: string)
    requires HashLaws(pf) && Behaviour(pf, events, trace) && Inv(pf, trace[0]) && i < |trace| && name in trace[i].jobs
    ensures Intact(pf, name, trace[i].store)
  {
    EveryStateIsSound(pf, events, trace, i);
    assert JobSound(pf, trace[i], name) && AtomSound(pf, trace[i], name);
  }
}
