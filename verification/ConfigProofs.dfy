/** What staging, saving, committing and rolling back mean for every parameter. */
module ConfigProofs {
  import opened ConfigSpec

  // ---- Stores ------------------------------------------------------------------------------------------

  lemma CopiedAt(from: Store, to: Store, schema: seq<Param>, index: nat)
    requires index < |schema|
    ensures Stored(Copied(from, to, Keys(schema, 0)), schema[index]) == Stored(from, schema[index])
  {
    assert Key(schema[index]) in Keys(schema, 0);
  }

  /** A slot that is about another parameter leaves this one's key alone. */
  lemma {:induction false} WriteFromOther(m: Store, schema: seq<Param>, pending: seq<Pending>, i: nat, index: nat)
    requires Proper(schema) && i <= |pending| && index < |schema|
    requires forall j :: i <= j < |pending| && pending[j].inUse ==> pending[j].index != index
    ensures Stored(WriteFrom(m, schema, pending, i), schema[index]) == Stored(m, schema[index])
    decreases |pending| - i
  {
    if i < |pending| {
      var x := pending[i];
      if x.inUse && x.index < |schema| {
        assert Key(schema[x.index]) != Key(schema[index]) by {
          if x.index < index { assert Key(schema[x.index]) != Key(schema[index]); }
        }
      }
      WriteFromOther(Written(m, schema, x), schema, pending, i + 1, index);
    }
  }

  lemma {:induction false} WriteFromAt(m: Store, schema: seq<Param>, pending: seq<Pending>, i: nat, k: nat)
    requires Proper(schema) && i <= k < |pending| && pending[k].inUse && pending[k].index < |schema|
    requires forall j :: 0 <= j < |pending| && j != k && pending[j].inUse ==> pending[j].index != pending[k].index
    ensures var p := schema[pending[k].index];
            Stored(WriteFrom(m, schema, pending, i), p) == if pending[k].cleared then p.default else pending[k].value
    decreases k - i
  {
    if i == k {
      WriteFromOther(Written(m, schema, pending[k]), schema, pending, k + 1, pending[k].index);
    } else {
      WriteFromAt(Written(m, schema, pending[i]), schema, pending, i + 1, k);
    }
  }

  // ---- Every call keeps the invariant -----------------------------------------------------------------------

  lemma MarkKeeps(c: Config, index: nat, cleared: bool, value: Value)
    requires Inv(c) && index < |c.schema|
    ensures Inv(Mark(c, index, cleared, value).0)
  {
  }

  lemma StepKeeps(c: Config, e: Event)
    requires Inv(c) && Enabled(c, e)
    ensures Inv(Step(c, e)) && Step(c, e).schema == c.schema
  {
    match e
    case SetTo(name, v) =>
      if FindParam(c.schema, name, 0) < |c.schema| { MarkKeeps(c, FindParam(c.schema, name, 0), false, v); }
    case ClearOf(name) =>
      if FindParam(c.schema, name, 0) < |c.schema| { MarkKeeps(c, FindParam(c.schema, name, 0), true, ""); }
    case Saves =>
    case Commits =>
    case Reverts =>
    case Restarts =>
    case TimerFires =>
  }

  // ---- Staging ------------------------------------------------------------------------------------------------

  /** After a successful change the parameter reads as changed and every other one as before; the change is refused
      exactly when 32 other parameters are waiting and this one is not, and then nothing changes. */
  lemma MarkReads(c: Config, index: nat, cleared: bool, value: Value)
    requires Inv(c) && index < |c.schema|
    ensures var (d, ok) := Mark(c, index, cleared, value);
            && (ok ==> Effective(d, index) == if cleared then c.schema[index].default else value)
            && (forall i :: 0 <= i < |c.schema| && i != index ==> Effective(d, i) == Effective(c, i))
            && (!ok <==> forall i :: 0 <= i < |c.pending| ==> c.pending[i].inUse && c.pending[i].index != index)
            && (!ok ==> d == c)
  {
    var (d, ok) := Mark(c, index, cleared, value);
    if ok {
      var found := FindPending(c.pending, index, 0);
      var k := if found < |c.pending| then found else AllocPending(c.pending, 0);
      assert d.pending[k].inUse && d.pending[k].index == index;
      var b := FindPending(d.pending, index, 0);
      assert b == k;
    }
    forall i | 0 <= i < |c.schema| && i != index ensures Effective(d, i) == Effective(c, i) {
      var a, b := FindPending(c.pending, i, 0), FindPending(d.pending, i, 0);
      if a < |c.pending| { assert d.pending[a] == c.pending[a]; }
      if b < |d.pending| { assert d.pending[b] == c.pending[b]; }
    }
  }

  /** All 32 places are taken by changes of other parameters. */
  predicate Full(c: Config, index: nat) {
    forall k :: 0 <= k < |c.pending| ==> c.pending[k].inUse && c.pending[k].index != index
  }

  /** What `ax25_cfg_set` means: the parameter of that name reads as the value and every other one as before, and the
      stores are untouched; with 32 other changes waiting and none for this one, nothing changes. */
  lemma SetReads(c: Config, name: string, v: Value, index: nat)
    requires Inv(c) && index < |c.schema| && c.schema[index].name == name
    ensures var d := Step(c, SetTo(name, v));
            && |c.pending| == 32 && d == c.(pending := d.pending)
            && (if Full(c, index) then d == c
                else forall i :: 0 <= i < |c.schema| ==> Effective(d, i) == if i == index then v else Effective(c, i))
  {
    hide Effective, Mark;
    NamedAt(c, name, index);
    MarkStages(c, index, false, v);
    MarkReads(c, index, false, v);
  }

  /** What `ax25_cfg_clear` means: the same with the default in place of the value. */
  lemma ClearReads(c: Config, name: string, index: nat)
    requires Inv(c) && index < |c.schema| && c.schema[index].name == name
    ensures var d := Step(c, ClearOf(name));
            && |c.pending| == 32 && d == c.(pending := d.pending)
            && (if Full(c, index) then d == c
                else forall i :: 0 <= i < |c.schema| ==>
                       Effective(d, i) == if i == index then c.schema[index].default else Effective(c, i))
  {
    hide Effective, Mark;
    NamedAt(c, name, index);
    MarkStages(c, index, true, "");
    MarkReads(c, index, true, "");
  }

  lemma NamedAt(c: Config, name: string, index: nat)
    requires Inv(c) && index < |c.schema| && c.schema[index].name == name
    ensures FindParam(c.schema, name, 0) == index
  {
    assert FindParam(c.schema, name, 0) <= index;
  }

  lemma UnknownName(c: Config, name: string, v: Value)
    requires forall i :: 0 <= i < |c.schema| ==> c.schema[i].name != name
    ensures Step(c, SetTo(name, v)) == c && Step(c, ClearOf(name)) == c
  {
  }

  /** A restart forgets what is pending and reads the store; a commit changes no value, and stops the rollback timer. */
  lemma RestartAndCommitRead(c: Config, index: nat)
    requires Inv(c) && index < |c.schema|
    ensures Effective(Step(c, Restarts), index) == if Key(c.schema[index]) in c.primary
              then c.primary[Key(c.schema[index])] else c.schema[index].default
    ensures Step(c, Restarts).timer == Step(c, Restarts).pendingCommit == c.flag
    ensures var d := Step(c, Commits);
            Effective(d, index) == Effective(c, index) && !d.timer && !d.flag && d.primary == c.primary
  {
    NothingHides(Restart(c), index);
  }

  /** The rollback timer is started by a restart that finds the flag, stopped by a commit or a revert, spent when it
      fires, and left alone by everything else. */
  lemma TimerAfter(c: Config, e: Event)
    requires Inv(c) && Enabled(c, e)
    ensures Step(c, e).timer ==
            match e
            case Restarts => c.flag
            case Commits => false
            case Reverts => false
            case TimerFires => false
            case _ => c.timer
  {
    hide Copied, WriteFrom, Mark;
    match e
    case SetTo(name, v) => MarkStages(c, FindParam(c.schema, name, 0), false, v);
    case ClearOf(name) => MarkStages(c, FindParam(c.schema, name, 0), true, "");
    case _ =>
  }

  // ---- Saving and rolling back -----------------------------------------------------------------------------------

  lemma NothingHides(c: Config, index: nat)
    requires index < |c.schema| && c.pending == NonePending()
    ensures Effective(c, index) == Stored(c.primary, c.schema[index])
  {
  }

  /** Saving changes what no parameter reads as. */
  lemma SaveKeepsValues(c: Config, index: nat)
    requires Inv(c) && index < |c.schema|
    ensures Effective(Save(c), index) == Effective(c, index)
    ensures forall k :: 0 <= k < |Save(c).pending| ==> !Save(c).pending[k].inUse
  {
    NothingHides(Save(c), index);
    var k := FindPending(c.pending, index, 0);
    if k < |c.pending| { WriteFromAt(c.primary, c.schema, c.pending, 0, k); }
    else { WriteFromOther(c.primary, c.schema, c.pending, 0, index); }
  }

  /** The backup is the store as it was before the latest save. */
  lemma SaveBacksUp(c: Config, index: nat)
    requires index < |c.schema|
    ensures Stored(Save(c).backup, c.schema[index]) == Stored(c.primary, c.schema[index])
  {
    CopiedAt(c.primary, c.backup, c.schema, index);
  }

  /** Rolling back makes every parameter read as the backup has it, whatever is pending. */
  lemma RevertReads(c: Config, index: nat)
    requires index < |c.schema|
    ensures Effective(Revert(c), index) == Stored(c.backup, c.schema[index])
    ensures Effective(Timeout(c), index) == Stored(c.backup, c.schema[index])
  {
    NothingHides(Revert(c), index);
    NothingHides(Timeout(c), index);
    CopiedAt(c.backup, c.primary, c.schema, index);
  }

  lemma RevertUndoesSave(c: Config, index: nat)
    requires Inv(c) && index < |c.schema|
    ensures Effective(Revert(Save(c)), index) == Stored(c.primary, c.schema[index])
  {
    RevertReads(Save(c), index);
    SaveBacksUp(c, index);
  }

  // ---- Over runs ---------------------------------------------------------------------------------------------------

  ghost function Run(c: Config, es: seq<Event>): Config
    decreases |es|
  {
    if es == [] then c else Run(Step(c, es[0]), es[1..])
  }

  ghost predicate Schedule(c: Config, es: seq<Event>)
    decreases |es|
  {
    es != [] ==> Enabled(c, es[0]) && Schedule(Step(c, es[0]), es[1..])
  }

  lemma {:induction false} RunKeeps(c: Config, es: seq<Event>)
    requires Inv(c) && Schedule(c, es)
    ensures Inv(Run(c, es)) && Run(c, es).schema == c.schema
    decreases |es|
  {
    hide Inv;
    if es != [] {
      StepKeeps(c, es[0]);
      RunKeeps(Step(c, es[0]), es[1..]);
    }
  }

  lemma StepLeaves(c: Config, e: Event)
    ensures Step(c, e).schema == c.schema
    ensures e != Saves ==> Step(c, e).backup == c.backup
    ensures e.SetTo? || e.ClearOf? || e.Restarts? ==> Step(c, e).flag == c.flag && Step(c, e).primary == c.primary
  {
    hide Copied, WriteFrom, Mark;
    match e
    case SetTo(name, v) => MarkStages(c, FindParam(c.schema, name, 0), false, v);
    case ClearOf(name) => MarkStages(c, FindParam(c.schema, name, 0), true, "");
    case _ =>
  }

  /** Nothing but a save touches the backup. */
  lemma {:induction false} BackupKept(c: Config, es: seq<Event>)
    requires Saves !in es
    ensures Run(c, es).backup == c.backup && Run(c, es).schema == c.schema
    decreases |es|
  {
    hide Step;
    if es != [] {
      assert es[0] in es;
      StepLeaves(c, es[0]);
      BackupKept(Step(c, es[0]), es[1..]);
    }
  }

  /** However many changes, commits, reverts, restarts and timeouts follow a save, as long as there is no other save a
      rollback makes every parameter read as it was stored just before that save. */
  lemma RollbackLater(c: Config, es: seq<Event>, index: nat)
    requires Inv(c) && Saves !in es && index < |c.schema|
    ensures var d := Run(Save(c), es);
            && d.schema == c.schema
            && Effective(Revert(d), index) == Stored(c.primary, c.schema[index])
            && Effective(Timeout(d), index) == Stored(c.primary, c.schema[index])
  {
    BackupKept(Save(c), es);
    RevertReads(Run(Save(c), es), index);
    SaveBacksUp(c, index);
  }

  /** The stored values survive a restart, and the rollback timer then runs exactly while a save is uncommitted. */
  lemma UncommittedAfterRestart(c: Config, es: seq<Event>)
    requires Inv(c) && forall e :: e in es ==> e.SetTo? || e.ClearOf? || e.Restarts?
    ensures var d := Restart(Run(Save(c), es)); d.timer && d.primary == Save(c).primary
    ensures var d := Restart(Run(Commit(Save(c)), es)); !d.timer && d.primary == Save(c).primary
  {
    FlagKept(Save(c), es);
    FlagKept(Commit(Save(c)), es);
  }

  lemma {:induction false} FlagKept(c: Config, es: seq<Event>)
    requires forall e :: e in es ==> e.SetTo? || e.ClearOf? || e.Restarts?
    ensures Run(c, es).flag == c.flag && Run(c, es).primary == c.primary
    decreases |es|
  {
    hide Step;
    if es != [] {
      assert es[0] in es;
      StepLeaves(c, es[0]);
      FlagKept(Step(c, es[0]), es[1..]);
    }
  }

  /** A rollback goes back to the store before the latest save, not to the last committed one: of two saves after a
      commit it undoes only the second. */
  lemma RevertStopsAtLatestSave(c: Config, index: nat, v: Value, w: Value)
    requires Inv(c) && index < |c.schema| && Mark(Commit(c), index, false, v).1
    ensures var one := Save(Mark(Commit(c), index, false, v).0);
            var two := Save(Mark(one, index, false, w).0);
            Effective(Revert(two), index) == v
  {
    hide Effective, Mark, WriteFrom, Copied;
    StepKeeps(c, Commits);
    var x := Mark(Commit(c), index, false, v).0;
    MarkStages(Commit(c), index, false, v);
    MarkKeeps(Commit(c), index, false, v);
    MarkReads(Commit(c), index, false, v);
    SaveKeepsValues(x, index);
    var one := Save(x);
    StepKeeps(x, Saves);
    NothingHides(one, index);
    MarkStages(one, index, false, w);
    MarkKeeps(one, index, false, w);
    RevertUndoesSave(Mark(one, index, false, w).0, index);
  }

  lemma MarkStages(c: Config, index: nat, cleared: bool, v: Value)
    ensures var d := Mark(c, index, cleared, v).0; d == c.(pending := d.pending)
  {
  }

  /** Against the last commit: the store c is committed, the events of `es` follow without another commit, then the
      latest save and the events of `later`.  A revert gives back a parameter's committed value if and only if the
      value stored just before that save is still the committed one. */
  lemma RevertVersusCommit(c: Config, es: seq<Event>, later: seq<Event>, index: nat)
    requires Inv(c) && Schedule(Commit(c), es) && Commits !in es && Saves !in later && index < |c.schema|
    ensures var b := Run(Commit(c), es);
            var d := Revert(Run(Save(b), later));
            && b.schema == c.schema && d.schema == c.schema
            && (Effective(d, index) == Stored(c.primary, c.schema[index])
             <==> Stored(b.primary, c.schema[index]) == Stored(c.primary, c.schema[index]))
  {
    hide Inv, Effective;
    StepKeeps(c, Commits);
    RunKeeps(Commit(c), es);
    RollbackLater(Run(Commit(c), es), later, index);
  }

  /** In particular a revert does restore the last committed values when there was exactly one save since the commit. */
  lemma OneSaveSinceCommit(c: Config, es: seq<Event>, later: seq<Event>, index: nat)
    requires Inv(c) && Saves !in later && index < |c.schema|
    requires forall e :: e in es ==> e.SetTo? || e.ClearOf? || e.Restarts?
    ensures var b := Run(Commit(c), es);
            var d := Revert(Run(Save(b), later));
            d.schema == c.schema && Effective(d, index) == Stored(c.primary, c.schema[index])
  {
    hide Inv, Effective, Save, Revert;
    FlagKept(Commit(c), es);
    NothingFires(Commit(c), es);
    RevertVersusCommit(c, es, later, index);
  }

  lemma {:induction false} NothingFires(c: Config, es: seq<Event>)
    requires forall e :: e in es ==> e.SetTo? || e.ClearOf? || e.Restarts?
    ensures Schedule(c, es) && Commits !in es
    decreases |es|
  {
    if es != [] {
      assert es[0] in es;
      NothingFires(Step(c, es[0]), es[1..]);
    }
  }
}
