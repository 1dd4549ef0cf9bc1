/** The configuration context as the source writes it: schema merging, the table of pending changes and the copying
    between the two stores, by loops.  Each method is proved to do what ConfigSpec says. */
module Configuration {
  import opened ConfigSpec
  import ConfigProofs

  datatype Merged = Merged(schema: seq<Param>) | EmptyOrTooLong | Refused

  /** An entry without a name, or two with the same name or the same key in the store. */
  predicate Clashing(p: Param, q: Param, same: bool) {
    if same then p.name == ""
    else
      var pk, qk := if p.nvsKey == "" then p.name else p.nvsKey, if q.nvsKey == "" then q.name else q.nvsKey;
      p.name == q.name || pk == qk
  }

  /** `build_merged_schema`: the built-in entries and the local ones, or a refusal, exactly when names or keys are empty
      or not distinct. */
  method MergeSchema(defaults: seq<Param>, local: seq<Param>) returns (r: Merged)
    ensures r == if !(0 < |defaults| + |local| <= 0xFFFF) then EmptyOrTooLong
                 else if Proper(defaults + local) then Merged(defaults + local) else Refused
    ensures r.Refused? ==>
              exists i, j ::
                0 <= i <= j < |defaults| + |local| && Clashing((defaults + local)[i], (defaults + local)[j], i == j)
    ensures r.Merged? ==>
              0 < |r.schema| <= 65535 && forall i, j ::
                0 <= i <= j < |r.schema| ==> !Clashing(r.schema[i], r.schema[j], i == j)
  {
    var total := |defaults| + |local|;
    if total == 0 || total > 0xFFFF { return EmptyOrTooLong; }
    var schema := defaults + local;
    for i := 0 to total
      invariant forall j :: 0 <= j < i ==> schema[j].name != ""
      invariant forall j, k :: 0 <= j < i && j < k < total ==>
                schema[j].name != schema[k].name
                && Key(schema[j]) != Key(schema[k])
    {
      if schema[i].name == "" {
        assert Clashing(schema[i], schema[i], i == i);
        return Refused;
      }
      if Key(schema[i]) == "" { return Refused; }
      for j := i + 1 to total
        invariant forall k :: i < k < j ==> schema[i].name != schema[k].name && Key(schema[i]) != Key(schema[k])
      {
        assert schema[i].name == schema[j].name || Key(schema[i]) == Key(schema[j])
          ==> Clashing(schema[i], schema[j], i == j);
        if schema[i].name == schema[j].name { return Refused; }
        if Key(schema[i]) == Key(schema[j]) { return Refused; }
      }
    }
    return Merged(schema);
  }

  datatype Status = Done | NotFound | NoMemory

  class Context {
    const schema: seq<Param>
    const pending: array<Pending>
    var primary: Store
    var backup: Store
    var flag: bool
    var pendingCommit: bool
    var timer: bool

    ghost function Snapshot(): Config
      reads this, pending
    {
      Config(schema, pending[..], primary, backup, flag, pendingCommit, timer)
    }

    /** `ax25_cfg_init` with a merged schema, on whatever the stores hold. */
    constructor (schema: seq<Param>, primary: Store, backup: Store, flag: bool)
      requires Proper(schema)
      ensures fresh(pending) && Inv(Snapshot())
      ensures Snapshot() == Restart(Config(schema, NonePending(), primary, backup, flag, flag, false))
    {
      this.schema := schema;
      pending := new Pending[MAX_PENDING](_ => NOTHING);
      this.primary, this.backup, this.flag, pendingCommit, timer := primary, backup, flag, flag, flag;
      new;
      assert pending[..] == NonePending();
    }

    method FindPendingSlot(index: nat) returns (k: nat)
      ensures k == FindPending(pending[..], index, 0)
    {
      k := 0;
      while k < pending.Length && !(pending[k].inUse && pending[k].index == index)
        invariant k <= pending.Length && FindPending(pending[..], index, 0) == FindPending(pending[..], index, k)
      {
        k := k + 1;
      }
    }

    method AllocPendingSlot() returns (k: nat)
      ensures k == AllocPending(pending[..], 0)
    {
      k := 0;
      while k < pending.Length && pending[k].inUse
        invariant k <= pending.Length && AllocPending(pending[..], 0) == AllocPending(pending[..], k)
      {
        k := k + 1;
      }
    }

    method FindParameter(name: string) returns (k: nat)
      ensures k == FindParam(schema, name, 0)
    {
      k := 0;
      while k < |schema| && schema[k].name != name
        invariant k <= |schema| && FindParam(schema, name, 0) == FindParam(schema, name, k)
      {
        k := k + 1;
      }
    }

    /** `ax25_cfg_get`. */
    method Get(name: string) returns (found: bool, value: Value)
      ensures found <==> exists i :: 0 <= i < |schema| && schema[i].name == name
      ensures found ==> exists i :: 0 <= i < |schema| && schema[i].name == name && value == Effective(Snapshot(), i)
    {
      var i := FindParameter(name);
      if i == |schema| { return false, ""; }
      var k := FindPendingSlot(i);
      value := if k < pending.Length then (if pending[k].cleared then schema[i].default else pending[k].value)
               else if Key(schema[i]) in primary then primary[Key(schema[i])] else schema[i].default;
      found := true;
      assert value == Effective(Snapshot(), i);
    }

    /** `mark_pending_set` and `mark_pending_clear`. */
    method MarkPending(index: nat, cleared: bool, value: Value) returns (ok: bool)
      modifies pending
      ensures Snapshot() == Mark(old(Snapshot()), index, cleared, value).0
              && ok == Mark(old(Snapshot()), index, cleared, value).1
    {
      ghost var was := pending[..];
      var k := FindPendingSlot(index);
      if k == pending.Length { k := AllocPendingSlot(); }
      if k == pending.Length { return false; }
      pending[k] := Pending(true, index, cleared, if cleared then "" else value);
      assert pending[..] == was[k := pending[k]];
      return true;
    }

    /** `ax25_cfg_set`, with a value that has already been normalised. */
    method Set(name: string, value: Value) returns (r: Status)
      requires Inv(Snapshot())
      modifies pending
      ensures Snapshot() == Step(old(Snapshot()), SetTo(name, value)) && Inv(Snapshot())
      ensures r == NotFound <==> forall i :: 0 <= i < |schema| ==> schema[i].name != name
      ensures r == NoMemory <==>
              exists i :: 0 <= i < |schema| && schema[i].name == name && ConfigProofs.Full(old(Snapshot()), i)
      ensures r != Done ==> Snapshot() == old(Snapshot())
      ensures r == Done ==>
                forall i :: 0 <= i < |schema| ==>
                  Effective(Snapshot(), i) == if schema[i].name == name then value else Effective(old(Snapshot()), i)
    {
      hide Effective, Mark;
      ConfigProofs.StepKeeps(Snapshot(), SetTo(name, value));
      var i := FindParameter(name);
      if i == |schema| { return NotFound; }
      ConfigProofs.SetReads(Snapshot(), name, value, i);
      ConfigProofs.MarkReads(Snapshot(), i, false, value);
      var ok := MarkPending(i, false, value);
      return if ok then Done else NoMemory;
    }

    /** `ax25_cfg_clear`. */
    method Clear(name: string) returns (r: Status)
      requires Inv(Snapshot())
      modifies pending
      ensures Snapshot() == Step(old(Snapshot()), ClearOf(name)) && Inv(Snapshot())
      ensures r == NotFound <==> forall i :: 0 <= i < |schema| ==> schema[i].name != name
      ensures r == NoMemory <==>
              exists i :: 0 <= i < |schema| && schema[i].name == name && ConfigProofs.Full(old(Snapshot()), i)
      ensures r != Done ==> Snapshot() == old(Snapshot())
      ensures r == Done ==>
                forall i :: 0 <= i < |schema| ==>
                  Effective(Snapshot(), i) ==
                  if schema[i].name == name then schema[i].default else Effective(old(Snapshot()), i)
    {
      hide Effective, Mark;
      ConfigProofs.StepKeeps(Snapshot(), ClearOf(name));
      var i := FindParameter(name);
      if i == |schema| { return NotFound; }
      ConfigProofs.ClearReads(Snapshot(), name, i);
      ConfigProofs.MarkReads(Snapshot(), i, true, "");
      var ok := MarkPending(i, true, "");
      return if ok then Done else NoMemory;
    }

    /** `copy_primary_to_backup` and the loop of `restore_backup_to_primary`: one key of the schema after the other. */
    method CopySchema(from: Store, to: Store) returns (r: Store)
      ensures r == Copied(from, to, Keys(schema, 0))
    {
      r := to;
      for i := 0 to |schema|
        invariant r == Copied(from, to, KeysTo(schema, i))
      {
        var key := Key(schema[i]);
        if key in from { r := r[key := from[key]]; } else { r := r - {key}; }
        CopiedStep(from, to, schema, i);
      }
      assert KeysTo(schema, |schema|) == Keys(schema, 0);
    }

    method ClearPendingTable()
      requires pending.Length == MAX_PENDING
      modifies pending
      ensures pending[..] == NonePending()
    {
      forall i | 0 <= i < pending.Length { pending[i] := NOTHING; }
    }

    /** `ax25_cfg_save`. */
    method SaveAll()
      requires Inv(Snapshot())
      modifies this, pending
      ensures Snapshot() == Save(old(Snapshot())) && Inv(Snapshot())
    {
      ConfigProofs.StepKeeps(Snapshot(), Saves);
      backup := CopySchema(primary, backup);
      ghost var m, table := primary, pending[..];
      for i := 0 to pending.Length
        modifies this`primary
        invariant WriteFrom(m, schema, table, 0) == WriteFrom(primary, schema, table, i)
      {
        if pending[i].inUse && pending[i].index < |schema| {
          var key := Key(schema[pending[i].index]);
          if pending[i].cleared { primary := primary - {key}; } else { primary := primary[key := pending[i].value]; }
        }
      }
      assert primary == WriteFrom(m, schema, table, 0);
      flag := true;
      pendingCommit := true;
      ClearPendingTable();
    }

    /** `ax25_cfg_commit`. */
    method CommitSaved()
      modifies this
      ensures Snapshot() == Commit(old(Snapshot()))
    {
      timer := false;
      flag := false;
      pendingCommit := false;
    }

    method RestoreBackup()
      modifies this
      ensures Snapshot() == Restore(old(Snapshot()))
    {
      primary := CopySchema(backup, primary);
      flag := false;
      pendingCommit := false;
    }

    /** `ax25_cfg_revert`. */
    method RevertSaved()
      requires Inv(Snapshot())
      modifies this, pending
      ensures Snapshot() == Revert(old(Snapshot())) && Inv(Snapshot())
    {
      ConfigProofs.StepKeeps(Snapshot(), Reverts);
      timer := false;
      ClearPendingTable();
      RestoreBackup();
    }
  }

  /** The keys of the first n entries. */
  ghost function KeysTo(schema: seq<Param>, n: nat): set<string>
    requires n <= |schema|
  {
    set k | 0 <= k < n :: Key(schema[k])
  }

  lemma CopiedStep(from: Store, to: Store, schema: seq<Param>, i: nat)
    requires i < |schema|
    ensures var key, r := Key(schema[i]), Copied(from, to, KeysTo(schema, i));
            Copied(from, to, KeysTo(schema, i + 1)) == if key in from then r[key := from[key]] else r - {key}
  {
    var ks, key := KeysTo(schema, i), Key(schema[i]);
    assert KeysTo(schema, i + 1) == ks + {key};
    CopiedMore(from, to, ks, key);
  }

  lemma CopiedMore(from: Store, to: Store, ks: set<string>, key: string)
    ensures Copied(from, to, ks + {key}) ==
            if key in from then Copied(from, to, ks)[key := from[key]] else Copied(from, to, ks) - {key}
  {
  }
}
