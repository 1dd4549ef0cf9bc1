/** The staged configuration: parameters over two key-value stores, up to 32 changes waiting to be saved, and the copy
    that a rollback returns to.  The stores never fail and output buffers have the full size. */
module ConfigSpec {

  const MAX_PENDING: nat := 32
  const VALUE_MAX_LEN: nat := 160

  /** A value as a C string in a buffer of `VALUE_MAX_LEN` bytes. */
  type Value = s: string | |s| < VALUE_MAX_LEN

  /** One schema entry; `nvsKey` is empty when the parameter name serves as the key. */
  datatype Param = Param(name: string, nvsKey: string, default: Value)

  function Key(p: Param): string { if p.nvsKey != "" then p.nvsKey else p.name }

  /** What schema merging enforces. */
  ghost predicate Proper(schema: seq<Param>) {
    && 0 < |schema| <= 0xFFFF
    && (forall i :: 0 <= i < |schema| ==> schema[i].name != "")
    && (forall i, j :: 0 <= i < j < |schema| ==> schema[i].name != schema[j].name && Key(schema[i]) != Key(schema[j]))
  }

  datatype Pending = Pending(inUse: bool, index: nat, cleared: bool, value: Value)

  type Store = map<string, Value>

  /** `flag` is the marker kept in the backup store, `pendingCommit` the field of the context, `timer` the rollback
      timer. */
  datatype Config = Config(schema: seq<Param>, pending: seq<Pending>, primary: Store, backup: Store, flag: bool,
                           pendingCommit: bool, timer: bool)

  // ---- Reading -----------------------------------------------------------------------------------------

  function FindParam(schema: seq<Param>, name: string, i: nat): (k: nat)
    requires i <= |schema|
    ensures i <= k <= |schema| && (k < |schema| ==> schema[k].name == name) && forall j :: i <= j < k ==>
            schema[j].name != name
    decreases |schema| - i
  {
    if i == |schema| || schema[i].name == name then i else FindParam(schema, name, i + 1)
  }

  function FindPending(pending: seq<Pending>, index: nat, i: nat): (k: nat)
    requires i <= |pending|
    ensures i <= k <= |pending| && (k < |pending| ==> pending[k].inUse && pending[k].index == index)
    ensures forall j :: i <= j < k ==> !(pending[j].inUse && pending[j].index == index)
    decreases |pending| - i
  {
    if i == |pending| || (pending[i].inUse && pending[i].index == index) then i else FindPending(pending, index, i + 1)
  }

  function AllocPending(pending: seq<Pending>, i: nat): (k: nat)
    requires i <= |pending|
    ensures i <= k <= |pending| && (k < |pending| ==> !pending[k].inUse) && forall j :: i <= j < k ==> pending[j].inUse
    decreases |pending| - i
  {
    if i == |pending| || !pending[i].inUse then i else AllocPending(pending, i + 1)
  }

  /** What a store says of a parameter. */
  function Stored(m: Store, p: Param): Value { if Key(p) in m then m[Key(p)] else p.default }

  /** `get_effective_value`: a pending change hides the primary store. */
  function Effective(c: Config, index: nat): Value
    requires index < |c.schema|
  {
    var k := FindPending(c.pending, index, 0);
    if k < |c.pending| then (if c.pending[k].cleared then c.schema[index].default else c.pending[k].value)
    else Stored(c.primary, c.schema[index])
  }

  // ---- Staging -----------------------------------------------------------------------------------------

  /** `mark_pending_set` and `mark_pending_clear`; false when the list is full. */
  function Mark(c: Config, index: nat, cleared: bool, value: Value): (Config, bool) {
    var found := FindPending(c.pending, index, 0);
    var k := if found < |c.pending| then found else AllocPending(c.pending, 0);
    if k == |c.pending| then (c, false)
    else (c.(pending := c.pending[k := Pending(true, index, cleared, if cleared then "" else value)]), true)
  }

  const NOTHING: Pending := Pending(false, 0, false, "")

  function NonePending(): (r: seq<Pending>)
    ensures |r| == MAX_PENDING && forall i :: 0 <= i < |r| ==> r[i] == NOTHING
  {
    seq(MAX_PENDING, _ => Pending(false, 0, false, ""))
  }

  /** The keys of the schema from i on. */
  ghost function Keys(schema: seq<Param>, i: nat): set<string>
  {
    set k | i <= k < |schema| :: Key(schema[k])
  }

  /** `to` with the keys in `ks` as `from` has them: present with the same value, or absent. */
  ghost function Copied(from: Store, to: Store, ks: set<string>): Store {
    map k | k in from.Keys + to.Keys && (if k in ks then k in from else k in to) :: if k in ks then from[k] else to[k]
  }

  function Written(m: Store, schema: seq<Param>, x: Pending): Store {
    if !x.inUse || x.index >= |schema| then m
    else if x.cleared then m - {Key(schema[x.index])}
    else m[Key(schema[x.index]) := x.value]
  }

  /** The pending changes from i on, written in slot order. */
  function WriteFrom(m: Store, schema: seq<Param>, pending: seq<Pending>, i: nat): Store
    requires i <= |pending|
    decreases |pending| - i
  {
    if i == |pending| then m else WriteFrom(Written(m, schema, pending[i]), schema, pending, i + 1)
  }

  /** `ax25_cfg_save`. */
  ghost function Save(c: Config): Config {
    c.(backup := Copied(c.primary, c.backup, Keys(c.schema, 0)),
        primary := WriteFrom(c.primary, c.schema, c.pending, 0),
       flag := true, pendingCommit := true, pending := NonePending())
  }

  /** `ax25_cfg_commit`. */
  function Commit(c: Config): Config { c.(flag := false, pendingCommit := false, timer := false) }

  /** `restore_backup_to_primary`. */
  ghost function Restore(c: Config): Config {
    c.(primary := Copied(c.backup, c.primary, Keys(c.schema, 0)), flag := false, pendingCommit := false)
  }

  /** `ax25_cfg_revert`. */
  ghost function Revert(c: Config): Config { Restore(c.(pending := NonePending(), timer := false)) }

  /** A restart: `ax25_cfg_init` on the same stores, which starts the rollback timer if the flag is set. */
  function Restart(c: Config): Config { c.(pending := NonePending(), pendingCommit := c.flag, timer := c.flag) }

  /** The rollback timer: restore, then restart. */
  ghost function Timeout(c: Config): Config { Restart(Restore(c)) }

  // ---- Runs ---------------------------------------------------------------------------------------------

  datatype Event = SetTo(name: string, value: Value) | ClearOf(name: string) | Saves | Commits | Reverts | Restarts
      | TimerFires

  ghost predicate Enabled(c: Config, e: Event) { e.TimerFires? ==> c.timer }

  ghost function Step(c: Config, e: Event): Config {
    match e
    case SetTo(name, v) => (var k := FindParam(c.schema, name, 0); if k < |c.schema| then Mark(c, k, false, v).0 else c)
    case ClearOf(name) => (var k := FindParam(c.schema, name, 0); if k < |c.schema| then Mark(c, k, true, "").0 else c)
    case Saves => Save(c)
    case Commits => Commit(c)
    case Reverts => Revert(c)
    case Restarts => Restart(c)
    case TimerFires => Timeout(c)
  }

  ghost predicate Inv(c: Config) {
    && Proper(c.schema) && |c.pending| == MAX_PENDING
    && (forall i :: 0 <= i < |c.pending| && c.pending[i].inUse ==> c.pending[i].index < |c.schema|)
    && (forall i, j :: 0 <= i < j < |c.pending| && c.pending[i].inUse && c.pending[j].inUse ==>
       c.pending[i].index != c.pending[j].index)
    && (c.pendingCommit == c.flag) && (c.timer ==> c.flag)
  }
}
