/**
 * The boolean flag switch: a plain single-threaded flag `enabled` and an
 * atomic flag driven through get-and-set and compare-and-set, plus the
 * boolean-parameter query that picks a cache or a database prefix.
 *
 * The atomic operations are given their single-threaded meaning: every call
 * takes effect at once, in program order.
 */
module FlagSwitch {

  import opened Wrappers

  /** The observable state of a switch: the plain flag and the atomic flag. */
  datatype Snapshot = Snapshot(enabled: bool, atomicFlag: bool)

  /** The state a freshly constructed switch starts in. */
  const Initial: Snapshot := Snapshot(false, false)

  /** The operations that change a switch. */
  datatype Op =
    | Enable
    | Disable
    | Toggle
    | AtomicEnable
    | AtomicDisable
    | AtomicCompareAndSet(expected: bool, update: bool)

  predicate IsPlainOp(op: Op) {
    op.Enable? || op.Disable? || op.Toggle?
  }

  /** The get-and-set operations, the only unconditional writes of the atomic flag. */
  predicate IsAtomicWrite(op: Op) {
    op.AtomicEnable? || op.AtomicDisable?
  }

  /** The state after one operation: enable, disable and toggle set `enabled`
      to true, false and its negation and touch nothing else; an atomic
      operation touches only the atomic flag; get-and-set leaves the flag at
      the value it names; a compare-and-set that matches writes `update`, and
      one that misses changes nothing. */
  function Next(s: Snapshot, op: Op): (r: Snapshot)
    ensures op.Enable? ==> r.enabled
    ensures op.Disable? ==> !r.enabled
    ensures op.Toggle? ==> r.enabled == !s.enabled
    ensures IsPlainOp(op) ==> r.atomicFlag == s.atomicFlag
    ensures !IsPlainOp(op) ==> r.enabled == s.enabled
    ensures IsAtomicWrite(op) ==> (r.atomicFlag <==> op.AtomicEnable?)
    ensures op.AtomicCompareAndSet? && s.atomicFlag == op.expected ==> r.atomicFlag == op.update
    ensures op.AtomicCompareAndSet? && s.atomicFlag != op.expected ==> r == s
  {
    match op
    case Enable => s.(enabled := true)
    case Disable => s.(enabled := false)
    case Toggle => s.(enabled := !s.enabled)
    case AtomicEnable => s.(atomicFlag := true)
    case AtomicDisable => s.(atomicFlag := false)
    case AtomicCompareAndSet(expected, update) =>
      if s.atomicFlag == expected then s.(atomicFlag := update) else s
  }

  /** What one operation returns: nothing for the plain mutators, the previous
      value for get-and-set, and whether the write happened for compare-and-set. */
  function Reply(s: Snapshot, op: Op): (r: Option<bool>)
    ensures r.Some? <==> !IsPlainOp(op)
    ensures IsAtomicWrite(op) ==> r == Some(s.atomicFlag)
    ensures op.AtomicCompareAndSet? ==> (r == Some(true) <==> s.atomicFlag == op.expected)
    ensures op.AtomicCompareAndSet? && r == Some(false) ==> Next(s, op) == s
    ensures op.AtomicCompareAndSet? && r == Some(true) ==> Next(s, op).atomicFlag == op.update
  {
    match op
    case Enable => None
    case Disable => None
    case Toggle => None
    case AtomicEnable => Some(s.atomicFlag)
    case AtomicDisable => Some(s.atomicFlag)
    case AtomicCompareAndSet(expected, _) => Some(s.atomicFlag == expected)
  }

  /** The state after running a sequence of operations in order. */
  function Run(s: Snapshot, ops: seq<Op>): Snapshot
    decreases |ops|
  {
    if ops == [] then s else Run(Next(s, ops[0]), ops[1..])
  }

  /** The replies of a sequence of operations run in order. */
  function Replies(s: Snapshot, ops: seq<Op>): (rs: seq<Option<bool>>)
    ensures |rs| == |ops|
    decreases |ops|
  {
    if ops == [] then [] else [Reply(s, ops[0])] + Replies(Next(s, ops[0]), ops[1..])
  }

  function Repeat(op: Op, n: nat): (ops: seq<Op>)
    ensures |ops| == n
  {
    if n == 0 then [] else [op] + Repeat(op, n - 1)
  }

  /** How many replies report `true`. */
  function CountTrue(rs: seq<Option<bool>>): nat {
    if rs == [] then 0 else (if rs[0] == Some(true) then 1 else 0) + CountTrue(rs[1..])
  }

  /** The plain switch field and the atomic switch field of one object. */
  class BooleanFlagSwitch {
    var enabled: bool
    var atomicFlag: bool

    function State(): Snapshot
      reads this
    {
      Snapshot(enabled, atomicFlag)
    }

    constructor ()
      ensures State() == Initial
      ensures !enabled && !atomicFlag
    {
      enabled := false;
      atomicFlag := false;
    }

    method Enable()
      modifies this
      ensures enabled && atomicFlag == old(atomicFlag)
      ensures State() == Next(old(State()), Op.Enable)
    {
      enabled := true;
    }

    method Disable()
      modifies this
      ensures !enabled && atomicFlag == old(atomicFlag)
      ensures State() == Next(old(State()), Op.Disable)
    {
      enabled := false;
    }

    method Toggle()
      modifies this
      ensures enabled == !old(enabled) && atomicFlag == old(atomicFlag)
      ensures State() == Next(old(State()), Op.Toggle)
    {
      enabled := !enabled;
    }

    method IsEnabled() returns (b: bool)
      ensures b <==> enabled
    {
      b := enabled;
    }

    /** Get-and-set to true: returns the value held before the call. */
    method AtomicEnable() returns (previous: bool)
      modifies this
      ensures previous == old(atomicFlag)
      ensures atomicFlag && enabled == old(enabled)
      ensures State() == Next(old(State()), Op.AtomicEnable)
      ensures Some(previous) == Reply(old(State()), Op.AtomicEnable)
    {
      previous := atomicFlag;
      atomicFlag := true;
    }

    /** Get-and-set to false: returns the value held before the call. */
    method AtomicDisable() returns (previous: bool)
      modifies this
      ensures previous == old(atomicFlag)
      ensures !atomicFlag && enabled == old(enabled)
      ensures State() == Next(old(State()), Op.AtomicDisable)
      ensures Some(previous) == Reply(old(State()), Op.AtomicDisable)
    {
      previous := atomicFlag;
      atomicFlag := false;
    }

    /** Writes `update` only when the flag equals `expected`; reports whether it did. */
    method AtomicCompareAndSet(expected: bool, update: bool) returns (swapped: bool)
      modifies this
      ensures swapped <==> old(atomicFlag) == expected
      ensures atomicFlag == (if swapped then update else old(atomicFlag))
      ensures enabled == old(enabled)
      ensures State() == Next(old(State()), Op.AtomicCompareAndSet(expected, update))
      ensures Some(swapped) == Reply(old(State()), Op.AtomicCompareAndSet(expected, update))
    {
      swapped := atomicFlag == expected;
      if swapped {
        atomicFlag := update;
      }
    }

    method IsAtomicEnabled() returns (b: bool)
      ensures b <==> atomicFlag
    {
      b := atomicFlag;
    }
  }

  const CachePrefix: string := "cached_"
  const DatabasePrefix: string := "db_"

  /** The result of a lookup of `key`: from the cache when `useCache` holds,
      otherwise from the database, told apart by its prefix. */
  function Query(key: string, useCache: bool): (r: string)
    ensures |r| >= |key| && r[|r| - |key|..] == key
  {
    if useCache then CachePrefix + key else DatabasePrefix + key
  }

  /** Reads back where a query result came from and for which key. */
  function QueriedFrom(r: string): Option<(bool, string)> {
    if |r| >= |CachePrefix| && r[..|CachePrefix|] == CachePrefix then
      Some((true, r[|CachePrefix|..]))
    else if |r| >= |DatabasePrefix| && r[..|DatabasePrefix|] == DatabasePrefix then
      Some((false, r[|DatabasePrefix|..]))
    else
      None
  }

  /** A query result determines both the key and whether the cache was used. */
  lemma QueryRoundTrip(key: string, useCache: bool)
    ensures QueriedFrom(Query(key, useCache)) == Some((useCache, key))
  {
    var r := Query(key, useCache);
    if useCache {
      assert r[..|CachePrefix|] == CachePrefix;
      assert r[|CachePrefix|..] == key;
    } else {
      assert r[0] == 'd';
      assert r[..|DatabasePrefix|] == DatabasePrefix;
      assert r[|DatabasePrefix|..] == key;
    }
  }

  /** Two toggles restore the plain flag; the atomic flag is never touched. */
  lemma ToggleTwice(s: Snapshot)
    ensures Run(s, [Toggle, Toggle]) == s
  {
    assert [Toggle, Toggle][1..] == [Toggle];
  }

  /** After n toggles the plain flag is flipped exactly when n is odd. */
  lemma {:induction false} ToggleParity(s: Snapshot, n: nat)
    ensures Run(s, Repeat(Toggle, n)) == s.(enabled := s.enabled != (n % 2 == 1))
    decreases n
  {
    if n > 0 {
      var ops := Repeat(Toggle, n);
      assert ops[1..] == Repeat(Toggle, n - 1);
      ToggleParity(Next(s, Toggle), n - 1);
    }
  }

  /** Get-and-set to true twice: the second call returns true and changes nothing. */
  lemma AtomicEnableTwice(s: Snapshot)
    ensures Replies(s, [AtomicEnable, AtomicEnable]) == [Some(s.atomicFlag), Some(true)]
    ensures Run(s, [AtomicEnable, AtomicEnable]) == s.(atomicFlag := true)
  {
    assert [AtomicEnable, AtomicEnable][1..] == [AtomicEnable];
  }

  /** Operations on the plain flag never change the atomic flag. */
  lemma {:induction false} PlainOpsKeepAtomicFlag(s: Snapshot, ops: seq<Op>)
    requires forall i :: 0 <= i < |ops| ==> IsPlainOp(ops[i])
    ensures Run(s, ops).atomicFlag == s.atomicFlag
    decreases |ops|
  {
    if ops != [] {
      assert IsPlainOp(ops[0]);
      PlainOpsKeepAtomicFlag(Next(s, ops[0]), ops[1..]);
    }
  }

  /** Operations on the atomic flag never change the plain flag. */
  lemma {:induction false} AtomicOpsKeepEnabled(s: Snapshot, ops: seq<Op>)
    requires forall i :: 0 <= i < |ops| ==> !IsPlainOp(ops[i])
    ensures Run(s, ops).enabled == s.enabled
    decreases |ops|
  {
    if ops != [] {
      assert !IsPlainOp(ops[0]);
      AtomicOpsKeepEnabled(Next(s, ops[0]), ops[1..]);
    }
  }

  /** After a run of get-and-set calls the atomic flag holds whatever the last
      one wrote, whatever it held before. */
  lemma {:induction false} LastAtomicWriteWins(s: Snapshot, ops: seq<Op>)
    requires ops != []
    requires forall i :: 0 <= i < |ops| ==> IsAtomicWrite(ops[i])
    ensures Run(s, ops).atomicFlag <==> ops[|ops| - 1] == AtomicEnable
    decreases |ops|
  {
    assert IsAtomicWrite(ops[0]);
    if |ops| > 1 {
      LastAtomicWriteWins(Next(s, ops[0]), ops[1..]);
    }
  }

  /** Of any number of compare-and-set(false, true) calls, at most one succeeds,
      and exactly one does when the flag starts false. */
  lemma {:induction false} CompareAndSetClaimsOnce(s: Snapshot, n: nat)
    ensures CountTrue(Replies(s, Repeat(AtomicCompareAndSet(false, true), n))) ==
            if n > 0 && !s.atomicFlag then 1 else 0
    ensures Run(s, Repeat(AtomicCompareAndSet(false, true), n)).atomicFlag == (s.atomicFlag || n > 0)
    decreases n
  {
    if n > 0 {
      var cas := AtomicCompareAndSet(false, true);
      var ops := Repeat(cas, n);
      var t := Next(s, cas);
      assert ops[1..] == Repeat(cas, n - 1);
      CompareAndSetClaimsOnce(t, n - 1);
      var rs := Replies(s, ops);
      assert rs[1..] == Replies(t, Repeat(cas, n - 1));
      if n > 1 {
        assert CountTrue(rs[1..]) == 0;
      }
    }
  }

  /** The demonstration in the switch's main routine: a fresh switch, then
      enable, then toggle, with the plain flag observed after each step;
      then get-and-set and compare-and-set on the atomic flag; then the two
      queries. */
  method DemoScenario()
    returns (onInitially: bool, onAfterEnable: bool, onAfterToggle: bool, initialAtomic: bool,
             previous: bool, afterEnable: bool, swapped: bool, afterSwap: bool,
             cached: string, fromDatabase: string)
    ensures !onInitially && onAfterEnable && !onAfterToggle
    ensures !initialAtomic && !previous && afterEnable
    ensures swapped && !afterSwap
    ensures cached == "cached_user:1" && fromDatabase == "db_user:1"
  {
    var demo := new BooleanFlagSwitch();
    onInitially := demo.IsEnabled();
    demo.Enable();
    onAfterEnable := demo.IsEnabled();
    demo.Toggle();
    onAfterToggle := demo.IsEnabled();
    initialAtomic := demo.IsAtomicEnabled();
    previous := demo.AtomicEnable();
    afterEnable := demo.IsAtomicEnabled();
    swapped := demo.AtomicCompareAndSet(true, false);
    afterSwap := demo.IsAtomicEnabled();
    cached := Query("user:1", true);
    assert cached == CachePrefix + "user:1" == "cached_user:1";
    fromDatabase := Query("user:1", false);
    assert fromDatabase == DatabasePrefix + "user:1" == "db_user:1";
  }
}
