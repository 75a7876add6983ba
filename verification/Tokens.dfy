/** The token table: one row per token ever issued, with UNIQUE(token_hash). The hash is any function. */
module Tokens {
  import opened Wrappers
  import opened Text

  datatype Row = Row(hash: string, revoked: bool)

  type Table = seq<Row>

  type Hash = string -> string

  predicate HasHash(rows: Table, h: string) {
    exists i :: 0 <= i < |rows| && rows[i].hash == h
  }

  /** Some row is not revoked. */
  predicate HasActive(rows: Table) {
    exists i :: 0 <= i < |rows| && !rows[i].revoked
  }

  predicate Validate(hash: Hash, rows: Table, raw: string) {
    && TrimSpace(raw) != ""
    && exists i :: 0 <= i < |rows| && rows[i].hash == hash(TrimSpace(raw)) && !rows[i].revoked
  }

  /** Adds an active row, unless the uniqueness of the hash forbids it. */
  function AddRow(rows: Table, h: string): Option<Table> {
    if HasHash(rows, h) then None else Some(rows + [Row(h, false)])
  }

  /** Marks every row that is not revoked. */
  function RevokeAll(rows: Table): Table {
    seq(|rows|, i requires 0 <= i < |rows| => rows[i].(revoked := true))
  }

  /** The tables that an insert, a rotation and a whole EnsureToken leave when no database call fails; None
      if they are refused. */
  function Inserted(hash: Hash, rows: Table, raw: string): Option<Table> {
    if TrimSpace(raw) == "" then None else AddRow(rows, hash(TrimSpace(raw)))
  }

  function Rotated(hash: Hash, rows: Table, raw: string): Option<Table> {
    Inserted(hash, RevokeAll(rows), raw)
  }

  function Ensured(hash: Hash, rows: Table, raw: string): Option<Table> {
    if HasActive(rows) then Some(rows) else Inserted(hash, rows, raw)
  }

  // ---------- runs ----------

  /** `passed` are the EnsureToken calls in flight whose check found no active token, by their token. */
  datatype State = State(rows: Table, passed: multiset<string>)

  const EMPTY := State([], multiset{})

  /** The two database calls of EnsureToken, and RotateToken, which is one transaction. */
  datatype Op = Check(raw: string) | Insert(raw: string) | Rotate(raw: string)

  predicate Enabled(s: State, op: Op) {
    op.Insert? ==> op.raw in s.passed
  }

  /** One call; `fault` is whether it fails for a reason of the database's own. */
  function Apply(hash: Hash, s: State, op: Op, fault: bool): State
    requires Enabled(s, op)
  {
    match op
    case Check(raw) =>
      if fault || HasActive(s.rows) || TrimSpace(raw) == "" then s else s.(passed := s.passed + multiset{raw})
    case Insert(raw) =>
      var rows := if fault then None else Inserted(hash, s.rows, raw);
      State(if rows.Some? then rows.value else s.rows, s.passed - multiset{raw})
    case Rotate(raw) =>
      var rows := if fault then None else Rotated(hash, s.rows, raw);
      s.(rows := if rows.Some? then rows.value else s.rows)
  }

  function Run(hash: Hash, s: State, ops: seq<(Op, bool)>): Option<State>
    decreases |ops|
  {
    if ops == [] then Some(s)
    else if Enabled(s, ops[0].0) then Run(hash, Apply(hash, s, ops[0].0, ops[0].1), ops[1..])
    else None
  }

  ghost predicate Unique(rows: Table) {
    forall i, j :: 0 <= i < j < |rows| ==> rows[i].hash != rows[j].hash
  }

  ghost predicate AtMostOneActive(rows: Table) {
    forall i, j :: 0 <= i < j < |rows| ==> rows[i].revoked || rows[j].revoked
  }

  predicate IsRevoked(rows: Table, h: string) {
    exists i :: 0 <= i < |rows| && rows[i].hash == h && rows[i].revoked
  }

  lemma RevokeAllRows(rows: Table, h: string)
    ensures |RevokeAll(rows)| == |rows|
    ensures forall i :: 0 <= i < |rows| ==> RevokeAll(rows)[i] == Row(rows[i].hash, true)
    ensures HasHash(RevokeAll(rows), h) <==> HasHash(rows, h)
  {
    if HasHash(rows, h) {
      var i :| 0 <= i < |rows| && rows[i].hash == h;
      assert RevokeAll(rows)[i].hash == h;
    }
    if HasHash(RevokeAll(rows), h) {
      var i :| 0 <= i < |rows| && RevokeAll(rows)[i].hash == h;
      assert rows[i].hash == h;
    }
  }

  lemma StepKeeps(hash: Hash, s: State, op: Op, fault: bool)
    requires Enabled(s, op)
    ensures var t := Apply(hash, s, op, fault);
      && (Unique(s.rows) ==> Unique(t.rows)) && (HasActive(s.rows) ==> HasActive(t.rows))
      && (forall h :: IsRevoked(s.rows, h) ==> IsRevoked(t.rows, h))
  {
    var rows, t, h := s.rows, Apply(hash, s, op, fault).rows, hash(TrimSpace(op.raw));
    RevokeAllRows(rows, h);
    if t != rows {
      assert t[|rows|] == Row(h, false);
      forall x | IsRevoked(rows, x) ensures IsRevoked(t, x) {
        var i :| 0 <= i < |rows| && rows[i].hash == x && rows[i].revoked;
        assert t[i] == rows[i];
      }
    }
  }

  /** The insert of an EnsureToken goes through while a token is active. */
  predicate LateInsert(hash: Hash, s: State, op: Op, fault: bool) {
    op.Insert? && !fault && HasActive(s.rows) && Inserted(hash, s.rows, op.raw).Some?
  }

  /** A second active token comes from a late insert, and from nothing else. */
  lemma SecondActiveIff(hash: Hash, s: State, op: Op, fault: bool)
    requires Enabled(s, op) && AtMostOneActive(s.rows)
    ensures AtMostOneActive(Apply(hash, s, op, fault).rows) <==> !LateInsert(hash, s, op, fault)
  {
    var rows, t, h := s.rows, Apply(hash, s, op, fault).rows, hash(TrimSpace(op.raw));
    RevokeAllRows(rows, h);
    if t != rows {
      assert t[|rows|] == Row(h, false);
    }
    if LateInsert(hash, s, op, fault) {
      var i :| 0 <= i < |rows| && !rows[i].revoked;
      assert t[i] == rows[i] && |t| == |rows| + 1;
    }
  }

  ghost predicate NoLateInsert(hash: Hash, s: State, ops: seq<(Op, bool)>)
    decreases |ops|
  {
    ops != [] && Enabled(s, ops[0].0) ==>
      && !LateInsert(hash, s, ops[0].0, ops[0].1)
      && NoLateInsert(hash, Apply(hash, s, ops[0].0, ops[0].1), ops[1..])
  }

  /** In every state of the run at most one token is active. */
  ghost predicate AlwaysOneActive(hash: Hash, s: State, ops: seq<(Op, bool)>)
    decreases |ops|
  {
    && AtMostOneActive(s.rows)
    && (ops != [] && Enabled(s, ops[0].0) ==> AlwaysOneActive(hash, Apply(hash, s, ops[0].0, ops[0].1), ops[1..]))
  }

  /** Over a whole run, whatever fails: at most one token is active in every state if and only if no insert
      goes through while one is. */
  lemma {:induction false} OneActiveIff(hash: Hash, s: State, ops: seq<(Op, bool)>)
    requires AtMostOneActive(s.rows)
    ensures AlwaysOneActive(hash, s, ops) <==> NoLateInsert(hash, s, ops)
    decreases |ops|
  {
    hide AtMostOneActive, Apply, LateInsert, Enabled;
    if ops != [] && Enabled(s, ops[0].0) {
      var (op, fault) := ops[0];
      SecondActiveIff(hash, s, op, fault);
      if !LateInsert(hash, s, op, fault) {
        OneActiveIff(hash, Apply(hash, s, op, fault), ops[1..]);
      }
    }
  }

  /** Over any run, with any failures and overlaps: no hash is stored twice, once a token is active one
      always is, and a revoked row stays revoked. */
  lemma {:induction false} RunSound(hash: Hash, s: State, ops: seq<(Op, bool)>)
    requires Run(hash, s, ops).Some?
    ensures var t := Run(hash, s, ops).value;
      && (Unique(s.rows) ==> Unique(t.rows)) && (HasActive(s.rows) ==> HasActive(t.rows))
      && (forall h :: IsRevoked(s.rows, h) ==> IsRevoked(t.rows, h))
    decreases |ops|
  {
    hide Unique, HasActive, IsRevoked, Apply, Enabled;
    if ops != [] {
      StepKeeps(hash, s, ops[0].0, ops[0].1);
      RunSound(hash, Apply(hash, s, ops[0].0, ops[0].1), ops[1..]);
    }
  }

  /** A token that has been revoked is never valid again. */
  lemma RevokedForever(hash: Hash, s: State, ops: seq<(Op, bool)>, raw: string)
    requires Unique(s.rows) && IsRevoked(s.rows, hash(TrimSpace(raw))) && Run(hash, s, ops).Some?
    ensures !Validate(hash, Run(hash, s, ops).value.rows, raw)
  {
    RunSound(hash, s, ops);
    hide Run;
    var t, h := Run(hash, s, ops).value.rows, hash(TrimSpace(raw));
    var i :| 0 <= i < |t| && t[i].hash == h && t[i].revoked;
    forall j | 0 <= j < |t| && t[j].hash == h ensures t[j].revoked {
      assert j == i;
    }
  }

  /** The token is not blank and no row has its hash. */
  ghost predicate NeverIssued(hash: Hash, rows: Table, raw: string) {
    TrimSpace(raw) != "" && forall row :: row in rows ==> row.hash != hash(TrimSpace(raw))
  }

  lemma InsertedIff(hash: Hash, rows: Table, raw: string)
    ensures Inserted(hash, rows, raw).Some? <==> NeverIssued(hash, rows, raw)
    ensures Inserted(hash, rows, raw).Some? ==>
      Inserted(hash, rows, raw).value == rows + [Row(hash(TrimSpace(raw)), false)]
  {
    if !NeverIssued(hash, rows, raw) && TrimSpace(raw) != "" {
      var row :| row in rows && row.hash == hash(TrimSpace(raw));
      var i :| 0 <= i < |rows| && rows[i] == row;
      assert HasHash(rows, row.hash);
    }
  }

  lemma OnlyNewValid(hash: Hash, rows: Table, h: string, x: string)
    requires forall i :: 0 <= i < |rows| ==> rows[i].revoked
    ensures Validate(hash, rows + [Row(h, false)], x) <==> TrimSpace(x) != "" && hash(TrimSpace(x)) == h
  {
    assert (rows + [Row(h, false)])[|rows|] == Row(h, false);
  }

  /** A rotation goes through exactly when its token is not blank and was never issued before; then the
      valid tokens are exactly those that hash like the new one. */
  lemma RotateIff(hash: Hash, rows: Table, raw: string, x: string)
    ensures Rotated(hash, rows, raw).Some? <==> NeverIssued(hash, rows, raw)
    ensures Rotated(hash, rows, raw).Some? ==>
      var token := hash(TrimSpace(raw));
      Validate(hash, Rotated(hash, rows, raw).value, x) <==> TrimSpace(x) != "" && hash(TrimSpace(x)) == token
  {
    var h := hash(TrimSpace(raw));
    RevokeAllRows(rows, h);
    InsertedIff(hash, RevokeAll(rows), raw);
    assert NeverIssued(hash, RevokeAll(rows), raw) <==> NeverIssued(hash, rows, raw) by {
      assert forall i :: 0 <= i < |rows| ==> RevokeAll(rows)[i].hash == rows[i].hash;
    }
    OnlyNewValid(hash, RevokeAll(rows), h, x);
  }

  /** A whole EnsureToken goes through exactly when some token is active already, and then changes nothing, or
      its own is not blank and was never issued before, and then the valid tokens are those that hash like it. */
  lemma EnsureIff(hash: Hash, rows: Table, raw: string, x: string)
    ensures (exists row :: row in rows && !row.revoked) ==> Ensured(hash, rows, raw) == Some(rows)
    ensures (forall row :: row in rows ==> row.revoked) ==>
      && (Ensured(hash, rows, raw).Some? <==> NeverIssued(hash, rows, raw))
      && (Ensured(hash, rows, raw).Some? ==> var token := hash(TrimSpace(raw));
        Validate(hash, Ensured(hash, rows, raw).value, x) <==> TrimSpace(x) != "" && hash(TrimSpace(x)) == token)
  {
    InsertedIff(hash, rows, raw);
    if forall row :: row in rows ==> row.revoked {
      assert forall i :: 0 <= i < |rows| ==> rows[i] in rows;
      OnlyNewValid(hash, rows, hash(TrimSpace(raw)), x);
    }
    hide Validate, Inserted, TrimSpace;
  }

  /** What one database call does to the machine: a check that finds no active token puts its call in flight; an
      insert ends its call's flight; and a token that is not blank and was never issued is added by an insert,
      or by a rotation left as the only valid one, unless the call fails. Nothing else changes the table. */
  lemma StepIs(hash: Hash, s: State, op: Op, fault: bool, x: string)
    requires Enabled(s, op)
    ensures var t, h := Apply(hash, s, op, fault), hash(TrimSpace(op.raw));
      var goesThrough := !fault && NeverIssued(hash, s.rows, op.raw);
      && (op.Check? || !goesThrough ==> t.rows == s.rows)
      && (op.Insert? && goesThrough ==> t.rows == s.rows + [Row(h, false)])
      && (op.Rotate? && goesThrough ==> (Validate(hash, t.rows, x) <==> TrimSpace(x) != "" && hash(TrimSpace(x)) == h))
      && (op.Insert? ==> t.passed == s.passed - multiset{op.raw})
      && (op.Rotate? ==> t.passed == s.passed)
      && (op.Check? ==>
        var passes := !fault && TrimSpace(op.raw) != "" && forall row :: row in s.rows ==> row.revoked;
        t.passed == if passes then s.passed + multiset{op.raw} else s.passed)
  {
    InsertedIff(hash, s.rows, op.raw);
    RotateIff(hash, s.rows, op.raw, x);
    assert HasActive(s.rows) <==> exists row :: row in s.rows && !row.revoked by {
      assert forall i :: 0 <= i < |s.rows| ==> s.rows[i] in s.rows;
    }
    hide Validate, Inserted, Rotated, NeverIssued, HasActive, TrimSpace;
  }

  // ---------- overlapping calls ----------

  lemma RunNothing(hash: Hash, s: State)
    ensures Run(hash, s, []) == Some(s) && NoLateInsert(hash, s, [])
  {
  }

  lemma RunFirst(hash: Hash, s: State, op: Op, fault: bool, rest: seq<(Op, bool)>)
    requires Enabled(s, op)
    ensures Run(hash, s, [(op, fault)] + rest) == Run(hash, Apply(hash, s, op, fault), rest)
    ensures NoLateInsert(hash, s, [(op, fault)] + rest)
      <==> !LateInsert(hash, s, op, fault) && NoLateInsert(hash, Apply(hash, s, op, fault), rest)
  {
    hide Enabled, Apply, LateInsert;
    assert ([(op, fault)] + rest)[1..] == rest;
  }

  lemma {:induction false} RunConcat(hash: Hash, s: State, a: seq<(Op, bool)>, b: seq<(Op, bool)>)
    requires Run(hash, s, a).Some?
    ensures Run(hash, s, a + b) == Run(hash, Run(hash, s, a).value, b)
    ensures NoLateInsert(hash, s, a) && NoLateInsert(hash, Run(hash, s, a).value, b) ==> NoLateInsert(hash, s, a + b)
    decreases |a|
  {
    hide Enabled, Apply, LateInsert;
    if a == [] {
      assert a + b == b;
    } else {
      assert (a + b)[1..] == a[1..] + b;
      RunConcat(hash, Apply(hash, s, a[0].0, a[0].1), a[1..], b);
    }
  }

  lemma {:induction false} RunSplit(hash: Hash, s: State, ops: seq<(Op, bool)>, i: nat)
    requires i < |ops| && Run(hash, s, ops[..i + 1]).Some?
    ensures Run(hash, s, ops[..i]).Some? && Enabled(Run(hash, s, ops[..i]).value, ops[i].0)
    ensures Run(hash, s, ops[..i + 1]).value == Apply(hash, Run(hash, s, ops[..i]).value, ops[i].0, ops[i].1)
    decreases |ops|
  {
    hide Enabled, Apply;
    if i == 0 {
      assert ops[..1] == [ops[0]] && [ops[0]][1..] == [] && ops[..0] == [];
    } else {
      assert ops[..i + 1][1..] == ops[1..][..i] && ops[..i][1..] == ops[1..][..i - 1];
      RunSplit(hash, Apply(hash, s, ops[0].0, ops[0].1), ops[1..], i - 1);
    }
  }

  lemma PassedByCheck(hash: Hash, s: State, op: Op, fault: bool, raw: string)
    requires Enabled(s, op) && raw in Apply(hash, s, op, fault).passed && raw !in s.passed
    ensures op == Check(raw) && !fault && !HasActive(s.rows)
  {
    hide HasActive, Inserted, Rotated;
  }

  /** An insert can only follow a check of its own that passed, when no token was active: if one is active
      when it comes, it became so in between. */
  lemma {:induction false} InsertWasChecked(hash: Hash, ops: seq<(Op, bool)>, n: nat, raw: string) returns (j: nat)
    requires n <= |ops| && Run(hash, EMPTY, ops[..n]).Some? && raw in Run(hash, EMPTY, ops[..n]).value.passed
    ensures j < n && ops[j] == (Check(raw), false)
    ensures Run(hash, EMPTY, ops[..j]).Some? && !HasActive(Run(hash, EMPTY, ops[..j]).value.rows)
    ensures forall i :: j < i <= n ==>
      Run(hash, EMPTY, ops[..i]).Some? && raw in Run(hash, EMPTY, ops[..i]).value.passed
    decreases n
  {
    assert ops[..0] == [];
    assert n > 0;
    RunSplit(hash, EMPTY, ops, n - 1);
    var s := Run(hash, EMPTY, ops[..n - 1]).value;
    hide Run, Apply, Enabled, HasActive;
    j := n - 1;
    if raw in s.passed {
      j := InsertWasChecked(hash, ops, n - 1, raw);
    } else {
      PassedByCheck(hash, s, ops[n - 1].0, ops[n - 1].1, raw);
    }
  }

  function OverlapOps(a: string, b: string): seq<(Op, bool)> {
    [(Check(a), false)] + ([(Check(b), false)] + ([(Insert(a), false)] + ([(Insert(b), false)] + [])))
  }

  /** Two EnsureToken calls that overlap leave two active tokens, for any two tokens that hash differently. */
  lemma OverlapGivesTwo(hash: Hash, a: string, b: string)
    requires TrimSpace(a) != "" && TrimSpace(b) != "" && hash(TrimSpace(a)) != hash(TrimSpace(b))
    ensures Run(hash, EMPTY, OverlapOps(a, b)).Some?
    ensures Run(hash, EMPTY, OverlapOps(a, b)).value.rows
      == [Row(hash(TrimSpace(a)), false), Row(hash(TrimSpace(b)), false)]
    ensures !AtMostOneActive(Run(hash, EMPTY, OverlapOps(a, b)).value.rows)
  {
    var ha, hb := hash(TrimSpace(a)), hash(TrimSpace(b));
    var s1 := Apply(hash, EMPTY, Check(a), false);
    var s2 := Apply(hash, s1, Check(b), false);
    assert s2 == State([], multiset{a} + multiset{b});
    var s3 := Apply(hash, s2, Insert(a), false);
    assert s3 == State([] + [Row(ha, false)], multiset{b});
    var s4 := Apply(hash, s3, Insert(b), false);
    assert s4.rows == [Row(ha, false), Row(hb, false)];
    assert !s4.rows[0].revoked && !s4.rows[1].revoked;
    assert !AtMostOneActive(s4.rows);
    hide Apply, Run, NoLateInsert, AtMostOneActive;
    RunNothing(hash, s4);
    var c := [(Insert(b), false)] + [];
    RunFirst(hash, EMPTY, Check(a), false, [(Check(b), false)] + ([(Insert(a), false)] + c));
    RunFirst(hash, s1, Check(b), false, [(Insert(a), false)] + c);
    RunFirst(hash, s2, Insert(a), false, c);
    RunFirst(hash, s3, Insert(b), false, []);
  }

  // ---------- calls that do not overlap ----------

  /** Whole calls, with the faults of their database calls. */
  datatype Call = EnsureCall(raw: string, checkFails: bool, insertFails: bool) | RotateCall(raw: string, fails: bool)

  predicate Passes(rows: Table, call: Call) {
    call.EnsureCall? && !call.checkFails && !HasActive(rows) && TrimSpace(call.raw) != ""
  }

  function CallOps(rows: Table, call: Call): seq<(Op, bool)> {
    match call
    case RotateCall(raw, fails) => [(Rotate(raw), fails)] + []
    case EnsureCall(raw, checkFails, insertFails) =>
      [(Check(raw), checkFails)] + if Passes(rows, call) then [(Insert(raw), insertFails)] + [] else []
  }

  /** The rows after a whole call: what it makes of them if it goes through, and else what they were. */
  function CallRows(hash: Hash, rows: Table, call: Call): Table {
    var after := match call
      case RotateCall(raw, fails) => if fails then None else Rotated(hash, rows, raw)
      case EnsureCall(raw, checkFails, insertFails) =>
        if checkFails || insertFails then None else Ensured(hash, rows, raw);
    if after.Some? then after.value else rows
  }

  lemma WholeCall(hash: Hash, s: State, call: Call)
    ensures Run(hash, s, CallOps(s.rows, call)).Some? && NoLateInsert(hash, s, CallOps(s.rows, call))
    ensures var t := Run(hash, s, CallOps(s.rows, call)).value;
      && t.passed == s.passed
      && t.rows == CallRows(hash, s.rows, call)
  {
    hide HasActive, AddRow, Run, NoLateInsert;
    match call
    case RotateCall(raw, fails) =>
      RunFirst(hash, s, Rotate(raw), fails, []);
      RunNothing(hash, Apply(hash, s, Rotate(raw), fails));
    case EnsureCall(raw, checkFails, insertFails) =>
      var u := Apply(hash, s, Check(raw), checkFails);
      if Passes(s.rows, call) {
        var t := Apply(hash, u, Insert(raw), insertFails);
        assert u.passed - multiset{raw} == s.passed;
        RunFirst(hash, s, Check(raw), checkFails, [(Insert(raw), insertFails)] + []);
        RunFirst(hash, u, Insert(raw), insertFails, []);
        RunNothing(hash, t);
      } else {
        RunFirst(hash, s, Check(raw), checkFails, []);
        RunNothing(hash, u);
      }
  }

  function AllOps(hash: Hash, s: State, calls: seq<Call>): seq<(Op, bool)>
    decreases |calls|
  {
    if calls == [] then []
    else
      var ops := CallOps(s.rows, calls[0]);
      WholeCall(hash, s, calls[0]);
      ops + AllOps(hash, Run(hash, s, ops).value, calls[1..])
  }

  lemma {:induction false} WholeCallsAreNotLate(hash: Hash, s: State, calls: seq<Call>)
    ensures Run(hash, s, AllOps(hash, s, calls)).Some? && NoLateInsert(hash, s, AllOps(hash, s, calls))
    decreases |calls|
  {
    if calls != [] {
      WholeCall(hash, s, calls[0]);
      hide Run, NoLateInsert, CallOps;
      var ops := CallOps(s.rows, calls[0]);
      var t := Run(hash, s, ops).value;
      WholeCallsAreNotLate(hash, t, calls[1..]);
      RunConcat(hash, s, ops, AllOps(hash, t, calls[1..]));
    }
  }

  /** Calls of EnsureToken and RotateToken that do not overlap, from an empty table and whatever fails, keep
      at most one token active in every state. */
  lemma WholeCallsKeepOneActive(hash: Hash, calls: seq<Call>)
    ensures Run(hash, EMPTY, AllOps(hash, EMPTY, calls)).Some?
    ensures AlwaysOneActive(hash, EMPTY, AllOps(hash, EMPTY, calls))
  {
    WholeCallsAreNotLate(hash, EMPTY, calls);
    OneActiveIff(hash, EMPTY, AllOps(hash, EMPTY, calls));
  }
}
